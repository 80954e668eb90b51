/** The CERFA form builders of the régime réel simplifié: each form is a projection of a
    fiscal summary onto the lines of one form, and the liasse gathers the eight forms
    under their form numbers. Amounts stay exact (no conversion to floating point). */
module Cerfa {
  import opened Money
  import opened Optional
  import opened Depreciation
  import opened Accounting

  /** The identification data of the property. Each key may be missing (it then reads as
      its default) or hold `None` (which the forms then carry as it is). */
  datatype PropertyData = PropertyData(
    name: Entry<string>,
    address: Entry<string>,
    siret: Entry<string>,
    ownerName: Entry<string>)

  /** One line of form 2033-C: an asset component. */
  datatype FixedAssetLine = FixedAssetLine(
    designation: string,
    valeurBruteDebut: real,
    acquisitions: real,
    cessions: real,
    valeurBruteFin: real,
    amortDebut: real,
    dotationExercice: real,
    amortFin: real)

  /** One partner of form 2033-F. */
  datatype Partner = Partner(nom: Option<string>, quotePart: real, montant: real)

  /** The eight forms; `formId` is the form's own "form" entry. The lists of forms 2033-D and
      2033-G are always empty, so their elements are left as plain amounts. */
  datatype Form =
    | Form2031(
        formId: string, year: int,
        raisonSociale: Option<string>, adresse: Option<string>, siret: Option<string>, regime: string,
        totalProduits: real, totalCharges: real, dotationsAmortissements: real,
        resultatComptable: real, benefice: real, deficit: real,
        membreCga: bool, optionTva: bool)
    | Form2033A(
        formId: string, year: int,
        immobilisationsBrutes: real, amortissementsCumules: real, immobilisationsNettes: real,
        disponibilites: real, totalActif: real,
        capitauxPropres: real, totalPassif: real)
    | Form2033B(
        formId: string, year: int,
        prestationsServices: real, totalProduitsExploitation: real,
        chargesExternes: real, dotationsAmortissements: real, totalChargesExploitation: real,
        resultatExploitation: real, resultatNet: real)
    | Form2033C(formId: string, year: int, lines: seq<FixedAssetLine>, totalDotations: real)
    | Form2033D(
        formId: string, year: int,
        provisions: seq<real>, amortDerogatoires: seq<real>,
        totalProvisions: real, totalRepriseProvisions: real)
    | Form2033E(formId: string, year: int, production: real, consommationsExternes: real, valeurAjoutee: real)
    | Form2033F(formId: string, year: int, associes: seq<Partner>)
    | Form2033G(formId: string, year: int, participations: seq<real>)

  const RegimeReelSimplifie: string := "R\U{00E9}el simplifi\U{00E9}"
  const DefaultOwner: string := "Propri\U{00E9}taire"

  /** Form 2031: the declared totals and the result, split into a profit and a deficit line. */
  function Build2031(summary: FiscalSummary, property: PropertyData): (f: Form)
    ensures f.Form2031? && f.formId == "2031" && f.year == summary.year
    ensures f.raisonSociale == property.name.Get("")
    ensures f.adresse == property.address.Get("") && f.siret == property.siret.Get("")
    ensures f.regime == RegimeReelSimplifie
    ensures f.totalProduits == summary.totalRevenue && f.totalCharges == summary.totalExpenses
    ensures f.dotationsAmortissements == summary.totalDepreciationDeductible
    ensures f.resultatComptable == summary.fiscalResult
    ensures f.benefice >= 0.0 && f.deficit >= 0.0
    ensures f.benefice == 0.0 || f.deficit == 0.0
    ensures f.benefice - f.deficit == f.resultatComptable
    ensures f.benefice > 0.0 <==> summary.fiscalResult > 0.0
    ensures f.deficit > 0.0 <==> summary.fiscalResult < 0.0
  {
    Form2031(
      "2031", summary.year,
      property.name.Get(""), property.address.Get(""), property.siret.Get(""), RegimeReelSimplifie,
      summary.totalRevenue, summary.totalExpenses, summary.totalDepreciationDeductible,
      summary.fiscalResult, Max(0.0, summary.fiscalResult), Max(0.0, -summary.fiscalResult),
      false, false)
  }

  /** Form 2033-A: the simplified balance sheet, copied from the summary. */
  function Build2033A(summary: FiscalSummary): (f: Form)
    ensures f.Form2033A? && f.formId == "2033-A" && f.year == summary.year
    ensures f.immobilisationsBrutes == summary.assetGross
    ensures f.amortissementsCumules == summary.assetDepreciationCumul
    ensures f.immobilisationsNettes == summary.assetNet
    ensures f.disponibilites == summary.cash && f.totalActif == summary.totalAssets
    ensures f.capitauxPropres == summary.equity && f.totalPassif == summary.totalLiabilitiesEquity
  {
    Form2033A(
      "2033-A", summary.year,
      summary.assetGross, summary.assetDepreciationCumul, summary.assetNet,
      summary.cash, summary.totalAssets,
      summary.equity, summary.totalLiabilitiesEquity)
  }

  /** Form 2033-B: the simplified income statement. */
  function Build2033B(summary: FiscalSummary): (f: Form)
    ensures f.Form2033B? && f.formId == "2033-B" && f.year == summary.year
    ensures f.prestationsServices == f.totalProduitsExploitation == summary.totalRevenue
    ensures f.chargesExternes == summary.totalExpenses
    ensures f.dotationsAmortissements == summary.totalDepreciationDeductible
    ensures f.totalChargesExploitation == f.chargesExternes + f.dotationsAmortissements
    ensures f.resultatExploitation == f.resultatNet == summary.fiscalResult
  {
    Form2033B(
      "2033-B", summary.year,
      summary.totalRevenue, summary.totalRevenue,
      summary.totalExpenses, summary.totalDepreciationDeductible,
      summary.totalExpenses + summary.totalDepreciationDeductible,
      summary.fiscalResult, summary.fiscalResult)
  }

  /** The line of one depreciation detail. The gross value is read from the detail's
      "value" entry with default 0, and the engine's details carry no such entry, so it
      is 0 at both ends of the year. */
  function AssetLine(d: DepreciationDetail): (l: FixedAssetLine)
    ensures l.designation == d.componentLabel
    ensures l.dotationExercice == l.amortFin == d.deductibleAmount
    ensures l.valeurBruteDebut == l.valeurBruteFin == 0.0
    ensures l.acquisitions == l.cessions == l.amortDebut == 0.0
  {
    FixedAssetLine(d.componentLabel, 0.0, 0.0, 0.0, 0.0, 0.0, d.deductibleAmount, d.deductibleAmount)
  }

  /** One line per detail, in the details' order. */
  function AssetLines(details: seq<DepreciationDetail>): (ls: seq<FixedAssetLine>)
    ensures |ls| == |details|
    ensures forall i :: 0 <= i < |details| ==> ls[i] == AssetLine(details[i])
  {
    seq(|details|, i requires 0 <= i < |details| => AssetLine(details[i]))
  }

  /** Form 2033-C: the fixed assets and the year's depreciation. */
  function Build2033C(summary: FiscalSummary, details: seq<DepreciationDetail>, property: PropertyData): (f: Form)
    ensures f.Form2033C? && f.formId == "2033-C" && f.year == summary.year
    ensures f.lines == AssetLines(details)
    ensures f.totalDotations == summary.totalDepreciationDeductible
  {
    Form2033C("2033-C", summary.year, AssetLines(details), summary.totalDepreciationDeductible)
  }

  /** Form 2033-D: no provision and no exceptional depreciation. */
  function Build2033D(summary: FiscalSummary): (f: Form)
    ensures f.Form2033D? && f.formId == "2033-D" && f.year == summary.year
    ensures f.provisions == [] && f.amortDerogatoires == []
    ensures f.totalProvisions == 0.0 && f.totalRepriseProvisions == 0.0
  {
    Form2033D("2033-D", summary.year, [], [], 0.0, 0.0)
  }

  /** Form 2033-E: the value added is the revenue minus the external expenses. */
  function Build2033E(summary: FiscalSummary): (f: Form)
    ensures f.Form2033E? && f.formId == "2033-E" && f.year == summary.year
    ensures f.production == summary.totalRevenue && f.consommationsExternes == summary.totalExpenses
    ensures f.valeurAjoutee == f.production - f.consommationsExternes
  {
    Form2033E("2033-E", summary.year, summary.totalRevenue, summary.totalExpenses,
      summary.totalRevenue - summary.totalExpenses)
  }

  /** Form 2033-F: the owner holds the whole equity. */
  function Build2033F(summary: FiscalSummary, property: PropertyData): (f: Form)
    ensures f.Form2033F? && f.formId == "2033-F" && f.year == summary.year
    ensures |f.associes| == 1
    ensures f.associes[0].nom == property.ownerName.Get(DefaultOwner)
    ensures f.associes[0].quotePart == 100.0 && f.associes[0].montant == summary.equity
  {
    Form2033F("2033-F", summary.year, [Partner(property.ownerName.Get(DefaultOwner), 100.0, summary.equity)])
  }

  /** Form 2033-G: no subsidiary. */
  function Build2033G(summary: FiscalSummary): (f: Form)
    ensures f.Form2033G? && f.formId == "2033-G" && f.year == summary.year
    ensures f.participations == []
  {
    Form2033G("2033-G", summary.year, [])
  }

  /** The form numbers of the liasse. */
  const FormIds: set<string> := {"2031", "2033-A", "2033-B", "2033-C", "2033-D", "2033-E", "2033-F", "2033-G"}

  /** The complete liasse, keyed by form number. */
  function FullLiasse(summary: FiscalSummary, property: PropertyData, details: seq<DepreciationDetail>): (m: map<string, Form>)
    ensures m.Keys == FormIds
    ensures forall k :: k in m ==> m[k].formId == k && m[k].year == summary.year
  {
    map[
      "2031" := Build2031(summary, property),
      "2033-A" := Build2033A(summary),
      "2033-B" := Build2033B(summary),
      "2033-C" := Build2033C(summary, details, property),
      "2033-D" := Build2033D(summary),
      "2033-E" := Build2033E(summary),
      "2033-F" := Build2033F(summary, property),
      "2033-G" := Build2033G(summary)]
  }

  // ---------------------------------------------------------------------------
  // Properties
  // ---------------------------------------------------------------------------

  /** The forms of one liasse agree with each other: the result, the depreciation and the
      revenue appear with the same amount on every form that carries them. */
  lemma LiasseCrossChecks(summary: FiscalSummary, property: PropertyData, details: seq<DepreciationDetail>)
    ensures var m := FullLiasse(summary, property, details);
      && m["2033-B"].resultatNet == m["2033-B"].resultatExploitation == m["2031"].resultatComptable
      && m["2033-B"].dotationsAmortissements == m["2031"].dotationsAmortissements == m["2033-C"].totalDotations
      && m["2033-B"].totalProduitsExploitation == m["2033-E"].production == m["2031"].totalProduits
      && m["2033-B"].chargesExternes == m["2033-E"].consommationsExternes == m["2031"].totalCharges
      && m["2033-F"].associes[0].montant == m["2033-A"].capitauxPropres
  {
  }

  /** For a summary computed from its inputs, the declared totals of form 2031 add up to
      its result: products minus charges minus depreciation. */
  lemma Form2031AddsUp(
    propertyId: int, year: int, revenues: seq<RevenueRecord>, expenses: seq<ExpenseRecord>,
    depreciation: DepreciationResult, propertyGrossValue: real, previousDepreciationCumul: real, property: PropertyData)
    ensures var f := Build2031(ComputeFiscalSummary(propertyId, year, revenues, expenses, depreciation, propertyGrossValue, previousDepreciationCumul), property);
      f.totalProduits - f.totalCharges - f.dotationsAmortissements == f.resultatComptable
  {
    SummaryResults(propertyId, year, revenues, expenses, depreciation, propertyGrossValue, previousDepreciationCumul);
  }

  /** For a computed summary, the income statement of form 2033-B adds up. */
  lemma Form2033BAddsUp(
    propertyId: int, year: int, revenues: seq<RevenueRecord>, expenses: seq<ExpenseRecord>,
    depreciation: DepreciationResult, propertyGrossValue: real, previousDepreciationCumul: real)
    ensures var f := Build2033B(ComputeFiscalSummary(propertyId, year, revenues, expenses, depreciation, propertyGrossValue, previousDepreciationCumul));
      f.totalProduitsExploitation - f.totalChargesExploitation == f.resultatExploitation
  {
    SummaryResults(propertyId, year, revenues, expenses, depreciation, propertyGrossValue, previousDepreciationCumul);
  }

  /** For a computed summary, the balance sheet of form 2033-A: the net assets are the gross
      value less the cumulated depreciation, the assets are the net assets plus cash, and
      the sheet is off balance by the year's result less the earlier cumulated depreciation. */
  lemma Form2033ABalance(
    propertyId: int, year: int, revenues: seq<RevenueRecord>, expenses: seq<ExpenseRecord>,
    depreciation: DepreciationResult, propertyGrossValue: real, previousDepreciationCumul: real)
    ensures var s := ComputeFiscalSummary(propertyId, year, revenues, expenses, depreciation, propertyGrossValue, previousDepreciationCumul);
      var f := Build2033A(s);
      && f.immobilisationsNettes == f.immobilisationsBrutes - f.amortissementsCumules
      && f.totalActif == f.immobilisationsNettes + f.disponibilites
      && f.capitauxPropres == f.totalPassif == propertyGrossValue
      && f.totalActif - f.totalPassif == s.fiscalResult - previousDepreciationCumul
  {
    SummaryBalanceSheet(propertyId, year, revenues, expenses, depreciation, propertyGrossValue, previousDepreciationCumul);
  }

  /** For a computed summary, the value added of form 2033-E is the result before depreciation. */
  lemma Form2033EValueAdded(
    propertyId: int, year: int, revenues: seq<RevenueRecord>, expenses: seq<ExpenseRecord>,
    depreciation: DepreciationResult, propertyGrossValue: real, previousDepreciationCumul: real)
    ensures var s := ComputeFiscalSummary(propertyId, year, revenues, expenses, depreciation, propertyGrossValue, previousDepreciationCumul);
      Build2033E(s).valeurAjoutee == s.resultBeforeDepreciation
  {
    SummaryResults(propertyId, year, revenues, expenses, depreciation, propertyGrossValue, previousDepreciationCumul);
  }

  /** The year's depreciation of each line of form 2033-C. */
  function LineDotations(lines: seq<FixedAssetLine>): (xs: seq<real>)
    ensures |xs| == |lines|
    ensures forall i :: 0 <= i < |lines| ==> xs[i] == lines[i].dotationExercice
  {
    seq(|lines|, i requires 0 <= i < |lines| => lines[i].dotationExercice)
  }

  lemma AssetLinesDotations(details: seq<DepreciationDetail>)
    ensures LineDotations(AssetLines(details)) == DeductedAmounts(details)
  {
  }

  /** The lines of form 2033-C, built from the engine's details, add up to the form's total
      or to the year's annual amounts, whichever is smaller: the part of the total that
      comes from an earlier carry-over appears on no line. */
  lemma Form2033CLines(
    cs: seq<ComponentInput>, resultBeforeDepreciation: real, previousCarriedOver: real,
    propertyId: int, year: int, revenues: seq<RevenueRecord>, expenses: seq<ExpenseRecord>,
    propertyGrossValue: real, previousDepreciationCumul: real, property: PropertyData)
    requires NonNegativeAmounts(cs) && previousCarriedOver >= 0.0
    ensures var dep := DeductibleDepreciation(cs, resultBeforeDepreciation, previousCarriedOver);
      var f := Build2033C(ComputeFiscalSummary(propertyId, year, revenues, expenses, dep, propertyGrossValue, previousDepreciationCumul), dep.details, property);
      Sum(LineDotations(f.lines)) == Min(dep.totalAnnual, f.totalDotations)
  {
    var dep := DeductibleDepreciation(cs, resultBeforeDepreciation, previousCarriedOver);
    AssetLinesDotations(dep.details);
    DeductedByDetails(cs, resultBeforeDepreciation, previousCarriedOver);
  }

  /** Without an earlier carry-over, the lines of form 2033-C add up to its total. */
  lemma Form2033CTotal(
    cs: seq<ComponentInput>, resultBeforeDepreciation: real,
    propertyId: int, year: int, revenues: seq<RevenueRecord>, expenses: seq<ExpenseRecord>,
    propertyGrossValue: real, previousDepreciationCumul: real, property: PropertyData)
    requires NonNegativeAmounts(cs)
    ensures var dep := DeductibleDepreciation(cs, resultBeforeDepreciation, 0.0);
      var f := Build2033C(ComputeFiscalSummary(propertyId, year, revenues, expenses, dep, propertyGrossValue, previousDepreciationCumul), dep.details, property);
      Sum(LineDotations(f.lines)) == f.totalDotations
  {
    Form2033CLines(cs, resultBeforeDepreciation, 0.0, propertyId, year, revenues, expenses,
      propertyGrossValue, previousDepreciationCumul, property);
    DeductibleTotals(cs, resultBeforeDepreciation, 0.0);
  }
}
