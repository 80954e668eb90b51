/** An optional dictionary entry: Python's `d.get(key, default)` on a key that may be absent. */
module Optional {
  datatype Option<T> = None | Some(value: T) {
    /** The entry's value when present, `default` otherwise. */
    function GetOr(default: T): (r: T)
      ensures this.Some? ==> r == this.value
      ensures this.None? ==> r == default
    {
      match this
      case Some(v) => v
      case None => default
    }
  }

  /** A dictionary key that may be missing, present with the value `None`, or present
      with a value: the three cases `d.get(key, default)` tells apart. */
  datatype Entry<T> = Absent | Null | Present(value: T) {
    /** `d.get(key, default)`: the default for a missing key, `None` for a key holding
        `None`, the value otherwise. */
    function Get(default: T): (r: Option<T>)
      ensures r.None? <==> this.Null?
      ensures this.Absent? ==> r == Some(default)
      ensures this.Present? ==> r == Some(this.value)
    {
      match this
      case Absent => Some(default)
      case Null => None
      case Present(v) => Some(v)
    }
  }

  /** A nullable stored value placed under a key: `None` stays `None`. */
  function Stored<T>(o: Option<T>): (e: Entry<T>)
    ensures e.Null? <==> o.None?
    ensures o.Some? ==> e == Present(o.value)
  {
    match o
    case None => Null
    case Some(v) => Present(v)
  }
}
