/** The optional value used throughout the model for JavaScript's `null`,
    `undefined` and absent properties. */
module Options {

  datatype Option<+T> = None | Some(value: T) {

    /** The value held, or `default` when there is none. */
    function GetOr(default: T): T
    {
      match this
      case Some(v) => v
      case None => default
    }
  }

  /** `s || undefined` (or `s || null`) on a string: the empty string, which
      JavaScript treats as false, becomes absent; any other string is kept. */
  function OrAbsent(s: string): (r: Option<string>)
    ensures r.None? <==> s == ""
    ensures r.Some? ==> r.value == s
  {
    if s == "" then None else Some(s)
  }

  /** The same on a string that may already be absent. */
  function OptOrAbsent(o: Option<string>): (r: Option<string>)
    ensures r.Some? <==> o.Some? && o.value != ""
    ensures r.Some? ==> r == o
  {
    if o.Some? then OrAbsent(o.value) else None
  }
}
