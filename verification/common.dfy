/** Shared value wrappers: a missing JSON field, a missing row, a null column. */
module Common {

  datatype Option<+T> = None | Some(value: T) {

    /** The wrapped value, or `default` when there is none. */
    function GetOr(default: T): T
    {
      match this
      case Some(v) => v
      case None => default
    }
  }

  /** Truthiness of an optional string, in Python and JavaScript alike:
      present and not empty. */
  predicate Truthy(f: Option<string>)
  {
    f.Some? && f.value != ""
  }

  /** `a || b || … || fallback` over optional strings: the first truthy
      candidate, or `fallback` when none is. */
  function FirstTruthy(cands: seq<Option<string>>, fallback: string): (s: string)
    ensures forall i :: (0 <= i < |cands| && Truthy(cands[i]) && (forall j :: 0 <= j < i ==> !Truthy(cands[j])))
                      ==> s == cands[i].value
    ensures (forall i :: 0 <= i < |cands| ==> !Truthy(cands[i])) ==> s == fallback
    ensures fallback != "" ==> s != ""
  {
    if cands == [] then fallback
    else if Truthy(cands[0]) then cands[0].value
    else
      var rest := FirstTruthy(cands[1..], fallback);
      assert forall i :: 0 < i < |cands| ==> cands[i] == cands[1..][i - 1];
      rest
  }

  /** A native alert dialog: its title and its message. */
  datatype Alert = Alert(title: string, message: string)
}
