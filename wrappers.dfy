/** Optional values, as Swift's `T?` with its `??` coalescing operator. */
module Wrappers {

  datatype Option<+T> = None | Some(value: T) {

    /** Swift's `this ?? other` where both sides are optional: the first present value. */
    function OrElse(other: Option<T>): (r: Option<T>)
    {
      if Some? then this else other
    }
  }

  /** The first present value of an ordered list of alternatives, or None when all are absent. */
  function FirstPresent<T>(alternatives: seq<Option<T>>): (r: Option<T>)
    ensures r.None? <==> forall i :: 0 <= i < |alternatives| ==> alternatives[i].None?
  {
    if alternatives == [] then None
    else alternatives[0].OrElse(FirstPresent(alternatives[1..]))
  }

  /** A present result is the first present alternative: every alternative before it is absent. */
  lemma {:induction false} FirstPresentIsFirst<T>(alternatives: seq<Option<T>>)
    requires FirstPresent(alternatives).Some?
    ensures exists i :: 0 <= i < |alternatives| && alternatives[i] == FirstPresent(alternatives)
                        && forall j :: 0 <= j < i ==> alternatives[j].None?
  {
    if alternatives[0].None? {
      var rest := alternatives[1..];
      FirstPresentIsFirst(rest);
      var i :| 0 <= i < |rest| && rest[i] == FirstPresent(rest)
               && forall j :: 0 <= j < i ==> rest[j].None?;
      assert alternatives[i + 1] == rest[i];
      assert forall j :: 0 <= j < i + 1 ==> alternatives[j].None? by {
        forall j | 0 <= j < i + 1 ensures alternatives[j].None? {
          if j > 0 { assert alternatives[j] == rest[j - 1]; }
        }
      }
    } else {
      assert alternatives[0] == FirstPresent(alternatives);
    }
  }
}
