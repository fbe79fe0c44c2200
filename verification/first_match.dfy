/**
 * Ordered first-match dispatch: every decision of the intent extractor
 * (entities in schema order, aggregation triggers, candidate fields, time
 * patterns) picks the first entry of an ordered table that satisfies a test.
 */
module FirstMatch {
  import opened Wrappers

  /** `i` is the first position of `s` whose element satisfies `p`. */
  ghost predicate IsFirst<T>(s: seq<T>, p: T -> bool, i: int) {
    0 <= i < |s| && p(s[i]) && forall j :: 0 <= j < i ==> !p(s[j])
  }

  /** The first position whose element satisfies `p`, or None when none does. */
  function FirstIndex<T>(s: seq<T>, p: T -> bool): (r: Option<nat>)
    ensures r.None? <==> forall i :: 0 <= i < |s| ==> !p(s[i])
    ensures r.Some? ==> IsFirst(s, p, r.value)
  {
    if |s| == 0 then None
    else if p(s[0]) then Some(0)
    else
      match FirstIndex(s[1..], p)
      case None => None
      case Some(k) => Some(k + 1)
  }

  /** The first position is unique: any first position is the one FirstIndex finds. */
  lemma FirstIsUnique<T>(s: seq<T>, p: T -> bool, i: int)
    requires IsFirst(s, p, i)
    ensures FirstIndex(s, p) == Some(i)
  {
  }
}
