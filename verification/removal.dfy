/**
  The retention policy of the reconciliation run: a stored event that has
  vanished from the feed is deleted, and reported, only when its start
  parses and lies within the removal window; anything older stays stored.
 */
module Removal {
  import opened Wrappers
  import opened Values
  import opened TimeUtils
  import opened Updates

  /** `st is not None and is_within_removal_window(st)` for the stored start `st`. */
  predicate StartsInWindow(d: Record, now: int, tt: TimeText)
  {
    var st := StoredStart(d, tt);
    st.Some? && IsWithinRemovalWindow(st, now)
  }

  /** The `future_docs` loop: the documents, in order, whose start is in the window. */
  function InWindow(docs: seq<Record>, now: int, tt: TimeText): (r: seq<Record>)
    ensures |r| <= |docs|
    ensures forall d :: d in r <==> d in docs && StartsInWindow(d, now, tt)
  {
    if docs == [] then []
    else
      var front := docs[..|docs| - 1];
      var last := docs[|docs| - 1];
      assert forall d :: d in docs <==> d in front || d == last;
      var rest := InWindow(front, now, tt);
      if StartsInWindow(last, now, tt) then rest + [last] else rest
  }

  /** One more document extends the result by at most itself. */
  lemma InWindowStep(docs: seq<Record>, i: nat, now: int, tt: TimeText)
    requires i < |docs|
    ensures InWindow(docs[..i + 1], now, tt) ==
      if StartsInWindow(docs[i], now, tt) then InWindow(docs[..i], now, tt) + [docs[i]] else InWindow(docs[..i], now, tt)
  {
    assert docs[..i + 1][..i] == docs[..i];
  }

  /** A document outside the window stays outside it as the clock advances. */
  lemma OutsideStaysOutside(d: Record, now: int, later: int, tt: TimeText)
    requires now <= later && !StartsInWindow(d, now, tt)
    ensures !StartsInWindow(d, later, tt)
  {
    var st := StoredStart(d, tt);
    if st.Some? {
      WindowMonotone(st.value, st.value, now, later);
    }
  }
}
