/**
 The application view's carousel: the processed image records and the index
 of the one on display, with the previous/next buttons that move through
 them cyclically.
 */
module Carousel {
  import opened Basics
  import opened Records

  /** The records on display and the current index into them. */
  datatype State = State(images: seq<ImageRecord>, index: int)

  /** Before any upload: no records, index 0. */
  const Initial: State := State([], 0)

  /** The index selects a record, or is 0 when there is none. */
  predicate Valid(c: State) {
    if |c.images| == 0 then c.index == 0 else 0 <= c.index < |c.images|
  }

  /** The navigation buttons are rendered only when there is a record. */
  predicate NavigationShown(c: State) {
    |c.images| > 0
  }

  /** The navigation buttons are disabled when there is at most one record. */
  predicate NavigationDisabled(c: State) {
    |c.images| <= 1
  }

  /** The next record, wrapping from the last to the first (JavaScript `%`). */
  function Next(c: State): (r: State)
    requires NavigationShown(c)
    ensures r.images == c.images
    ensures Valid(c) ==> Valid(r)
    ensures Valid(c) ==> r.index == if c.index == |c.images| - 1 then 0 else c.index + 1
  {
    c.(index := JsRem(c.index + 1, |c.images|))
  }

  /** The previous record, wrapping from the first to the last (JavaScript `%`). */
  function Prev(c: State): (r: State)
    requires NavigationShown(c)
    ensures r.images == c.images
    ensures Valid(c) ==> Valid(r)
    ensures Valid(c) ==> r.index == if c.index == 0 then |c.images| - 1 else c.index - 1
  {
    PrevWraps(c);
    c.(index := JsRem(c.index - 1 + |c.images|, |c.images|))
  }

  /** The remainder `Prev` takes, worked out for a valid index. */
  lemma PrevWraps(c: State)
    requires NavigationShown(c)
    ensures Valid(c) ==>
              JsRem(c.index - 1 + |c.images|, |c.images|) == if c.index == 0 then |c.images| - 1 else c.index - 1
  {
    var n := |c.images|;
    if Valid(c) {
      if c.index == 0 {
        DivModUnique(n - 1, n, 0, n - 1);
      } else {
        DivModUnique(c.index - 1 + n, n, 1, c.index - 1);
      }
    }
  }

  /** `Prev` undoes `Next` and `Next` undoes `Prev`. */
  lemma NextPrevInverse(c: State)
    requires Valid(c) && NavigationShown(c)
    ensures Prev(Next(c)) == c
    ensures Next(Prev(c)) == c
  {
  }

  /** An enabled navigation button always moves to a different record; a disabled one could not. */
  lemma EnabledNavigationMoves(c: State)
    requires Valid(c) && NavigationShown(c)
    ensures !NavigationDisabled(c) <==> Next(c).index != c.index
    ensures !NavigationDisabled(c) <==> Prev(c).index != c.index
  {
  }

  /** Applies `Next` `k` times. */
  function NextTimes(c: State, k: nat): (r: State)
    requires NavigationShown(c)
    ensures r.images == c.images
    ensures Valid(c) ==> Valid(r)
  {
    if k == 0 then c else Next(NextTimes(c, k - 1))
  }

  /** Pressing next `k` times advances the index by `k` modulo the number of records. */
  lemma {:induction false} NextTimesAdvances(c: State, k: nat)
    requires Valid(c) && NavigationShown(c)
    ensures NextTimes(c, k).index == (c.index + k) % |c.images|
  {
    if k > 0 {
      var n := |c.images|;
      var p := NextTimes(c, k - 1);
      NextTimesAdvances(c, k - 1);
      assert Valid(p) && p.images == c.images;
      assert NextTimes(c, k) == Next(p);
      ModStep(c.index + k - 1, n);
    }
  }

  /** One more than `a` has the next residue, wrapping at `n`. */
  lemma ModStep(a: nat, n: nat)
    requires n > 0
    ensures (a + 1) % n == if a % n == n - 1 then 0 else a % n + 1
  {
    var q := a / n;
    assert a == q * n + a % n;
    if a % n == n - 1 {
      DivModUnique(a + 1, n, q + 1, 0);
    } else {
      DivModUnique(a + 1, n, q, a % n + 1);
    }
  }

  /** A full round of `next` presses returns to the record it started from. */
  lemma FullRoundReturns(c: State)
    requires Valid(c) && NavigationShown(c)
    ensures NextTimes(c, |c.images|) == c
  {
    NextTimesWithinRound(c, |c.images|);
    SameFields(NextTimes(c, |c.images|), c);
  }

  /** Within one round, `k` presses of next move the index on by `k`, wrapping once past the last record. */
  lemma {:induction false} NextTimesWithinRound(c: State, k: nat)
    requires Valid(c) && NavigationShown(c) && k <= |c.images|
    ensures NextTimes(c, k).index == if c.index + k < |c.images| then c.index + k else c.index + k - |c.images|
  {
    if k > 0 {
      NextTimesWithinRound(c, k - 1);
      assert NextTimes(c, k) == Next(NextTimes(c, k - 1));
    }
  }

  /** Two carousel states with the same records and index are the same state. */
  lemma SameFields(r: State, c: State)
    requires r.images == c.images && r.index == c.index
    ensures r == c
  {
  }

  /** The record on display; the widgets render nothing when there is none. */
  function Current(c: State): (r: Option<ImageRecord>)
    ensures r.Some? <==> 0 <= c.index < |c.images|
    ensures r.Some? ==> r.value == c.images[c.index]
    ensures Valid(c) ==> (r.Some? <==> NavigationShown(c))
  {
    if 0 <= c.index < |c.images| then Some(c.images[c.index]) else None
  }

  /** A new batch replaces the records wholesale and goes back to the first one. */
  function Replace(records: seq<ImageRecord>): (r: State)
    ensures r.images == records
    ensures r.index == 0
    ensures Valid(r)
    ensures |records| > 0 ==> Current(r) == Some(records[0])
  {
    State(records, 0)
  }
}
