/**
 * The trailing time window both session coordinators keep over their sensor
 * samples: only samples dated at or after a cutoff survive, in arrival order.
 */
module Windows {
  /** The samples of `xs` dated at or after `windowStart`, in order. */
  function Recent<T(!new)>(xs: seq<T>, dateOf: T -> int, windowStart: int): (r: seq<T>)
    ensures |r| <= |xs|
    ensures forall i :: 0 <= i < |r| ==> dateOf(r[i]) >= windowStart
    ensures forall x :: x in r ==> x in xs
    ensures forall i :: 0 <= i < |xs| && dateOf(xs[i]) >= windowStart ==> xs[i] in r
  {
    if xs == [] then []
    else
      var init := Recent(xs[..|xs| - 1], dateOf, windowStart);
      assert forall i :: 0 <= i < |xs| - 1 ==> xs[..|xs| - 1][i] == xs[i];
      if dateOf(xs[|xs| - 1]) >= windowStart then init + [xs[|xs| - 1]] else init
  }

  /** Filtering is idempotent: a filtered window filtered again is unchanged. */
  lemma {:induction false} RecentIdempotent<T(!new)>(xs: seq<T>, dateOf: T -> int, windowStart: int)
    ensures Recent(Recent(xs, dateOf, windowStart), dateOf, windowStart) == Recent(xs, dateOf, windowStart)
  {
    if xs != [] {
      var init := xs[..|xs| - 1];
      RecentIdempotent(init, dateOf, windowStart);
      var r := Recent(init, dateOf, windowStart);
      if dateOf(xs[|xs| - 1]) >= windowStart {
        assert (r + [xs[|xs| - 1]])[..|r|] == r;
      }
    }
  }

  /** The window keeps each surviving sample exactly as often as the input
      holds it, and no other sample. */
  lemma {:induction false} RecentCounts<T(!new)>(xs: seq<T>, dateOf: T -> int, windowStart: int)
    ensures forall x :: multiset(Recent(xs, dateOf, windowStart))[x]
                        == if dateOf(x) >= windowStart then multiset(xs)[x] else 0
  {
    if xs != [] {
      var init := xs[..|xs| - 1];
      RecentCounts(init, dateOf, windowStart);
      assert xs == init + [xs[|xs| - 1]];
    }
  }

  /** Filtering distributes over concatenation, so the window keeps the
      surviving samples in their arrival order. */
  lemma {:induction false} RecentConcat<T(!new)>(xs: seq<T>, ys: seq<T>, dateOf: T -> int, windowStart: int)
    ensures Recent(xs + ys, dateOf, windowStart) == Recent(xs, dateOf, windowStart) + Recent(ys, dateOf, windowStart)
    decreases |ys|
  {
    if ys == [] {
      assert xs + ys == xs;
    } else {
      var init, last := ys[..|ys| - 1], ys[|ys| - 1];
      var tail := if dateOf(last) >= windowStart then [last] else [];
      RecentConcat(xs, init, dateOf, windowStart);
      assert (xs + ys)[..|xs + ys| - 1] == xs + init;
      assert (xs + ys)[|xs + ys| - 1] == last;
      assert Recent(xs + ys, dateOf, windowStart) == Recent(xs + init, dateOf, windowStart) + tail;
      assert Recent(ys, dateOf, windowStart) == Recent(init, dateOf, windowStart) + tail;
    }
  }
}
