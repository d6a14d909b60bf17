/**
 * The array operations the source uses on lists: counting the entries that
 * satisfy a test (`filter(...).length`, or a counter bumped in a loop),
 * `some`, `find` and `filter`, and the running maximum that a loop keeps
 * when it replaces its best entry only on a strictly larger value.
 */
module Seqs {
  import opened Wrappers

  /** Number of entries of `xs` that satisfy `p`, repeats included. */
  function CountWhere<T>(xs: seq<T>, p: T -> bool): (n: nat)
    ensures n <= |xs|
  {
    if xs == [] then 0
    else (if p(xs[0]) then 1 else 0) + CountWhere(xs[1..], p)
  }

  /** The count is 0 exactly when no entry passes, and the full length exactly when every entry does. */
  lemma {:induction false} CountWhereExtremes<T>(xs: seq<T>, p: T -> bool)
    ensures CountWhere(xs, p) == 0 <==> forall i :: 0 <= i < |xs| ==> !p(xs[i])
    ensures CountWhere(xs, p) == |xs| <==> forall i :: 0 <= i < |xs| ==> p(xs[i])
  {
    if xs != [] {
      CountWhereExtremes(xs[1..], p);
      assert forall i :: 1 <= i < |xs| ==> xs[i] == xs[1..][i - 1];
    }
  }

  /** Counting an extended list adds one exactly when the new entry passes. */
  lemma {:induction false} CountWhereSnoc<T>(xs: seq<T>, x: T, p: T -> bool)
    ensures CountWhere(xs + [x], p) == CountWhere(xs, p) + (if p(x) then 1 else 0)
  {
    if xs == [] {
      assert xs + [x] == [x];
    } else {
      assert (xs + [x])[1..] == xs[1..] + [x];
      CountWhereSnoc(xs[1..], x, p);
    }
  }

  /** The indices of `xs[..n]` whose entry passes `p`. */
  function PassingIndices<T>(xs: seq<T>, p: T -> bool, n: nat): set<nat>
    requires n <= |xs|
  {
    set i: nat | i < n && p(xs[i])
  }

  /** Counting a prefix is counting the passing indices below its length. */
  lemma {:induction false} CountPrefix<T>(xs: seq<T>, p: T -> bool, n: nat)
    requires n <= |xs|
    ensures CountWhere(xs[..n], p) == |PassingIndices(xs, p, n)|
  {
    if n == 0 {
      assert PassingIndices(xs, p, 0) == {};
    } else {
      CountPrefix(xs, p, n - 1);
      assert xs[..n] == xs[..n - 1] + [xs[n - 1]];
      CountWhereSnoc(xs[..n - 1], xs[n - 1], p);
      var below := PassingIndices(xs, p, n - 1);
      if p(xs[n - 1]) {
        assert PassingIndices(xs, p, n) == below + {n - 1};
      } else {
        assert PassingIndices(xs, p, n) == below;
      }
    }
  }

  /** The count is the number of passing positions: entries, not occurrences inside them. */
  lemma CountWhereIsCardinality<T>(xs: seq<T>, p: T -> bool)
    ensures CountWhere(xs, p) == |PassingIndices(xs, p, |xs|)|
  {
    CountPrefix(xs, p, |xs|);
    assert xs[..|xs|] == xs;
  }

  /** `xs.find(p)`: the first entry that passes, if any. */
  function Find<T>(xs: seq<T>, p: T -> bool): (r: Option<T>)
    ensures r.None? <==> forall i :: 0 <= i < |xs| ==> !p(xs[i])
    ensures r.Some? ==> exists i :: 0 <= i < |xs| && xs[i] == r.value && p(xs[i]) &&
                                    forall j :: 0 <= j < i ==> !p(xs[j])
  {
    if xs == [] then None
    else if p(xs[0]) then Some(xs[0])
    else
      var r := Find(xs[1..], p);
      assert r.Some? ==> exists i :: 0 <= i < |xs[1..]| && xs[1..][i] == r.value && p(xs[1..][i]) &&
                                     forall j :: 0 <= j < i ==> !p(xs[1..][j]);
      r
  }

  /**
   * `idx` lists the positions of the entries of `xs` that pass `p`: each
   * passing position exactly once, in increasing order.
   */
  ghost predicate PassingPositions<T>(xs: seq<T>, p: T -> bool, idx: seq<nat>)
  {
    (forall i :: 0 <= i < |idx| ==> idx[i] < |xs| && p(xs[idx[i]])) &&
    (forall i, j :: 0 <= i < j < |idx| ==> idx[i] < idx[j]) &&
    (forall k :: 0 <= k < |xs| && p(xs[k]) ==> k in idx)
  }

  /** Every position one further on. */
  function Shift(idx: seq<nat>): (r: seq<nat>)
    ensures |r| == |idx| && forall i :: 0 <= i < |r| ==> r[i] == idx[i] + 1
  {
    seq(|idx|, i requires 0 <= i < |idx| => idx[i] + 1)
  }

  /** The passing positions of the tail, shifted, pass in the whole list. */
  lemma ShiftedPass<T>(xs: seq<T>, p: T -> bool, rest: seq<nat>)
    requires xs != [] && forall i :: 0 <= i < |rest| ==> rest[i] < |xs[1..]| && p(xs[1..][rest[i]])
    ensures forall i :: 0 <= i < |Shift(rest)| ==> 0 < Shift(rest)[i] < |xs| && p(xs[Shift(rest)[i]])
  {
    var shifted := Shift(rest);
    forall i | 0 <= i < |shifted| ensures 0 < shifted[i] < |xs| && p(xs[shifted[i]]) {
      assert xs[1..][rest[i]] == xs[shifted[i]];
    }
  }

  /** Every passing position after the head is among the shifted passing positions of the tail. */
  lemma ShiftedComplete<T>(xs: seq<T>, p: T -> bool, rest: seq<nat>)
    requires xs != [] && forall k :: 0 <= k < |xs[1..]| && p(xs[1..][k]) ==> k in rest
    ensures forall k :: 1 <= k < |xs| && p(xs[k]) ==> k in Shift(rest)
  {
    var shifted := Shift(rest);
    forall k | 1 <= k < |xs| && p(xs[k]) ensures k in shifted {
      assert xs[1..][k - 1] == xs[k];
      var i :| 0 <= i < |rest| && rest[i] == k - 1;
      assert shifted[i] == k;
    }
  }

  /** Increasing positions stay increasing when shifted. */
  lemma ShiftedIncreasing(rest: seq<nat>)
    requires forall i, j :: 0 <= i < j < |rest| ==> rest[i] < rest[j]
    ensures forall i, j :: 0 <= i < j < |Shift(rest)| ==> Shift(rest)[i] < Shift(rest)[j]
  {
  }

  /**
   * The passing positions after the head, with 0 in front when the head
   * passes, are all the passing positions.
   */
  lemma PositionsStep<T>(xs: seq<T>, p: T -> bool, later: seq<nat>)
    requires xs != []
    requires forall i :: 0 <= i < |later| ==> 0 < later[i] < |xs| && p(xs[later[i]])
    requires forall i, j :: 0 <= i < j < |later| ==> later[i] < later[j]
    requires forall k :: 1 <= k < |xs| && p(xs[k]) ==> k in later
    ensures PassingPositions(xs, p, if p(xs[0]) then [0] + later else later)
  {
    if p(xs[0]) {
      var idx := [0] + later;
      forall i | 0 <= i < |idx| ensures idx[i] < |xs| && p(xs[idx[i]]) {
        if i > 0 {
          assert idx[i] == later[i - 1];
        }
      }
      forall i, j | 0 <= i < j < |idx| ensures idx[i] < idx[j] {
        assert idx[j] == later[j - 1];
        if i > 0 {
          assert idx[i] == later[i - 1];
        }
      }
      forall k | 0 <= k < |xs| && p(xs[k]) ensures k in idx {
        if k > 0 {
          var i :| 0 <= i < |later| && later[i] == k;
          assert idx[i + 1] == k;
        }
      }
    }
  }

  /** The positions of the entries of `xs` that pass `p`, in increasing order. */
  function Positions<T>(xs: seq<T>, p: T -> bool): (idx: seq<nat>)
    ensures PassingPositions(xs, p, idx)
  {
    if xs == [] then []
    else
      var rest := Positions(xs[1..], p);
      ShiftedPass(xs, p, rest);
      ShiftedIncreasing(rest);
      ShiftedComplete(xs, p, rest);
      PositionsStep(xs, p, Shift(rest));
      if p(xs[0]) then [0] + Shift(rest) else Shift(rest)
  }

  /** `r` lists the entries of `xs` at the positions `idx`, one for one. */
  ghost predicate SelectedAt<T>(r: seq<T>, xs: seq<T>, idx: seq<nat>)
  {
    |r| == |idx| && forall i :: 0 <= i < |r| ==> idx[i] < |xs| && r[i] == xs[idx[i]]
  }

  /** Selecting from the tail at `idx` is selecting from the whole list at the shifted positions. */
  lemma SelectedStep<T>(xs: seq<T>, keep: bool, rest: seq<T>, idx: seq<nat>)
    requires xs != [] && SelectedAt(rest, xs[1..], idx)
    ensures SelectedAt(if keep then [xs[0]] + rest else rest, xs, if keep then [0] + Shift(idx) else Shift(idx))
  {
    forall i | 0 <= i < |rest| ensures rest[i] == xs[Shift(idx)[i]] {
      assert xs[1..][idx[i]] == xs[idx[i] + 1];
    }
  }

  /**
   * `xs.filter(p)`: the entries at the passing positions, in increasing
   * position order, so the kept entries keep their order and their repeats.
   */
  function Filter<T>(xs: seq<T>, p: T -> bool): (r: seq<T>)
    ensures |r| == CountWhere(xs, p)
    ensures forall i :: 0 <= i < |r| ==> r[i] in xs && p(r[i])
    ensures forall i :: 0 <= i < |xs| && p(xs[i]) ==> xs[i] in r
  {
    if xs == [] then []
    else
      var rest := Filter(xs[1..], p);
      if p(xs[0]) then [xs[0]] + rest else rest
  }

  /**
   * The filtered list is the list of entries at the passing positions, in
   * increasing position order: the kept entries keep their order and their
   * repeats, and every passing entry is kept.
   */
  lemma {:induction false} FilterSelects<T>(xs: seq<T>, p: T -> bool)
    ensures SelectedAt(Filter(xs, p), xs, Positions(xs, p))
  {
    if xs != [] {
      FilterSelects(xs[1..], p);
      SelectedStep(xs, p(xs[0]), Filter(xs[1..], p), Positions(xs[1..], p));
    }
  }

  /** Filtering distributes over concatenation, so the kept entries keep their relative order. */
  lemma {:induction false} FilterAppend<T>(xs: seq<T>, ys: seq<T>, p: T -> bool)
    ensures Filter(xs + ys, p) == Filter(xs, p) + Filter(ys, p)
  {
    if xs == [] {
      assert xs + ys == ys;
    } else {
      assert (xs + ys)[1..] == xs[1..] + ys;
      FilterAppend(xs[1..], ys, p);
    }
  }

  /**
   * The best entry and its value after a loop over `xs` that starts from
   * `start` with value 0 and replaces the kept entry only when an entry's
   * value `f(x)` is strictly larger than the kept value.
   */
  function RunningMax<T>(xs: seq<T>, f: T -> nat, start: T): (T, nat)
  {
    if xs == [] then (start, 0)
    else
      var previous := RunningMax(xs[..|xs| - 1], f, start);
      var last := xs[|xs| - 1];
      if f(last) > previous.1 then (last, f(last)) else previous
  }

  /**
   * The running maximum keeps the largest value; it keeps `start` when that
   * value is 0; and otherwise it keeps the first entry that reaches it.
   */
  lemma {:induction false} RunningMaxIsFirstMaximum<T>(xs: seq<T>, f: T -> nat, start: T)
    ensures forall j :: 0 <= j < |xs| ==> f(xs[j]) <= RunningMax(xs, f, start).1
    ensures RunningMax(xs, f, start).1 == 0 ==> RunningMax(xs, f, start).0 == start
    ensures RunningMax(xs, f, start).1 > 0 ==>
      exists j :: 0 <= j < |xs| && xs[j] == RunningMax(xs, f, start).0 &&
                  f(xs[j]) == RunningMax(xs, f, start).1 &&
                  forall k :: 0 <= k < j ==> f(xs[k]) < RunningMax(xs, f, start).1
  {
    if xs != [] {
      var prefix := xs[..|xs| - 1];
      RunningMaxIsFirstMaximum(prefix, f, start);
      assert forall j :: 0 <= j < |prefix| ==> xs[j] == prefix[j];
    }
  }

  /** The starting entry matters only when no entry has a positive value. */
  lemma {:induction false} RunningMaxStart<T>(xs: seq<T>, f: T -> nat, start: T, other: T)
    ensures RunningMax(xs, f, start).1 == RunningMax(xs, f, other).1
    ensures RunningMax(xs, f, start).1 > 0 ==> RunningMax(xs, f, start).0 == RunningMax(xs, f, other).0
  {
    if xs != [] {
      RunningMaxStart(xs[..|xs| - 1], f, start, other);
    }
  }
}
