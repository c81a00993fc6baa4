/** The interval-merging example the crate ships with its tests
    (tests/merge_overlapping_intervals.rs): closed intervals over `usize`,
    the generator that merges a sorted sequence of them, the hand-written
    iterator that does the same without generators, and the generator that
    merges k sorted sequences into one. The items a generator yields are
    modelled as the sequence its body appends to. */
module Intervals {
  import opened Tokens

  // ---------------------------------------------------------------------
  // Intervals (tests/merge_overlapping_intervals.rs:9-35)
  // ---------------------------------------------------------------------

  datatype Interval = Interval(start: nat, end: nat)

  /** An interval whose end is not before its start. */
  predicate Wf(x: Interval) {
    x.start <= x.end
  }

  /** The derived `Ord`: by start, then by end. */
  predicate Le(x: Interval, y: Interval) {
    x.start < y.start || (x.start == y.start && x.end <= y.end)
  }

  function Min(a: nat, b: nat): (m: nat)
    ensures m <= a && m <= b && (m == a || m == b)
  {
    if a <= b then a else b
  }

  function Max(a: nat, b: nat): (m: nat)
    ensures m >= a && m >= b && (m == a || m == b)
  {
    if a >= b then a else b
  }

  /** Does the closed interval `x` contain the point `p`? */
  predicate Contains(x: Interval, p: int) {
    x.start <= p <= x.end
  }

  /** `Interval::overlaps`: orders the pair by start (on a tie `other`
      comes first) and asks whether the first reaches the second, so
      touching intervals overlap. */
  function Overlaps(self: Interval, other: Interval): (r: bool)
    ensures Wf(self) && Wf(other) ==>
      (r <==> Max(self.start, other.start) <= Min(self.end, other.end))
  {
    var (a, b) := if self.start < other.start then (self, other) else (other, self);
    a.end >= b.start
  }

  /** `Interval::merge`: the smallest interval covering both. */
  function Merge(self: Interval, other: Interval): (r: Interval)
    ensures r.start == Min(self.start, other.start)
    ensures r.end == Max(self.end, other.end)
    ensures Wf(self) ==> Wf(r)
  {
    Interval(if self.start <= other.start then self.start else other.start,
             if self.end >= other.end then self.end else other.end)
  }

  /** Two well-formed intervals overlap exactly when they share a point,
      whichever is the receiver. */
  lemma OverlapsMeans(x: Interval, y: Interval)
    requires Wf(x) && Wf(y)
    ensures Overlaps(x, y) <==> exists p :: Contains(x, p) && Contains(y, p)
    ensures Overlaps(x, y) == Overlaps(y, x)
  {
    if Overlaps(x, y) {
      var p := if x.start < y.start then y.start else x.start;
      assert Contains(x, p) && Contains(y, p);
    }
  }

  /** The merge of two overlapping well-formed intervals covers exactly the
      points of the two. */
  lemma MergeCoversUnion(x: Interval, y: Interval, p: int)
    requires Wf(x) && Wf(y) && Overlaps(x, y)
    ensures Wf(Merge(x, y))
    ensures Contains(Merge(x, y), p) <==> Contains(x, p) || Contains(y, p)
  {
  }

  // ---------------------------------------------------------------------
  // Merging a sorted sequence (tests/merge_overlapping_intervals.rs:60-76)
  // ---------------------------------------------------------------------

  /** What is still to be yielded when `prev` is the interval being grown
      and `rest` the input not yet read: `prev` absorbs the following
      intervals while they overlap it, and is yielded at the first one that
      does not. */
  function MergeFrom(prev: Interval, rest: seq<Interval>): (r: seq<Interval>)
    ensures 1 <= |r| <= |rest| + 1
    decreases |rest|
  {
    if rest == [] then [prev]
    else if Overlaps(prev, rest[0]) then MergeFrom(Merge(prev, rest[0]), rest[1..])
    else [prev] + MergeFrom(rest[0], rest[1..])
  }

  /** The intervals `merge_overlapping_intervals` yields for `input`. */
  function MergeAll(input: seq<Interval>): (r: seq<Interval>)
    ensures |r| <= |input|
    ensures r == [] <==> input == []
  {
    if input == [] then [] else MergeFrom(input[0], input[1..])
  }

  /** The body of the `merge_overlapping_intervals` generator: take the
      first interval (or return at once), grow it over the rest, yield it
      whenever the next one does not overlap, and yield the last one. */
  method MergeOverlappingIntervals(input: seq<Interval>) returns (yielded: seq<Interval>)
    ensures yielded == MergeAll(input)
  {
    yielded := [];
    if input == [] {
      return;
    }
    var prev := input[0];
    var k := 1;
    while k < |input|
      invariant 1 <= k <= |input|
      invariant yielded + MergeFrom(prev, input[k..]) == MergeAll(input)
    {
      var i := input[k];
      assert input[k..][1..] == input[k + 1..];
      if Overlaps(prev, i) {
        prev := Merge(prev, i);
      } else {
        AppendAssoc3(yielded, [prev], MergeFrom(i, input[k + 1..]));
        yielded := yielded + [prev];
        prev := i;
      }
      k := k + 1;
    }
    assert input[k..] == [];
    yielded := yielded + [prev];
  }

  // What the merge promises

  predicate AllWf(s: seq<Interval>) {
    forall i :: 0 <= i < |s| ==> Wf(s[i])
  }

  /** Sorted as the derived `Ord` sorts: by start, then by end. */
  predicate Sorted(s: seq<Interval>) {
    forall i, j :: 0 <= i < j < |s| ==> Le(s[i], s[j])
  }

  /** Each interval ends before the next one starts. */
  predicate Separated(s: seq<Interval>) {
    forall k :: 0 <= k < |s| - 1 ==> s[k].end < s[k + 1].start
  }

  /** Is the point `p` in one of the intervals of `s`? */
  predicate CoveredBy(s: seq<Interval>, p: int) {
    s != [] && (Contains(s[0], p) || CoveredBy(s[1..], p))
  }

  lemma {:induction false} MergeFromCovers(prev: Interval, rest: seq<Interval>, p: int)
    requires Wf(prev) && AllWf(rest)
    ensures CoveredBy(MergeFrom(prev, rest), p) <==> Contains(prev, p) || CoveredBy(rest, p)
    decreases |rest|
  {
    if rest != [] {
      if Overlaps(prev, rest[0]) {
        MergeCoversUnion(prev, rest[0], p);
        MergeFromCovers(Merge(prev, rest[0]), rest[1..], p);
      } else {
        MergeFromCovers(rest[0], rest[1..], p);
        assert ([prev] + MergeFrom(rest[0], rest[1..]))[1..] == MergeFrom(rest[0], rest[1..]);
      }
    }
  }

  /** Merging loses no point and adds none. */
  lemma MergeAllCovers(input: seq<Interval>, p: int)
    requires AllWf(input)
    ensures CoveredBy(MergeAll(input), p) <==> CoveredBy(input, p)
  {
    if input != [] {
      MergeFromCovers(input[0], input[1..], p);
    }
  }

  lemma {:induction false} MergeFromSeparated(prev: Interval, rest: seq<Interval>)
    requires Wf(prev) && AllWf(rest) && Sorted(rest)
    requires rest != [] ==> prev.start <= rest[0].start
    ensures var r := MergeFrom(prev, rest);
            r[0].start == prev.start && AllWf(r) && Separated(r)
    decreases |rest|
  {
    if rest != [] {
      var r0 := rest[0];
      assert forall i :: 0 <= i < |rest| - 1 ==> rest[1..][i] == rest[i + 1];
      if Overlaps(prev, r0) {
        if |rest| > 1 {
          assert Le(rest[0], rest[1]);
        }
        MergeFromSeparated(Merge(prev, r0), rest[1..]);
      } else {
        assert prev.end < r0.start;
        if |rest| > 1 {
          assert Le(rest[0], rest[1]);
        }
        MergeFromSeparated(r0, rest[1..]);
        var tail := MergeFrom(r0, rest[1..]);
        assert forall k :: 0 <= k < |tail| ==> ([prev] + tail)[k + 1] == tail[k];
      }
    }
  }

  /** On sorted well-formed input the merged intervals are well formed,
      each ends before the next starts, and no two consecutive ones
      overlap. */
  lemma MergeAllSeparated(input: seq<Interval>)
    requires AllWf(input) && Sorted(input)
    ensures var r := MergeAll(input);
            AllWf(r) && Separated(r) && forall k :: 0 <= k < |r| - 1 ==> !Overlaps(r[k], r[k + 1])
  {
    if input != [] {
      assert forall i :: 0 <= i < |input| - 1 ==> input[1..][i] == input[i + 1];
      if |input| > 1 {
        assert Le(input[0], input[1]);
      }
      MergeFromSeparated(input[0], input[1..]);
    }
  }

  lemma {:induction false} MergeFromKeeps(prev: Interval, rest: seq<Interval>)
    requires Wf(prev) && AllWf(rest) && Separated([prev] + rest)
    ensures MergeFrom(prev, rest) == [prev] + rest
    decreases |rest|
  {
    if rest != [] {
      assert ([prev] + rest)[0] == prev && ([prev] + rest)[1] == rest[0];
      assert prev.end < rest[0].start;
      assert !Overlaps(prev, rest[0]);
      assert forall k :: 0 <= k < |rest| ==> ([prev] + rest)[k + 1] == rest[k];
      MergeFromKeeps(rest[0], rest[1..]);
      assert [rest[0]] + rest[1..] == rest;
    }
  }

  /** Separated input passes through unchanged, so merging twice is
      merging once. */
  lemma MergeAllIdempotent(input: seq<Interval>)
    requires AllWf(input) && Sorted(input)
    ensures Separated(input) ==> MergeAll(input) == input
    ensures MergeAll(MergeAll(input)) == MergeAll(input)
  {
    if input != [] && Separated(input) {
      assert [input[0]] + input[1..] == input;
      MergeFromKeeps(input[0], input[1..]);
    }
    MergeAllSeparated(input);
    var r := MergeAll(input);
    if r != [] {
      assert [r[0]] + r[1..] == r;
      MergeFromKeeps(r[0], r[1..]);
    }
  }

  // ---------------------------------------------------------------------
  // The hand-written iterator (tests/merge_overlapping_intervals.rs:78-109)
  // ---------------------------------------------------------------------

  /** `MergeOverlappingIntervals`: the input still to be read and the
      interval being grown, `None` once everything has been yielded. */
  class MergeOverlappingIntervalsIter {
    var input: seq<Interval>
    var prev: Option<Interval>

    /** What the iterator still has to yield. */
    function Contents(): seq<Interval>
      reads this
    {
      if prev.None? then [] else MergeFrom(prev.value, input)
    }

    /** `handmade_merge_overlapping_intervals`: reads the first interval
        ahead. */
    constructor (input: seq<Interval>)
      ensures Contents() == MergeAll(input)
    {
      if input == [] {
        this.input := [];
        prev := None;
      } else {
        this.input := input[1..];
        prev := Some(input[0]);
      }
    }

    /** `Iterator::next`: grows `prev` over the overlapping intervals that
        follow, stops at the first that does not overlap (keeping it as the
        new `prev`) or at the end of the input (leaving `prev` empty), and
        returns the grown interval. Once `prev` is empty it returns `None`
        for ever. */
    method Next() returns (r: Option<Interval>)
      modifies this
      ensures old(Contents()) == [] ==> r == None && Contents() == []
      ensures old(Contents()) != [] ==> r == Some(old(Contents())[0]) && Contents() == old(Contents())[1..]
    {
      if prev.None? {
        return None;
      }
      var p := prev.value;
      while input != []
        invariant prev == Some(p)
        invariant MergeFrom(p, input) == old(Contents())
        decreases |input|
      {
        var i := input[0];
        input := input[1..];
        if Overlaps(p, i) {
          p := Merge(p, i);
          prev := Some(p);
        } else {
          prev := Some(i);
          return Some(p);
        }
      }
      prev := None;
      r := Some(p);
    }
  }

  /** Collecting the hand-written iterator yields what the generator
      yields (tests/merge_overlapping_intervals.rs:169-176). */
  method CollectHandmade(input: seq<Interval>) returns (out: seq<Interval>)
    ensures out == MergeAll(input)
  {
    var it := new MergeOverlappingIntervalsIter(input);
    out := [];
    var done := false;
    while !done
      invariant done ==> it.Contents() == []
      invariant out + it.Contents() == MergeAll(input)
      decreases |it.Contents()| + (if done then 0 else 1)
    {
      var r := it.Next();
      if r.Some? {
        out := out + [r.value];
      } else {
        done := true;
      }
    }
    assert out + [] == out;
  }

  /** The four inputs of tests/merge_overlapping_intervals.rs:161-216:
      overlapping pairs are merged, a contained interval is absorbed, and
      disjoint intervals pass through unchanged. */
  lemma MergeExamples()
    ensures MergeAll([Interval(1, 4), Interval(3, 6), Interval(8, 10), Interval(9, 11)])
            == [Interval(1, 6), Interval(8, 11)]
    ensures MergeAll([Interval(1, 4)]) == [Interval(1, 4)]
    ensures MergeAll([Interval(1, 12), Interval(3, 6), Interval(8, 10), Interval(9, 11)]) == [Interval(1, 12)]
    ensures MergeAll([Interval(1, 2), Interval(3, 6), Interval(8, 9), Interval(10, 11)])
            == [Interval(1, 2), Interval(3, 6), Interval(8, 9), Interval(10, 11)]
  {
    var a := [Interval(1, 4), Interval(3, 6), Interval(8, 10), Interval(9, 11)];
    assert MergeFrom(Interval(8, 10), a[3..]) == [Interval(8, 11)];
    assert MergeFrom(Interval(1, 6), a[2..]) == [Interval(1, 6), Interval(8, 11)];
    var c := [Interval(1, 12), Interval(3, 6), Interval(8, 10), Interval(9, 11)];
    assert MergeFrom(Interval(1, 12), c[3..]) == [Interval(1, 12)];
    assert MergeFrom(Interval(1, 12), c[2..]) == [Interval(1, 12)];
    var d := [Interval(1, 2), Interval(3, 6), Interval(8, 9), Interval(10, 11)];
    assert MergeFrom(Interval(10, 11), d[4..]) == [Interval(10, 11)];
    assert MergeFrom(Interval(8, 9), d[3..]) == [Interval(8, 9), Interval(10, 11)];
    assert MergeFrom(Interval(3, 6), d[2..]) == [Interval(3, 6), Interval(8, 9), Interval(10, 11)];
  }

  // ---------------------------------------------------------------------
  // Merging k sorted inputs (tests/merge_overlapping_intervals.rs:111-142)
  // ---------------------------------------------------------------------

  /** `Iterator::next` on an input given as the sequence it still holds. */
  function Head(s: seq<Interval>): Option<Interval> {
    if s == [] then None else Some(s[0])
  }

  function Tail(s: seq<Interval>): seq<Interval> {
    if s == [] then [] else s[1..]
  }

  function OptSet(o: Option<Interval>): multiset<Interval> {
    if o.Some? then multiset{o.value} else multiset{}
  }

  /** Every interval of every input. */
  function Total(inputs: seq<seq<Interval>>): multiset<Interval> {
    if inputs == [] then multiset{} else multiset(inputs[0]) + Total(inputs[1..])
  }

  /** What is still to be yielded: the heads held in `last` and what each
      input has left. */
  function Pending(last: seq<Option<Interval>>, rest: seq<seq<Interval>>): multiset<Interval>
    requires |last| == |rest|
  {
    if last == [] then multiset{} else Slot(last[0], rest[0]) + Pending(last[1..], rest[1..])
  }

  /** What one input still holds: its head, if any, and the rest. */
  function Slot(head: Option<Interval>, rest: seq<Interval>): multiset<Interval> {
    OptSet(head) + multiset(rest)
  }

  lemma {:induction false} PendingStart(inputs: seq<seq<Interval>>, last: seq<Option<Interval>>, rest: seq<seq<Interval>>)
    requires |last| == |rest| == |inputs|
    requires forall i :: 0 <= i < |inputs| ==> last[i] == Head(inputs[i]) && rest[i] == Tail(inputs[i])
    ensures Pending(last, rest) == Total(inputs)
  {
    if inputs != [] {
      var s := inputs[0];
      if s != [] {
        assert s == [s[0]] + s[1..];
      }
      PendingStart(inputs[1..], last[1..], rest[1..]);
    }
  }

  lemma {:induction false} PendingUpdate(last: seq<Option<Interval>>, rest: seq<seq<Interval>>, pos: nat,
                                        o: Option<Interval>, r: seq<Interval>)
    requires |last| == |rest| && pos < |last|
    ensures Pending(last[pos := o], rest[pos := r]) + Slot(last[pos], rest[pos])
            == Pending(last, rest) + Slot(o, r)
  {
    var last', rest' := last[pos := o], rest[pos := r];
    if pos == 0 {
      assert last'[1..] == last[1..];
      assert rest'[1..] == rest[1..];
    } else {
      var here := Slot(last[0], rest[0]);
      assert last'[1..] == last[1..][pos - 1 := o];
      assert rest'[1..] == rest[1..][pos - 1 := r];
      assert Pending(last', rest') == here + Pending(last'[1..], rest'[1..]);
      assert Pending(last, rest) == here + Pending(last[1..], rest[1..]);
      assert last[pos] == last[1..][pos - 1] && rest[pos] == rest[1..][pos - 1];
      PendingUpdate(last[1..], rest[1..], pos - 1, o, r);
      UnionShift(here, Pending(last'[1..], rest'[1..]), Slot(last[pos], rest[pos]),
                 Pending(last[1..], rest[1..]), Slot(o, r));
    }
  }

  lemma UnionShift<T>(h: multiset<T>, p: multiset<T>, a: multiset<T>, q: multiset<T>, b: multiset<T>)
    requires p + a == q + b
    ensures h + p + a == h + q + b
  {
    assert h + p + a == h + (p + a);
    assert h + q + b == h + (q + b);
  }

  /** Yielding the head at `pos` and reading the next interval of that
      input takes exactly that head out of what is pending. */
  lemma PendingAdvance(last: seq<Option<Interval>>, rest: seq<seq<Interval>>, pos: nat, smallest: Interval)
    requires |last| == |rest| && pos < |last| && last[pos] == Some(smallest)
    ensures Pending(last[pos := Head(rest[pos])], rest[pos := Tail(rest[pos])]) + multiset{smallest}
            == Pending(last, rest)
  {
    var r := rest[pos];
    var after := Pending(last[pos := Head(r)], rest[pos := Tail(r)]);
    PendingUpdate(last, rest, pos, Head(r), Tail(r));
    SlotOfNext(r);
    assert Slot(last[pos], r) == multiset{smallest} + multiset(r);
    UnionCancel(after + multiset{smallest}, Pending(last, rest), multiset(r));
  }

  /** Reading the next interval moves it from the input to the head. */
  lemma SlotOfNext(r: seq<Interval>)
    ensures Slot(Head(r), Tail(r)) == multiset(r)
  {
    if r != [] {
      assert r == [r[0]] + r[1..];
    }
  }

  lemma UnionCancel<T>(a: multiset<T>, b: multiset<T>, c: multiset<T>)
    requires a + c == b + c
    ensures a == b
  {
    forall x | true
      ensures a[x] == b[x]
    {
      assert (a + c)[x] == (b + c)[x];
    }
  }

  /** Every input still to be read is sorted and starts no lower than its
      head, and an exhausted input holds nothing. */
  predicate HeadsOrdered(last: seq<Option<Interval>>, rest: seq<seq<Interval>>)
    requires |last| == |rest|
  {
    forall i :: 0 <= i < |last| ==>
      Sorted(rest[i]) && (last[i].None? ==> rest[i] == [])
      && (last[i].Some? ==> forall j :: 0 <= j < |rest[i]| ==> Le(last[i].value, rest[i][j]))
  }

  /** `.find(|(_, l)| l.is_some())`: the first head present, with its index. */
  function FirstSome(last: seq<Option<Interval>>): (r: Option<(nat, Interval)>)
    ensures r.None? <==> forall j :: 0 <= j < |last| ==> last[j].None?
    ensures r.Some? ==> r.value.0 < |last| && last[r.value.0] == Some(r.value.1)
                        && forall j :: 0 <= j < r.value.0 ==> last[j].None?
  {
    if last == [] then None
    else if last[0].Some? then Some((0, last[0].value))
    else
      var t := FirstSome(last[1..]);
      if t.None? then None else Some((t.value.0 + 1, t.value.1))
  }

  /** The `for` loop over `last`: keeps the smallest head seen, replacing
      it by any head that is `<=` it, so among equal heads the one with the
      highest index wins. */
  method ScanSmallest(last: seq<Option<Interval>>, start: Option<(nat, Interval)>)
      returns (smallest: Option<(nat, Interval)>)
    requires StartsAt(last, start)
    ensures smallest.None? ==> start.None? && forall j :: 0 <= j < |last| ==> last[j].None?
    ensures smallest.Some? ==>
              var (pos, v) := smallest.value;
              pos < |last| && last[pos] == Some(v)
              && forall j :: 0 <= j < |last| && last[j].Some? ==>
                   Le(v, last[j].value) && (pos < j ==> last[j].value != v)
  {
    smallest := start;
    for i := 0 to |last|
      invariant smallest.None? ==> start.None? && forall j :: 0 <= j < i ==> last[j].None?
      invariant smallest.Some? ==>
                  var (pos, v) := smallest.value;
                  pos < |last| && last[pos] == Some(v)
                  && (i <= pos ==> smallest == start)
                  && forall j :: 0 <= j < i && last[j].Some? ==>
                       Le(v, last[j].value) && (pos < j ==> last[j].value != v)
    {
      match (smallest, last[i]) {
        case (Some((_, v)), Some(l)) =>
          if Le(l, v) {
            smallest := Some((i, l));
          }
        case (None, Some(l)) =>
          smallest := Some((i, l));
        case _ =>
      }
    }
  }

  /** `last.iter().any(|l| l.is_some())` */
  predicate AnyHead(last: seq<Option<Interval>>) {
    exists i :: 0 <= i < |last| && last[i].Some?
  }

  /** An exhausted input holds nothing beyond its missing head. */
  predicate Exhausted(last: seq<Option<Interval>>, rest: seq<seq<Interval>>)
    requires |last| == |rest|
  {
    forall i :: 0 <= i < |last| ==> last[i].None? ==> rest[i] == []
  }

  /** Every head still held is no lower than the last interval yielded. */
  predicate BelowHeads(yielded: seq<Interval>, last: seq<Option<Interval>>) {
    yielded != [] ==> forall i :: 0 <= i < |last| && last[i].Some? ==> Le(yielded[|yielded| - 1], last[i].value)
  }

  /** `opt` is absent, or is the first head present, as `.find` returns it. */
  predicate StartsAt(last: seq<Option<Interval>>, opt: Option<(nat, Interval)>) {
    opt.Some? ==> opt.value.0 < |last| && last[opt.value.0] == Some(opt.value.1)
                  && forall j :: 0 <= j < opt.value.0 ==> last[j].None?
  }

  /** The body of `sorted_merge_k_intervals`: read the head of every input,
      then merge the heads. Every interval of every input is yielded exactly
      once, and when each input is sorted so is the result. */
  method SortedMergeK(inputs: seq<seq<Interval>>) returns (yielded: seq<Interval>)
    ensures multiset(yielded) == Total(inputs)
    ensures (forall i :: 0 <= i < |inputs| ==> Sorted(inputs[i])) ==> Sorted(yielded)
  {
    if |inputs| == 0 {
      return [];
    }
    var last := seq(|inputs|, i requires 0 <= i < |inputs| => Head(inputs[i]));
    var rest := seq(|inputs|, i requires 0 <= i < |inputs| => Tail(inputs[i]));
    PendingStart(inputs, last, rest);
    if forall i :: 0 <= i < |inputs| ==> Sorted(inputs[i]) {
      StartOrdered(inputs, last, rest);
    }
    yielded := MergeHeads(last, rest);
  }

  /** The loop of `sorted_merge_k_intervals`: while some head is left, yield
      the smallest (the last of equal ones) and read the next interval of the
      input it came from. What is yielded is exactly what was pending, and it
      is sorted when every input is sorted and starts no lower than its head. */
  method MergeHeads(last0: seq<Option<Interval>>, rest0: seq<seq<Interval>>) returns (yielded: seq<Interval>)
    requires |last0| == |rest0| && Exhausted(last0, rest0)
    ensures multiset(yielded) == Pending(last0, rest0)
    ensures HeadsOrdered(last0, rest0) ==> Sorted(yielded)
  {
    var last, rest := last0, rest0;
    ghost var sorted := HeadsOrdered(last0, rest0);
    yielded := [];
    var opt := FirstSome(last);
    while AnyHead(last)
      invariant |last| == |rest| == |last0|
      invariant multiset(yielded) + Pending(last, rest) == Pending(last0, rest0)
      invariant Exhausted(last, rest)
      invariant sorted ==> HeadsOrdered(last, rest) && Sorted(yielded) && BelowHeads(yielded, last)
      invariant StartsAt(last, opt)
      decreases |Pending(last, rest)|
    {
      opt := ScanSmallest(last, opt);
      if opt.Some? {
        var (pos, smallest) := opt.value;
        Round(yielded, last, rest, pos, smallest, sorted, Pending(last0, rest0));
        yielded := yielded + [smallest];
        opt := None;
        last := last[pos := Head(rest[pos])];
        rest := rest[pos := Tail(rest[pos])];
      }
    }
    PendingEmpty(last, rest);
  }

  /** `merge_k_overlapping_intervals`: re-yields what merging the k-way
      merge yields. When every input is sorted, the result is the merge of
      the one sorted arrangement of all the input intervals. */
  method MergeKOverlapping(inputs: seq<seq<Interval>>) returns (yielded: seq<Interval>)
    ensures (forall i :: 0 <= i < |inputs| ==> Sorted(inputs[i])) ==>
              forall s :: Sorted(s) && multiset(s) == Total(inputs) ==> yielded == MergeAll(s)
  {
    var all := SortedMergeK(inputs);
    var merged := MergeOverlappingIntervals(all);
    yielded := [];
    for k := 0 to |merged|
      invariant yielded == merged[..k]
    {
      yielded := yielded + [merged[k]];
    }
    assert yielded == merged;
    if forall i :: 0 <= i < |inputs| ==> Sorted(inputs[i]) {
      forall s | Sorted(s) && multiset(s) == Total(inputs)
        ensures yielded == MergeAll(s)
      {
        SortedUnique(s, all);
      }
    }
  }

  /** A sorted arrangement of a multiset of intervals is unique, since the
      derived order is total and antisymmetric. */
  lemma {:induction false} SortedUnique(a: seq<Interval>, b: seq<Interval>)
    requires Sorted(a) && Sorted(b) && multiset(a) == multiset(b)
    ensures a == b
  {
    if a == [] {
      assert |multiset(b)| == 0;
    } else {
      assert |multiset(b)| == |a|;
      HeadIsLeast(b, a[0]);
      HeadIsLeast(a, b[0]);
      assert a[0] == b[0];
      assert multiset(a) == multiset(a[1..]) + multiset{a[0]} by {
        assert a == [a[0]] + a[1..];
      }
      assert multiset(b) == multiset(b[1..]) + multiset{a[0]} by {
        assert b == [b[0]] + b[1..];
      }
      UnionCancel(multiset(a[1..]), multiset(b[1..]), multiset{a[0]});
      SortedTail(a);
      SortedTail(b);
      SortedUnique(a[1..], b[1..]);
      assert a == [a[0]] + a[1..] && b == [b[0]] + b[1..];
    }
  }

  lemma HeadIsLeast(s: seq<Interval>, x: Interval)
    requires Sorted(s) && x in multiset(s)
    ensures Le(s[0], x)
  {
    var k :| 0 <= k < |s| && s[k] == x;
    assert k == 0 || Le(s[0], s[k]);
  }

  lemma SortedTail(s: seq<Interval>)
    requires Sorted(s) && s != []
    ensures Sorted(s[1..])
  {
    assert forall i :: 0 <= i < |s| - 1 ==> s[1..][i] == s[i + 1];
  }

  /** Putting an interval no greater than the head in front keeps a
      sequence sorted. */
  lemma SortedCons(x: Interval, t: seq<Interval>)
    requires Sorted(t) && (t != [] ==> Le(x, t[0]))
    ensures Sorted([x] + t)
  {
    var s := [x] + t;
    forall i, j | 0 <= i < j < |s|
      ensures Le(s[i], s[j])
    {
      assert s[j] == t[j - 1];
      if i > 0 {
        assert s[i] == t[i - 1];
      } else if j > 1 {
        assert Le(t[0], t[j - 1]);
      }
    }
  }

  lemma TotalOfThree(x: seq<Interval>, y: seq<Interval>, z: seq<Interval>)
    ensures Total([x, y, z]) == multiset(x) + multiset(y) + multiset(z)
  {
    assert [x, y, z][1..] == [y, z] && [y, z][1..] == [z] && [z][1..] == [];
    assert Total([z]) == multiset(z);
    assert Total([y, z]) == multiset(y) + multiset(z);
  }

  /** The three inputs of the k-way tests; the third one's second interval
      differs between the two tests. */
  function KInputs(last: Interval): seq<seq<Interval>> {
    [[Interval(1, 2), Interval(8, 10)],
     [Interval(1, 4), Interval(2, 4), Interval(9, 11)],
     [Interval(5, 6), last]]
  }

  /** All the intervals of `KInputs(last)` in sorted order, when `last`
      comes after (9, 11). */
  function KSorted(last: Interval): seq<Interval> {
    [Interval(1, 2), Interval(1, 4), Interval(2, 4), Interval(5, 6),
     Interval(8, 10), Interval(9, 11), last]
  }

  lemma KInputsFacts(last: Interval)
    requires Le(Interval(9, 11), last)
    ensures forall i :: 0 <= i < |KInputs(last)| ==> Sorted(KInputs(last)[i])
    ensures Sorted(KSorted(last))
    ensures Total(KInputs(last)) == multiset(KSorted(last))
  {
    KInputsSorted(last);
    KSortedSorted(last);
    KTotal(last);
  }

  lemma KTotal(last: Interval)
    ensures Total(KInputs(last)) == multiset(KSorted(last))
  {
    var ins := KInputs(last);
    var a, bc, d := [Interval(1, 2)], [Interval(1, 4), Interval(2, 4)], [Interval(5, 6)];
    var e, f, g := [Interval(8, 10)], [Interval(9, 11)], [last];
    KPieces(last);
    TotalOfThree(ins[0], ins[1], ins[2]);
    Interleave(multiset(a), multiset(bc), multiset(d), multiset(e), multiset(f), multiset(g));
  }

  /** The example inputs and their sorted arrangement cut into the same
      pieces. */
  lemma KPieces(last: Interval)
    ensures var ins := KInputs(last);
            var a, bc, d := [Interval(1, 2)], [Interval(1, 4), Interval(2, 4)], [Interval(5, 6)];
            var e, f, g := [Interval(8, 10)], [Interval(9, 11)], [last];
            ins == [a + e, bc + f, d + g] && KSorted(last) == a + bc + d + e + f + g
  {
    var k := KSorted(last);
    assert [Interval(1, 2)] + [Interval(1, 4), Interval(2, 4)] == k[..3];
    assert k[..3] + [Interval(5, 6)] == k[..4];
    assert k[..4] + [Interval(8, 10)] == k[..5];
    assert k[..5] + [Interval(9, 11)] == k[..6];
    assert k[..6] + [last] == k;
    assert [Interval(1, 2)] + [Interval(8, 10)] == KInputs(last)[0];
    assert [Interval(1, 4), Interval(2, 4)] + [Interval(9, 11)] == KInputs(last)[1];
    assert [Interval(5, 6)] + [last] == KInputs(last)[2];
  }

  lemma Interleave<T>(a: multiset<T>, bc: multiset<T>, d: multiset<T>, e: multiset<T>, f: multiset<T>, g: multiset<T>)
    ensures (a + e) + (bc + f) + (d + g) == a + bc + d + e + f + g
  {
  }

  lemma KInputsSorted(last: Interval)
    requires Le(Interval(9, 11), last)
    ensures forall i :: 0 <= i < |KInputs(last)| ==> Sorted(KInputs(last)[i])
  {
    var ins := KInputs(last);
    forall i | 0 <= i < |ins|
      ensures Sorted(ins[i])
    {
      if i == 0 {
        SortedCons(Interval(8, 10), []);
        SortedCons(Interval(1, 2), [Interval(8, 10)]);
        assert ins[0] == [Interval(1, 2)] + [Interval(8, 10)];
      } else if i == 1 {
        SortedCons(Interval(9, 11), []);
        SortedCons(Interval(2, 4), [Interval(9, 11)]);
        SortedCons(Interval(1, 4), [Interval(2, 4), Interval(9, 11)]);
        assert ins[1] == [Interval(1, 4)] + [Interval(2, 4), Interval(9, 11)];
      } else {
        SortedCons(last, []);
        SortedCons(Interval(5, 6), [last]);
        assert ins[2] == [Interval(5, 6)] + [last];
      }
    }
  }

  lemma KSortedSorted(last: Interval)
    requires Le(Interval(9, 11), last)
    ensures Sorted(KSorted(last))
  {
    var e := KSorted(last);
    SortedCons(e[6], []);
    assert e[6..] == [e[6]] + [];
    SortedCons(e[5], e[6..]);
    assert e[5..] == [e[5]] + e[6..];
    SortedCons(e[4], e[5..]);
    assert e[4..] == [e[4]] + e[5..];
    SortedCons(e[3], e[4..]);
    assert e[3..] == [e[3]] + e[4..];
    SortedCons(e[2], e[3..]);
    assert e[2..] == [e[2]] + e[3..];
    SortedCons(e[1], e[2..]);
    assert e[1..] == [e[1]] + e[2..];
    SortedCons(e[0], e[1..]);
    assert e == [e[0]] + e[1..];
  }

  /** tests/merge_overlapping_intervals.rs:218-243. */
  method SortedMergeKExample() returns (r: seq<Interval>)
    ensures r == [Interval(1, 2), Interval(1, 4), Interval(2, 4), Interval(5, 6),
                  Interval(8, 10), Interval(9, 11), Interval(12, 14)]
  {
    KInputsFacts(Interval(12, 14));
    r := SortedMergeK(KInputs(Interval(12, 14)));
    SortedUnique(r, KSorted(Interval(12, 14)));
  }

  lemma MergeKExampleMerged()
    ensures MergeAll(KSorted(Interval(11, 14))) == [Interval(1, 4), Interval(5, 6), Interval(8, 14)]
  {
    var all := KSorted(Interval(11, 14));
    assert MergeFrom(Interval(8, 11), all[6..]) == [Interval(8, 14)];
    assert MergeFrom(Interval(8, 10), all[5..]) == [Interval(8, 14)];
    assert MergeFrom(Interval(5, 6), all[4..]) == [Interval(5, 6), Interval(8, 14)];
    assert MergeFrom(Interval(1, 4), all[3..]) == [Interval(1, 4), Interval(5, 6), Interval(8, 14)];
    assert MergeFrom(Interval(1, 4), all[2..]) == [Interval(1, 4), Interval(5, 6), Interval(8, 14)];
  }

  /** tests/merge_overlapping_intervals.rs:245-266. */
  method MergeKOverlappingExample() returns (r: seq<Interval>)
    ensures r == [Interval(1, 4), Interval(5, 6), Interval(8, 14)]
  {
    KInputsFacts(Interval(11, 14));
    r := MergeKOverlapping(KInputs(Interval(11, 14)));
    MergeKExampleMerged();
  }

  /** One round of the loop of `SortedMergeK` keeps its invariants and
      leaves one interval fewer pending. */
  lemma Round(yielded: seq<Interval>, last: seq<Option<Interval>>, rest: seq<seq<Interval>>,
              pos: nat, smallest: Interval, sorted: bool, total: multiset<Interval>)
    requires |last| == |rest| && pos < |last| && last[pos] == Some(smallest)
    requires forall j :: 0 <= j < |last| && last[j].Some? ==> Le(smallest, last[j].value)
    requires multiset(yielded) + Pending(last, rest) == total
    requires Exhausted(last, rest)
    requires sorted ==> HeadsOrdered(last, rest) && Sorted(yielded) && BelowHeads(yielded, last)
    ensures var last' := last[pos := Head(rest[pos])];
            var rest' := rest[pos := Tail(rest[pos])];
            var yielded' := yielded + [smallest];
            && multiset(yielded') + Pending(last', rest') == total
            && |Pending(last', rest')| < |Pending(last, rest)|
            && Exhausted(last', rest')
            && (sorted ==> HeadsOrdered(last', rest') && Sorted(yielded') && BelowHeads(yielded', last'))
  {
    YieldSmallest(yielded, last, rest, pos, smallest, sorted);
    PendingAdvance(last, rest, pos, smallest);
    assert multiset(yielded + [smallest]) == multiset(yielded) + multiset{smallest};
  }

  /** Once every head is gone nothing is pending. */
  lemma {:induction false} PendingEmpty(last: seq<Option<Interval>>, rest: seq<seq<Interval>>)
    requires |last| == |rest| && Exhausted(last, rest)
    requires forall i :: 0 <= i < |last| ==> last[i].None?
    ensures Pending(last, rest) == multiset{}
  {
    if last != [] {
      assert last[0].None? && rest[0] == [];
      PendingEmpty(last[1..], rest[1..]);
    }
  }

  lemma StartOrdered(inputs: seq<seq<Interval>>, last: seq<Option<Interval>>, rest: seq<seq<Interval>>)
    requires |last| == |rest| == |inputs|
    requires forall i :: 0 <= i < |inputs| ==> last[i] == Head(inputs[i]) && rest[i] == Tail(inputs[i])
    requires forall i :: 0 <= i < |inputs| ==> Sorted(inputs[i])
    ensures HeadsOrdered(last, rest)
  {
    forall i | 0 <= i < |inputs|
      ensures Sorted(rest[i]) && (last[i].None? ==> rest[i] == [])
              && (last[i].Some? ==> forall j :: 0 <= j < |rest[i]| ==> Le(last[i].value, rest[i][j]))
    {
      assert Sorted(inputs[i]);
      if inputs[i] != [] {
        assert forall j :: 0 <= j < |rest[i]| ==> rest[i][j] == inputs[i][j + 1];
      }
    }
  }

  /** One round of the loop keeps the result sorted, the heads above it and
      the exhausted inputs empty. */
  lemma YieldSmallest(yielded: seq<Interval>, last: seq<Option<Interval>>, rest: seq<seq<Interval>>,
                      pos: nat, smallest: Interval, sorted: bool)
    requires |last| == |rest| && pos < |last| && last[pos] == Some(smallest)
    requires forall j :: 0 <= j < |last| && last[j].Some? ==> Le(smallest, last[j].value)
    requires Exhausted(last, rest)
    requires sorted ==> HeadsOrdered(last, rest) && Sorted(yielded) && BelowHeads(yielded, last)
    ensures var last' := last[pos := Head(rest[pos])];
            var rest' := rest[pos := Tail(rest[pos])];
            && Exhausted(last', rest')
            && (sorted ==> HeadsOrdered(last', rest') && Sorted(yielded + [smallest])
                           && BelowHeads(yielded + [smallest], last'))
  {
    var last' := last[pos := Head(rest[pos])];
    var rest' := rest[pos := Tail(rest[pos])];
    assert Exhausted(last', rest');
    if sorted {
      var r := rest[pos];
      if r != [] {
        assert Le(smallest, r[0]);
        assert forall j :: 0 <= j < |Tail(r)| ==> Tail(r)[j] == r[j + 1];
      }
      assert HeadsOrdered(last', rest');
      var y := yielded + [smallest];
      if yielded != [] {
        assert Le(yielded[|yielded| - 1], smallest);
      }
      assert Sorted(y);
      assert BelowHeads(y, last');
    }
  }
}
