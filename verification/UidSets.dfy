/** UID lists: sorted, duplicate-free, split into chunks, and written as IMAP sequence-set runs. */
module UidSets {
  import opened Prelude

  newtype u32 = x: int | 0 <= x < 0x1_0000_0000

  type Uid = u32

  const CHUNK_SIZE: nat := 200

  function AsSet(s: seq<Uid>): (r: set<Uid>)
    ensures r == Elements(s)
  {
    set u | u in s
  }

  ghost predicate Increasing(s: seq<Uid>) {
    forall i, j :: 0 <= i < j < |s| ==> s[i] < s[j]
  }

  lemma IncreasingIsDistinct(s: seq<Uid>)
    requires Increasing(s)
    ensures Distinct(s)
  {
  }

  lemma WithoutLast(s: seq<Uid>)
    requires Increasing(s) && s != []
    ensures Elements(s[..|s| - 1]) == Elements(s) - {s[|s| - 1]}
    ensures s[|s| - 1] in Elements(s)
  {
  }

  lemma {:induction false} SizeOfIncreasing(s: seq<Uid>)
    requires Increasing(s)
    ensures |Elements(s)| == |s|
  {
    if s != [] {
      var n := |s| - 1;
      SizeOfIncreasing(s[..n]);
      WithoutLast(s);
      assert Elements(s) == Elements(s[..n]) + {s[n]};
    } else {
      assert Elements(s) == {};
    }
  }

  lemma LastIsLargest(a: seq<Uid>, b: seq<Uid>)
    requires Increasing(a) && Elements(a) == Elements(b) && a != [] && b != []
    ensures b[|b| - 1] <= a[|a| - 1]
  {
    assert b[|b| - 1] in Elements(a);
    var i :| 0 <= i < |a| && a[i] == b[|b| - 1];
  }

  /** An increasing list is determined by its elements. */
  lemma {:induction false} SameIncreasing(a: seq<Uid>, b: seq<Uid>)
    requires Increasing(a) && Increasing(b) && Elements(a) == Elements(b)
    ensures a == b
  {
    SizeOfIncreasing(a);
    SizeOfIncreasing(b);
    if a != [] {
      var n := |a| - 1;
      LastIsLargest(a, b);
      LastIsLargest(b, a);
      WithoutLast(a);
      WithoutLast(b);
      SameIncreasing(a[..n], b[..n]);
      assert a == a[..n] + [a[n]] && b == b[..n] + [b[n]];
    }
  }

  /** `x` put in its place, unless it is there already. */
  function Place(s: seq<Uid>, x: Uid): (r: seq<Uid>)
    requires Increasing(s)
    ensures Increasing(r) && forall y :: y in r <==> y in s || y == x
  {
    if s == [] then [x]
    else
      var p, last := s[..|s| - 1], s[|s| - 1];
      assert s == p + [last];
      if last < x then s + [x]
      else if last == x then s
      else
        var q := Place(p, x);
        assert forall k :: 0 <= k < |q| ==> q[k] < last by {
          forall k | 0 <= k < |q| ensures q[k] < last {
            assert q[k] in q;
            if q[k] != x {
              var i :| 0 <= i < |p| && p[i] == q[k];
              assert s[i] < s[|s| - 1];
            }
          }
        }
        q + [last]
  }

  /** Sort and drop duplicates. */
  method SortDedup(uids: seq<Uid>) returns (sorted: seq<Uid>)
    ensures Increasing(sorted) && Elements(sorted) == Elements(uids)
  {
    sorted := [];
    for i := 0 to |uids|
      invariant Increasing(sorted) && Elements(sorted) == Elements(uids[..i])
    {
      assert uids[..i + 1] == uids[..i] + [uids[i]];
      ElementsAppend(uids[..i], [uids[i]]);
      var placed := Place(sorted, uids[i]);
      assert forall y :: y in placed <==> y in Elements(sorted) || y == uids[i];
      sorted := placed;
    }
    assert uids[..|uids|] == uids;
  }

  // ---------------------------------------------------------------- runs

  /** `lo` alone, or `lo:hi`. */
  datatype Run = Run(lo: Uid, hi: Uid)
  {
    predicate Covers(u: Uid) { lo <= u <= hi }
  }

  /** The UIDs a sequence-set names. */
  ghost predicate Names(runs: seq<Run>, u: Uid) {
    exists i :: 0 <= i < |runs| && runs[i].Covers(u)
  }

  ghost predicate Denotes(runs: seq<Run>, uids: set<Uid>) {
    forall u: Uid :: Names(runs, u) <==> u in uids
  }

  /** Non-empty runs in order, with at least one UID missing between neighbours. */
  ghost predicate Separated(runs: seq<Run>) {
    && (forall i :: 0 <= i < |runs| ==> runs[i].lo <= runs[i].hi)
    && (forall i, j :: 0 <= i < j < |runs| ==> runs[i].hi as int + 1 < runs[j].lo as int)
  }

  lemma RunAdds(runs: seq<Run>, sorted: seq<Uid>, first: nat, last: nat, run: Run)
    requires first <= last < |sorted|
    requires Denotes(runs, Elements(sorted[..first]))
    requires forall k :: first <= k <= last ==> sorted[k] as int == run.lo as int + (k - first)
    requires run.hi == sorted[last]
    ensures Denotes(runs + [run], Elements(sorted[..last + 1]))
  {
    var more := runs + [run];
    assert sorted[last] as int == run.lo as int + (last - first);
    forall u: Uid ensures Names(more, u) <==> u in Elements(sorted[..last + 1]) {
      if u in sorted[..last + 1] {
        var k :| 0 <= k < last + 1 && sorted[k] == u;
        if k < first {
          assert sorted[..first][k] == u && Names(runs, u);
          var i :| 0 <= i < |runs| && runs[i].Covers(u);
          assert more[i].Covers(u);
        } else {
          assert more[|runs|].Covers(u);
        }
      }
      if Names(more, u) {
        var i :| 0 <= i < |more| && more[i].Covers(u);
        if i < |runs| {
          assert runs[i].Covers(u);
          assert Names(runs, u) && u in Elements(sorted[..first]);
          var k :| 0 <= k < first && sorted[..first][k] == u;
          assert sorted[..last + 1][k] == u;
        } else {
          var k := first + (u as int - run.lo as int);
          assert sorted[..last + 1][k] == u;
        }
      }
    }
  }

  /** Coalesce a UID list into runs; the successor is never computed at the largest UID. */
  method CoalesceUids(uids: seq<Uid>) returns (runs: seq<Run>)
    ensures Denotes(runs, Elements(uids)) && Separated(runs)
  {
    var sorted := SortDedup(uids);
    runs := [];
    var i := 0;
    while i < |sorted|
      invariant 0 <= i <= |sorted|
      invariant Denotes(runs, Elements(sorted[..i])) && Separated(runs)
      invariant runs != [] ==> 0 < i && runs[|runs| - 1].hi == sorted[i - 1]
      invariant runs != [] && i < |sorted| ==> sorted[i - 1] as int + 1 < sorted[i] as int
    {
      var first := i;
      var start := sorted[i];
      var end := start;
      while i + 1 < |sorted| && sorted[i + 1] == end + 1
        invariant i + 1 < |sorted| ==> sorted[i] < sorted[i + 1]
        invariant first <= i < |sorted| && end == sorted[i] && start <= end
        invariant forall k :: first <= k <= i ==> sorted[k] as int == start as int + (k - first)
        decreases |sorted| - i
      {
        end := sorted[i + 1];
        i := i + 1;
      }
      RunAdds(runs, sorted, first, i, Run(start, end));
      runs := runs + [Run(start, end)];
      i := i + 1;
    }
    assert sorted[..|sorted|] == sorted;
  }

  // ---------------------------------------------------------------- fewest runs

  /** The successor of a run's end belongs to no run. */
  lemma GapAfter(runs: seq<Run>, i: nat, u: Uid)
    requires Separated(runs) && i < |runs| && u as int == runs[i].hi as int + 1
    ensures !Names(runs, u)
  {
  }

  /** Two of the runs never fit in one run of another sequence-set for the same UIDs. */
  lemma OneRunEach(runs: seq<Run>, other: seq<Run>, uids: set<Uid>, i: nat, j: nat, k: nat)
    requires Separated(runs) && Denotes(runs, uids) && Denotes(other, uids)
    requires i < j < |runs| && k < |other|
    ensures !(other[k].Covers(runs[i].lo) && other[k].Covers(runs[j].lo))
  {
    assert runs[i].hi as int + 1 < runs[j].lo as int;
    var gap := runs[i].hi + 1;
    GapAfter(runs, i, gap);
    if other[k].Covers(gap) { assert Names(other, gap); }
  }

  ghost function RunOf(other: seq<Run>, u: Uid): (k: nat)
    requires Names(other, u)
    ensures k < |other| && other[k].Covers(u)
  {
    var k: nat :| k < |other| && other[k].Covers(u);
    k
  }

  ghost predicate Starts(runs: seq<Run>, other: seq<Run>) {
    forall i :: 0 <= i < |runs| ==> Names(other, runs[i].lo)
  }

  ghost function Homes(runs: seq<Run>, other: seq<Run>): set<nat>
    requires Starts(runs, other)
  {
    set i | 0 <= i < |runs| :: RunOf(other, runs[i].lo)
  }

  lemma {:induction false} HomesCount(runs: seq<Run>, other: seq<Run>, n: nat)
    requires n <= |runs| && Starts(runs, other)
    requires forall i, j :: 0 <= i < j < |runs| ==> RunOf(other, runs[i].lo) != RunOf(other, runs[j].lo)
    ensures Starts(runs[..n], other) && |Homes(runs[..n], other)| == n
  {
    if n > 0 {
      HomesCount(runs, other, n - 1);
      var h := RunOf(other, runs[n - 1].lo);
      assert h !in Homes(runs[..n - 1], other);
      assert Homes(runs[..n], other) == Homes(runs[..n - 1], other) + {h};
    }
  }

  lemma {:induction false} BoundedSet(s: set<nat>, n: nat)
    requires forall x :: x in s ==> x < n
    ensures |s| <= n
  {
    if n == 0 {
      assert s == {};
    } else {
      BoundedSet(s - {n - 1}, n - 1);
    }
  }

  /** No sequence-set for the same UIDs has fewer runs. */
  lemma FewestRuns(runs: seq<Run>, other: seq<Run>, uids: set<Uid>)
    requires Separated(runs) && Denotes(runs, uids) && Denotes(other, uids)
    ensures |runs| <= |other|
  {
    forall i | 0 <= i < |runs| ensures Names(other, runs[i].lo) {
      assert runs[i].Covers(runs[i].lo);
      assert Names(runs, runs[i].lo);
    }
    forall i, j | 0 <= i < j < |runs| ensures RunOf(other, runs[i].lo) != RunOf(other, runs[j].lo) {
      OneRunEach(runs, other, uids, i, j, RunOf(other, runs[i].lo));
    }
    HomesCount(runs, other, |runs|);
    assert runs[..|runs|] == runs;
    BoundedSet(Homes(runs, other), |other|);
  }

  // ---------------------------------------------------------------- chunks

  function Flatten(chunks: seq<seq<Uid>>): seq<Uid> {
    if chunks == [] then [] else Flatten(chunks[..|chunks| - 1]) + chunks[|chunks| - 1]
  }

  lemma FlattenSnoc(chunks: seq<seq<Uid>>, chunk: seq<Uid>)
    ensures Flatten(chunks + [chunk]) == Flatten(chunks) + chunk
  {
  }

  /** Cut the sorted, duplicate-free list into full chunks and a last, shorter one. */
  method ChunkUids(uids: seq<Uid>) returns (chunks: seq<seq<Uid>>)
    ensures Increasing(Flatten(chunks)) && Elements(Flatten(chunks)) == Elements(uids)
    ensures forall i :: 0 <= i < |chunks| ==> 0 < |chunks[i]| <= CHUNK_SIZE
    ensures forall i :: 0 <= i < |chunks| - 1 ==> |chunks[i]| == CHUNK_SIZE
  {
    var sorted := SortDedup(uids);
    chunks := [];
    var i := 0;
    while i < |sorted|
      invariant 0 <= i <= |sorted| && Flatten(chunks) == sorted[..i]
      invariant forall k :: 0 <= k < |chunks| ==> 0 < |chunks[k]| <= CHUNK_SIZE
      invariant forall k :: 0 <= k < |chunks| && i < |sorted| ==> |chunks[k]| == CHUNK_SIZE
      invariant forall k :: 0 <= k < |chunks| - 1 ==> |chunks[k]| == CHUNK_SIZE
    {
      var next := if |sorted| - i < CHUNK_SIZE then |sorted| else i + CHUNK_SIZE;
      FlattenSnoc(chunks, sorted[i..next]);
      assert sorted[..next] == sorted[..i] + sorted[i..next];
      chunks := chunks + [sorted[i..next]];
      i := next;
    }
    assert sorted[..|sorted|] == sorted;
  }

  function AllRuns(runs: seq<seq<Run>>): seq<Run> {
    if runs == [] then [] else AllRuns(runs[..|runs| - 1]) + runs[|runs| - 1]
  }

  lemma NamesAppend(a: seq<Run>, b: seq<Run>, u: Uid)
    ensures Names(a + b, u) <==> Names(a, u) || Names(b, u)
  {
    if Names(a, u) {
      var i :| 0 <= i < |a| && a[i].Covers(u);
      assert (a + b)[i].Covers(u);
    }
    if Names(b, u) {
      var i :| 0 <= i < |b| && b[i].Covers(u);
      assert (a + b)[|a| + i].Covers(u);
    }
  }

  /** The sequence-sets of all chunks together name exactly the UIDs of the whole list. */
  lemma {:induction false} ChunkRunsDenote(chunks: seq<seq<Uid>>, runs: seq<seq<Run>>)
    requires |runs| == |chunks| && forall i :: 0 <= i < |chunks| ==> Denotes(runs[i], Elements(chunks[i]))
    ensures Denotes(AllRuns(runs), Elements(Flatten(chunks)))
  {
    if chunks != [] {
      var n := |chunks| - 1;
      ChunkRunsDenote(chunks[..n], runs[..n]);
      ElementsAppend(Flatten(chunks[..n]), chunks[n]);
      forall u: Uid ensures Names(AllRuns(runs), u) <==> u in Elements(Flatten(chunks)) {
        NamesAppend(AllRuns(runs[..n]), runs[n], u);
      }
    }
  }
}
