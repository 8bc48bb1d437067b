/** The index bookkeeping of the rewind history in game.js: the bounded
    buffer of snapshots (60 per second for 90 seconds), the checkpoint
    indices that mark each serve, the shift applied to both when the oldest
    frames are dropped, and the "skip to the previous checkpoint" rule of
    the rewind key. */
module History {
  import opened Util

  const HistoryFps := 60
  const Capacity := HistoryFps * 90

  /** One virtual frame of the rewind scrub, in seconds. */
  const RewindStep: real := 1.0 / 60.0

  /** Checkpoint indices in strictly increasing order. */
  predicate Increasing(cps: seq<int>) {
    forall i, j :: 0 <= i < j < |cps| ==> cps[i] < cps[j]
  }

  /** Every checkpoint names a frame of a history of length `n`. */
  predicate Below(cps: seq<int>, n: int) {
    forall i :: 0 <= i < |cps| ==> 0 <= cps[i] < n
  }

  // ---------------------------------------------------------------------
  // Overflow shift (captureSnapshot)
  // ---------------------------------------------------------------------

  /** `checkpointIndices.map(i => i - k).filter(i => i >= 0)`: each index
      moves down by the number of dropped frames, and those that pointed into
      the dropped frames are removed rather than clamped. */
  function ShiftCheckpoints(cps: seq<int>, k: int): (r: seq<int>)
    ensures forall x :: x in r <==> x >= 0 && x + k in cps
    ensures |r| <= |cps|
  {
    if cps == [] then []
    else (if cps[0] - k >= 0 then [cps[0] - k] else []) + ShiftCheckpoints(cps[1..], k)
  }

  /** The shift keeps checkpoints in increasing order. */
  lemma {:induction false} ShiftKeepsOrder(cps: seq<int>, k: int)
    requires Increasing(cps)
    ensures Increasing(ShiftCheckpoints(cps, k))
    decreases |cps|
  {
    if cps != [] {
      var rest := ShiftCheckpoints(cps[1..], k);
      IncreasingTail(cps);
      ShiftKeepsOrder(cps[1..], k);
      if cps[0] - k >= 0 {
        forall x | x in rest ensures cps[0] - k < x {
          var m :| 0 <= m < |cps[1..]| && cps[1..][m] == x + k;
          assert cps[m + 1] == x + k;
        }
        ConsIncreasing(cps[0] - k, rest);
      }
    }
  }

  /** After `k` of the oldest frames of a history of length `n` are dropped,
      the shifted checkpoints still name frames of the shorter history. */
  lemma ShiftKeepsBelow(cps: seq<int>, k: int, n: int)
    requires Below(cps, n)
    ensures Below(ShiftCheckpoints(cps, k), n - k)
  {
    var r := ShiftCheckpoints(cps, k);
    forall i | 0 <= i < |r| ensures 0 <= r[i] < n - k {
      assert r[i] in r;
      var m :| 0 <= m < |cps| && cps[m] == r[i] + k;
    }
  }

  /** The rewind target after the shift: it moves down by the same amount
      and is clamped at 0. A target inside the old history stays inside the
      trimmed one, and one past the dropped frames still names the same
      frame. */
  function ShiftTarget(t: Option<int>, k: int): (r: Option<int>)
    ensures r.None? <==> t.None?
    ensures r.Some? ==> r.value >= 0
    ensures t.Some? && t.value >= k ==> r.value + k == t.value
  {
    match t
    case None => None
    case Some(v) => Some(MaxInt(0, v - k))
  }

  /** A target inside a history of length `n` stays inside it once the
      `k` oldest frames are dropped (fewer than `n`). */
  lemma ShiftTargetInside(t: Option<int>, k: int, n: int)
    requires t.Some? && t.value < n && 0 <= k < n
    ensures ShiftTarget(t, k).value < n - k
  {
  }

  // ---------------------------------------------------------------------
  // Checkpoints past the end of a shortened history
  // ---------------------------------------------------------------------

  /** The checkpoints that still name frames of a history of length `n`. */
  function DropStale(cps: seq<int>, n: int): (r: seq<int>)
    ensures forall x :: x in r <==> x in cps && x < n
    ensures |r| <= |cps|
  {
    if cps == [] then []
    else (if cps[0] < n then [cps[0]] else []) + DropStale(cps[1..], n)
  }

  /** What survives names a frame of the shortened history. */
  lemma DropStaleBelow(cps: seq<int>, n: int)
    requires forall i :: 0 <= i < |cps| ==> cps[i] >= 0
    ensures Below(DropStale(cps, n), n)
  {
    var r := DropStale(cps, n);
    forall i | 0 <= i < |r| ensures 0 <= r[i] < n {
      assert r[i] in r;
    }
  }

  /** When the history is not shortened below any checkpoint, nothing is
      dropped. */
  lemma {:induction false} DropStaleNothing(cps: seq<int>, n: int)
    requires Below(cps, n)
    ensures DropStale(cps, n) == cps
    decreases |cps|
  {
    if cps != [] {
      assert Below(cps[1..], n) by {
        forall i | 0 <= i < |cps[1..]| ensures 0 <= cps[1..][i] < n {
          assert cps[1..][i] == cps[i + 1];
        }
      }
      DropStaleNothing(cps[1..], n);
      assert cps == [cps[0]] + cps[1..];
    }
  }

  /** Dropping stale checkpoints keeps the order. */
  lemma {:induction false} DropStaleKeepsOrder(cps: seq<int>, n: int)
    requires Increasing(cps)
    ensures Increasing(DropStale(cps, n))
    decreases |cps|
  {
    if cps != [] {
      var rest := DropStale(cps[1..], n);
      IncreasingTail(cps);
      DropStaleKeepsOrder(cps[1..], n);
      if cps[0] < n {
        forall x | x in rest ensures cps[0] < x {
          var m :| 0 <= m < |cps[1..]| && cps[1..][m] == x;
          assert cps[m + 1] == x;
        }
        ConsIncreasing(cps[0], rest);
      }
    }
  }

  /** The tail of an increasing sequence is increasing. */
  lemma IncreasingTail(cps: seq<int>)
    requires cps != [] && Increasing(cps)
    ensures Increasing(cps[1..])
  {
    forall i, j | 0 <= i < j < |cps[1..]| ensures cps[1..][i] < cps[1..][j] {
      assert cps[1..][i] == cps[i + 1] && cps[1..][j] == cps[j + 1];
    }
  }

  /** An element below every element of an increasing sequence can be put
      in front of it. */
  lemma ConsIncreasing(x: int, s: seq<int>)
    requires Increasing(s) && forall y :: y in s ==> x < y
    ensures Increasing([x] + s)
  {
    var r := [x] + s;
    forall i, j | 0 <= i < j < |r| ensures r[i] < r[j] {
      if i == 0 {
        assert r[j] == s[j - 1] && s[j - 1] in s;
      } else {
        assert r[i] == s[i - 1] && r[j] == s[j - 1];
      }
    }
  }

  // ---------------------------------------------------------------------
  // Skip to the previous checkpoint (the rewind key)
  // ---------------------------------------------------------------------

  /** `lastIndexOf`: the last position holding `x`, or -1. */
  function LastIndexOf(cps: seq<int>, x: int): (i: int)
    ensures -1 <= i < |cps|
    ensures i >= 0 ==> cps[i] == x && forall j :: i < j < |cps| ==> cps[j] != x
    ensures i == -1 <==> x !in cps
  {
    if cps == [] then -1
    else if cps[|cps| - 1] == x then |cps| - 1
    else LastIndexOf(cps[..|cps| - 1], x)
  }

  /** The last position holding a checkpoint at or before `x`, or -1. */
  function LastAtMost(cps: seq<int>, x: int): (i: int)
    ensures -1 <= i < |cps|
    ensures i >= 0 ==> cps[i] <= x && forall j :: i < j < |cps| ==> cps[j] > x
    ensures i == -1 <==> forall j :: 0 <= j < |cps| ==> cps[j] > x
  {
    if cps == [] then -1
    else if cps[|cps| - 1] <= x then |cps| - 1
    else LastAtMost(cps[..|cps| - 1], x)
  }

  /** The position the skip starts from: the last occurrence of the current
      target, otherwise the last checkpoint at or before it, otherwise 0. */
  function SkipFrom(cps: seq<int>, cur: int): int {
    var i := LastIndexOf(cps, cur);
    if i != -1 then i else MaxInt(0, LastAtMost(cps, cur))
  }

  /** The skip's search (game.js 725-731): `lastIndexOf`, and when the
      target is not a checkpoint, a forward scan that remembers the last
      checkpoint at or before it. */
  method SkipIndex(cps: seq<int>, cur: int) returns (idx: int)
    requires |cps| >= 1
    ensures idx == SkipFrom(cps, cur)
    ensures 0 <= idx < |cps|
  {
    idx := LastIndexOf(cps, cur);
    if idx == -1 {
      idx := 0;
      for i := 0 to |cps|
        invariant 0 <= idx < |cps|
        invariant idx == MaxInt(0, LastAtMost(cps[..i], cur))
      {
        assert cps[..i + 1][..i] == cps[..i];
        if cps[i] <= cur {
          idx := i;
        }
      }
      assert cps[..|cps|] == cps;
    }
  }

  /** The new target of a skip. */
  function SkipTarget(cps: seq<int>, cur: int): int
    requires |cps| >= 1
  {
    var idx := SkipFrom(cps, cur);
    cps[if idx - 1 < 0 then 0 else idx - 1]
  }

  /** A skip over ordered checkpoints lands on a checkpoint, never later
      than the current target when some checkpoint is at or before it, and
      strictly earlier unless the target already is the first checkpoint. */
  lemma SkipGoesBack(cps: seq<int>, cur: int)
    requires |cps| >= 1 && Increasing(cps)
    requires cps[0] <= cur
    ensures SkipTarget(cps, cur) in cps
    ensures SkipTarget(cps, cur) <= cur
    ensures SkipTarget(cps, cur) < cur || cur == cps[0]
  {
    var i := LastIndexOf(cps, cur);
    if i == -1 {
      var k := LastAtMost(cps, cur);
      assert k >= 0;
      assert cps[k] < cur;
    } else if i > 0 {
      assert cps[i - 1] < cps[i];
    }
  }

  // ---------------------------------------------------------------------
  // The scrub
  // ---------------------------------------------------------------------

  /** The history length and the checkpoints when a scrub is over. */
  datatype Scrubbed = Scrubbed(len: int, cps: seq<int>)

  /** The scrub loop of `updateRewind` as written (game.js 1325-1335), run
      until it reaches `target`: while the history runs past the target
      its last frame is popped, and the checkpoints are never touched. */
  function ScrubAsWritten(len: int, cps: seq<int>, target: int): (r: Scrubbed)
    requires 0 <= target
    ensures r.len == if len - 1 <= target then len else target + 1
    ensures r.cps == cps
    decreases len
  {
    if len - 1 <= target then Scrubbed(len, cps)
    else ScrubAsWritten(len - 1, cps, target)
  }

  /** The same loop with every pop also dropping the checkpoints past the
      new end of the history. */
  function Scrub(len: int, cps: seq<int>, target: int): (r: Scrubbed)
    requires 0 <= target
    ensures r.len == if len - 1 <= target then len else target + 1
    ensures len - 1 <= target ==> r.cps == cps
    ensures len - 1 > target ==> r.cps == DropStale(cps, target + 1)
    decreases len
  {
    if len - 1 <= target then Scrubbed(len, cps)
    else
      var next := DropStale(cps, len - 1);
      DropStaleTwice(cps, len - 1, target + 1);
      Scrub(len - 1, next, target)
  }

  /** Dropping the checkpoints past `n` and then past `m <= n` is dropping
      those past `m`. */
  lemma {:induction false} DropStaleTwice(cps: seq<int>, n: int, m: int)
    requires m <= n
    ensures DropStale(DropStale(cps, n), m) == DropStale(cps, m)
  {
    if cps != [] {
      DropStaleTwice(cps[1..], n, m);
      var head := if cps[0] < n then [cps[0]] else [];
      assert DropStale(cps, n) == head + DropStale(cps[1..], n);
      DropStaleConcat(head, DropStale(cps[1..], n), m);
    }
  }

  /** `DropStale` distributes over concatenation. */
  lemma {:induction false} DropStaleConcat(a: seq<int>, b: seq<int>, n: int)
    ensures DropStale(a + b, n) == DropStale(a, n) + DropStale(b, n)
  {
    if a != [] {
      assert (a + b)[1..] == a[1..] + b;
      DropStaleConcat(a[1..], b, n);
    } else {
      assert a + b == b;
    }
  }

  /** The corrected scrub keeps every checkpoint inside the history it
      leaves. */
  lemma ScrubKeepsBelow(len: int, cps: seq<int>, target: int)
    requires 0 <= target < len && Below(cps, len)
    ensures Below(Scrub(len, cps, target).cps, Scrub(len, cps, target).len)
  {
    if len - 1 > target {
      DropStaleBelow(cps, target + 1);
    }
  }

  /** A skip back from the last checkpoint, followed by a scrub, as the
      source does it: with checkpoints [0, 100] and a history longer than
      the second one, the history is cut down to the first frame while
      checkpoint 100 survives, so the next rewind is aimed at a frame that
      no longer exists (and a later serve appends a checkpoint out of
      order). The corrected scrub keeps the checkpoints inside the
      history. */
  lemma StaleCheckpointAfterSkip(len: int)
    requires len > 101
    ensures var cps := [0, 100];
      var target := SkipTarget(cps, cps[|cps| - 1]);
      && target == 0
      && ScrubAsWritten(len, cps, target) == Scrubbed(1, [0, 100])
      && !Below(ScrubAsWritten(len, cps, target).cps, ScrubAsWritten(len, cps, target).len)
      && Scrub(len, cps, target) == Scrubbed(1, [0])
      && Below(Scrub(len, cps, target).cps, Scrub(len, cps, target).len)
  {
    var cps := [0, 100];
    assert LastIndexOf(cps, 100) == 1;
    var target := SkipTarget(cps, 100);
    assert target == 0;
    var a := ScrubAsWritten(len, cps, target);
    assert a.len == 1 && a.cps == cps;
    var c := Scrub(len, cps, target);
    assert DropStale(cps[1..], 1) == [];
    assert c.len == 1 && c.cps == [0];
  }
}
