/** `diffLines` as it stands: the backtrack reads the snapshot of the round before the one
    it needs. Its result is a diff of the two files exactly when `OnlyFirstLineTouched`. */
module MyersLiteral {
  import opened EditDistance
  import opened MyersDiff
  import opened MyersScripts
  import opened Prelude

  /** The longest common suffix of the first x old and the first y new lines. */
  function CommonSuffix(a: Lines, b: Lines, x: nat, y: nat): (t: nat)
    requires x <= |a| && y <= |b|
    ensures t <= x && t <= y
  {
    if x > 0 && y > 0 && a[x - 1] == b[y - 1] then 1 + CommonSuffix(a, b, x - 1, y - 1) else 0
  }

  /** Once the longest common suffix is taken off both files, at most one old line is left,
      and it does not occur among the new lines that are left. */
  predicate OnlyFirstLineTouched(a: Lines, b: Lines) {
    var t := CommonSuffix(a, b, |a|, |b|);
    |a| - t <= 1 && (|a| - t == 1 ==> a[0] !in b[..|b| - t])
  }

  lemma {:induction false} SuffixOfRun(a: Lines, b: Lines, x: nat, y: nat, run: nat)
    requires x <= |a| && y <= |b| && RunMatches(a, b, x, y, run)
    ensures run <= x && run <= y
    ensures CommonSuffix(a, b, x, y) == run + CommonSuffix(a, b, x - run, y - run)
    decreases run
  {
    if run > 0 { SuffixOfRun(a, b, x - 1, y - 1, run - 1); }
  }

  lemma {:induction false} RunOfSuffix(a: Lines, b: Lines, x: nat, y: nat)
    requires x <= |a| && y <= |b|
    ensures RunMatches(a, b, x, y, CommonSuffix(a, b, x, y))
    decreases x
  {
    if CommonSuffix(a, b, x, y) > 0 { RunOfSuffix(a, b, x - 1, y - 1); }
  }

  /** One old line against the first y new lines. */
  lemma {:induction false} OneLineDist(a: Lines, b: Lines, y: nat)
    requires |a| >= 1 && y <= |b|
    ensures Dist(a, b, 1, y) == if a[0] in b[..y] then y - 1 else y + 1
    decreases y
  {
    if y > 0 {
      OneLineDist(a, b, y - 1);
      assert b[..y] == b[..y - 1] + [b[y - 1]];
    }
  }

  /** What the code reads for diagonal k in step dd: round dd - 3 at best. */
  lemma StaleRead(a: Lines, b: Lines, pv: seq<int>, dd: int, k: int)
    requires 1 <= dd <= |a| + |b| && Snapshot(a, b, pv, dd - 1) && Even(dd - 1 - k) && Abs(k) <= |a| + |b|
    ensures Lookup(pv, k + (|a| + |b|)).Some?
    ensures var x := Lookup(pv, k + (|a| + |b|)).value;
      if Abs(k) <= dd - 3 then Furthest(a, b, dd - 3, k, x) else x == 0
  {
    var x := pv[k + (|a| + |b|)];
    assert Cell(a, b, dd - 1, k, x);
    assert LastRound(dd - 1, k) == dd - 3;
  }

  // ----- the code's diff is right when only the first line is touched -----

  /** A step to diagonal 1 - dd that reads a 0 there ends at (0, dd - 1). */
  lemma StepToZero(a: Lines, b: Lines, pv: seq<int>, dd: int, cx: nat, cy: nat)
    requires PrevDiagonal(pv, |a| + |b|, dd, cx - cy) == 1 - dd && Lookup(pv, 1 - dd + (|a| + |b|)) == Some(0)
    requires cx - cy == -dd || (cx - cy == 2 - dd && cx >= 1)
    ensures var s := BackStep(a, b, pv, dd, cx, cy);
      s.x == 0 && s.y == dd - 1 && s.run == (if cx - cy == -dd then cx else cx - 1)
  {
  }

  /** With no old lines left, every step adds the next line of the new file's head. */
  lemma {:induction false} AddsTheRest(a: Lines, b: Lines, trace: seq<seq<int>>, dd: nat)
    requires Snapshots(a, b, trace) && dd < |trace| && dd <= |b|
    ensures IsScript(BackFrom(a, b, trace, 1, dd, 0, dd), a, b, 0, dd)
    decreases dd
  {
    if dd == 0 {
      MendedBase(a, b, trace, 1, 0, 0);
    } else {
      hide IsScript, Snapshot, Furthest, BackStep;
      StaleRead(a, b, trace[dd - 1], dd, 1 - dd);
      StepToZero(a, b, trace[dd - 1], dd, 0, dd);
      AddsTheRest(a, b, trace, dd - 1);
      BackUnfolds(a, b, trace, 1, dd, 0, dd);
    }
  }

  /** The first step is the one that matters: after it, only additions are left. */
  lemma FirstStepSuffices(a: Lines, b: Lines, trace: seq<seq<int>>, d: nat, run: nat)
    requires Snapshots(a, b, trace) && |trace| == d + 1 && 1 <= d <= |b| + 1
    requires PrevDiagonal(trace[d - 1], |a| + |b|, d, |a| - |b|) == 1 - d
    requires RunMatches(a, b, |a|, |b|, run)
    requires (|b| - |a| == d && run == |a|) || (|b| - |a| == d - 2 && run == |a| - 1)
    ensures IsScript(BackFrom(a, b, trace, 1, d, |a|, |b|), a, b, |a|, |b|)
  {
    hide IsScript, Snapshot, Furthest, BackStep, Dist;
    StaleRead(a, b, trace[d - 1], d, 1 - d);
    StepToZero(a, b, trace[d - 1], d, |a|, |b|);
    AddsTheRest(a, b, trace, d - 1);
    BackUnfolds(a, b, trace, 1, d, |a|, |b|);
  }

  lemma OnlyAdditions(a: Lines, b: Lines, trace: seq<seq<int>>, d: nat)
    requires Snapshots(a, b, trace) && |trace| == d + 1 && d == Dist(a, b, |a|, |b|)
    requires RunMatches(a, b, |a|, |b|, |a|)
    ensures IsScript(BackFrom(a, b, trace, 1, d, |a|, |b|), a, b, |a|, |b|)
  {
    hide IsScript, Snapshot;
    RunFree(a, b, |a|, |b|, |a|);
    if d == 0 {
      MendedBase(a, b, trace, 1, |a|, |b|);
    } else {
      FirstStepSuffices(a, b, trace, d, |a|);
    }
  }

  /** The comparison of line 144 between two values that are both 0. */
  lemma StaleTie(a: Lines, b: Lines, pv: seq<int>, d: int)
    requires 2 <= d <= |a| + |b| && Snapshot(a, b, pv, d - 1)
    requires |a| >= 1 && d <= |b| + 1 && a[0] !in b[..d - 1]
    ensures PrevDiagonal(pv, |a| + |b|, d, 2 - d) == 1 - d
  {
    var max := |a| + |b|;
    StaleRead(a, b, pv, d, 1 - d);
    StaleRead(a, b, pv, d, 3 - d);
    if d >= 3 {
      var x := Lookup(pv, 3 - d + max).value;
      assert b[..d - 2] <= b[..d - 1];
      assert a[0] !in b[..d - 2];
      OneLineDist(a, b, d - 2);
      FurthestBound(a, b, d - 3, 3 - d, x, 1);
    }
  }

  lemma OneRemoval(a: Lines, b: Lines, trace: seq<seq<int>>, d: nat)
    requires Snapshots(a, b, trace) && |trace| == d + 1 && d == Dist(a, b, |a|, |b|)
    requires |a| >= 1 && |b| >= |a| - 1 && RunMatches(a, b, |a|, |b|, |a| - 1)
    requires a[0] !in b[..|b| - (|a| - 1)]
    ensures IsScript(BackFrom(a, b, trace, 1, d, |a|, |b|), a, b, |a|, |b|)
  {
    hide IsScript, Snapshot;
    RunFree(a, b, |a|, |b|, |a| - 1);
    OneLineDist(a, b, |b| - (|a| - 1));
    if d > 1 {
      StaleTie(a, b, trace[d - 1], d);
    }
    FirstStepSuffices(a, b, trace, d, |a| - 1);
  }

  lemma LiteralSufficient(a: Lines, b: Lines, trace: seq<seq<int>>, d: nat)
    requires Snapshots(a, b, trace) && |trace| == d + 1 && d == Dist(a, b, |a|, |b|)
    requires OnlyFirstLineTouched(a, b)
    ensures IsScript(BackFrom(a, b, trace, 1, d, |a|, |b|), a, b, |a|, |b|)
  {
    RunOfSuffix(a, b, |a|, |b|);
    if CommonSuffix(a, b, |a|, |b|) == |a| {
      OnlyAdditions(a, b, trace, d);
    } else {
      OneRemoval(a, b, trace, d);
    }
  }

  // ----- and only then -----

  lemma StepToPoint(a: Lines, b: Lines, pv: seq<int>, dd: int, cx: int, cy: int, prevK: int, x: int)
    requires prevK == PrevDiagonal(pv, |a| + |b|, dd, cx - cy) && Lookup(pv, prevK + (|a| + |b|)) == Some(x)
    requires prevK == cx - cy - 1 ==> x + 1 <= cx
    requires prevK == cx - cy + 1 ==> x <= cx
    ensures prevK == cx - cy - 1 || prevK == cx - cy + 1
    ensures var s := BackStep(a, b, pv, dd, cx, cy); s.x == x && s.y == x - prevK
  {
  }

  /** A point three edits short of the corner, on a neighbouring diagonal, lies before it. */
  lemma TooCheap(a: Lines, b: Lines, x: nat, y: nat)
    requires Dist(a, b, x, y) + 3 <= Dist(a, b, |a|, |b|)
    ensures x - y == |a| - |b| - 1 ==> x + 1 < |a|
    ensures x - y == |a| - |b| + 1 ==> x < |a|
  {
    Lipschitz(a, b, x, y);
    if x - y == |a| - |b| - 1 && x + 1 >= |a| { DiagonalMonotone(a, b, |a|, |b|, x + 1 - |a|); }
    if x - y == |a| - |b| + 1 && x >= |a| { DiagonalMonotone(a, b, |a|, |b|, x - |a|); }
  }

  /** A step that reads a real entry of round d - 3 lands where d - 3 edits suffice. */
  lemma StaleStepLands(a: Lines, b: Lines, pv: seq<int>, d: int, prevK: int, x: int)
    requires d == Dist(a, b, |a|, |b|) && Furthest(a, b, d - 3, prevK, x)
    requires prevK == PrevDiagonal(pv, |a| + |b|, d, |a| - |b|) && Lookup(pv, prevK + (|a| + |b|)) == Some(x)
    ensures var s := BackStep(a, b, pv, d, |a|, |b|);
      s.x >= 0 && s.y >= 0 && Dist(a, b, s.x, s.y) <= d - 3
  {
    hide BackStep, Dist;
    TooCheap(a, b, x, x - prevK);
    StepToPoint(a, b, pv, d, |a|, |b|, prevK, x);
  }

  /** Where the code can go without reading such an entry. Here m - n == d - 2 * h. */
  lemma FreshDiagonal(a: Lines, b: Lines, pv: seq<int>, d: int, h: int, prevK: int)
    requires 1 <= d <= |a| + |b| && Snapshot(a, b, pv, d - 1)
    requires |a| - |b| == d - 2 * h && 0 <= h <= d
    requires prevK == PrevDiagonal(pv, |a| + |b|, d, |a| - |b|) && Abs(prevK) > d - 3
    ensures Lookup(pv, prevK + (|a| + |b|)) == Some(0)
    ensures (prevK == 1 - d && (h == d || h == d - 1)) || (prevK == d - 1 && h == 0)
  {
    var k, max := |a| - |b|, |a| + |b|;
    StaleRead(a, b, pv, d, prevK);
    if h != d { StaleRead(a, b, pv, d, k - 1); }
    if h != 0 { StaleRead(a, b, pv, d, k + 1); }
  }

  lemma HalfDiagonal(a: Lines, b: Lines) returns (h: int)
    ensures |a| - |b| == Dist(a, b, |a|, |b|) - 2 * h && 0 <= h <= Dist(a, b, |a|, |b|)
  {
    DistBounds(a, b, |a|, |b|);
    DistParity(a, b, |a|, |b|);
    h := (Dist(a, b, |a|, |b|) - (|a| - |b|)) / 2;
  }

  lemma StepIsOneEdit(a: Lines, b: Lines, pv: seq<int>, dd: int)
    ensures var s := BackStep(a, b, pv, dd, |a|, |b|);
      (s.x + 1 == |a| - s.run && s.y == |b| - s.run) || (s.x == |a| - s.run && s.y + 1 == |b| - s.run)
  {
  }

  /** A right diff leaves a rest that cannot be two edits too cheap. */
  lemma RestIsTight(a: Lines, b: Lines, trace: seq<seq<int>>, d: nat)
    requires Snapshots(a, b, trace) && |trace| == d + 1 && 1 <= d == Dist(a, b, |a|, |b|)
    requires IsScript(BackFrom(a, b, trace, 1, d, |a|, |b|), a, b, |a|, |b|)
    ensures var s := BackStep(a, b, trace[d - 1], d, |a|, |b|);
      && 0 <= s.x && 0 <= s.y && RunMatches(a, b, |a|, |b|, s.run)
      && Dist(a, b, s.x, s.y) >= d - 1
  {
    hide IsScript, Snapshot, Dist, BackFrom, RunMatches, BackStep;
    BackUnfolds(a, b, trace, 1, d, |a|, |b|);
    var s := BackStep(a, b, trace[d - 1], d, |a|, |b|);
    StepIsOneEdit(a, b, trace[d - 1], d);
    RunFree(a, b, |a|, |b|, s.run);
    Lipschitz(a, b, s.x, s.y);
  }

  /** A right diff whose first step removes or adds: what it says about the two files. */
  lemma FirstStepTouchesFirstLine(a: Lines, b: Lines, run: nat, d: nat)
    requires d == Dist(a, b, |a|, |b|) && RunMatches(a, b, |a|, |b|, run)
    requires (|b| - |a| == d && run == |a|) || (1 <= |a| && |b| - |a| == d - 2 && run == |a| - 1)
    ensures OnlyFirstLineTouched(a, b)
  {
    SuffixOfRun(a, b, |a|, |b|, run);
    if run == |a| - 1 {
      RunFree(a, b, |a|, |b|, run);
      OneLineDist(a, b, d - 1);
    }
  }

  lemma LiteralNecessary(a: Lines, b: Lines, trace: seq<seq<int>>, d: nat)
    requires Snapshots(a, b, trace) && |trace| == d + 1 && d == Dist(a, b, |a|, |b|)
    requires IsScript(BackFrom(a, b, trace, 1, d, |a|, |b|), a, b, |a|, |b|)
    ensures OnlyFirstLineTouched(a, b)
  {
    hide IsScript, Snapshot, OnlyFirstLineTouched, Dist, Furthest, BackFrom, RunMatches;
    var h := HalfDiagonal(a, b);
    if d == 0 {
      ZeroMatches(a, b, |a|);
      FirstStepTouchesFirstLine(a, b, |a|, 0);
    } else {
      RestIsTight(a, b, trace, d);
      var pv := trace[d - 1];
      var prevK := PrevDiagonal(pv, |a| + |b|, d, |a| - |b|);
      if Abs(prevK) <= d - 3 {
        StaleRead(a, b, pv, d, prevK);
        StaleStepLands(a, b, pv, d, prevK, Lookup(pv, prevK + (|a| + |b|)).value);
      } else {
        FreshDiagonal(a, b, pv, d, h, prevK);
        if |a| == 0 { DistBounds(a, b, 0, |b|); }
        StepToZero(a, b, pv, d, |a|, |b|);
        FirstStepTouchesFirstLine(a, b, BackStep(a, b, pv, d, |a|, |b|).run, d);
      }
    }
  }

  /** The code's backtrack spells both files exactly when only the first line was touched;
      its texts and line numbers are then right as well. */
  lemma LiteralCorrectExactly(a: Lines, b: Lines, trace: seq<seq<int>>, d: nat)
    requires Snapshots(a, b, trace) && |trace| == d + 1 && d == Dist(a, b, |a|, |b|)
    ensures var es := BackFrom(a, b, trace, 1, d, |a|, |b|);
      && (Spells(es, a, b, |a|, |b|) <==> OnlyFirstLineTouched(a, b))
      && (IsScript(es, a, b, |a|, |b|) <==> OnlyFirstLineTouched(a, b))
      && Changes(es) == d
  {
    hide IsScript, Snapshot, OnlyFirstLineTouched, Dist, Spells;
    var es := BackFrom(a, b, trace, 1, d, |a|, |b|);
    BackChanges(a, b, trace, 1, d, |a|, |b|);
    if OnlyFirstLineTouched(a, b) {
      LiteralSufficient(a, b, trace, d);
      ScriptSpells(es, a, b, |a|, |b|);
    }
    if Spells(es, a, b, |a|, |b|) {
      BackPositioned(a, b, trace, 1, d, |a|, |b|);
      SpellsPositioned(es, a, b, |a|, |b|);
    }
    if IsScript(es, a, b, |a|, |b|) {
      LiteralNecessary(a, b, trace, d);
    }
  }
}
