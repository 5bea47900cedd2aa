/** The two whole programs: `diffLines` as written, and with the index of its snapshot mended. */
module DiffLines {
  import opened EditDistance
  import opened MyersDiff
  import opened MyersScripts
  import opened MyersLiteral

  /** On its own diagonal nothing past the corner is as cheap as the corner. */
  lemma CornerIsFurthest(a: Lines, b: Lines)
    ensures Furthest(a, b, Dist(a, b, |a|, |b|), |a| - |b|, |a|)
  {
    BeyondCorner(a, b, |a| + 1, |b| + 1);
  }

  /** With the snapshot of the right round the backtrack's result is a shortest diff. */
  lemma MendedIsShortest(a: Lines, b: Lines, trace: seq<seq<int>>, d: nat)
    requires Snapshots(a, b, trace) && |trace| == d + 1 && d == Dist(a, b, |a|, |b|)
    ensures var es := BackFrom(a, b, trace, 0, d, |a|, |b|);
      && IsScript(es, a, b, |a|, |b|) && Spells(es, a, b, |a|, |b|) && Changes(es) == d
      && forall fs :: Spells(fs, a, b, |a|, |b|) ==> Changes(es) <= Changes(fs)
  {
    hide IsScript, Snapshot, Spells;
    var m, n := |a|, |b|;
    var h := HalfDiagonal(a, b);
    CornerIsFurthest(a, b);
    MendedScript(a, b, trace, d, h, m, n);
    var es := BackFrom(a, b, trace, 0, d, m, n);
    ScriptSpells(es, a, b, m, n);
    BackChanges(a, b, trace, 0, d, m, n);
    forall fs | Spells(fs, a, b, m, n)
      ensures Changes(es) <= Changes(fs)
    {
      NoShorterScript(fs, a, b, m, n);
    }
  }

  /** The result of the code's backtrack over snapshots of the search. */
  ghost predicate WalkedBack(a: Lines, b: Lines, result: seq<DiffLine>) {
    exists trace ::
      && Snapshots(a, b, trace) && |trace| == Changes(result) + 1
      && result == BackFrom(a, b, trace, 1, Changes(result), |a|, |b|)
  }

  /** FileViewer.tsx, lines 112-187, as written: step dd reads `trace[dd - 1]`. */
  method DiffAsWritten(a: Lines, b: Lines) returns (result: seq<DiffLine>)
    requires |a| + |b| >= 1
    ensures Spells(result, a, b, |a|, |b|) <==> OnlyFirstLineTouched(a, b)
    ensures IsScript(result, a, b, |a|, |b|) <==> OnlyFirstLineTouched(a, b)
    ensures Changes(result) == Dist(a, b, |a|, |b|)
    // Right or wrong, each entry has the text and number of the place where the walk stands.
    ensures Positioned(result, a, b, |a|, |b|)
    ensures WalkedBack(a, b, result)
  {
    var d, trace := Search(a, b);
    result := Backtrack(a, b, trace, d, 1);
    DistBounds(a, b, |a|, |b|);
    BackPositioned(a, b, trace, 1, d, |a|, |b|);
    LiteralCorrectExactly(a, b, trace, d);
  }

  /** The same program with step dd reading `trace[dd]`. */
  method DiffMended(a: Lines, b: Lines) returns (result: seq<DiffLine>)
    requires |a| + |b| >= 1
    ensures IsScript(result, a, b, |a|, |b|) && Spells(result, a, b, |a|, |b|)
    ensures forall es :: Spells(es, a, b, |a|, |b|) ==> Changes(result) <= Changes(es)
    ensures forall l: nat :: IsLongestCommon(l, a, b) ==> Changes(result) == |a| + |b| - 2 * l
  {
    var d, trace := Search(a, b);
    result := Backtrack(a, b, trace, d, 0);
    DistBounds(a, b, |a|, |b|);
    MendedIsShortest(a, b, trace, d);
    hide *;
    forall l: nat | IsLongestCommon(l, a, b)
      ensures Changes(result) == |a| + |b| - 2 * l
    {
      DistIsLongestCommon(a, b, l);
    }
  }

  lemma AppendedLineStep(pv: seq<int>)
    requires Snapshot(["a"], ["a", "b"], pv, 0)
    ensures BackStep(["a"], ["a", "b"], pv, 1, 1, 2) == Step(1, Added(Line("a"), 1), 0, 0)
  {
    var a, b := ["a"], ["a", "b"];
    StaleRead(a, b, pv, 1, 0);
    hide Snapshot;
    StepToZero(a, b, pv, 1, 1, 2);
  }

  /** A backtrack of one round that reads the snapshot of the first. */
  lemma OneRound(a: Lines, b: Lines, trace: seq<seq<int>>, lag: nat, dd: nat, x: int, y: int)
    requires lag == dd == 1 < |trace|
    ensures var s := BackStep(a, b, trace[0], dd, x, y);
      BackFrom(a, b, trace, lag, dd, x, y) ==
        UnchangedRun(a, s.x, SlideLength(s.x, s.y, 0, 0)) + [s.entry] + UnchangedRun(a, x, s.run)
  {
    hide BackStep, UnchangedRun, SlideLength;
  }

  lemma OneUnchanged(a: Lines)
    requires |a| == 1
    ensures UnchangedRun(a, 1, 1) == [Unchanged(Line(a[0]), 1)] && UnchangedRun(a, 0, 0) == []
  {
  }

  lemma AppendedLineBack(trace: seq<seq<int>>)
    requires Snapshots(["a"], ["a", "b"], trace) && |trace| == 2
    ensures BackFrom(["a"], ["a", "b"], trace, 1, 1, 1, 2) == [Added(Line("a"), 1), Unchanged(Line("a"), 1)]
  {
    var a, b := ["a"], ["a", "b"];
    assert Snapshot(a, b, trace[0], 0);
    hide Snapshots, Snapshot, BackStep, UnchangedRun, BackFrom;
    AppendedLineStep(trace[0]);
    OneUnchanged(a);
    OneRound(a, b, trace, 1, 1, 1, 2);
  }

  /** Adding a line at the end is enough to break it: the code shows the new line's text
      nowhere and the old line twice. */
  method AppendedLineIsLost() returns (result: seq<DiffLine>)
    ensures result == [Added(Line("a"), 1), Unchanged(Line("a"), 1)]
    ensures !OnlyFirstLineTouched(["a"], ["a", "b"])
  {
    var a, b := ["a"], ["a", "b"];
    result := DiffAsWritten(a, b);
    assert Dist(a, b, 0, 1) == 1 && Dist(a, b, 1, 1) == 0 && Dist(a, b, 1, 2) == 1;
    ghost var trace :| Snapshots(a, b, trace) && |trace| == Changes(result) + 1 &&
      result == BackFrom(a, b, trace, 1, Changes(result), |a|, |b|);
    AppendedLineBack(trace);
  }
}
