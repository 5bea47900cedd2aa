/** What the backtrack of `diffLines` returns: as many changed lines as rounds, texts and line
    numbers that sit where the walk is, and, when it reads the snapshot of its own round, a
    diff of the two files. */
module MyersScripts {
  import opened EditDistance
  import opened MyersDiff
  import opened Prelude

  /** The `run` lines that end at old line x and new line y agree. */
  ghost predicate RunMatches(a: Lines, b: Lines, x: int, y: int, run: nat)
    decreases run
  {
    run == 0 || (0 < x <= |a| && 0 < y <= |b| && a[x - 1] == b[y - 1] && RunMatches(a, b, x - 1, y - 1, run - 1))
  }

  lemma {:induction false} RunFree(a: Lines, b: Lines, x: nat, y: nat, run: nat)
    requires RunMatches(a, b, x, y, run)
    ensures run <= x && run <= y && Dist(a, b, x, y) == Dist(a, b, x - run, y - run)
    decreases run
  {
    if run > 0 { RunFree(a, b, x - 1, y - 1, run - 1); }
  }

  // ----- runs of unchanged lines -----

  lemma RunSplitsLast(a: Lines, x: int, run: nat, rest: seq<DiffLine>)
    requires run > 0
    ensures var es := rest + UnchangedRun(a, x, run);
      es[|es| - 1] == Unchanged(TextAt(a, x - 1), x) &&
      es[..|es| - 1] == rest + UnchangedRun(a, x - 1, run - 1)
  {
  }

  lemma {:induction false} ChangesOfRun(a: Lines, x: int, run: nat, rest: seq<DiffLine>)
    ensures Changes(rest + UnchangedRun(a, x, run)) == Changes(rest)
    decreases run
  {
    if run == 0 {
      assert rest + UnchangedRun(a, x, run) == rest;
    } else {
      RunSplitsLast(a, x, run, rest);
      ChangesOfRun(a, x - 1, run - 1, rest);
    }
  }

  lemma ChangedEntry(a: Lines, b: Lines, pv: seq<int>, dd: int, cx: int, cy: int)
    ensures !BackStep(a, b, pv, dd, cx, cy).entry.Unchanged?
  {
  }

  /** Every round of the backtrack shows exactly one changed line. */
  lemma {:induction false} BackChanges(a: Lines, b: Lines, trace: seq<seq<int>>, lag: nat, dd: nat, cx: int, cy: int)
    requires lag <= 1 && dd < |trace|
    ensures Changes(BackFrom(a, b, trace, lag, dd, cx, cy)) == dd
    decreases dd
  {
    if dd == 0 {
      var run := SlideLength(cx, cy, 0, 0);
      ChangesOfRun(a, cx, run, []);
      assert [] + UnchangedRun(a, cx, run) == UnchangedRun(a, cx, run);
    } else {
      hide BackStep;
      var s := BackStep(a, b, trace[dd - lag], dd, cx, cy);
      ChangedEntry(a, b, trace[dd - lag], dd, cx, cy);
      BackChanges(a, b, trace, lag, dd - 1, s.x, s.y);
      var rest := BackFrom(a, b, trace, lag, dd - 1, s.x, s.y);
      assert (rest + [s.entry])[..|rest|] == rest;
      ChangesOfRun(a, cx, s.run, rest + [s.entry]);
    }
  }

  lemma {:induction false} ScriptWithRun(a: Lines, b: Lines, rest: seq<DiffLine>, x: nat, y: nat, run: nat)
    requires x <= |a| && y <= |b|
    ensures IsScript(rest + UnchangedRun(a, x, run), a, b, x, y) <==>
            run <= x && run <= y && RunMatches(a, b, x, y, run) && IsScript(rest, a, b, x - run, y - run)
    decreases run
  {
    if run == 0 {
      assert rest + UnchangedRun(a, x, run) == rest;
    } else {
      RunSplitsLast(a, x, run, rest);
      if x > 0 && y > 0 {
        ScriptWithRun(a, b, rest, x - 1, y - 1, run - 1);
      }
    }
  }

  /** The diff of one round: what precedes it, one changed line, a run. */
  lemma ScriptOfStep(a: Lines, b: Lines, rest: seq<DiffLine>, s: Step, x: nat, y: nat)
    requires x <= |a| && y <= |b|
    requires if s.entry.Removed?
      then s.entry == Removed(TextAt(a, s.x), s.x + 1) && s.x == x - s.run - 1 && s.y == y - s.run
      else s.entry == Added(TextAt(b, s.y), s.y + 1) && s.x == x - s.run && s.y == y - s.run - 1
    ensures IsScript(rest + [s.entry] + UnchangedRun(a, x, s.run), a, b, x, y) <==>
            s.x >= 0 && s.y >= 0 && RunMatches(a, b, x, y, s.run) && IsScript(rest, a, b, s.x, s.y)
  {
    ScriptWithRun(a, b, rest + [s.entry], x, y, s.run);
    assert (rest + [s.entry])[..|rest|] == rest;
    if RunMatches(a, b, x, y, s.run) {
      RunFree(a, b, x, y, s.run);
    }
  }

  // ----- texts and line numbers always sit where the walk is -----

  ghost predicate Positioned(es: seq<DiffLine>, a: Lines, b: Lines, x: int, y: int)
    decreases |es|
  {
    es == [] ||
    var rest, last := es[..|es| - 1], es[|es| - 1];
    match last
    case Unchanged(t, no) => t == TextAt(a, x - 1) && no == x && Positioned(rest, a, b, x - 1, y - 1)
    case Removed(t, no) => t == TextAt(a, x - 1) && no == x && Positioned(rest, a, b, x - 1, y)
    case Added(t, no) => t == TextAt(b, y - 1) && no == y && Positioned(rest, a, b, x, y - 1)
  }

  lemma {:induction false} PositionedRun(a: Lines, b: Lines, rest: seq<DiffLine>, x: int, y: int, run: nat)
    requires Positioned(rest, a, b, x - run, y - run)
    ensures Positioned(rest + UnchangedRun(a, x, run), a, b, x, y)
    decreases run
  {
    if run == 0 {
      assert rest + UnchangedRun(a, x, run) == rest;
    } else {
      RunSplitsLast(a, x, run, rest);
      PositionedRun(a, b, rest, x - 1, y - 1, run - 1);
    }
  }

  /** Where one round of the backtrack ends, and what its changed line says. */
  lemma StepPositioned(a: Lines, b: Lines, pv: seq<int>, dd: int, cx: int, cy: int)
    ensures var s := BackStep(a, b, pv, dd, cx, cy);
      if s.entry.Removed?
      then s.entry == Removed(TextAt(a, s.x), s.x + 1) && s.x == cx - s.run - 1 && s.y == cy - s.run
      else s.entry == Added(TextAt(b, s.y), s.y + 1) && s.x == cx - s.run && s.y == cy - s.run - 1
  {
  }

  lemma PositionedEntry(a: Lines, b: Lines, rest: seq<DiffLine>, s: Step, x: int, y: int)
    requires Positioned(rest, a, b, s.x, s.y)
    requires if s.entry.Removed?
      then s.entry == Removed(TextAt(a, s.x), s.x + 1) && s.x == x - 1 && s.y == y
      else s.entry == Added(TextAt(b, s.y), s.y + 1) && s.x == x && s.y == y - 1
    ensures Positioned(rest + [s.entry], a, b, x, y)
  {
    assert (rest + [s.entry])[..|rest|] == rest;
  }

  lemma HeadPositioned(a: Lines, b: Lines, cx: int, cy: int, run: nat)
    ensures Positioned(UnchangedRun(a, cx, run), a, b, cx, cy)
  {
    PositionedRun(a, b, [], cx, cy, run);
    assert [] + UnchangedRun(a, cx, run) == UnchangedRun(a, cx, run);
  }

  lemma {:induction false} BackPositioned(a: Lines, b: Lines, trace: seq<seq<int>>, lag: nat, dd: nat, cx: int, cy: int)
    requires lag <= 1 && dd < |trace|
    ensures Positioned(BackFrom(a, b, trace, lag, dd, cx, cy), a, b, cx, cy)
    decreases dd
  {
    hide BackStep, Positioned;
    if dd == 0 {
      HeadPositioned(a, b, cx, cy, SlideLength(cx, cy, 0, 0));
    } else {
      var s := BackStep(a, b, trace[dd - lag], dd, cx, cy);
      var rest := BackFrom(a, b, trace, lag, dd - 1, s.x, s.y);
      assert BackFrom(a, b, trace, lag, dd, cx, cy) == rest + [s.entry] + UnchangedRun(a, cx, s.run);
      hide BackFrom;
      BackPositioned(a, b, trace, lag, dd - 1, s.x, s.y);
      StepPositioned(a, b, trace[dd - lag], dd, cx, cy);
      PositionedEntry(a, b, rest, s, cx - s.run, cy - s.run);
      PositionedRun(a, b, rest + [s.entry], cx, cy, s.run);
    }
  }

  /** A walk whose entries spell both files never left the grid: its texts and line numbers
      are all right. */
  lemma {:induction false} SpellsPositioned(es: seq<DiffLine>, a: Lines, b: Lines, x: nat, y: nat)
    requires x <= |a| && y <= |b| && Positioned(es, a, b, x, y) && Spells(es, a, b, x, y)
    ensures IsScript(es, a, b, x, y)
    decreases |es|
  {
    if es != [] {
      var rest, last := es[..|es| - 1], es[|es| - 1];
      if !last.Added? {
        assert OldSide(es)[|OldSide(rest)|] == last.text;
        assert OldSide(rest) == OldSide(es)[..x - 1] == Texts(a)[..x - 1];
      }
      if !last.Removed? {
        assert NewSide(es)[|NewSide(rest)|] == last.text;
        assert NewSide(rest) == NewSide(es)[..y - 1] == Texts(b)[..y - 1];
      }
      match last
      case Unchanged(_, _) => SpellsPositioned(rest, a, b, x - 1, y - 1);
      case Removed(_, _) => SpellsPositioned(rest, a, b, x - 1, y);
      case Added(_, _) => SpellsPositioned(rest, a, b, x, y - 1);
    }
  }

  ghost predicate Snapshots(a: Lines, b: Lines, trace: seq<seq<int>>) {
    1 <= |trace| <= |a| + |b| + 1 && forall r | 0 <= r < |trace| :: Snapshot(a, b, trace[r], r)
  }

  lemma SnapshotAt(a: Lines, b: Lines, v: seq<int>, round: nat, k: int)
    requires Snapshot(a, b, v, round) && Abs(k) < round <= |a| + |b| + 1 && Even(round - 1 - k)
    ensures Furthest(a, b, round - 1, k, v[k + (|a| + |b|)])
  {
    assert Cell(a, b, round, k, v[k + (|a| + |b|)]);
  }

  // ----- reading the snapshot of the round -----

  lemma {:induction false} SlideMatches(a: Lines, b: Lines, d: int, k: int, left: int, right: int, x0: int, x: int)
    requires StartsAt(a, b, d, k, left, right, x0)
    requires 0 <= x0 <= x <= |a| && 0 <= x0 - k && x - k <= |b| && Dist(a, b, x, x - k) <= d
    ensures RunMatches(a, b, x, x - k, x - x0)
    decreases x - x0
  {
    if x > x0 {
      if !Match(a, b, x - 1, x - 1 - k) {
        MismatchCosts(a, b, d, k, left, right, x0, x - 1);
      }
      SlideMatches(a, b, d, k, left, right, x0, x - 1);
    }
  }

  /** What one round of the backtrack does when both neighbours are read as numbers and the
      walk has not yet passed where the slide started. */
  lemma StepValue(a: Lines, b: Lines, pv: seq<int>, dd: int, cx: int, cy: int, left: int, right: int, x0: int)
    requires var k, max := cx - cy, |a| + |b|;
      && 1 <= dd && -dd <= k <= dd
      && (k > -dd ==> Lookup(pv, k - 1 + max) == Some(left))
      && (k < dd ==> Lookup(pv, k + 1 + max) == Some(right))
      && x0 == (if k == -dd || (k != dd && left < right) then right else left + 1)
      && x0 <= cx
    ensures var s := BackStep(a, b, pv, dd, cx, cy);
      var k := cx - cy;
      && s.run == cx - x0
      && (if k == -dd || (k != dd && left < right)
          then s.x == x0 && s.y == x0 - k - 1 && s.entry == Added(TextAt(b, s.y), s.y + 1)
          else s.x == x0 - 1 && s.y == x0 - k && s.entry == Removed(TextAt(a, s.x), s.x + 1))
  {
  }

  /** The point the mended backtrack must step to, with the reason why it can. Diagonal
      cx - cy is dd - 2 * h when h of the dd remaining changes are additions. */
  lemma MendedStart(a: Lines, b: Lines, pv: seq<int>, dd: int, h: int, cx: nat, cy: nat) returns (left: int, right: int, x0: int)
    requires 1 <= dd <= |a| + |b| && Snapshot(a, b, pv, dd)
    requires cx - cy == dd - 2 * h && 0 <= h <= dd && Furthest(a, b, dd, cx - cy, cx)
    ensures StartsAt(a, b, dd, cx - cy, left, right, x0) && 0 <= x0 <= cx && 0 <= x0 - (cx - cy)
    ensures h < dd ==> Lookup(pv, cx - cy - 1 + (|a| + |b|)) == Some(left)
    ensures h > 0 ==> Lookup(pv, cx - cy + 1 + (|a| + |b|)) == Some(right)
  {
    hide Dist;
    var max, k := |a| + |b|, cx - cy;
    left, right := 0, 0;
    if h < dd {
      SnapshotAt(a, b, pv, dd, k - 1);
      left := pv[k - 1 + max];
    }
    if h > 0 {
      SnapshotAt(a, b, pv, dd, k + 1);
      right := pv[k + 1 + max];
    }
    x0 := if k == -dd || (k != dd && left < right) then right else left + 1;
    StartReachable(a, b, dd, k, left, right, x0);
    FurthestBound(a, b, dd, k, cx, x0);
  }

  /** One round with the right snapshot steps onto the furthest point of the round before. */
  lemma MendedStep(a: Lines, b: Lines, pv: seq<int>, dd: int, h: int, cx: nat, cy: nat) returns (h': int)
    requires 1 <= dd <= |a| + |b| && Snapshot(a, b, pv, dd)
    requires cx <= |a| && cy <= |b| && cx - cy == dd - 2 * h && 0 <= h <= dd
    requires Furthest(a, b, dd, cx - cy, cx)
    ensures var s := BackStep(a, b, pv, dd, cx, cy);
      && RunMatches(a, b, cx, cy, s.run)
      && 0 <= s.x <= cx && 0 <= s.y <= cy
      && Furthest(a, b, dd - 1, s.x - s.y, s.x)
      && s.x - s.y == dd - 1 - 2 * h' && 0 <= h' <= dd - 1
  {
    hide Dist, Snapshot;
    var left, right, x0 := MendedStart(a, b, pv, dd, h, cx, cy);
    SlideMatches(a, b, dd, cx - cy, left, right, x0, cx);
    StepValue(a, b, pv, dd, cx, cy, left, right, x0);
    h' := if h == dd || (h != 0 && left < right) then h - 1 else h;
  }

  lemma BackUnfolds(a: Lines, b: Lines, trace: seq<seq<int>>, lag: nat, dd: nat, cx: nat, cy: nat)
    requires lag <= 1 && 0 < dd < |trace| && cx <= |a| && cy <= |b|
    ensures var s := BackStep(a, b, trace[dd - lag], dd, cx, cy);
      IsScript(BackFrom(a, b, trace, lag, dd, cx, cy), a, b, cx, cy) <==>
      s.x >= 0 && s.y >= 0 && RunMatches(a, b, cx, cy, s.run) &&
      IsScript(BackFrom(a, b, trace, lag, dd - 1, s.x, s.y), a, b, s.x, s.y)
  {
    var s := BackStep(a, b, trace[dd - lag], dd, cx, cy);
    ScriptOfStep(a, b, BackFrom(a, b, trace, lag, dd - 1, s.x, s.y), s, cx, cy);
  }

  lemma {:induction false} ZeroMatches(a: Lines, b: Lines, x: nat)
    requires x <= |a| && x <= |b| && Dist(a, b, x, x) == 0
    ensures RunMatches(a, b, x, x, x)
    decreases x
  {
    if x > 0 { ZeroMatches(a, b, x - 1); }
  }

  lemma MendedBase(a: Lines, b: Lines, trace: seq<seq<int>>, lag: nat, cx: nat, cy: nat)
    requires lag <= 1 && 1 <= |trace| && cx <= |a| && cx == cy <= |b| && Dist(a, b, cx, cy) == 0
    ensures IsScript(BackFrom(a, b, trace, lag, 0, cx, cy), a, b, cx, cy)
  {
    ZeroMatches(a, b, cx);
    ScriptWithRun(a, b, [], cx, cy, cx);
    assert [] + UnchangedRun(a, cx, cx) == UnchangedRun(a, cx, cx);
  }

  lemma FurthestBase(a: Lines, b: Lines, cx: nat, cy: nat)
    requires Furthest(a, b, 0, cx - cy, cx)
    ensures Dist(a, b, cx, cy) == 0
  {
  }

  /** Reading `trace[dd]`, the backtrack returns a diff with right texts and numbers. */
  lemma {:induction false} MendedScript(a: Lines, b: Lines, trace: seq<seq<int>>, dd: nat, h: int, cx: nat, cy: nat)
    requires Snapshots(a, b, trace) && dd < |trace|
    requires cx <= |a| && cy <= |b| && cx - cy == dd - 2 * h && 0 <= h <= dd
    requires Furthest(a, b, dd, cx - cy, cx)
    ensures IsScript(BackFrom(a, b, trace, 0, dd, cx, cy), a, b, cx, cy)
    decreases dd
  {
    hide IsScript, BackFrom, RunMatches, BackStep, Snapshot, Furthest, Dist;
    if dd == 0 {
      FurthestBase(a, b, cx, cy);
      MendedBase(a, b, trace, 0, cx, cy);
    } else {
      var h' := MendedStep(a, b, trace[dd], dd, h, cx, cy);
      var s := BackStep(a, b, trace[dd], dd, cx, cy);
      MendedScript(a, b, trace, dd - 1, h', s.x, s.y);
      BackUnfolds(a, b, trace, 0, dd, cx, cy);
    }
  }
}
