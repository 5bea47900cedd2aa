/** `diffLines` of FileViewer.tsx: the forward search over one in-place array with a
    snapshot per round, and the backtrack through the snapshots.

    The backtrack takes a parameter `lag`: the snapshot it reads in step dd is
    `trace[dd - lag]`. The code reads `trace[dd - 1]` (lag 1). Because a snapshot is
    pushed before its round, the one that step dd needs is `trace[dd]` (lag 0). */
module MyersDiff {
  import opened EditDistance
  import opened Prelude

  // ----- what the array holds -----

  /** x is the furthest point on diagonal k that d edits reach. */
  ghost predicate Furthest(a: Lines, b: Lines, d: int, k: int, x: int) {
    x >= 0 && x - k >= 0 && Dist(a, b, x, x - k) <= d < Dist(a, b, x + 1, x + 1 - k)
  }

  /** The last round before `round` that writes diagonals of k's parity. */
  ghost function LastRound(round: int, k: int): int {
    if Even(round - 1 - k) then round - 1 else round - 2
  }

  /** What the array holds for diagonal k when round `round` begins. */
  ghost predicate Cell(a: Lines, b: Lines, round: int, k: int, x: int) {
    if Abs(k) <= LastRound(round, k) then Furthest(a, b, LastRound(round, k), k, x) else x == 0
  }

  /** The whole array when round `round` begins; diagonal k is kept at index k + |a| + |b|. */
  ghost predicate Snapshot(a: Lines, b: Lines, v: seq<int>, round: int) {
    && |v| == 2 * (|a| + |b|) + 1
    && forall i | 0 <= i < |v| :: Cell(a, b, round, i - (|a| + |b|), v[i])
  }

  /** A point is at or before the furthest one exactly when d edits reach it. */
  lemma FurthestBound(a: Lines, b: Lines, d: int, k: int, x: int, p: int)
    requires Furthest(a, b, d, k, x) && p >= 0 && p - k >= 0
    ensures p <= x <==> Dist(a, b, p, p - k) <= d
  {
    if p <= x {
      DiagonalMonotone(a, b, p, p - k, x - p);
    } else {
      DiagonalMonotone(a, b, x + 1, x + 1 - k, p - (x + 1));
    }
  }

  /** The choice `diffLines` makes between the two neighbours of diagonal k in round d:
      where the slide along the diagonal starts. */
  ghost predicate StartsAt(a: Lines, b: Lines, d: int, k: int, left: int, right: int, x0: int) {
    && -d <= k <= d
    && (k > -d ==> Furthest(a, b, d - 1, k - 1, left))
    && (k < d ==> Furthest(a, b, d - 1, k + 1, right))
    && x0 == (if d == 0 then 0
              else if k == -d || (k != d && left < right) then right
              else left + 1)
  }

  lemma StartReachable(a: Lines, b: Lines, d: int, k: int, left: int, right: int, x0: int)
    requires StartsAt(a, b, d, k, left, right, x0)
    ensures x0 >= 0 && x0 - k >= 0 && Dist(a, b, x0, x0 - k) <= d
  {
    if d > 0 {
      if x0 == right && (k == -d || (k != d && left < right)) {
        Lipschitz(a, b, right, right - (k + 1));
      } else {
        Lipschitz(a, b, left, left - (k - 1));
      }
    }
  }

  /** Past its start, a diagonal of round d is left only at a pair of lines that differ. */
  lemma MismatchCosts(a: Lines, b: Lines, d: int, k: int, left: int, right: int, x0: int, x: int)
    requires StartsAt(a, b, d, k, left, right, x0)
    requires x0 >= 0 && x0 - k >= 0 && x >= x0 && !Match(a, b, x, x - k)
    ensures Dist(a, b, x + 1, x + 1 - k) > d
  {
    var y := x - k;
    if k > -d {
      FurthestBound(a, b, d - 1, k - 1, left, x);
    }
    if k < d {
      FurthestBound(a, b, d - 1, k + 1, right, x + 1);
    }
    DistBounds(a, b, x, y + 1);
    DistBounds(a, b, x + 1, y);
  }

  // ----- the forward search -----

  /** Lines 122-133: choose the start on diagonal k and slide along it. */
  method AdvanceDiagonal(a: Lines, b: Lines, v: array<int>, d: int, k: int) returns (x: int)
    requires v.Length == 2 * (|a| + |b|) + 1 && 0 <= d <= |a| + |b| && 1 <= |a| + |b|
    requires -d <= k <= d
    requires k > -d ==> Furthest(a, b, d - 1, k - 1, v[k - 1 + (|a| + |b|)])
    requires k < d ==> Furthest(a, b, d - 1, k + 1, v[k + 1 + (|a| + |b|)])
    requires d == 0 ==> v[1 + (|a| + |b|)] == 0
    ensures Furthest(a, b, d, k, x)
  {
    var m, n := |a|, |b|;
    var max := m + n;
    if k == -d || (k != d && v[k - 1 + max] < v[k + 1 + max]) {
      x := v[k + 1 + max];
    } else {
      x := v[k - 1 + max] + 1;
    }
    ghost var left := if k > -d then v[k - 1 + max] else 0;
    ghost var right := if k < d then v[k + 1 + max] else 0;
    ghost var x0 := x;
    StartReachable(a, b, d, k, left, right, x0);
    hide StartsAt;
    var y := x - k;
    while x < m && y < n && a[x] == b[y]
      invariant x0 <= x && y == x - k && y >= 0 && Dist(a, b, x, y) <= d
    {
      assert Match(a, b, x, y);
      x := x + 1;
      y := y + 1;
    }
    MismatchCosts(a, b, d, k, left, right, x0, x);
  }

  /** The search ends at the corner itself: no point past it, on any diagonal, comes first. */
  lemma FirstExitIsCorner(a: Lines, b: Lines, d: int, k: int, x: int)
    requires Furthest(a, b, d, k, x) && x >= |a| && x - k >= |b| && d <= Dist(a, b, |a|, |b|)
    ensures x == |a| && x - k == |b| && d == Dist(a, b, |a|, |b|)
  {
    BeyondCorner(a, b, x, x - k);
  }

  /** The array in the middle of round d, when diagonal k is next. */
  ghost predicate InRound(a: Lines, b: Lines, v: seq<int>, d: int, k: int) {
    && |v| == 2 * (|a| + |b|) + 1
    && forall i | 0 <= i < |v| ::
        Cell(a, b, if i - (|a| + |b|) < k then d + 1 else d, i - (|a| + |b|), v[i])
  }

  lemma InRoundStarts(a: Lines, b: Lines, v: seq<int>, d: int)
    requires d >= 0 && Snapshot(a, b, v, d)
    ensures InRound(a, b, v, d, -d)
  {
  }

  lemma InRoundSteps(a: Lines, b: Lines, v: seq<int>, d: int, k: int, x: int)
    requires InRound(a, b, v, d, k) && Furthest(a, b, d, k, x)
    requires -d <= k <= d <= |a| + |b| && Even(k + d)
    ensures InRound(a, b, v[k + (|a| + |b|) := x], d, k + 2)
  {
  }

  lemma InRoundEnds(a: Lines, b: Lines, v: seq<int>, d: int)
    requires d >= 0 && InRound(a, b, v, d, d + 2)
    ensures Snapshot(a, b, v, d + 1)
  {
  }

  lemma InRoundLeft(a: Lines, b: Lines, v: seq<int>, d: int, k: int)
    requires InRound(a, b, v, d, k) && -d < k <= d <= |a| + |b| && Even(k + d)
    ensures Furthest(a, b, d - 1, k - 1, v[k - 1 + (|a| + |b|)])
  {
    assert Cell(a, b, d + 1, k - 1, v[k - 1 + (|a| + |b|)]);
    assert LastRound(d + 1, k - 1) == d - 1;
  }

  lemma InRoundRight(a: Lines, b: Lines, v: seq<int>, d: int, k: int)
    requires InRound(a, b, v, d, k) && -d <= k < d <= |a| + |b| && Even(k + d)
    ensures Furthest(a, b, d - 1, k + 1, v[k + 1 + (|a| + |b|)])
  {
    assert Cell(a, b, d, k + 1, v[k + 1 + (|a| + |b|)]);
    assert LastRound(d, k + 1) == d - 1;
  }

  lemma InFirstRound(a: Lines, b: Lines, v: seq<int>)
    requires InRound(a, b, v, 0, 0) && 1 <= |a| + |b|
    ensures v[1 + (|a| + |b|)] == 0
  {
    assert Cell(a, b, 0, 1, v[1 + (|a| + |b|)]);
  }

  lemma NextDiagonal(d: int, k: int, corner: int)
    requires Even(k + d)
    ensures Even(k + 2 + d)
    ensures corner < k + 2 && Even(corner + d) ==> corner <= k
  {
  }

  /** As long as the corner's own diagonal ends short of it, d edits are not enough. */
  lemma CornerNotYet(a: Lines, b: Lines, d: int, k: int, x: int)
    requires Furthest(a, b, d, k, x) && k == |a| - |b| && !(x >= |a| && x - k >= |b|)
    ensures d < Dist(a, b, |a|, |b|)
  {
    FurthestBound(a, b, d, k, x, |a|);
  }

  /** Lines 122-136: advance diagonal k, store the point, test for the corner. */
  method VisitDiagonal(a: Lines, b: Lines, v: array<int>, d: int, k: int) returns (found: bool)
    requires 1 <= |a| + |b| && -d <= k <= d <= |a| + |b| && Even(k + d)
    requires d <= Dist(a, b, |a|, |b|) && InRound(a, b, v[..], d, k)
    modifies v
    ensures InRound(a, b, v[..], d, k + 2)
    ensures found ==> d == Dist(a, b, |a|, |b|)
    ensures !found && k == |a| - |b| ==> d < Dist(a, b, |a|, |b|)
  {
    if k > -d { InRoundLeft(a, b, v[..], d, k); }
    if k < d { InRoundRight(a, b, v[..], d, k); }
    if d == 0 { InFirstRound(a, b, v[..]); }
    var x := AdvanceDiagonal(a, b, v, d, k);
    InRoundSteps(a, b, v[..], d, k, x);
    ghost var before := v[..];
    v[k + (|a| + |b|)] := x;
    assert v[..] == before[k + (|a| + |b|) := x];
    found := x >= |a| && x - k >= |b|;
    if found {
      FirstExitIsCorner(a, b, d, k, x);
    } else if k == |a| - |b| {
      CornerNotYet(a, b, d, k, x);
    }
  }

  /** Lines 122-189: one round over the diagonals -d, -d + 2, ..., d; stops at the first
      slide that ends at or past the corner. */
  method Round(a: Lines, b: Lines, v: array<int>, d: int) returns (found: bool)
    requires 0 <= d <= |a| + |b| && 1 <= |a| + |b| && d <= Dist(a, b, |a|, |b|)
    requires Snapshot(a, b, v[..], d)
    modifies v
    ensures found <==> d == Dist(a, b, |a|, |b|)
    ensures !found ==> Snapshot(a, b, v[..], d + 1)
  {
    var corner := |a| - |b|;
    var k := -d;
    InRoundStarts(a, b, v[..], d);
    while k <= d
      invariant -d <= k <= d + 2 && Even(k + d)
      invariant InRound(a, b, v[..], d, k)
      invariant -d <= corner < k && Even(corner + d) ==> d < Dist(a, b, |a|, |b|)
    {
      found := VisitDiagonal(a, b, v, d, k);
      if found {
        return;
      }
      NextDiagonal(d, k, corner);
      k := k + 2;
    }
    DistBounds(a, b, |a|, |b|);
    DistParity(a, b, |a|, |b|);
    InRoundEnds(a, b, v[..], d);
    return false;
  }

  /** Lines 112-190: rounds d = 0, 1, 2, ... until one finds the corner. `split` yields at
      least one line per file. The loop's bound is never what stops it, so the fallback of
      lines 191-203 is unreachable. */
  method Search(a: Lines, b: Lines) returns (d: int, trace: seq<seq<int>>)
    requires |a| + |b| >= 1
    ensures d == Dist(a, b, |a|, |b|)
    ensures |trace| == d + 1
    ensures forall r | 0 <= r <= d :: Snapshot(a, b, trace[r], r)
  {
    var max := |a| + |b|;
    var v := new int[2 * max + 1](_ => 0);
    trace := [];
    d := 0;
    DistBounds(a, b, |a|, |b|);
    while d <= max
      invariant 0 <= d <= Dist(a, b, |a|, |b|)
      invariant |trace| == d
      invariant forall r | 0 <= r < d :: Snapshot(a, b, trace[r], r)
      invariant Snapshot(a, b, v[..], d)
      decreases max + 1 - d
    {
      trace := trace + [v[..]];
      var found := Round(a, b, v, d);
      if found {
        return;
      }
      d := d + 1;
    }
    assert false;
  }

  // ----- the backtrack -----

  /** Array indexing that yields `undefined` outside the array. */
  function Lookup(v: seq<int>, i: int): Option<int> {
    if 0 <= i < |v| then Some(v[i]) else None
  }

  /** `<` of numbers, false as soon as one side is `undefined`. */
  predicate Less(x: Option<int>, y: Option<int>) {
    x.Some? && y.Some? && x.value < y.value
  }

  function TextAt(a: Lines, i: int): Text {
    if 0 <= i < |a| then Line(a[i]) else Undefined
  }

  /** The diagonal that step dd of the backtrack goes to from diagonal pk (lines 142-148). */
  function PrevDiagonal(pv: seq<int>, max: int, dd: int, pk: int): int {
    if pk == -dd || (pk != dd && Less(Lookup(pv, pk - 1 + max), Lookup(pv, pk + 1 + max)))
    then pk + 1
    else pk - 1
  }

  /** How many lines the loop of lines 151-159 emits. */
  function SlideLength(cx: int, cy: int, prevX: int, prevY: int): nat {
    Max(0, Min(cx - prevX, cy - prevY))
  }

  /** The `count` unchanged lines that end at old line cx. */
  function UnchangedRun(a: Lines, cx: int, count: nat): (es: seq<DiffLine>)
    ensures |es| == count
  {
    seq(count, i requires 0 <= i < count =>
      Unchanged(TextAt(a, cx - count + i), cx - count + i + 1))
  }

  /** One step of the backtrack: the unchanged lines it emits, the changed line in front of
      them, and where it ends. */
  datatype Step = Step(run: nat, entry: DiffLine, x: int, y: int)

  function BackStep(a: Lines, b: Lines, pv: seq<int>, dd: int, cx: int, cy: int): Step {
    var max := |a| + |b|;
    var prevK := PrevDiagonal(pv, max, dd, cx - cy);
    var prevX := Lookup(pv, prevK + max);
    var run := if prevX.Some? then SlideLength(cx, cy, prevX.value, prevX.value - prevK) else 0;
    var (x, y) := (cx - run, cy - run);
    if prevX.Some? && x > prevX.value
    then Step(run, Removed(TextAt(a, x - 1), x), x - 1, y)
    else Step(run, Added(TextAt(b, y - 1), y), x, y - 1)
  }

  /** What the backtrack puts in front of the result when it stands at (cx, cy) and steps
      dd, dd - 1, ..., 1 remain. */
  function BackFrom(a: Lines, b: Lines, trace: seq<seq<int>>, lag: nat, dd: nat, cx: int, cy: int): seq<DiffLine>
    requires lag <= 1 && dd < |trace|
  {
    if dd == 0 then
      UnchangedRun(a, cx, SlideLength(cx, cy, 0, 0))
    else
      var s := BackStep(a, b, trace[dd - lag], dd, cx, cy);
      BackFrom(a, b, trace, lag, dd - 1, s.x, s.y) + [s.entry] + UnchangedRun(a, cx, s.run)
  }

  lemma UnchangedRunGrows(a: Lines, cx: int, count: nat)
    ensures UnchangedRun(a, cx, count + 1) ==
            [Unchanged(TextAt(a, cx - count - 1), cx - count)] + UnchangedRun(a, cx, count)
  {
  }

  /** The loops of lines 151-159 and 178-186: one unchanged line per step, put in front. */
  method SlideBack(a: Lines, cx: int, cy: int, prevX: int, prevY: int, shown: seq<DiffLine>)
    returns (x: int, y: int, result: seq<DiffLine>)
    ensures x == cx - SlideLength(cx, cy, prevX, prevY) && y == cy - SlideLength(cx, cy, prevX, prevY)
    ensures result == UnchangedRun(a, cx, SlideLength(cx, cy, prevX, prevY)) + shown
  {
    x, y, result := cx, cy, shown;
    ghost var run: nat := 0;
    while x > prevX && y > prevY
      invariant x == cx - run && y == cy - run
      invariant run <= SlideLength(cx, cy, prevX, prevY)
      invariant result == UnchangedRun(a, cx, run) + shown
    {
      x := x - 1;
      y := y - 1;
      UnchangedRunGrows(a, cx, run);
      result := [Unchanged(TextAt(a, x), x + 1)] + result;
      run := run + 1;
    }
  }

  lemma UnfoldBack(a: Lines, b: Lines, trace: seq<seq<int>>, lag: nat, dd: nat, cx: int, cy: int, shown: seq<DiffLine>)
    requires lag <= 1 && 0 < dd < |trace|
    ensures var s := BackStep(a, b, trace[dd - lag], dd, cx, cy);
      BackFrom(a, b, trace, lag, dd, cx, cy) + shown ==
      BackFrom(a, b, trace, lag, dd - 1, s.x, s.y) + ([s.entry] + (UnchangedRun(a, cx, s.run) + shown))
  {
    var s := BackStep(a, b, trace[dd - lag], dd, cx, cy);
    var rest, run := BackFrom(a, b, trace, lag, dd - 1, s.x, s.y), UnchangedRun(a, cx, s.run);
    assert (rest + [s.entry] + run) + shown == rest + ([s.entry] + (run + shown));
  }

  /** Lines 140-177: one round of the backtrack loop. */
  method StepBack(a: Lines, b: Lines, pv: seq<int>, dd: int, cx: int, cy: int, shown: seq<DiffLine>)
    returns (x: int, y: int, result: seq<DiffLine>)
    ensures var s := BackStep(a, b, pv, dd, cx, cy);
      x == s.x && y == s.y && result == [s.entry] + (UnchangedRun(a, cx, s.run) + shown)
  {
    var max := |a| + |b|;
    x, y, result := cx, cy, shown;
    var pk := x - y;
    var prevK: int;
    if pk == -dd || (pk != dd && Less(Lookup(pv, pk - 1 + max), Lookup(pv, pk + 1 + max))) {
      prevK := pk + 1;
    } else {
      prevK := pk - 1;
    }
    var prevX := Lookup(pv, prevK + max);
    if prevX.Some? {
      x, y, result := SlideBack(a, x, y, prevX.value, prevX.value - prevK, result);
    }
    if prevX.Some? && x > prevX.value {
      x := x - 1;
      result := [Removed(TextAt(a, x), x + 1)] + result;
    } else {
      y := y - 1;
      result := [Added(TextAt(b, y), y + 1)] + result;
    }
  }

  /** Lines 137-187: walk back from the corner, putting each entry in front. */
  method Backtrack(a: Lines, b: Lines, trace: seq<seq<int>>, d: nat, lag: nat) returns (result: seq<DiffLine>)
    requires lag <= 1 && d < |trace|
    ensures result == BackFrom(a, b, trace, lag, d, |a|, |b|)
  {
    result := [];
    var cx: int, cy: int := |a|, |b|;
    var dd := d;
    while dd > 0
      invariant 0 <= dd <= d
      invariant BackFrom(a, b, trace, lag, d, |a|, |b|) == BackFrom(a, b, trace, lag, dd, cx, cy) + result
    {
      UnfoldBack(a, b, trace, lag, dd, cx, cy, result);
      cx, cy, result := StepBack(a, b, trace[dd - lag], dd, cx, cy, result);
      dd := dd - 1;
    }
    cx, cy, result := SlideBack(a, cx, cy, 0, 0, result);
  }
}
