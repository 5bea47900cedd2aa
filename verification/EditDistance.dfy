/** The edit grid of two line lists and the length of the shortest insert/delete script.

    Points (x, y) range over the whole quadrant, not only over x <= |a| and y <= |b|:
    the forward search of `diffLines` leaves the grid, and outside it no line matches. */
module EditDistance {
  import opened Prelude

  type Lines = seq<string>

  predicate Match(a: Lines, b: Lines, x: nat, y: nat) {
    x < |a| && y < |b| && a[x] == b[y]
  }

  /** Fewest removals and additions that lead from (0, 0) to (x, y). */
  function Dist(a: Lines, b: Lines, x: nat, y: nat): nat
    decreases x + y
  {
    if x == 0 then y
    else if y == 0 then x
    else if Match(a, b, x - 1, y - 1) then Dist(a, b, x - 1, y - 1)
    else 1 + Min(Dist(a, b, x - 1, y), Dist(a, b, x, y - 1))
  }

  /** A single removal or addition changes the distance by at most one. */
  lemma {:induction false} Lipschitz(a: Lines, b: Lines, x: nat, y: nat)
    ensures Dist(a, b, x + 1, y) <= Dist(a, b, x, y) + 1
    ensures Dist(a, b, x, y) <= Dist(a, b, x + 1, y) + 1
    ensures Dist(a, b, x, y + 1) <= Dist(a, b, x, y) + 1
    ensures Dist(a, b, x, y) <= Dist(a, b, x, y + 1) + 1
    decreases x + y
  {
    if y > 0 { Lipschitz(a, b, x, y - 1); }
    if x > 0 { Lipschitz(a, b, x - 1, y); }
  }

  lemma {:induction false} DiagonalMonotone(a: Lines, b: Lines, x: nat, y: nat, i: nat)
    ensures Dist(a, b, x, y) <= Dist(a, b, x + i, y + i)
    decreases i
  {
    if i > 0 {
      DiagonalMonotone(a, b, x, y, i - 1);
      Lipschitz(a, b, x + i - 1, y + i - 1);
    }
  }

  /** The distance is at least the diagonal's number and at most the path along the axes. */
  lemma {:induction false} DistBounds(a: Lines, b: Lines, x: nat, y: nat)
    ensures Abs(x - y) <= Dist(a, b, x, y) <= x + y
    decreases x + y
  {
    if x > 0 && y > 0 {
      if Match(a, b, x - 1, y - 1) {
        DistBounds(a, b, x - 1, y - 1);
      } else {
        DistBounds(a, b, x - 1, y);
        DistBounds(a, b, x, y - 1);
      }
    }
  }

  predicate Even(x: int) { x % 2 == 0 }

  /** The distance has the diagonal's parity. */
  lemma {:induction false} DistParity(a: Lines, b: Lines, x: nat, y: nat)
    ensures Even(Dist(a, b, x, y) - (x - y))
    decreases x + y
  {
    if x > 0 && y > 0 {
      if Match(a, b, x - 1, y - 1) {
        DistParity(a, b, x - 1, y - 1);
      } else if Dist(a, b, x - 1, y) < Dist(a, b, x, y - 1) {
        DistParity(a, b, x - 1, y);
      } else {
        DistParity(a, b, x, y - 1);
      }
    }
  }

  lemma {:induction false} BeyondRight(a: Lines, b: Lines, x: nat, y: nat)
    requires x >= |a|
    ensures Dist(a, b, x, y) >= Dist(a, b, |a|, y) + (x - |a|)
    decreases x + y
  {
    if x > |a| && y > 0 {
      BeyondRight(a, b, x - 1, y);
      BeyondRight(a, b, x, y - 1);
      Lipschitz(a, b, |a|, y - 1);
    }
  }

  lemma {:induction false} BeyondBottom(a: Lines, b: Lines, x: nat, y: nat)
    requires y >= |b|
    ensures Dist(a, b, x, y) >= Dist(a, b, x, |b|) + (y - |b|)
    decreases x + y
  {
    if y > |b| && x > 0 {
      BeyondBottom(a, b, x, y - 1);
      BeyondBottom(a, b, x - 1, y);
      Lipschitz(a, b, x - 1, |b|);
    }
  }

  /** Leaving the grid past its corner never pays: the clamping lemma. */
  lemma BeyondCorner(a: Lines, b: Lines, x: nat, y: nat)
    requires x >= |a| && y >= |b|
    ensures Dist(a, b, x, y) >= Dist(a, b, |a|, |b|) + (x - |a|) + (y - |b|)
  {
    BeyondRight(a, b, x, y);
    BeyondBottom(a, b, |a|, y);
  }

  // ----- scripts -----

  /** `text` is `Undefined` when an index outside the list was read. */
  datatype Text = Line(line: string) | Undefined

  datatype DiffLine =
    | Unchanged(text: Text, lineNo: int)
    | Removed(text: Text, lineNo: int)
    | Added(text: Text, lineNo: int)

  function Texts(a: Lines): (r: seq<Text>)
    ensures |r| == |a|
  {
    seq(|a|, i requires 0 <= i < |a| => Line(a[i]))
  }

  /** The old file as the diff shows it: unchanged and removed lines. */
  function OldSide(es: seq<DiffLine>): seq<Text> {
    if es == [] then []
    else OldSide(es[..|es| - 1]) + (if es[|es| - 1].Added? then [] else [es[|es| - 1].text])
  }

  /** The new file as the diff shows it: unchanged and added lines. */
  function NewSide(es: seq<DiffLine>): seq<Text> {
    if es == [] then []
    else NewSide(es[..|es| - 1]) + (if es[|es| - 1].Removed? then [] else [es[|es| - 1].text])
  }

  function Changes(es: seq<DiffLine>): nat {
    if es == [] then 0
    else Changes(es[..|es| - 1]) + (if es[|es| - 1].Unchanged? then 0 else 1)
  }

  /** The diff spells the first x old lines and the first y new lines. */
  ghost predicate Spells(es: seq<DiffLine>, a: Lines, b: Lines, x: nat, y: nat)
    requires x <= |a| && y <= |b|
  {
    OldSide(es) == Texts(a)[..x] && NewSide(es) == Texts(b)[..y]
  }

  /** A diff of the prefixes in which every entry carries the right text and line number. */
  ghost predicate IsScript(es: seq<DiffLine>, a: Lines, b: Lines, x: nat, y: nat)
    requires x <= |a| && y <= |b|
    decreases |es|
  {
    if es == [] then x == 0 && y == 0
    else
      var rest, last := es[..|es| - 1], es[|es| - 1];
      match last
      case Unchanged(t, no) =>
        x > 0 && y > 0 && a[x - 1] == b[y - 1] && t == Line(a[x - 1]) && no == x &&
        IsScript(rest, a, b, x - 1, y - 1)
      case Removed(t, no) =>
        x > 0 && t == Line(a[x - 1]) && no == x && IsScript(rest, a, b, x - 1, y)
      case Added(t, no) =>
        y > 0 && t == Line(b[y - 1]) && no == y && IsScript(rest, a, b, x, y - 1)
  }

  lemma {:induction false} ScriptSpells(es: seq<DiffLine>, a: Lines, b: Lines, x: nat, y: nat)
    requires x <= |a| && y <= |b| && IsScript(es, a, b, x, y)
    ensures Spells(es, a, b, x, y)
    decreases |es|
  {
    if es != [] {
      var rest, last := es[..|es| - 1], es[|es| - 1];
      match last
      case Unchanged(_, _) => ScriptSpells(rest, a, b, x - 1, y - 1);
      case Removed(_, _) => ScriptSpells(rest, a, b, x - 1, y);
      case Added(_, _) => ScriptSpells(rest, a, b, x, y - 1);
    }
  }

  /** No diff that spells both files has fewer changed lines than the distance. */
  lemma {:induction false} NoShorterScript(es: seq<DiffLine>, a: Lines, b: Lines, x: nat, y: nat)
    requires x <= |a| && y <= |b| && Spells(es, a, b, x, y)
    ensures Dist(a, b, x, y) <= Changes(es)
    decreases |es|
  {
    if es != [] {
      var rest, last := es[..|es| - 1], es[|es| - 1];
      if !last.Added? {
        assert OldSide(es)[x - 1] == last.text;
        assert OldSide(rest) == OldSide(es)[..x - 1] == Texts(a)[..x - 1];
      }
      if !last.Removed? {
        assert NewSide(es)[y - 1] == last.text;
        assert NewSide(rest) == NewSide(es)[..y - 1] == Texts(b)[..y - 1];
      }
      match last
      case Unchanged(_, _) =>
        assert Match(a, b, x - 1, y - 1);
        NoShorterScript(rest, a, b, x - 1, y - 1);
      case Removed(_, _) =>
        NoShorterScript(rest, a, b, x - 1, y);
        Lipschitz(a, b, x - 1, y);
      case Added(_, _) =>
        NoShorterScript(rest, a, b, x, y - 1);
        Lipschitz(a, b, x, y - 1);
    }
  }

  // ----- the longest common subsequence -----

  ghost predicate Subsequence(c: Lines, a: Lines)
    decreases |a|
  {
    c == [] ||
    (a != [] && (Subsequence(c, a[..|a| - 1]) ||
                 (c[|c| - 1] == a[|a| - 1] && Subsequence(c[..|c| - 1], a[..|a| - 1]))))
  }

  lemma {:induction false} SubsequenceExtend(c: Lines, a: Lines, s: string)
    requires Subsequence(c, a)
    ensures Subsequence(c, a + [s]) && Subsequence(c + [s], a + [s])
  {
    assert (a + [s])[..|a|] == a;
    assert (c + [s])[..|c|] == c;
  }

  lemma {:induction false} CommonSubsequenceBound(c: Lines, a: Lines, b: Lines, x: nat, y: nat)
    requires x <= |a| && y <= |b|
    requires Subsequence(c, a[..x]) && Subsequence(c, b[..y])
    ensures 2 * |c| + Dist(a, b, x, y) <= x + y
    decreases x + y
  {
    if c == [] || x == 0 || y == 0 {
      DistBounds(a, b, x, y);
    } else {
      assert a[..x][..x - 1] == a[..x - 1] && b[..y][..y - 1] == b[..y - 1];
      if Subsequence(c, a[..x - 1]) {
        CommonSubsequenceBound(c, a, b, x - 1, y);
        Lipschitz(a, b, x - 1, y);
      } else if Subsequence(c, b[..y - 1]) {
        CommonSubsequenceBound(c, a, b, x, y - 1);
        Lipschitz(a, b, x, y - 1);
      } else {
        assert Match(a, b, x - 1, y - 1);
        CommonSubsequenceBound(c[..|c| - 1], a, b, x - 1, y - 1);
      }
    }
  }

  lemma {:induction false} CommonSubsequenceExists(a: Lines, b: Lines, x: nat, y: nat) returns (c: Lines)
    requires x <= |a| && y <= |b|
    ensures Subsequence(c, a[..x]) && Subsequence(c, b[..y])
    ensures 2 * |c| + Dist(a, b, x, y) == x + y
    decreases x + y
  {
    if x == 0 || y == 0 {
      c := [];
    } else {
      hide Subsequence;
      assert a[..x] == a[..x - 1] + [a[x - 1]] && b[..y] == b[..y - 1] + [b[y - 1]];
      if Match(a, b, x - 1, y - 1) {
        var c' := CommonSubsequenceExists(a, b, x - 1, y - 1);
        c := c' + [a[x - 1]];
        SubsequenceExtend(c', a[..x - 1], a[x - 1]);
        SubsequenceExtend(c', b[..y - 1], b[y - 1]);
      } else if Dist(a, b, x - 1, y) < Dist(a, b, x, y - 1) {
        c := CommonSubsequenceExists(a, b, x - 1, y);
        SubsequenceExtend(c, a[..x - 1], a[x - 1]);
      } else {
        c := CommonSubsequenceExists(a, b, x, y - 1);
        SubsequenceExtend(c, b[..y - 1], b[y - 1]);
      }
    }
  }

  /** n is the length of a longest common subsequence of a and b. */
  ghost predicate IsLongestCommon(n: nat, a: Lines, b: Lines) {
    (exists c :: |c| == n && Subsequence(c, a) && Subsequence(c, b)) &&
    (forall c :: Subsequence(c, a) && Subsequence(c, b) ==> |c| <= n)
  }

  /** The distance of the whole files is |a| + |b| minus twice the longest common subsequence. */
  lemma DistIsLongestCommon(a: Lines, b: Lines, n: nat)
    ensures IsLongestCommon(n, a, b) <==> Dist(a, b, |a|, |b|) == |a| + |b| - 2 * n
  {
    assert a[..|a|] == a && b[..|b|] == b;
    var c := CommonSubsequenceExists(a, b, |a|, |b|);
    forall s | Subsequence(s, a) && Subsequence(s, b)
      ensures |s| <= |c|
    {
      CommonSubsequenceBound(s, a, b, |a|, |b|);
    }
  }
}
