/** `DiffView` of FileViewer.tsx: show three lines of context around each change, collapse
    the rest, and number the shown lines. */
module DiffView {
  import opened EditDistance
  import opened MyersDiff
  import opened Prelude

  const CONTEXT: nat := 3

  predicate Changed(e: DiffLine) { !e.Unchanged? }

  /** Line j of the diff is at most three lines away from a changed line. */
  ghost predicate Near(diff: seq<DiffLine>, j: int) {
    0 <= j < |diff| && exists c | 0 <= c < |diff| :: Changed(diff[c]) && Abs(c - j) <= 3
  }

  ghost predicate Reaches(changed: seq<nat>, j: int) {
    exists c | c in changed :: Abs(c - j) <= CONTEXT
  }

  lemma ReachesSnoc(changed: seq<nat>, c: nat)
    ensures forall j: int :: Reaches(changed + [c], j) <==> Reaches(changed, j) || Abs(c - j) <= CONTEXT
  {
    forall j: int
      ensures Reaches(changed + [c], j) <==> Reaches(changed, j) || Abs(c - j) <= CONTEXT
    {
      assert c in changed + [c];
      if Reaches(changed, j) {
        var p :| p in changed && Abs(p - j) <= CONTEXT;
        assert p in changed + [c];
      }
    }
  }

  /** Lines 219-221: the context of one change. */
  method AddContext(visible: set<nat>, ci: nat, length: nat) returns (more: set<nat>)
    requires ci < length
    ensures forall i: nat :: i in more <==> i in visible || (i < length && Abs(ci - i) <= CONTEXT)
  {
    more := visible;
    var j := Max(0, ci - CONTEXT);
    while j <= Min(length - 1, ci + CONTEXT)
      invariant Max(0, ci - CONTEXT) <= j <= Min(length - 1, ci + CONTEXT) + 1
      invariant forall i: nat :: i in more <==> i in visible || Max(0, ci - CONTEXT) <= i < j
    {
      more := more + {j};
      j := j + 1;
    }
  }

  /** Lines 216-222: the indices to show, collected change by change. */
  method VisibleLines(diff: seq<DiffLine>) returns (visible: set<nat>)
    ensures forall j: nat :: j in visible <==> Near(diff, j)
  {
    var changed: seq<nat> := [];
    for i := 0 to |diff|
      invariant forall c: nat :: c in changed <==> c < i && Changed(diff[c])
    {
      if Changed(diff[i]) {
        changed := changed + [i];
      }
    }
    visible := {};
    for n := 0 to |changed|
      invariant forall j: nat :: j in visible <==> j < |diff| && Reaches(changed[..n], j)
    {
      assert changed[n] in changed;
      visible := AddContext(visible, changed[n], |diff|);
      assert changed[..n + 1] == changed[..n] + [changed[n]];
      ReachesSnoc(changed[..n], changed[n]);
    }
    assert changed[..|changed|] == changed;
  }

  datatype Segment = Hidden(count: nat) | Shown(lines: seq<DiffLine>)

  function Content(s: Segment): seq<Option<DiffLine>> {
    match s
    case Hidden(count) => seq(count, i => None)
    case Shown(lines) => seq(|lines|, i requires 0 <= i < |lines| => Some(lines[i]))
  }

  /** What the segments say about each diff line, in order: hidden, or shown. */
  function Expand(segments: seq<Segment>): seq<Option<DiffLine>> {
    if segments == [] then []
    else Expand(segments[..|segments| - 1]) + Content(segments[|segments| - 1])
  }

  /** Segments are not empty and hidden ones never meet: the runs are as long as can be. */
  ghost predicate Alternate(segments: seq<Segment>) {
    && (forall i | 0 <= i < |segments| :: Content(segments[i]) != [])
    && (forall i | 0 < i < |segments| :: segments[i - 1].Hidden? != segments[i].Hidden?)
  }

  /** The view of the first n lines. */
  function View(diff: seq<DiffLine>, visible: set<nat>, n: nat): (r: seq<Option<DiffLine>>)
    requires n <= |diff|
  {
    seq(n, i requires 0 <= i < |diff| => if i in visible then Some(diff[i]) else None)
  }

  lemma ExpandSnoc(segments: seq<Segment>, s: Segment)
    ensures Expand(segments + [s]) == Expand(segments) + Content(s)
  {
    assert (segments + [s])[..|segments|] == segments;
  }

  /** Lines 236-244: a run of visible lines, as long as can be. */
  method ShownSegment(diff: seq<DiffLine>, visible: set<nat>, start: nat) returns (segment: Segment, i: nat)
    requires start < |diff| && start in visible
    ensures start < i <= |diff| && (i < |diff| ==> i !in visible)
    ensures segment.Shown? && Content(segment) != []
    ensures View(diff, visible, i) == View(diff, visible, start) + Content(segment)
  {
    i := start;
    var block := [];
    while i < |diff| && i in visible
      invariant start <= i <= |diff| && block == diff[start..i]
      invariant forall j: nat | start <= j < i :: j in visible
    {
      block := block + [diff[i]];
      i := i + 1;
    }
    segment := Shown(block);
  }

  /** Lines 246-254: a run of hidden lines, as long as can be. */
  method HiddenSegment(diff: seq<DiffLine>, visible: set<nat>, start: nat) returns (segment: Segment, i: nat)
    requires start < |diff| && start !in visible
    ensures start < i <= |diff| && (i < |diff| ==> i in visible)
    ensures segment.Hidden? && Content(segment) != []
    ensures View(diff, visible, i) == View(diff, visible, start) + Content(segment)
  {
    i := start;
    var count := 0;
    while i < |diff| && i !in visible
      invariant start <= i <= |diff| && count == i - start
      invariant forall j: nat | start <= j < i :: j !in visible
    {
      count := count + 1;
      i := i + 1;
    }
    segment := Hidden(count);
  }

  lemma EmptyView(diff: seq<DiffLine>, visible: set<nat>)
    ensures Expand([]) == View(diff, visible, 0)
  {
  }

  lemma AlternateGrows(segments: seq<Segment>, s: Segment)
    requires Alternate(segments) && Content(s) != []
    requires segments != [] ==> segments[|segments| - 1].Hidden? != s.Hidden?
    ensures Alternate(segments + [s])
  {
    hide Content;
  }

  /** Lines 223-256: cut the diff into runs of visible and of hidden lines. */
  method Segments(diff: seq<DiffLine>, visible: set<nat>) returns (segments: seq<Segment>)
    ensures Expand(segments) == View(diff, visible, |diff|)
    ensures Alternate(segments)
  {
    hide Content, View, Expand;
    EmptyView(diff, visible);
    segments := [];
    var i := 0;
    while i < |diff|
      invariant 0 <= i <= |diff|
      invariant Expand(segments) == View(diff, visible, i)
      invariant Alternate(segments)
      invariant i < |diff| && segments != [] ==> segments[|segments| - 1].Hidden? == (i in visible)
    {
      hide Alternate;
      var segment: Segment;
      if i in visible {
        segment, i := ShownSegment(diff, visible, i);
      } else {
        segment, i := HiddenSegment(diff, visible, i);
      }
      ExpandSnoc(segments, segment);
      AlternateGrows(segments, segment);
      segments := segments + [segment];
    }
  }

  /** How many of the lines belong to the new file. */
  function NewLines(diff: seq<DiffLine>): nat { |NewSide(diff)| }

  ghost predicate AreNewLineNumbers(numbers: seq<nat>, diff: seq<DiffLine>) {
    && |numbers| == |diff|
    && forall i | 0 <= i < |diff| ::
        numbers[i] == if diff[i].Removed? then 0 else 1 + NewLines(diff[..i])
  }

  /** Lines 258-267: 0 for a removed line, else the line's number in the new file. */
  method NewLineNumbers(diff: seq<DiffLine>) returns (numbers: seq<nat>)
    ensures AreNewLineNumbers(numbers, diff)
  {
    numbers := [];
    var next := 1;
    for n := 0 to |diff|
      invariant |numbers| == n && next == 1 + NewLines(diff[..n])
      invariant forall i | 0 <= i < n ::
          numbers[i] == if diff[i].Removed? then 0 else 1 + NewLines(diff[..i])
    {
      assert diff[..n + 1][..n] == diff[..n];
      if diff[n].Removed? {
        numbers := numbers + [0];
      } else {
        numbers := numbers + [next];
        next := next + 1;
      }
    }
  }

  /** A rendered row: a collapsed run, or a line with the number printed beside it. */
  datatype Row = Gap(count: nat) | LineRow(line: DiffLine, number: int)

  /** The number printed beside a line: of the old file for a removed line, else of the new. */
  function PrintedNumber(diff: seq<DiffLine>, i: int): int
    requires 0 <= i < |diff|
  {
    if diff[i].Removed? then diff[i].lineNo else 1 + NewLines(diff[..i])
  }

  function RowContent(row: Row): seq<Option<(DiffLine, int)>> {
    match row
    case Gap(count) => seq(count, i => None)
    case LineRow(line, number) => [Some((line, number))]
  }

  /** What the rows say about each diff line, in order. */
  function RowContents(rows: seq<Row>): seq<Option<(DiffLine, int)>> {
    if rows == [] then []
    else RowContents(rows[..|rows| - 1]) + RowContent(rows[|rows| - 1])
  }

  function Numbered(diff: seq<DiffLine>, visible: set<nat>, n: nat): (r: seq<Option<(DiffLine, int)>>)
    requires n <= |diff|
  {
    seq(n, i requires 0 <= i < |diff| =>
      if i in visible then Some((diff[i], PrintedNumber(diff, i))) else None)
  }

  /** A collapsed run hides at least one line, and two of them never meet. */
  ghost predicate GapsApart(rows: seq<Row>) {
    forall i | 0 <= i < |rows| && rows[i].Gap? ::
      rows[i].count > 0 && (i + 1 < |rows| ==> rows[i + 1].LineRow?)
  }

  ghost predicate EndsInGap(rows: seq<Row>) { rows != [] && rows[|rows| - 1].Gap? }

  lemma GapsStayApart(rows: seq<Row>, row: Row)
    requires GapsApart(rows) && (row.Gap? ==> row.count > 0 && !EndsInGap(rows))
    ensures GapsApart(rows + [row]) && (EndsInGap(rows + [row]) <==> row.Gap?)
  {
  }

  lemma RowSnoc(rows: seq<Row>, row: Row)
    ensures RowContents(rows + [row]) == RowContents(rows) + RowContent(row)
  {
    assert (rows + [row])[..|rows|] == rows;
  }

  lemma PrefixTransitive<T>(r: seq<T>, s: seq<T>, t: seq<T>)
    requires r <= s <= t
    ensures r <= t
  {
  }

  lemma {:induction false} ExpandPrefix(segments: seq<Segment>, n: nat)
    requires n <= |segments|
    ensures Expand(segments[..n]) <= Expand(segments)
    decreases |segments| - n
  {
    hide Content;
    if n < |segments| {
      ExpandPrefix(segments, n + 1);
      assert segments[..n + 1] == segments[..n] + [segments[n]];
      ExpandSnoc(segments[..n], segments[n]);
      hide Expand;
      PrefixTransitive(Expand(segments[..n]), Expand(segments[..n + 1]), Expand(segments));
    } else {
      assert segments[..n] == segments;
    }
  }

  /** A segment says about the diff lines from `at` on what the view says. */
  ghost predicate FitsAt(diff: seq<DiffLine>, visible: set<nat>, s: Segment, at: nat) {
    && at + |Content(s)| <= |diff|
    && forall i | 0 <= i < |Content(s)| :: Content(s)[i] == View(diff, visible, |diff|)[at + i]
  }

  lemma Piece<T>(r: seq<T>, s: seq<T>, t: seq<T>)
    requires r + s <= t
    ensures |r| + |s| <= |t| && forall i | 0 <= i < |s| :: s[i] == t[|r| + i]
  {
    forall i | 0 <= i < |s|
      ensures s[i] == t[|r| + i]
    {
      assert (r + s)[|r| + i] == s[i];
    }
  }

  /** Segment n fits where the segments before it end. */
  lemma SegmentFits(diff: seq<DiffLine>, visible: set<nat>, segments: seq<Segment>, n: nat)
    requires n < |segments| && Expand(segments) == View(diff, visible, |diff|)
    ensures FitsAt(diff, visible, segments[n], |Expand(segments[..n])|)
    ensures |Expand(segments[..n])| + |Content(segments[n])| == |Expand(segments[..n + 1])|
  {
    hide Expand, Content;
    ExpandPrefix(segments, n + 1);
    assert segments[..n + 1] == segments[..n] + [segments[n]];
    ExpandSnoc(segments[..n], segments[n]);
    assert Expand(segments[..n]) + Content(segments[n]) <= Expand(segments);
    Piece(Expand(segments[..n]), Content(segments[n]), Expand(segments));
  }

  lemma HiddenRun(diff: seq<DiffLine>, visible: set<nat>, count: nat, at: nat)
    requires FitsAt(diff, visible, Hidden(count), at)
    ensures at + count <= |diff|
    ensures Numbered(diff, visible, at + count) == Numbered(diff, visible, at) + RowContent(Gap(count))
  {
    var c := Content(Hidden(count));
    forall i: nat | at <= i < at + count
      ensures i !in visible
    {
      assert c[i - at] == View(diff, visible, |diff|)[at + (i - at)];
    }
  }

  lemma ShownRun(diff: seq<DiffLine>, visible: set<nat>, lines: seq<DiffLine>, at: nat)
    requires FitsAt(diff, visible, Shown(lines), at)
    ensures at + |lines| <= |diff|
    ensures forall i | 0 <= i < |lines| :: lines[i] == diff[at + i] && at + i in visible
  {
    forall i | 0 <= i < |lines|
      ensures lines[i] == diff[at + i] && at + i in visible
    {
      assert Content(Shown(lines))[i] == Some(lines[i]);
    }
  }

  lemma NumberedSnoc(diff: seq<DiffLine>, visible: set<nat>, idx: nat)
    requires idx < |diff| && idx in visible
    ensures Numbered(diff, visible, idx + 1) ==
      Numbered(diff, visible, idx) + [Some((diff[idx], PrintedNumber(diff, idx)))]
  {
  }

  lemma NumberIsPrinted(diff: seq<DiffLine>, numbers: seq<nat>, idx: nat)
    requires AreNewLineNumbers(numbers, diff) && idx < |diff|
    ensures |numbers| == |diff|
    ensures (if diff[idx].Removed? then diff[idx].lineNo else numbers[idx]) == PrintedNumber(diff, idx)
  {
  }

  lemma RowStep(diff: seq<DiffLine>, visible: set<nat>, idx: nat, rows: seq<Row>)
    requires idx < |diff| && idx in visible && RowContents(rows) == Numbered(diff, visible, idx)
    ensures RowContents(rows + [LineRow(diff[idx], PrintedNumber(diff, idx))]) == Numbered(diff, visible, idx + 1)
  {
    RowSnoc(rows, LineRow(diff[idx], PrintedNumber(diff, idx)));
    NumberedSnoc(diff, visible, idx);
    hide RowContents, Numbered, PrintedNumber;
  }

  /** Lines 281-321: the rows of one shown segment. */
  method RenderLines(diff: seq<DiffLine>, ghost visible: set<nat>, lines: seq<DiffLine>, diffIdx: nat,
                     numbers: seq<nat>, done: seq<Row>)
    returns (rows: seq<Row>)
    requires AreNewLineNumbers(numbers, diff)
    requires FitsAt(diff, visible, Shown(lines), diffIdx) && RowContents(done) == Numbered(diff, visible, diffIdx)
    requires GapsApart(done)
    ensures diffIdx + |lines| <= |diff| && RowContents(rows) == Numbered(diff, visible, diffIdx + |lines|)
    ensures GapsApart(rows) && (lines != [] ==> !EndsInGap(rows))
  {
    ShownRun(diff, visible, lines, diffIdx);
    hide *;
    rows := done;
    for li := 0 to |lines|
      invariant RowContents(rows) == Numbered(diff, visible, diffIdx + li)
      invariant GapsApart(rows) && (li > 0 ==> !EndsInGap(rows))
    {
      var line, idx := lines[li], diffIdx + li;
      NumberIsPrinted(diff, numbers, idx);
      var number := if line.Removed? then line.lineNo else numbers[idx];
      RowStep(diff, visible, idx, rows);
      GapsStayApart(rows, LineRow(line, number));
      rows := rows + [LineRow(line, number)];
    }
  }

  /** Lines 271-323: the rows of one segment. */
  method RenderSegment(diff: seq<DiffLine>, ghost visible: set<nat>, segment: Segment, diffIdx: nat,
                       numbers: seq<nat>, done: seq<Row>)
    returns (rows: seq<Row>, next: nat)
    requires AreNewLineNumbers(numbers, diff) && FitsAt(diff, visible, segment, diffIdx)
    requires RowContents(done) == Numbered(diff, visible, diffIdx)
    requires GapsApart(done) && Content(segment) != [] && (segment.Hidden? ==> !EndsInGap(done))
    ensures GapsApart(rows) && (EndsInGap(rows) <==> segment.Hidden?)
    ensures next == diffIdx + |Content(segment)| <= |diff|
    ensures RowContents(rows) == Numbered(diff, visible, next)
  {
    hide Expand, View, Numbered, RowContents, AreNewLineNumbers, FitsAt, GapsApart, EndsInGap;
    match segment {
      case Hidden(count) =>
        HiddenRun(diff, visible, count, diffIdx);
        RowSnoc(done, Gap(count));
        GapsStayApart(done, Gap(count));
        rows := done + [Gap(count)];
        next := diffIdx + count;
      case Shown(lines) =>
        rows := RenderLines(diff, visible, lines, diffIdx, numbers, done);
        next := diffIdx + |lines|;
    }
  }

  lemma NothingShown(diff: seq<DiffLine>, visible: set<nat>)
    ensures RowContents([]) == Numbered(diff, visible, 0) && GapsApart([])
    ensures |View(diff, visible, |diff|)| == |diff|
  {
  }

  /** Lines 268-324: print segment by segment; `diffIdx` runs along with the diff. */
  method Render(diff: seq<DiffLine>, ghost visible: set<nat>, segments: seq<Segment>, numbers: seq<nat>)
    returns (rows: seq<Row>)
    requires Expand(segments) == View(diff, visible, |diff|) && Alternate(segments)
    requires AreNewLineNumbers(numbers, diff)
    ensures RowContents(rows) == Numbered(diff, visible, |diff|) && GapsApart(rows)
  {
    hide AreNewLineNumbers, FitsAt, Content, RowContents, Numbered, View, GapsApart;
    NothingShown(diff, visible);
    rows := [];
    var diffIdx := 0;
    for n := 0 to |segments|
      invariant diffIdx == |Expand(segments[..n])| <= |diff|
      invariant RowContents(rows) == Numbered(diff, visible, diffIdx)
      invariant GapsApart(rows) && (EndsInGap(rows) <==> n > 0 && segments[n - 1].Hidden?)
    {
      SegmentFits(diff, visible, segments, n);
      rows, diffIdx := RenderSegment(diff, visible, segments[n], diffIdx, numbers, rows);
    }
    assert segments[..|segments|] == segments;
  }

  /** The whole view: every diff line once and in order; shown, with its number, exactly when
      it is near a change. `None` stands for the "No changes" page. */
  method DiffView(diff: seq<DiffLine>) returns (rows: Option<seq<Row>>)
    ensures rows.None? <==> forall i | 0 <= i < |diff| :: !Changed(diff[i])
    ensures rows.Some? ==> |RowContents(rows.value)| == |diff| && GapsApart(rows.value)
    ensures rows.Some? ==> forall i | 0 <= i < |diff| ::
        RowContents(rows.value)[i] == if Near(diff, i) then Some((diff[i], PrintedNumber(diff, i))) else None
  {
    if forall i | 0 <= i < |diff| :: !Changed(diff[i]) {
      return None;
    }
    var visible := VisibleLines(diff);
    var segments := Segments(diff, visible);
    var numbers := NewLineNumbers(diff);
    var shown := Render(diff, visible, segments, numbers);
    rows := Some(shown);
  }

  lemma {:induction false} NewSidePrefix(diff: seq<DiffLine>, n: nat)
    requires n <= |diff|
    ensures NewSide(diff[..n]) <= NewSide(diff)
    decreases |diff| - n
  {
    if n < |diff| {
      NewSidePrefix(diff, n + 1);
      assert diff[..n + 1][..n] == diff[..n];
    } else {
      assert diff[..n] == diff;
    }
  }

  /** In a diff that spells both files, the number beside an unchanged or added line is the
      number of that very line in the new file. */
  lemma {:induction false} PrintedNumberIsRight(diff: seq<DiffLine>, a: Lines, b: Lines, i: nat)
    requires Spells(diff, a, b, |a|, |b|) && i < |diff| && !diff[i].Removed?
    ensures 1 <= PrintedNumber(diff, i) <= |b|
    ensures diff[i].text == Line(b[PrintedNumber(diff, i) - 1])
  {
    NewSidePrefix(diff, i + 1);
    assert diff[..i + 1][..i] == diff[..i];
    assert NewSide(diff[..i + 1])[NewLines(diff[..i])] == diff[i].text;
  }
}
