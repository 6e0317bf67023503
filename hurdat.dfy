/**
 * The HURDAT2 line grammar every HURDAT2 parser in the repository shares, and
 * two descriptions of what a parse yields: the left fold that the parsing loops
 * perform (Run/Close) and an independent reference (Groups) that reads
 * "one storm per header line, whose track is the data lines up to the next
 * header". ParseIsGroups proves the two equal.
 *
 * The numeric fields (`intval`, `floatval`, `parseInt`, `parseFloat`) are not
 * interpreted: a track point keeps the trimmed text of each field.
 */
module Hurdat {
  import opened Wrappers
  import Text

  datatype TrackPoint = TrackPoint(
    date: string,
    time: string,
    status: Option<string>,   // None in the variant that does not copy the status field
    lat: string,
    lon: string,
    windSpeed: string,
    pressure: string)

  datatype HurdatStorm = HurdatStorm(id: string, name: string, entries: string, track: seq<TrackPoint>)

  /**
   * A PHP line split at every comma, each piece trimmed: one field per piece,
   * and every field is a comma-free text whose ends are not whitespace.
   */
  function Fields(line: string): (parts: seq<string>)
    ensures |parts| == |Text.Split(line, ',')|
    ensures forall i :: 0 <= i < |parts| ==>
      parts[i] == Text.Trim(Text.Split(line, ',')[i]) && ',' !in parts[i] && Text.Stripped(parts[i], Text.IsTrimmed)
  {
    var raw := Text.Split(line, ',');
    TrimmedPieces(raw);
    seq(|raw|, i requires 0 <= i < |raw| => Text.Trim(raw[i]))
  }

  /** The JavaScript counterpart of Fields, trimming with the JavaScript notion of whitespace. */
  function JsFields(line: string): (parts: seq<string>)
    ensures |parts| == |Text.Split(line, ',')|
    ensures forall i :: 0 <= i < |parts| ==>
      parts[i] == Text.JsTrim(Text.Split(line, ',')[i]) && ',' !in parts[i] && Text.Stripped(parts[i], Text.IsJsSpace)
  {
    var raw := Text.Split(line, ',');
    JsTrimmedPieces(raw);
    seq(|raw|, i requires 0 <= i < |raw| => Text.JsTrim(raw[i]))
  }

  lemma TrimmedPieces(raw: seq<string>)
    ensures forall i :: 0 <= i < |raw| ==>
      Text.Stripped(Text.Trim(raw[i]), Text.IsTrimmed) && forall c :: c in Text.Trim(raw[i]) ==> c in raw[i]
  {
    forall i | 0 <= i < |raw| {
      Text.TrimTrims(raw[i]);
    }
  }

  lemma JsTrimmedPieces(raw: seq<string>)
    ensures forall i :: 0 <= i < |raw| ==>
      Text.Stripped(Text.JsTrim(raw[i]), Text.IsJsSpace) && forall c :: c in Text.JsTrim(raw[i]) ==> c in raw[i]
  {
    forall i | 0 <= i < |raw| {
      Text.JsTrimTrims(raw[i]);
    }
  }

  predicate IsUpper(c: char) { 'A' <= c <= 'Z' }
  predicate IsDigit(c: char) { '0' <= c <= '9' }

  /** The storm-id pattern `^[A-Z]{2}\d{6}$`. */
  predicate IsStormId(s: string) {
    |s| == 8 && IsUpper(s[0]) && IsUpper(s[1]) && forall i :: 2 <= i < 8 ==> IsDigit(s[i])
  }

  /** A header line: at least three fields, the first a storm id. */
  predicate IsHeader(parts: Row) {
    |parts| >= 3 && IsStormId(parts[0])
  }

  /** The fields of one line. */
  type Row = seq<string>

  /** The rows of some lines, in order. */
  function Rows(lines: seq<string>): (rows: seq<Row>)
    ensures |rows| == |lines|
    ensures forall i :: 0 <= i < |lines| ==> rows[i] == Fields(lines[i])
  {
    seq(|lines|, i requires 0 <= i < |lines| => Fields(lines[i]))
  }

  function Opened(parts: Row, track: seq<TrackPoint>): HurdatStorm
    requires IsHeader(parts)
  {
    HurdatStorm(parts[0], parts[1], parts[2], track)
  }

  function PointFrom(parts: Row, withStatus: bool): TrackPoint
    requires |parts| >= 7
  {
    TrackPoint(parts[0], parts[1], if withStatus then Some(parts[2]) else None, parts[3], parts[4], parts[5], parts[6])
  }

  function Appended(s: HurdatStorm, p: TrackPoint): HurdatStorm {
    s.(track := s.track + [p])
  }

  /** The loop state: storms already closed, and the storm being filled. */
  datatype Acc = Acc(done: seq<HurdatStorm>, current: Option<HurdatStorm>)

  function Pending(acc: Acc): seq<HurdatStorm> {
    if acc.current.Some? then [acc.current.value] else []
  }

  /** One iteration of the loop body on a line that was not skipped. */
  function Step(acc: Acc, parts: Row, withStatus: bool): Acc {
    if IsHeader(parts) then Acc(acc.done + Pending(acc), Some(Opened(parts, [])))
    else if acc.current.Some? && |parts| >= 7 then
      Acc(acc.done, Some(Appended(acc.current.value, PointFrom(parts, withStatus))))
    else acc
  }

  /** The body of every parsing loop, on a line that was not skipped: a header closes the
      open storm and opens a new one; a data line with seven fields extends the open storm. */
  method Feed(done: seq<HurdatStorm>, current: Option<HurdatStorm>, parts: Row, withStatus: bool)
    returns (done': seq<HurdatStorm>, current': Option<HurdatStorm>)
    ensures Acc(done', current') == Step(Acc(done, current), parts, withStatus)
    ensures |done'| == |done| + (if IsHeader(parts) && current.Some? then 1 else 0)
  {
    done', current' := done, current;
    if IsHeader(parts) {
      if current.Some? {
        done' := done + [current.value];
      }
      current' := Some(Opened(parts, []));
    } else if current.Some? && |parts| >= 7 {
      current' := Some(Appended(current.value, PointFrom(parts, withStatus)));
    }
  }

  /** The loop over the processed lines, first to last. */
  function Run(lines: seq<Row>, withStatus: bool): Acc {
    if lines == [] then Acc([], None)
    else Step(Run(lines[..|lines| - 1], withStatus), lines[|lines| - 1], withStatus)
  }

  /** The statement after the loop: the last open storm is closed. */
  function Close(acc: Acc): seq<HurdatStorm> {
    acc.done + Pending(acc)
  }

  function Parse(lines: seq<Row>, withStatus: bool): seq<HurdatStorm> {
    Close(Run(lines, withStatus))
  }

  // ---------------------------------------------------------------------
  // The reference reading.

  function Headers(lines: seq<Row>): nat {
    if lines == [] then 0 else (if IsHeader(lines[0]) then 1 else 0) + Headers(lines[1..])
  }

  /** The lines before the next header. */
  function UntilHeader(lines: seq<Row>): seq<Row> {
    if lines == [] || IsHeader(lines[0]) then [] else [lines[0]] + UntilHeader(lines[1..])
  }

  /** The track points of the lines with at least seven fields, in order. */
  function Points(lines: seq<Row>, withStatus: bool): seq<TrackPoint> {
    if lines == [] then []
    else
      (if |lines[0]| >= 7 then [PointFrom(lines[0], withStatus)] else [])
      + Points(lines[1..], withStatus)
  }

  /** One storm per header line, carrying the points of the lines up to the next header. */
  function Groups(lines: seq<Row>, withStatus: bool): seq<HurdatStorm> {
    if lines == [] then []
    else
      (if IsHeader(lines[0])
       then [Opened(lines[0], Points(UntilHeader(lines[1..]), withStatus))]
       else [])
      + Groups(lines[1..], withStatus)
  }

  /** What one more line does to a list of groups. */
  function Extend(gs: seq<HurdatStorm>, parts: Row, withStatus: bool): seq<HurdatStorm> {
    if IsHeader(parts) then gs + [Opened(parts, [])]
    else if |parts| >= 7 && |gs| > 0 then gs[..|gs| - 1] + [Appended(gs[|gs| - 1], PointFrom(parts, withStatus))]
    else gs
  }

  lemma {:induction false} HeadersSnoc(xs: seq<Row>, l: Row)
    ensures Headers(xs + [l]) == Headers(xs) + (if IsHeader(l) then 1 else 0)
    decreases |xs|
  {
    if xs != [] {
      assert (xs + [l])[1..] == xs[1..] + [l];
      HeadersSnoc(xs[1..], l);
    }
  }

  lemma {:induction false} PointsSnoc(xs: seq<Row>, l: Row, ws: bool)
    ensures Points(xs + [l], ws) ==
      Points(xs, ws) + (if |l| >= 7 then [PointFrom(l, ws)] else [])
    decreases |xs|
  {
    if xs != [] {
      assert (xs + [l])[0] == xs[0];
      assert (xs + [l])[1..] == xs[1..] + [l];
      PointsSnoc(xs[1..], l, ws);
    } else {
      assert [l][1..] == [];
    }
  }

  lemma {:induction false} UntilHeaderSnoc(xs: seq<Row>, l: Row)
    ensures Headers(xs) > 0 ==> UntilHeader(xs + [l]) == UntilHeader(xs)
    ensures Headers(xs) == 0 ==> UntilHeader(xs) == xs
    ensures Headers(xs) == 0 ==> UntilHeader(xs + [l]) == xs + (if IsHeader(l) then [] else [l])
    decreases |xs|
  {
    if xs != [] {
      assert (xs + [l])[0] == xs[0];
      assert (xs + [l])[1..] == xs[1..] + [l];
      UntilHeaderSnoc(xs[1..], l);
      if !IsHeader(xs[0]) && Headers(xs) == 0 {
        assert [xs[0]] + xs[1..] == xs;
      }
    } else {
      assert [l][1..] == [];
    }
  }

  /** There are as many groups as header lines. */
  lemma {:induction false} GroupsCount(lines: seq<Row>, ws: bool)
    ensures |Groups(lines, ws)| == Headers(lines)
    decreases |lines|
  {
    if lines != [] {
      GroupsCount(lines[1..], ws);
    }
  }

  lemma {:induction false} GroupsSnoc(xs: seq<Row>, l: Row, ws: bool)
    ensures Groups(xs + [l], ws) == Extend(Groups(xs, ws), l, ws)
    decreases |xs|
  {
    if xs == [] {
      assert [l][1..] == [];
      assert UntilHeader([]) == [];
    } else {
      var x, rest := xs[0], xs[1..];
      assert (xs + [l])[0] == x;
      assert (xs + [l])[1..] == rest + [l];
      GroupsSnoc(rest, l, ws);
      var g := Groups(rest, ws);
      if IsHeader(x) {
        UntilHeaderSnoc(rest, l);
        GroupsCount(rest, ws);
        var pl := Points(UntilHeader(rest + [l]), ws);
        var p := Points(UntilHeader(rest), ws);
        var h := Opened(x, p);
        assert Groups(xs, ws) == [h] + g;
        assert Groups(xs + [l], ws) == [Opened(x, pl)] + Extend(g, l, ws);
        if IsHeader(l) {
          assert rest + [] == rest;
          assert pl == p;
        } else if |l| >= 7 {
          if Headers(rest) > 0 {
            assert pl == p;
            assert |g| > 0;
            assert ([h] + g)[..|[h] + g| - 1] == [h] + g[..|g| - 1];
          } else {
            assert g == [];
            PointsSnoc(rest, l, ws);
            assert pl == p + [PointFrom(l, ws)];
          }
        } else {
          if Headers(rest) == 0 {
            PointsSnoc(rest, l, ws);
            assert p + [] == p;
          }
          assert pl == p;
        }
      }
    }
  }

  predicate Consistent(acc: Acc) {
    acc.current.None? ==> acc.done == []
  }

  lemma StepExtends(acc: Acc, l: Row, ws: bool)
    requires Consistent(acc)
    ensures Consistent(Step(acc, l, ws))
    ensures Close(Step(acc, l, ws)) == Extend(Close(acc), l, ws)
  {
    if !IsHeader(l) && acc.current.Some? && |l| >= 7 {
      var c := Close(acc);
      assert c == acc.done + [acc.current.value];
      assert c[..|c| - 1] == acc.done;
    }
  }

  /** The loop's fold and the reference grouping agree on every input. */
  lemma {:induction false} ParseIsGroups(lines: seq<Row>, ws: bool)
    ensures Consistent(Run(lines, ws))
    ensures Parse(lines, ws) == Groups(lines, ws)
    decreases |lines|
  {
    if lines != [] {
      var init, l := lines[..|lines| - 1], lines[|lines| - 1];
      ParseIsGroups(init, ws);
      StepExtends(Run(init, ws), l, ws);
      assert init + [l] == lines;
      GroupsSnoc(init, l, ws);
    }
  }

  /** One storm per header line, in header order. */
  lemma ParseCount(lines: seq<Row>, ws: bool)
    ensures |Parse(lines, ws)| == Headers(lines)
  {
    ParseIsGroups(lines, ws);
    GroupsCount(lines, ws);
  }

  /** Lines before the first header contribute nothing. */
  lemma {:induction false} LeadingLinesIgnored(pre: seq<Row>, lines: seq<Row>, ws: bool)
    requires Headers(pre) == 0
    ensures Parse(pre + lines, ws) == Parse(lines, ws)
    decreases |pre|
  {
    ParseIsGroups(pre + lines, ws);
    ParseIsGroups(lines, ws);
    GroupsPrefix(pre, lines, ws);
  }

  lemma {:induction false} GroupsPrefix(pre: seq<Row>, lines: seq<Row>, ws: bool)
    requires Headers(pre) == 0
    ensures Groups(pre + lines, ws) == Groups(lines, ws)
    decreases |pre|
  {
    if pre != [] {
      assert (pre + lines)[0] == pre[0];
      assert (pre + lines)[1..] == pre[1..] + lines;
      GroupsPrefix(pre[1..], lines, ws);
      assert !IsHeader(pre[0]);
      assert Groups(pre + lines, ws) == [] + Groups(pre[1..] + lines, ws);
    } else {
      assert pre + lines == lines;
    }
  }

  // ---------------------------------------------------------------------
  // Which lines of the response each parser feeds to the loop body.

  /** `explode("\n", $response)` / `csvData.split('\n')`. */
  function Lines(text: string): seq<string> {
    Text.Split(text, '\n')
  }

  /** PHP, skipping blank lines: the rows of the trimmed lines that are not `empty()`. */
  function PhpKeptRows(lines: seq<string>): seq<Row> {
    if lines == [] then []
    else
      var t := Text.Trim(lines[|lines| - 1]);
      PhpKeptRows(lines[..|lines| - 1]) + (if Text.PhpEmpty(t) then [] else [Fields(t)])
  }

  /** JavaScript, skipping blank lines: the rows of the lines whose trimmed text is not empty. */
  function JsKeptRows(lines: seq<string>): seq<Row> {
    if lines == [] then []
    else
      var l := lines[|lines| - 1];
      JsKeptRows(lines[..|lines| - 1]) + (if Text.JsTrim(l) == "" then [] else [JsFields(l)])
  }

  /** The rows of all the given lines, each trimmed first. */
  function TrimmedRows(lines: seq<string>): seq<Row> {
    if lines == [] then []
    else TrimmedRows(lines[..|lines| - 1]) + [Fields(Text.Trim(lines[|lines| - 1]))]
  }

  /** Index of the first line whose trimmed text is `empty()`, or the number of lines. */
  function FirstBlank(lines: seq<string>): (k: nat)
    ensures k <= |lines|
  {
    if lines == [] || Text.PhpEmpty(Text.Trim(lines[0])) then 0
    else 1 + FirstBlank(lines[1..])
  }

  /** FirstBlank finds the first blank line: every line before it is not blank. */
  lemma {:induction false} FirstBlankIsFirst(lines: seq<string>)
    ensures forall j :: 0 <= j < FirstBlank(lines) ==> !Text.PhpEmpty(Text.Trim(lines[j]))
    ensures FirstBlank(lines) < |lines| ==> Text.PhpEmpty(Text.Trim(lines[FirstBlank(lines)]))
  {
    if lines != [] && !Text.PhpEmpty(Text.Trim(lines[0])) {
      FirstBlankIsFirst(lines[1..]);
      forall j | 1 <= j < FirstBlank(lines)
        ensures !Text.PhpEmpty(Text.Trim(lines[j]))
      {
        assert lines[j] == lines[1..][j - 1];
      }
    }
  }

  function Min(a: int, b: int): int { if a < b then a else b }

  lemma RunSnoc(rows: seq<Row>, r: Row, ws: bool)
    ensures Run(rows + [r], ws) == Step(Run(rows, ws), r, ws)
  {
    assert (rows + [r])[..|rows|] == rows;
  }

  lemma PhpKeptStep(lines: seq<string>, i: nat)
    requires i < |lines|
    ensures PhpKeptRows(lines[..i + 1]) == PhpKeptRows(lines[..i]) +
      (if Text.PhpEmpty(Text.Trim(lines[i])) then [] else [Fields(Text.Trim(lines[i]))])
  {
    assert lines[..i + 1][..i] == lines[..i];
  }

  /** One more line through the loop that skips `empty()` lines. */
  lemma PhpRunStep(lines: seq<string>, i: nat, ws: bool)
    requires i < |lines|
    ensures var t := Text.Trim(lines[i]);
      Run(PhpKeptRows(lines[..i + 1]), ws) ==
        if Text.PhpEmpty(t) then Run(PhpKeptRows(lines[..i]), ws)
        else Step(Run(PhpKeptRows(lines[..i]), ws), Fields(t), ws)
  {
    var rows := PhpKeptRows(lines[..i]);
    var t := Text.Trim(lines[i]);
    PhpKeptStep(lines, i);
    if Text.PhpEmpty(t) {
      assert rows + [] == rows;
    } else {
      RunSnoc(rows, Fields(t), ws);
    }
  }

  lemma JsKeptStep(lines: seq<string>, i: nat)
    requires i < |lines|
    ensures JsKeptRows(lines[..i + 1]) == JsKeptRows(lines[..i]) +
      (if Text.JsTrim(lines[i]) == "" then [] else [JsFields(lines[i])])
  {
    assert lines[..i + 1][..i] == lines[..i];
  }

  /** One more line through the JavaScript loop, which skips lines that trim to nothing. */
  lemma JsRunStep(lines: seq<string>, i: nat, ws: bool)
    requires i < |lines|
    ensures Run(JsKeptRows(lines[..i + 1]), ws) ==
      if Text.JsTrim(lines[i]) == "" then Run(JsKeptRows(lines[..i]), ws)
      else Step(Run(JsKeptRows(lines[..i]), ws), JsFields(lines[i]), ws)
  {
    var rows := JsKeptRows(lines[..i]);
    JsKeptStep(lines, i);
    if Text.JsTrim(lines[i]) == "" {
      assert rows + [] == rows;
    } else {
      RunSnoc(rows, JsFields(lines[i]), ws);
    }
  }

  /** One more line through the loop that trims every line and stops at a blank one. */
  lemma TrimmedRunStep(lines: seq<string>, i: nat, ws: bool)
    requires i < |lines|
    ensures Run(TrimmedRows(lines[..i + 1]), ws) == Step(Run(TrimmedRows(lines[..i]), ws), Fields(Text.Trim(lines[i])), ws)
  {
    assert lines[..i + 1][..i] == lines[..i];
    RunSnoc(TrimmedRows(lines[..i]), Fields(Text.Trim(lines[i])), ws);
  }

  /** Up to the first blank line, a line is blank exactly when it is that one. */
  lemma FirstBlankAt(lines: seq<string>, i: nat)
    requires i <= FirstBlank(lines) && i < |lines|
    ensures Text.PhpEmpty(Text.Trim(lines[i])) <==> i == FirstBlank(lines)
  {
    FirstBlankIsFirst(lines);
  }
}
