/** The CSV text `exportDataToCsv` writes: a fixed header line and one
    newline-terminated line `t,a1,a2` per recorded point, in recording order.
    Rendering a number as text is a parameter `show` (Kotlin's default Float-to-String
    conversion is not modelled); the text's shape assumes only that it writes no
    comma and no newline. A reader of that text is defined beside it, and the
    round trip is proved for a reader that gives back each recorded number from
    its rendering. */
module Csv {
  import opened Model

  const Header: string := "Time (s)" + "," + "Algorithm 1 (EWMA)" + "," + "Algorithm 2 (Fusion)"

  /** Text that can stand as one CSV field: no separator and no line break. */
  predicate IsField(text: string) {
    ',' !in text && '\n' !in text
  }

  /** The number renderer never produces a separator or a line break. */
  ghost predicate RendersFields(show: real -> string) {
    forall v :: IsField(show(v))
  }

  /** The line written for one point, without its line break. */
  function RowLine(p: AngleDataPoint, show: real -> string): string {
    show(p.timestamp) + "," + show(p.algorithm1Angle) + "," + show(p.algorithm2Angle)
  }

  /** The text written for the points, each line followed by a line break. */
  function Rows(points: seq<AngleDataPoint>, show: real -> string): string {
    if points == [] then "" else RowLine(points[0], show) + "\n" + Rows(points[1..], show)
  }

  /** The header is a single line. */
  lemma HeaderIsLine()
    ensures '\n' !in Header
  {
  }

  /** The whole file. Its lines are the header, then each point's line in recording
      order, so N recorded points give exactly N+1 lines. */
  function CsvText(points: seq<AngleDataPoint>, show: real -> string): (text: string)
    ensures RendersFields(show) ==> Lines(text) == [Header] + RowLines(points, show)
    ensures RendersFields(show) ==> |Lines(text)| == |points| + 1
  {
    HeaderThenRowLines(points, show);
    Header + "\n" + Rows(points, show)
  }

  /** Appending a point appends exactly its line: the text grows as the export loop
      writes it. */
  lemma {:induction false} RowsAppend(points: seq<AngleDataPoint>, p: AngleDataPoint, show: real -> string)
    ensures Rows(points + [p], show) == Rows(points, show) + RowLine(p, show) + "\n"
  {
    if points == [] {
      assert [p][1..] == [];
    } else {
      assert (points + [p])[1..] == points[1..] + [p];
      RowsAppend(points[1..], p, show);
    }
  }

  // ---------------------------------------------------------------------------
  // Reading the text back

  /** The first position of `c` in `s`, or |s| when there is none. */
  function IndexOf(s: string, c: char): (k: nat)
    ensures k <= |s|
    ensures k < |s| ==> s[k] == c
    ensures forall j :: 0 <= j < k ==> s[j] != c
    ensures c !in s ==> k == |s|
  {
    if s == [] then 0
    else if s[0] == c then 0
    else 1 + IndexOf(s[1..], c)
  }

  /** The pieces of `s` between occurrences of `sep` (k separators give k+1 pieces). */
  function Split(s: string, sep: char): seq<string>
    decreases |s|
  {
    var k := IndexOf(s, sep);
    if k == |s| then [s] else [s[..k]] + Split(s[k + 1..], sep)
  }

  /** The newline-terminated lines of `s` (a last line without a break still counts). */
  function Lines(s: string): seq<string>
    decreases |s|
  {
    if s == [] then []
    else
      var k := IndexOf(s, '\n');
      if k == |s| then [s] else [s[..k]] + Lines(s[k + 1..])
  }

  /** Reads one line `t,a1,a2` with a number reader; any other number of fields is
      malformed. */
  function ParseRow(line: string, read: string -> real): Option<AngleDataPoint> {
    var fields := Split(line, ',');
    if |fields| != 3 then None
    else Some(AngleDataPoint(read(fields[0]), read(fields[1]), read(fields[2])))
  }

  function ParseRows(lines: seq<string>, read: string -> real): Option<seq<AngleDataPoint>> {
    if lines == [] then Some([])
    else
      match ParseRow(lines[0], read)
      case None => None
      case Some(p) =>
        match ParseRows(lines[1..], read)
        case None => None
        case Some(ps) => Some([p] + ps)
  }

  /** Reads a whole file: the header line, then one point per line. */
  function ParseCsv(text: string, read: string -> real): Option<seq<AngleDataPoint>> {
    var lines := Lines(text);
    if lines == [] || lines[0] != Header then None else ParseRows(lines[1..], read)
  }

  /** The first separator of `a + [sep] + rest` is the one after `a`. */
  lemma IndexOfAfter(a: string, sep: char, rest: string)
    requires sep !in a
    ensures IndexOf(a + [sep] + rest, sep) == |a|
  {
    var s := a + [sep] + rest;
    assert s[|a|] == sep;
    assert forall j :: 0 <= j < |a| ==> s[j] == a[j];
  }

  lemma SplitField(a: string, sep: char)
    requires sep !in a
    ensures Split(a, sep) == [a]
  {
  }

  lemma SplitCons(a: string, sep: char, rest: string)
    requires sep !in a
    ensures Split(a + [sep] + rest, sep) == [a] + Split(rest, sep)
  {
    var s := a + [sep] + rest;
    IndexOfAfter(a, sep, rest);
    assert s[..|a|] == a;
    assert s[|a| + 1..] == rest;
  }

  lemma LinesCons(a: string, rest: string)
    requires '\n' !in a
    ensures Lines(a + "\n" + rest) == [a] + Lines(rest)
  {
    var s := a + "\n" + rest;
    IndexOfAfter(a, '\n', rest);
    assert s[..|a|] == a;
    assert s[|a| + 1..] == rest;
  }

  /** A point's line has exactly its three rendered numbers as fields, and no break. */
  lemma RowLineFields(p: AngleDataPoint, show: real -> string)
    requires RendersFields(show)
    ensures Split(RowLine(p, show), ',') == [show(p.timestamp), show(p.algorithm1Angle), show(p.algorithm2Angle)]
    ensures '\n' !in RowLine(p, show)
  {
    var t, a1, a2 := show(p.timestamp), show(p.algorithm1Angle), show(p.algorithm2Angle);
    assert IsField(t) && IsField(a1) && IsField(a2);
    assert RowLine(p, show) == t + [','] + (a1 + [','] + a2);
    SplitCons(t, ',', a1 + [','] + a2);
    SplitCons(a1, ',', a2);
    SplitField(a2, ',');
  }

  /** One line per point, in order. */
  function RowLines(points: seq<AngleDataPoint>, show: real -> string): (lines: seq<string>)
    ensures |lines| == |points|
    ensures forall i :: 0 <= i < |points| ==> lines[i] == RowLine(points[i], show)
  {
    if points == [] then [] else [RowLine(points[0], show)] + RowLines(points[1..], show)
  }

  /** The rows text splits into one line per point, in order. */
  lemma {:induction false} RowsLines(points: seq<AngleDataPoint>, show: real -> string)
    requires RendersFields(show)
    ensures Lines(Rows(points, show)) == RowLines(points, show)
  {
    if points != [] {
      RowLineFields(points[0], show);
      LinesCons(RowLine(points[0], show), Rows(points[1..], show));
      RowsLines(points[1..], show);
    }
  }

  lemma HeaderThenRowLines(points: seq<AngleDataPoint>, show: real -> string)
    ensures RendersFields(show) ==> Lines(Header + "\n" + Rows(points, show)) == [Header] + RowLines(points, show)
  {
    if RendersFields(show) {
      HeaderIsLine();
      LinesCons(Header, Rows(points, show));
      RowsLines(points, show);
    }
  }

  /** The reader gives back every number of every point from its rendering (what is
      asked of the reader is asked only of the values actually recorded). */
  ghost predicate ReadsBack(points: seq<AngleDataPoint>, show: real -> string, read: string -> real) {
    forall i :: 0 <= i < |points| ==>
      && read(show(points[i].timestamp)) == points[i].timestamp
      && read(show(points[i].algorithm1Angle)) == points[i].algorithm1Angle
      && read(show(points[i].algorithm2Angle)) == points[i].algorithm2Angle
  }

  /** Reading the point lines back gives the points. */
  lemma {:induction false} ParseRowLines(points: seq<AngleDataPoint>, show: real -> string, read: string -> real)
    requires RendersFields(show)
    requires ReadsBack(points, show, read)
    ensures ParseRows(RowLines(points, show), read) == Some(points)
  {
    if points != [] {
      var p := points[0];
      RowLineFields(p, show);
      assert ParseRow(RowLine(p, show), read) == Some(p);
      assert ReadsBack(points[1..], show, read) by {
        forall i | 0 <= i < |points[1..]|
          ensures read(show(points[1..][i].timestamp)) == points[1..][i].timestamp
          ensures read(show(points[1..][i].algorithm1Angle)) == points[1..][i].algorithm1Angle
          ensures read(show(points[1..][i].algorithm2Angle)) == points[1..][i].algorithm2Angle
        {
          assert points[1..][i] == points[i + 1];
        }
      }
      ParseRowLines(points[1..], show, read);
      assert RowLines(points, show)[1..] == RowLines(points[1..], show);
      assert [p] + points[1..] == points;
    }
  }

  /** Round trip: reading the exported text back with a reader that inverts the
      renderer on the recorded numbers yields the recorded points, all of them and
      in order. */
  lemma {:induction false} CsvRoundTrip(points: seq<AngleDataPoint>, show: real -> string, read: string -> real)
    requires RendersFields(show)
    requires ReadsBack(points, show, read)
    ensures ParseCsv(CsvText(points, show), read) == Some(points)
  {
    ParseRowLines(points, show, read);
    assert Lines(CsvText(points, show))[1..] == RowLines(points, show);
  }
}
