/** Job files: the text a captured job is stored as, and the lines streaming reads back. */
module JobFiles {
  import opened Text

  function FileText(lines: seq<string>): string {
    if lines == [] then "" else lines[0] + "\n" + FileText(lines[1..])
  }

  function Concat(parts: seq<string>): string {
    if parts == [] then "" else parts[0] + Concat(parts[1..])
  }

  predicate EndsLine(c: char) {
    c == '\n' || c == '\r'
  }

  /** Characters before the first line end. */
  function LineLength(text: string): (n: nat)
    ensures n <= |text|
    ensures forall i :: 0 <= i < n ==> !EndsLine(text[i])
    ensures n < |text| ==> EndsLine(text[n])
  {
    if text == [] || EndsLine(text[0]) then 0 else 1 + LineLength(text[1..])
  }

  /** Length of the line end at position n: CR LF counts as one. */
  function EndWidth(text: string, n: nat): (w: nat)
    requires n < |text|
    ensures 1 <= w <= |text| - n
  {
    if text[n] == '\r' && n + 1 < |text| && text[n + 1] == '\n' then 2 else 1
  }

  /** The lines of a file opened as text: LF, CR and CR LF all end a line. */
  function FileLines(text: string): seq<string>
    decreases |text|
  {
    if text == [] then [] else
    var n := LineLength(text);
    if n == |text| then [text] else [text[..n]] + FileLines(text[n + EndWidth(text, n)..])
  }

  function NonBlank(lines: seq<string>): seq<string> {
    if lines == [] then []
    else (if Blank(lines[0]) then [] else [lines[0]]) + NonBlank(lines[1..])
  }

  /** _load_lines: what is streamed from a file. */
  function LoadLines(text: string): seq<string> {
    NonBlank(FileLines(text))
  }

  /** A line that a text file gives back as it is. */
  predicate OneLine(line: string) {
    forall i :: 0 <= i < |line| ==> !EndsLine(line[i])
  }

  /** What becomes of captured lines that may hold carriage returns. */
  function Pieces(lines: seq<string>): seq<string> {
    if lines == [] then [] else FileLines(lines[0] + "\n") + Pieces(lines[1..])
  }

  // ----- Facts -----------------------------------------------------------------------------

  lemma {:induction false} FileTextAppend(a: seq<string>, b: seq<string>)
    ensures FileText(a + b) == FileText(a) + FileText(b)
  {
    if a == [] {
      assert a + b == b;
    } else {
      FileTextAppend(a[1..], b);
      assert (a + b)[1..] == a[1..] + b;
    }
  }

  lemma {:induction false} ConcatAppend(a: seq<string>, b: seq<string>)
    ensures Concat(a + b) == Concat(a) + Concat(b)
  {
    if a == [] {
      assert a + b == b;
    } else {
      ConcatAppend(a[1..], b);
      assert (a + b)[1..] == a[1..] + b;
    }
  }

  lemma {:induction false} NonBlankAppend(a: seq<string>, b: seq<string>)
    ensures NonBlank(a + b) == NonBlank(a) + NonBlank(b)
  {
    if a == [] {
      assert a + b == b;
    } else {
      NonBlankAppend(a[1..], b);
      assert (a + b)[1..] == a[1..] + b;
    }
  }

  lemma FirstLine(text: string, n: nat, rest: string)
    requires n == LineLength(text) < |text| && rest == text[n + EndWidth(text, n)..]
    ensures FileLines(text) == [text[..n]] + FileLines(rest)
  {
    hide LineLength, EndWidth;
  }

  lemma {:induction false} LineLengthOfPrefix(u: string, rest: string)
    ensures LineLength(u + "\n" + rest) == LineLength(u + "\n") < |u| + 1
  {
    var t := u + "\n" + rest;
    if u == [] || EndsLine(u[0]) {
    } else {
      LineLengthOfPrefix(u[1..], rest);
      assert t[1..] == u[1..] + "\n" + rest;
      assert (u + "\n")[1..] == u[1..] + "\n";
    }
  }

  /** A line feed is a clean cut: what follows it does not change the lines before. */
  lemma {:induction false} CutAtLineFeed(u: string, rest: string)
    ensures FileLines(u + "\n" + rest) == FileLines(u + "\n") + FileLines(rest)
    decreases |u|
  {
    hide FileLines;
    var s, t := u + "\n", u + "\n" + rest;
    LineLengthOfPrefix(u, rest);
    var n := LineLength(s);
    assert t[..n] == s[..n] && t[n] == s[n] && EndWidth(t, n) == EndWidth(s, n);
    var k := n + EndWidth(s, n);
    FirstLine(s, n, s[k..]);
    FirstLine(t, n, t[k..]);
    if k == |s| {
      assert t[k..] == rest && s[k..] == [];
      NoLines();
    } else {
      var v := u[k..];
      assert s[k..] == v + "\n" && t[k..] == v + "\n" + rest;
      CutAtLineFeed(v, rest);
      assert [s[..n]] + (FileLines(v + "\n") + FileLines(rest)) == [s[..n]] + FileLines(v + "\n") + FileLines(rest);
    }
  }

  lemma NoLines()
    ensures FileLines([]) == []
  {
  }

  /** The lines a stored job gives back, for any captured lines. */
  lemma {:induction false} StoredLines(lines: seq<string>)
    ensures FileLines(FileText(lines)) == Pieces(lines)
  {
    if lines == [] {
    } else {
      CutAtLineFeed(lines[0], FileText(lines[1..]));
      StoredLines(lines[1..]);
    }
  }

  /** A captured line comes back whole exactly when it holds no CR or LF. */
  lemma OneLineStays(line: string)
    ensures FileLines(line + "\n") == [line] <==> OneLine(line)
  {
    var t := line + "\n";
    var n := LineLength(t);
    assert t[|line|] == '\n';
    if OneLine(line) {
      assert n == |line|;
      assert t[..n] == line && t[n + 1..] == [];
    } else {
      assert n < |line| by {
        var i :| 0 <= i < |line| && EndsLine(line[i]);
        assert EndsLine(t[i]);
      }
      assert |FileLines(t)[0]| == n;
    }
  }

  /** The lines of a file hold no line ends, and nothing that was not in the file. */
  lemma {:induction false} LinesAreLines(text: string)
    ensures forall l :: l in FileLines(text) ==> OneLine(l) && (Blank(text) ==> Blank(l))
    decreases |text|
  {
    var n := LineLength(text);
    if text == [] || n >= |text| {
    } else {
      LinesAreLines(text[n + EndWidth(text, n)..]);
    }
  }

  lemma {:induction false} AllBlank(lines: seq<string>)
    requires forall l :: l in lines ==> Blank(l)
    ensures NonBlank(lines) == []
  {
    if lines == [] {
    } else {
      AllBlank(lines[1..]);
    }
  }

  lemma OneLineLoads(line: string)
    requires Blank(line) || OneLine(line)
    ensures NonBlank(FileLines(line + "\n")) == NonBlank([line])
  {
    assert [line][1..] == [];
    if Blank(line) {
      LinesAreLines(line + "\n");
      AllBlank(FileLines(line + "\n"));
    } else {
      OneLineStays(line);
    }
  }

  lemma {:induction false} LinesLoad(lines: seq<string>)
    requires forall l :: l in lines ==> Blank(l) || OneLine(l)
    ensures NonBlank(Pieces(lines)) == NonBlank(lines)
  {
    hide FileLines, Blank, OneLine;
    if lines == [] {
    } else {
      OneLineLoads(lines[0]);
      LinesLoad(lines[1..]);
      NonBlankAppend(FileLines(lines[0] + "\n"), Pieces(lines[1..]));
      NonBlankAppend([lines[0]], lines[1..]);
      assert [lines[0]] + lines[1..] == lines;
    }
  }

  /** The captured non-blank lines are what is streamed exactly when none of them holds a
      carriage return or a line feed. */
  lemma StoredLinesStay(lines: seq<string>)
    ensures LoadLines(FileText(lines)) == NonBlank(lines) <==> forall l :: l in lines && !Blank(l) ==> OneLine(l)
  {
    hide FileLines;
    StoredLines(lines);
    NonBlankHolds(lines);
    NonBlankHolds(FileLines(FileText(lines)));
    LinesAreLines(FileText(lines));
    if forall l :: l in lines && !Blank(l) ==> OneLine(l) { LinesLoad(lines); }
  }

  lemma {:induction false} NonBlankHolds(lines: seq<string>)
    ensures forall l :: l in NonBlank(lines) <==> l in lines && !Blank(l)
  {
    if lines == [] {
    } else {
      NonBlankHolds(lines[1..]);
    }
  }
}
