/** Which lines end a program, turn the laser off, unlock and match a marker, said by their text. */
module GcodeLaws {
  import opened Text
  import opened Decimals
  import opened Gcode

  // ----- White space -----------------------------------------------------------------------

  lemma StripParts(line: string) returns (gap: string, pad: string)
    ensures line == gap + (Strip(line) + pad) && Blank(gap) && Blank(pad)
  {
    hide Lstrip, Rstrip;
    var t := Lstrip(line);
    LstripSkips(line);
    RstripLeaves(t);
    gap, pad := line[..|line| - |t|], t[|Rstrip(t)|..];
    assert line == gap + t && t == Rstrip(t) + pad;
  }

  /** A text that begins and ends with something else is what stripping leaves of it between white space. */
  lemma StripsTo(gap: string, text: string, pad: string)
    requires Blank(gap) && Blank(pad) && text != [] && Trimmed(text)
    ensures Strip(gap + (text + pad)) == text
  {
    hide Lstrip, Rstrip;
    var t := text + pad;
    assert t[0] == text[0] && t[|text| - 1] == text[|text| - 1];
    LstripGap(gap, t);
    assert t[|text|..] == pad && t[..|text|] == text;
    RstripIs(t, |text|);
  }

  lemma UpperPrefix(s: string, n: nat)
    requires n <= |s|
    ensures Upper(s)[..n] == Upper(s[..n]) && Upper(s)[n..] == Upper(s[n..])
  {
  }

  // ----- The end of a program --------------------------------------------------------------

  ghost predicate EndParts(line: string, gap: string, word: string, rest: string) {
    && line == gap + (word + rest) && Blank(gap)
    && (word == "M2" || word == "m2" || word == "M30" || word == "m30")
    && (Blank(rest) || rest[0] == ' ')
  }

  /** M2 or M30, in either case, after any white space, with only white space after it or a blank next. */
  ghost predicate EndsProgram(line: string) {
    exists gap, word, rest :: EndParts(line, gap, word, rest)
  }

  lemma EndWord(word: string)
    ensures Upper(word) == "M2" <==> word == "M2" || word == "m2"
    ensures Upper(word) == "M30" <==> word == "M30" || word == "m30"
  {
    var u := Upper(word);
    assert |word| == 2 ==> (u == "M2" <==> u[0] == 'M' && u[1] == '2');
    assert |word| == 3 ==> (u == "M30" <==> u[0] == 'M' && u[1] == '3' && u[2] == '0');
    assert word == "m2" ==> u == "M2";
    assert word == "m30" ==> u == "M30";
    assert u == "M2" ==> word == [word[0], word[1]];
    assert u == "M30" ==> word == [word[0], word[1], word[2]];
  }

  /** What makes an upper-case text a program end, seen at its first n characters. */
  lemma EndPrefix(s: string, n: nat, word: string)
    requires n == |word| <= |s|
    ensures var u := Upper(s);
            (u == word || word + " " <= u) <==> Upper(s[..n]) == word && (n == |s| || s[n] == ' ')
  {
    hide Upper;
    UpperPrefix(s, n);
    PrefixBlank(Upper(s), word);
    BlankAt(s, n);
  }

  lemma PrefixBlank(u: string, word: string)
    requires |word| <= |u|
    ensures u == word || word + " " <= u <==> u[..|word|] == word && (|word| == |u| || u[|word|] == ' ')
  {
    if word + " " <= u { assert u[..|word|] == word && u[|word|] == ' '; }
    if |word| == |u| { assert u[..|word|] == u; }
  }

  lemma BlankAt(s: string, n: nat)
    ensures |Upper(s)| == |s| && (n < |s| ==> (Upper(s)[n] == ' ' <==> s[n] == ' '))
  {
  }

  lemma EndShows(line: string)
    requires IsProgramEnd(line)
    ensures EndsProgram(line)
  {
    hide Upper, Strip, Blank;
    var s := Strip(line);
    var gap, pad := StripParts(line);
    var n := if Upper(s) == "M2" || "M2 " <= Upper(s) then 2 else 3;
    assert "M2" + " " == "M2 " && "M30" + " " == "M30 ";
    EndPrefix(s, n, if n == 2 then "M2" else "M30");
    EndWord(s[..n]);
    var rest := s[n..] + pad;
    assert s + pad == s[..n] + rest;
    assert n == |s| ==> rest == pad;
    assert n < |s| ==> rest[0] == s[n];
    assert EndParts(line, gap, s[..n], rest);
  }

  lemma EndReads(line: string, gap: string, word: string, rest: string)
    requires EndParts(line, gap, word, rest)
    ensures IsProgramEnd(line)
  {
    hide Upper, Strip;
    EndWord(word);
    assert "M2" + " " == "M2 " && "M30" + " " == "M30 ";
    if Blank(rest) {
      StripsTo(gap, word, rest);
    } else {
      RstripLeaves(rest);
      RstripTrims(rest);
      var kept := Rstrip(rest);
      var pad := rest[|kept|..];
      var text := word + kept;
      assert rest == kept + pad && word + rest == text + pad;
      assert text[|text| - 1] == kept[|kept| - 1] && text[0] == word[0];
      StripsTo(gap, text, pad);
      assert kept[0] == rest[0] && text[..|word|] == word && text[|word|] == kept[0];
      EndPrefix(text, |word|, Upper(word));
    }
  }

  /** A line is taken for the end of the program exactly when its text is one. */
  lemma ProgramEndByText(line: string)
    ensures IsProgramEnd(line) <==> EndsProgram(line)
  {
    hide IsProgramEnd, EndParts;
    if IsProgramEnd(line) { EndShows(line); }
    if EndsProgram(line) {
      var gap, word, rest :| EndParts(line, gap, word, rest);
      EndReads(line, gap, word, rest);
    }
  }

  lemma NoEnd(line: string)
    requires line in ["M5", "M20", "M300"]
    ensures !EndsProgram(line)
  {
    hide EndsProgram;
    StripTrimmed(line);
    ProgramEndByText(line);
    var u := Upper(line);
    assert u == line;
    assert "M20"[2] == '0' && "M300"[3] == '0' && "M300"[1] == '3' && "M5"[1] == '5';
  }

  /** M5, M20 and M300 end nothing; m30 with a comment after a blank does. */
  lemma NotEveryMEnds()
    ensures !EndsProgram("M5") && !EndsProgram("M20") && !EndsProgram("M300") && EndsProgram("\tm30 (done)")
  {
    hide EndsProgram;
    NoEnd("M5");
    NoEnd("M20");
    NoEnd("M300");
    CommentAfterEnd();
  }

  lemma CommentAfterEnd()
    ensures EndsProgram("\tm30 (done)")
  {
    assert EndParts("\tm30 (done)", "\t", "m30", " (done)");
  }

  // ----- Unlocking -------------------------------------------------------------------------

  ghost predicate UnlockParts(line: string, gap: string, word: string, pad: string) {
    && line == gap + (word + pad) && Blank(gap) && Blank(pad)
    && (word == "$X" || word == "$x" || word == "$H" || word == "$h")
  }

  /** $X or $H in either case, with nothing but white space around it. */
  ghost predicate Unlocks(line: string) {
    exists gap, word, pad :: UnlockParts(line, gap, word, pad)
  }

  lemma UnlockWord(word: string)
    ensures Upper(word) in ["$X", "$H"] <==> word == "$X" || word == "$x" || word == "$H" || word == "$h"
  {
    var u := Upper(word);
    if |word| == 2 {
      assert u[0] == UpperChar(word[0]) && u[1] == UpperChar(word[1]);
      assert word == [word[0], word[1]] && u == [u[0], u[1]];
    }
  }

  /** A line unlocks exactly when its text does. */
  lemma UnlockByText(line: string)
    ensures ClearsError(line) <==> Unlocks(line)
  {
    hide Strip, Upper, Blank;
    var gap, pad := StripParts(line);
    UnlockWord(Strip(line));
    if ClearsError(line) { assert UnlockParts(line, gap, Strip(line), pad); }
    if g, word, p :| UnlockParts(line, g, word, p) {
      StripsTo(g, word, p);
    }
  }

  // ----- Words -----------------------------------------------------------------------------

  predicate IsWord(w: string) {
    w != [] && forall i :: 0 <= i < |w| ==> !IsSpace(w[i])
  }

  lemma {:induction false} WordLengthIs(w: string, rest: string)
    requires (forall i :: 0 <= i < |w| ==> !IsSpace(w[i])) && (rest == [] || IsSpace(rest[0]))
    ensures WordLength(w + rest) == |w|
  {
    if w == [] {
      assert w + rest == rest;
    } else {
      WordLengthIs(w[1..], rest);
      assert (w + rest)[1..] == w[1..] + rest;
    }
  }

  lemma {:induction false} SkipGap(gap: string, rest: string)
    requires Blank(gap)
    ensures Words(gap + rest) == Words(rest)
  {
    if gap == [] {
      assert gap + rest == rest;
    } else {
      SkipGap(gap[1..], rest);
      assert (gap + rest)[1..] == gap[1..] + rest;
    }
  }

  /** The first word of a text, after any white space, and the words after it. */
  lemma FirstWord(gap: string, w: string, rest: string)
    requires Blank(gap) && IsWord(w) && (rest == [] || IsSpace(rest[0]))
    ensures Words(gap + (w + rest)) == [w] + Words(rest)
  {
    hide WordLength;
    SkipGap(gap, w + rest);
    WordLengthIs(w, rest);
    assert (w + rest)[0] == w[0] && (w + rest)[..|w|] == w && (w + rest)[|w|..] == rest;
  }

  ghost predicate AllWords(ws: seq<string>) {
    forall w :: w in ws ==> IsWord(w)
  }

  lemma WordsSplit(s: string)
    ensures AllWords(Words(s))
  {
    WordsAreWords(s);
    forall w | w in Words(s) ensures IsWord(w) {
      assert forall i :: 0 <= i < |w| ==> w[i] in w;
    }
  }

  lemma {:induction false} JoinedApart(ws: seq<string>)
    requires AllWords(ws)
    ensures Words(JoinWords(ws)) == ws
  {
    hide Words;
    if ws == [] {
      NoWordsIn();
    } else {
      assert ws[0] in ws;
      JoinedApart(ws[1..]);
      var rest := if |ws| == 1 then "" else " " + JoinWords(ws[1..]);
      assert JoinWords(ws) == "" + (ws[0] + rest);
      FirstWord("", ws[0], rest);
      if |ws| == 1 { NoWordsIn(); } else { SkipGap(" ", JoinWords(ws[1..])); }
    }
  }

  lemma NoWordsIn()
    ensures Words("") == []
  {
  }

  // ----- Leading zeros ---------------------------------------------------------------------

  lemma {:induction false} ZerosStop(a: string, rest: string)
    requires rest != [] && rest[0] != '0'
    ensures ZeroRun(a + rest) == ZeroRun(a)
  {
    if a == [] {
      assert a + rest == rest;
    } else {
      ZerosStop(a[1..], rest);
      assert (a + rest)[1..] == a[1..] + rest;
    }
  }

  lemma DroppedStops(a: string, b: string)
    ensures Dropped(a + (" " + b)) == Dropped(a)
  {
    hide ZeroRun;
    var rest := " " + b;
    ZerosStop(a, rest);
    var k := ZeroRun(a);
    assert k < |a| ==> (a + rest)[k] == a[k];
    assert k == |a| ==> (a + rest)[k] == ' ';
  }

  /** How far one step of the dropping goes. */
  function StepLength(s: string): (n: nat)
    requires s != []
    ensures 1 <= n <= |s|
  {
    if IsUpper(s[0]) then 1 + Dropped(s[1..]) else 1
  }

  lemma DropStep(s: string)
    requires s != []
    ensures DropLeadingZeros(s) == [s[0]] + DropLeadingZeros(s[StepLength(s)..])
  {
  }

  lemma StepStops(a: string, b: string)
    requires a != []
    ensures StepLength(a + (" " + b)) == StepLength(a)
  {
    hide Dropped;
    DroppedStops(a[1..], b);
    assert (a + (" " + b))[1..] == a[1..] + (" " + b);
  }

  /** No number reaches over a blank. */
  lemma {:induction false} DropSplits(a: string, b: string)
    ensures DropLeadingZeros(a + (" " + b)) == DropLeadingZeros(a) + (" " + DropLeadingZeros(b))
    decreases |a|
  {
    hide DropLeadingZeros, StepLength;
    var s := a + (" " + b);
    if a == [] {
      NothingLeft();
      assert s == " " + b;
      BlankStays(b);
    } else {
      var n := StepLength(a);
      StepStops(a, b);
      DropStep(s);
      DropStep(a);
      assert s[0] == a[0] && s[n..] == a[n..] + (" " + b);
      DropSplits(a[n..], b);
    }
  }

  lemma BlankStays(b: string)
    ensures DropLeadingZeros(" " + b) == " " + DropLeadingZeros(b)
  {
    assert (" " + b)[1..] == b;
  }

  lemma NothingLeft()
    ensures DropLeadingZeros("") == ""
  {
  }

  /** A word with leading zeros dropped. */
  function Shortened(ws: seq<string>): seq<string> {
    if ws == [] then [] else [DropLeadingZeros(ws[0])] + Shortened(ws[1..])
  }

  lemma {:induction false} DropJoined(ws: seq<string>)
    ensures DropLeadingZeros(JoinWords(ws)) == JoinWords(Shortened(ws))
  {
    hide DropLeadingZeros;
    if ws == [] {
      NothingLeft();
    } else if |ws| == 1 {
      assert Shortened(ws) == [DropLeadingZeros(ws[0])];
    } else {
      DropJoined(ws[1..]);
      assert JoinWords(ws) == ws[0] + (" " + JoinWords(ws[1..]));
      DropSplits(ws[0], JoinWords(ws[1..]));
      var vs := Shortened(ws);
      assert vs[1..] == Shortened(ws[1..]) && |vs[1..]| > 0;
      assert JoinWords(vs) == vs[0] + (" " + JoinWords(vs[1..]));
    }
  }

  lemma {:induction false} DropKeepsCharacters(s: string)
    ensures forall c :: c in DropLeadingZeros(s) ==> c in s
    decreases |s|
  {
    if s == [] {
    } else {
      var n := if IsUpper(s[0]) then 1 + Dropped(s[1..]) else 1;
      DropKeepsCharacters(s[n..]);
      assert DropLeadingZeros(s) == [s[0]] + DropLeadingZeros(s[n..]);
    }
  }

  lemma DropKeepsWord(w: string)
    requires IsWord(w)
    ensures IsWord(DropLeadingZeros(w))
  {
    var d := DropLeadingZeros(w);
    DropKeepsFirst(w);
    DropKeepsCharacters(w);
    forall i | 0 <= i < |d| ensures !IsSpace(d[i]) {
      assert d[i] in d;
    }
  }

  lemma {:induction false} ShortenedWords(ws: seq<string>)
    requires AllWords(ws)
    ensures AllWords(Shortened(ws)) && |Shortened(ws)| == |ws|
  {
    hide IsWord;
    if ws == [] {
    } else {
      assert ws[0] in ws;
      DropKeepsWord(ws[0]);
      ShortenedWords(ws[1..]);
    }
  }

  /** The words of a line in upper case and without leading zeros. */
  function CodeWords(line: string): seq<string> {
    Shortened(Words(Upper(line)))
  }

  lemma NormalizedJoins(line: string)
    ensures NormalizeGcode(line) == JoinWords(CodeWords(line)) && AllWords(CodeWords(line))
  {
    hide Words, Upper, Shortened, JoinWords, IsWord;
    WordsSplit(Upper(line));
    DropJoined(Words(Upper(line)));
    ShortenedWords(Words(Upper(line)));
  }

  /** A marker matches exactly the lines with its words, whatever the case of the letters, the white
      space around and between the words, and the leading zeros of numbers. */
  lemma MarkersByWords(marker: string, line: string)
    ensures Matches(marker, line) <==> !Blank(marker) && CodeWords(line) == CodeWords(marker)
  {
    hide CodeWords, NormalizeGcode, Strip, Blank, IsWord;
    StripTrims(marker);
    NormalizedJoins(marker);
    NormalizedJoins(line);
    JoinedApart(CodeWords(marker));
    JoinedApart(CodeWords(line));
  }

  /** The zero at position i is one of the leading zeros of the number after a letter: only zeros stand
      between the letter and it, and a digit comes next. */
  ghost predicate LeadsNumber(s: string, i: int) {
    0 <= i < |s| - 1 && s[i] == '0' && IsDigit(s[i + 1]) && AfterLetter(s, i)
  }

  ghost predicate AfterLetter(s: string, i: int) {
    exists j :: 0 <= j < i <= |s| && IsUpper(s[j]) && OnlyZeros(s, j + 1, i)
  }

  ghost predicate OnlyZeros(s: string, a: int, b: int)
    requires 0 <= a && b <= |s|
  {
    forall k :: a <= k < b ==> s[k] == '0'
  }

  /** What is left of s from position i without the leading zeros. */
  ghost function Left(s: string, i: nat): string
    requires i <= |s|
    decreases |s| - i
  {
    if i == |s| then [] else (if LeadsNumber(s, i) then [] else [s[i]]) + Left(s, i + 1)
  }

  lemma {:induction false} AllDropped(s: string, i: nat, n: nat)
    requires i + n <= |s| && forall k :: i <= k < i + n ==> LeadsNumber(s, k)
    ensures Left(s, i) == Left(s, i + n)
    decreases n
  {
    hide LeadsNumber;
    if n == 0 {
    } else {
      assert LeadsNumber(s, i);
      AllDropped(s, i + 1, n - 1);
    }
  }

  lemma DropsRun(s: string, i: nat)
    requires i < |s| && IsUpper(s[i])
    ensures var n := Dropped(s[i + 1..]);
            && i + 1 + n <= |s| && (forall k :: i + 1 <= k < i + 1 + n ==> LeadsNumber(s, k))
            && !LeadsNumber(s, i + 1 + n)
  {
    var t := s[i + 1..];
    var z, n := ZeroRun(t), Dropped(t);
    assert n < |t| ==> t[n] == s[i + 1 + n];
    assert n + 1 < |t| ==> t[n + 1] == s[i + 2 + n];
    forall k | i + 1 <= k < i + 1 + n ensures LeadsNumber(s, k) {
      assert s[k] == t[k - i - 1] && s[k + 1] == t[k - i];
      assert OnlyZeros(s, i + 1, k) by { assert forall m :: i + 1 <= m < k ==> s[m] == t[m - i - 1]; }
    }
  }

  lemma NextStays(s: string, i: nat)
    requires i < |s| && !IsUpper(s[i]) && !LeadsNumber(s, i)
    ensures !LeadsNumber(s, i + 1)
  {
  }

  /** One step of the dropping, seen in the whole text. */
  lemma StepLeaves(s: string, i: nat)
    requires i < |s| && !LeadsNumber(s, i)
    ensures var n := StepLength(s[i..]);
            && i + n <= |s| && s[i..][n..] == s[i + n..]
            && (forall k :: i < k < i + n ==> LeadsNumber(s, k)) && !LeadsNumber(s, i + n)
  {
    hide LeadsNumber, Dropped;
    assert s[i..][1..] == s[i + 1..];
    if IsUpper(s[i]) { DropsRun(s, i); } else { NextStays(s, i); }
  }

  lemma LeftStep(s: string, i: nat)
    requires i < |s| && !LeadsNumber(s, i)
    ensures Left(s, i) == [s[i]] + Left(s, i + 1)
  {
    hide LeadsNumber;
  }

  lemma NothingLeftAt(s: string)
    ensures Left(s, |s|) == [] && s[|s|..] == []
  {
  }

  lemma {:induction false} DropLeaves(s: string, i: nat)
    requires i <= |s| && !LeadsNumber(s, i)
    ensures DropLeadingZeros(s[i..]) == Left(s, i)
    decreases |s| - i
  {
    hide LeadsNumber, DropLeadingZeros, Left, StepLength;
    if i == |s| {
      NothingLeft();
      NothingLeftAt(s);
    } else {
      var n := StepLength(s[i..]);
      StepLeaves(s, i);
      DropStep(s[i..]);
      LeftStep(s, i);
      AllDropped(s, i + 1, n - 1);
      DropLeaves(s, i + n);
    }
  }

  /** Exactly the leading zeros of numbers behind a letter are dropped. */
  lemma DropsExactly(s: string)
    ensures DropLeadingZeros(s) == Left(s, 0)
  {
    assert !LeadsNumber(s, 0);
    DropLeaves(s, 0);
    assert s[0..] == s;
  }

  // ----- Laser off -------------------------------------------------------------------------

  ghost predicate LaserOffParts(line: string, gap: string, word: string, rest: string) {
    && line == gap + (word + rest) && Blank(gap) && (rest == "" || IsSpace(rest[0]))
    && |word| >= 2 && (word[0] == 'M' || word[0] == 'm') && OnlyZeros(word, 1, |word| - 1) && word[|word| - 1] == '5'
  }

  /** M5 as the first word, in either case and with any zeros before the five. */
  ghost predicate TurnsLaserOff(line: string) {
    exists gap, word, rest :: LaserOffParts(line, gap, word, rest)
  }

  lemma FirstOfJoin(ws: seq<string>, w: string)
    requires AllWords(ws) && IsWord(w)
    ensures JoinWords(ws) == w || w + " " <= JoinWords(ws) <==> ws != [] && ws[0] == w
  {
    hide IsWord, Words;
    var s := JoinWords(ws);
    JoinedApart(ws);
    if s == w {
      assert s == "" + (w + "");
      FirstWord("", w, "");
    }
    if w + " " <= s {
      var rest := s[|w|..];
      assert s == "" + (w + rest) && rest[0] == ' ';
      FirstWord("", w, rest);
    }
  }

  lemma {:induction false} ZeroRunIs(s: string, n: nat)
    requires n <= |s| && OnlyZeros(s, 0, n) && (n < |s| ==> s[n] != '0')
    ensures ZeroRun(s) == n
  {
    if n == 0 {
    } else {
      assert OnlyZeros(s[1..], 0, n - 1) by { assert forall k :: 0 <= k < n - 1 ==> s[1..][k] == s[k + 1]; }
      ZeroRunIs(s[1..], n - 1);
    }
  }

  lemma FiveAlone()
    ensures DropLeadingZeros("5") == "5"
  {
    assert "5"[1..] == "";
    assert DropLeadingZeros("") == "";
  }

  /** Exactly M, zeros and a 5 come down to M5. */
  lemma ShortM5(u: string)
    ensures DropLeadingZeros(u) == "M5"
       <==> |u| >= 2 && u[0] == 'M' && OnlyZeros(u, 1, |u| - 1) && u[|u| - 1] == '5'
  {
    hide DropLeadingZeros, ZeroRun, Dropped;
    if DropLeadingZeros(u) == "M5" { M5Shows(u); }
    if |u| >= 2 && u[0] == 'M' && OnlyZeros(u, 1, |u| - 1) && u[|u| - 1] == '5' {
      var t := u[1..];
      assert OnlyZeros(t, 0, |t| - 1) by { assert forall k :: 0 <= k < |t| - 1 ==> t[k] == u[k + 1]; }
      ZeroRunIs(t, |t| - 1);
      assert StepLength(u) == |u| - 1 by { ZerosBeforeFive(t); }
      DropStep(u);
      FiveAlone();
      assert u[|u| - 1..] == "5";
    }
  }

  lemma ZerosBeforeFive(t: string)
    requires t != [] && ZeroRun(t) == |t| - 1 && t[|t| - 1] == '5'
    ensures Dropped(t) == |t| - 1
  {
    hide ZeroRun;
    assert IsDigit(t[|t| - 1]);
  }

  lemma StepZeros(u: string)
    requires u != [] && IsUpper(u[0])
    ensures OnlyZeros(u, 1, StepLength(u))
  {
    var t := u[1..];
    assert Dropped(t) <= ZeroRun(t);
    assert forall k :: 1 <= k < StepLength(u) ==> u[k] == t[k - 1];
  }

  lemma M5Shows(u: string)
    requires DropLeadingZeros(u) == "M5"
    ensures |u| >= 2 && u[0] == 'M' && OnlyZeros(u, 1, |u| - 1) && u[|u| - 1] == '5'
  {
    hide DropLeadingZeros, StepLength, OnlyZeros;
    NothingLeft();
    DropKeepsFirst(u);
    DropStep(u);
    StepZeros(u);
    var n := StepLength(u);
    var t := u[n..];
    assert DropLeadingZeros(t) == ([u[0]] + DropLeadingZeros(t))[1..] == "5";
    FiveShows(t);
    assert |u| == n + 1 && u[n] == t[0];
  }

  lemma FiveShows(t: string)
    requires DropLeadingZeros(t) == "5"
    ensures t == "5"
  {
    hide DropLeadingZeros;
    NothingLeft();
    DropStep(t);
    var rest := t[StepLength(t)..];
    DropKeepsFirst(rest);
    assert ([t[0]] + DropLeadingZeros(rest))[0] == t[0];
    assert |DropLeadingZeros(rest)| == 0;
    assert t[0] == '5' && StepLength(t) == 1;
  }

  lemma WordCut(t: string)
    requires t != [] && !IsSpace(t[0])
    ensures var n := WordLength(t); n <= |t| && IsWord(t[..n]) && (t[n..] == [] || IsSpace(t[n..][0]))
  {
    hide WordLength;
    var n := WordLength(t);
    assert n > 0;
    if n < |t| { assert t[n..][0] == t[n]; }
  }

  lemma FirstWordOf(s: string) returns (gap: string, w: string, rest: string)
    requires !Blank(s)
    ensures s == gap + (w + rest) && Blank(gap) && IsWord(w) && (rest == [] || IsSpace(rest[0]))
  {
    hide Lstrip, WordLength, IsWord, Blank;
    var t := Lstrip(s);
    BlankStart(s);
    LstripTrims(s);
    WordCut(t);
    gap := s[..|s| - |t|];
    w, rest := t[..WordLength(t)], t[WordLength(t)..];
    assert t == w + rest;
  }

  lemma UpperJoins(a: string, b: string)
    ensures Upper(a + b) == Upper(a) + Upper(b)
  {
  }

  lemma UpperWord(w: string, gap: string, rest: string)
    requires Blank(gap) && IsWord(w) && (rest == [] || IsSpace(rest[0]))
    ensures Words(Upper(gap + (w + rest))) == [Upper(w)] + Words(Upper(rest))
  {
    hide Words;
    UpperJoins(gap, w + rest);
    UpperJoins(w, rest);
    UpperKeepsBlank(gap);
    FirstWord(Upper(gap), Upper(w), Upper(rest));
  }

  lemma UpperM5(w: string)
    ensures |w| >= 2 && Upper(w)[0] == 'M' && OnlyZeros(Upper(w), 1, |w| - 1) && Upper(w)[|w| - 1] == '5'
       <==> |w| >= 2 && (w[0] == 'M' || w[0] == 'm') && OnlyZeros(w, 1, |w| - 1) && w[|w| - 1] == '5'
  {
    var u := Upper(w);
    assert forall k :: 0 <= k < |w| ==> (u[k] == '0' <==> w[k] == '0');
  }

  /** The first word decides. */
  lemma LaserOffByWord(line: string, gap: string, w: string, rest: string)
    requires line == gap + (w + rest) && Blank(gap) && IsWord(w) && (rest == [] || IsSpace(rest[0]))
    ensures IsLaserOff(line) <==> LaserOffParts(line, gap, w, rest)
  {
    hide NormalizeGcode, Words, Upper, JoinWords, DropLeadingZeros, IsWord, OnlyZeros;
    NormalizedJoins(line);
    UpperWord(w, gap, rest);
    assert IsWord("M5") by { M5IsWord(); }
    assert CodeWords(line)[0] == DropLeadingZeros(Upper(w));
    assert "M5" + " " == "M5 ";
    FirstOfJoin(CodeWords(line), "M5");
    ShortM5(Upper(w));
    UpperM5(w);
  }

  lemma M5IsWord()
    ensures IsWord("M5")
  {
    assert !IsSpace("M5"[0]) && !IsSpace("M5"[1]);
  }

  /** A line passes as laser-off exactly when its text turns the laser off. */
  lemma LaserOffByText(line: string)
    ensures IsLaserOff(line) <==> TurnsLaserOff(line)
  {
    hide IsLaserOff, OnlyZeros, IsWord;
    if gap, word, rest :| LaserOffParts(line, gap, word, rest) {
      assert IsWord(word) by { M5WordIsWord(word); }
      LaserOffByWord(line, gap, word, rest);
    }
    if IsLaserOff(line) {
      assert !Blank(line) by { LaserOffIsNotBlank(line); }
      var gap, w, rest := FirstWordOf(line);
      LaserOffByWord(line, gap, w, rest);
    }
  }

  lemma M5WordIsWord(w: string)
    requires |w| >= 2 && (w[0] == 'M' || w[0] == 'm') && OnlyZeros(w, 1, |w| - 1) && w[|w| - 1] == '5'
    ensures IsWord(w)
  {
  }

  lemma LaserOffIsNotBlank(line: string)
    requires IsLaserOff(line)
    ensures !Blank(line)
  {
    UpperKeepsBlank(line);
    NonBlankHasWords(Upper(line));
    NothingLeft();
  }
}
