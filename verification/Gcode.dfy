/** The forms of a G-code line the proxy acts on, and the normal form it compares markers in. */
module Gcode {
  import opened Text
  import opened Decimals

  /** G04 becomes G4, M03 becomes M3: zeros after a letter go, but not the last digit. */
  function DropLeadingZeros(s: string): string
    decreases |s|
  {
    if s == [] then []
    else if !IsUpper(s[0]) then [s[0]] + DropLeadingZeros(s[1..])
    else [s[0]] + DropLeadingZeros(s[1 + Dropped(s[1..])..])
  }

  /** How many leading zeros of a word's number go. */
  function Dropped(s: string): (n: nat)
    ensures n <= |s|
    ensures n < |s| && s[n] == '0' ==> n + 1 == |s| || !IsDigit(s[n + 1])
  {
    var k := ZeroRun(s);
    if k > 0 && (k == |s| || !IsDigit(s[k])) then k - 1 else k
  }

  function NormalizeGcode(line: string): string {
    DropLeadingZeros(JoinWords(Words(Upper(line))))
  }

  predicate IsProgramEnd(line: string) {
    var s := Upper(Strip(line));
    s == "M2" || s == "M30" || "M2 " <= s || "M30 " <= s
  }

  /** A blank marker matches nothing. */
  predicate Matches(marker: string, line: string) {
    Strip(marker) != "" && NormalizeGcode(line) == NormalizeGcode(marker)
  }

  predicate IsLaserOff(line: string) {
    var s := NormalizeGcode(line);
    s == "M5" || "M5 " <= s
  }

  /** $X or $H. */
  predicate ClearsError(line: string) {
    Upper(Strip(line)) in ["$X", "$H"]
  }

  // ----- The normal form -------------------------------------------------------------------

  /** Upper case, with single blanks between words and none at the end. */
  predicate Tidy(t: string) {
    forall i :: 0 <= i < |t| ==> TidyAt(t, i)
  }

  predicate TidyAt(t: string, i: int)
    requires 0 <= i < |t|
  {
    !IsLower(t[i]) && (IsSpace(t[i]) ==> t[i] == ' ' && i + 1 < |t| && !IsSpace(t[i + 1]))
  }

  /** No word's number has a leading zero. */
  predicate NoLeadingZeros(t: string) {
    forall i :: 0 <= i < |t| - 2 && IsUpper(t[i]) && t[i + 1] == '0' ==> !IsDigit(t[i + 2])
  }

  predicate Normal(t: string) {
    Tidy(t) && NoLeadingZeros(t) && (t != [] ==> !IsSpace(t[0]))
  }

  lemma TidyCons(c: char, t: string)
    requires Tidy(t) && !IsLower(c) && (IsSpace(c) ==> c == ' ' && t != [] && !IsSpace(t[0]))
    ensures Tidy([c] + t)
  {
    var s := [c] + t;
    forall i | 0 <= i < |s| ensures TidyAt(s, i) {
      if i > 0 {
        assert TidyAt(t, i - 1);
        assert s[i] == t[i - 1] && (i < |t| ==> s[i + 1] == t[i]);
      }
    }
  }

  lemma TidyRest(t: string, n: nat)
    requires Tidy(t) && n <= |t|
    ensures Tidy(t[n..])
  {
    var s := t[n..];
    forall i | 0 <= i < |s| ensures TidyAt(s, i) {
      assert TidyAt(t, n + i);
    }
  }

  lemma NoZerosCons(c: char, t: string)
    requires NoLeadingZeros(t)
    requires IsUpper(c) && |t| >= 2 && t[0] == '0' ==> !IsDigit(t[1])
    ensures NoLeadingZeros([c] + t)
  {
    var s := [c] + t;
    forall i | 0 <= i < |s| - 2 && IsUpper(s[i]) && s[i + 1] == '0' ensures !IsDigit(s[i + 2]) {
      if i > 0 { assert s[i] == t[i - 1] && s[i + 1] == t[i] && s[i + 2] == t[i + 1]; }
    }
  }

  lemma {:induction false} DropKeepsFirst(t: string)
    ensures (t == [] <==> DropLeadingZeros(t) == []) && (t != [] ==> DropLeadingZeros(t)[0] == t[0])
  {
  }

  /** Dropping zeros keeps a text tidy and leaves no leading zero. */
  lemma {:induction false} DropNormalizes(t: string)
    requires Tidy(t)
    ensures Tidy(DropLeadingZeros(t)) && NoLeadingZeros(DropLeadingZeros(t))
    decreases |t|
  {
    if t == [] {
    } else {
      var n := if IsUpper(t[0]) then 1 + Dropped(t[1..]) else 1;
      var rest := t[n..];
      var u := DropLeadingZeros(rest);
      TidyRest(t, n);
      DropNormalizes(rest);
      DropKeepsFirst(rest);
      assert TidyAt(t, 0);
      TidyCons(t[0], u);
      if IsUpper(t[0]) && |u| >= 2 && u[0] == '0' {
        SecondCharacter(rest);
        assert t[1..][n - 1] == '0';
      }
      NoZerosCons(t[0], u);
    }
  }

  /** After a zero, the next character of a text without its leading zeros is that of the text. */
  lemma SecondCharacter(t: string)
    requires t != [] && t[0] == '0' && |DropLeadingZeros(t)| >= 2
    ensures |t| >= 2 && DropLeadingZeros(t)[1] == t[1]
  {
    DropKeepsFirst(t[1..]);
  }

  lemma {:induction false} NothingToDrop(t: string)
    requires NoLeadingZeros(t)
    ensures DropLeadingZeros(t) == t
  {
    if t == [] {
    } else {
      hide DropLeadingZeros, NoLeadingZeros;
      NothingDropped(t);
      NothingToDrop(t[1..]);
      assert [t[0]] + t[1..] == t;
    }
  }

  lemma NothingDropped(t: string)
    requires t != [] && NoLeadingZeros(t)
    ensures NoLeadingZeros(t[1..]) && DropLeadingZeros(t) == [t[0]] + DropLeadingZeros(t[1..])
  {
    hide Dropped;
    var rest := t[1..];
    assert forall i :: 0 <= i < |rest| ==> rest[i] == t[i + 1];
    if IsUpper(t[0]) {
      if rest != [] && rest[0] == '0' { OneZero(rest); } else { NoZero(rest); }
      assert t[1 + 0..] == rest;
    }
  }

  lemma NoZero(s: string)
    requires s == [] || s[0] != '0'
    ensures Dropped(s) == 0
  {
  }

  lemma OneZero(s: string)
    requires s != [] && s[0] == '0' && (|s| >= 2 ==> !IsDigit(s[1]))
    ensures Dropped(s) == 0
  {
    assert ZeroRun(s[1..]) == 0;
  }

  /** Words have no blanks, and their characters are the string's. */
  lemma {:induction false} WordsAreWords(s: string)
    ensures forall w :: w in Words(s) ==> w != [] && forall c :: c in w ==> !IsSpace(c) && c in s
    decreases |s|
  {
    if s == [] {
    } else {
      var n := if IsSpace(s[0]) then 1 else WordLength(s);
      WordsAreWords(s[n..]);
      assert forall c :: c in s[n..] ==> c in s;
      assert forall c :: c in s[..n] ==> c in s;
    }
  }

  predicate PlainWords(ws: seq<string>) {
    forall w :: w in ws ==> w != [] && forall c :: c in w ==> !IsSpace(c) && !IsLower(c)
  }

  lemma {:induction false} TidyWord(w: string, t: string)
    requires Tidy(t) && forall c :: c in w ==> !IsSpace(c) && !IsLower(c)
    ensures Tidy(w + t)
    decreases |w|
  {
    if w == [] {
      assert w + t == t;
    } else {
      TidyWord(w[1..], t);
      TidyCons(w[0], w[1..] + t);
      assert w + t == [w[0]] + (w[1..] + t);
    }
  }

  lemma {:induction false} JoinedWordsAreTidy(ws: seq<string>)
    requires PlainWords(ws)
    ensures Tidy(JoinWords(ws)) && (ws != [] ==> JoinWords(ws) != [] && !IsSpace(JoinWords(ws)[0]))
  {
    if ws == [] {
    } else {
      var w := ws[0];
      assert w in ws && forall v :: v in ws[1..] ==> v in ws;
      if |ws| == 1 {
        TidyWord(w, []);
        assert w + [] == w;
      } else {
        var rest := JoinWords(ws[1..]);
        JoinedWordsAreTidy(ws[1..]);
        TidyCons(' ', rest);
        TidyWord(w, [' '] + rest);
        assert w + ([' '] + rest) == w + " " + rest;
      }
      assert w[0] in w;
    }
  }

  /** A tidy text that begins with a word is its own words, joined. */
  lemma {:induction false} WordsJoin(t: string)
    requires Tidy(t) && (t != [] ==> !IsSpace(t[0]))
    ensures JoinWords(Words(t)) == t && (t != [] ==> Words(t) != [])
    decreases |t|
  {
    if t == [] {
    } else {
      var n := WordLength(t);
      if n == |t| {
        assert t[..n] == t && t[n..] == [];
      } else {
        var u := t[n + 1..];
        TidyRest(t, n + 1);
        assert TidyAt(t, n);
        WordsJoin(u);
        assert t[n..][1..] == u && u[0] == t[n + 1];
        assert Words(t[n..]) == Words(u);
        assert t == t[..n] + " " + u;
      }
    }
  }

  lemma UpperLeavesNoLower(s: string)
    ensures forall c :: c in Upper(s) ==> !IsLower(c)
  {
  }

  lemma NothingLower(t: string)
    requires Tidy(t)
    ensures Upper(t) == t
  {
    assert forall i :: 0 <= i < |t| ==> TidyAt(t, i) && UpperChar(t[i]) == t[i];
  }

  /** Normalizing gives a normal form. */
  lemma NormalizedIsNormal(line: string)
    ensures Normal(NormalizeGcode(line))
  {
    hide Tidy, NoLeadingZeros, Words, JoinWords, DropLeadingZeros;
    var ws := Words(Upper(line));
    WordsAreWords(Upper(line));
    UpperLeavesNoLower(line);
    JoinedWordsAreTidy(ws);
    NoWords();
    DropNormalizes(JoinWords(ws));
    DropKeepsFirst(JoinWords(ws));
  }

  lemma NoWords()
    ensures JoinWords([]) == []
  {
  }

  /** Normal texts, and only they, are left as they are; so normalizing twice is normalizing once. */
  lemma NormalizingEnds(line: string)
    ensures NormalizeGcode(line) == line <==> Normal(line)
    ensures NormalizeGcode(NormalizeGcode(line)) == NormalizeGcode(line)
  {
    NormalizedIsNormal(line);
    NormalStays(NormalizeGcode(line));
    if Normal(line) { NormalStays(line); }
  }

  lemma NormalStays(t: string)
    requires Normal(t)
    ensures NormalizeGcode(t) == t
  {
    NothingLower(t);
    WordsJoin(t);
    NothingToDrop(t);
  }

  /** A marker is recognised in every spelling with the same normal form, and in no other. */
  lemma MarkerSpellings(marker: string, line: string)
    requires Strip(marker) != ""
    ensures Matches(marker, line) <==> Matches(NormalizeGcode(marker), line)
    ensures Matches(marker, NormalizeGcode(line)) <==> Matches(marker, line)
  {
    hide NormalizeGcode;
    NormalizingEnds(marker);
    NormalizingEnds(line);
    MarkerStaysMarker(marker);
  }

  lemma MarkerStaysMarker(marker: string)
    requires Strip(marker) != ""
    ensures Strip(NormalizeGcode(marker)) != ""
  {
    hide Strip;
    StripTrims(marker);
    NormalizedIsNormal(marker);
    var t := NormalizeGcode(marker);
    NonBlankHasWords(Upper(marker));
    UpperKeepsBlank(marker);
    assert Words(Upper(marker))[0] in Words(Upper(marker));
    JoinedNonEmpty(Words(Upper(marker)));
    DropKeepsFirst(JoinWords(Words(Upper(marker))));
    StripTrims(t);
  }

  lemma UpperKeepsBlank(s: string)
    ensures Blank(Upper(s)) <==> Blank(s)
  {
    assert forall i :: 0 <= i < |s| ==> (IsSpace(Upper(s)[i]) <==> IsSpace(s[i]));
  }

  lemma {:induction false} NonBlankHasWords(s: string)
    ensures Words(s) == [] <==> Blank(s)
    ensures forall w :: w in Words(s) ==> w != []
    decreases |s|
  {
    if s == [] {
    } else {
      if IsSpace(s[0]) {
        NonBlankHasWords(s[1..]);
        assert forall i :: 1 <= i < |s| ==> s[i] == s[1..][i - 1];
      } else {
        NonBlankHasWords(s[WordLength(s)..]);
      }
    }
  }

  lemma JoinedNonEmpty(ws: seq<string>)
    requires ws != [] && ws[0] != []
    ensures JoinWords(ws) != []
  {
  }

  lemma M2Ends()
    ensures IsProgramEnd("M2")
  {
    StripTrimmed("M2");
  }
}
