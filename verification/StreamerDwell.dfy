/** G4 dwells: how the stall watchdog finds the longest one in a job, and that it waits it out. */
module StreamerDwell {
  import opened Options
  import opened Text
  import opened Decimals
  import opened StreamerModel
  import opened StreamerLaws
  import opened StreamerRuns

  predicate IsWord(c: char) {
    IsUpper(c) || IsLower(c) || IsDigit(c) || c == '_'
  }

  predicate InNumber(c: char) {
    IsDigit(c) || c == '.'
  }

  function NumberRun(s: string): (n: nat)
    ensures n <= |s|
  {
    if s == [] || !InNumber(s[0]) then 0 else 1 + NumberRun(s[1..])
  }

  /** The number after the first P that has one. */
  function NumberAfterP(s: string): Option<string> {
    if s == [] then None
    else
      var r := Lstrip(s[1..]);
      if UpperChar(s[0]) == 'P' && NumberRun(r) > 0 then Some(r[..NumberRun(r)]) else NumberAfterP(s[1..])
  }

  /** The dwell text of a string that begins with a G4 word, G04 and so on included. */
  function DwellHere(s: string): Option<string> {
    if s == [] || UpperChar(s[0]) != 'G' then None
    else
      var k := 1 + ZeroRun(s[1..]);
      if k < |s| && s[k] == '4' && (k + 1 == |s| || !IsWord(s[k + 1])) then NumberAfterP(s[k + 1..]) else None
  }

  /** The first dwell text of a line; `inWord` says the preceding character belongs to a word. */
  function DwellText(s: string, inWord: bool): Option<string> {
    if s == [] then None
    else if !inWord && DwellHere(s).Some? then DwellHere(s)
    else DwellText(s[1..], IsWord(s[0]))
  }

  /** float() of digits and points. */
  function ParseFloat(s: string): Option<real> {
    var n := IndexOf(s, '.');
    var whole, fraction := s[..n], if n < |s| then s[n + 1..] else "";
    if AllDigits(whole) && AllDigits(fraction) && whole + fraction != ""
    then Some(PointValue(whole, fraction)) else None
  }

  /** A line's dwell: Some(0.0) without one, None where float() raises ValueError. */
  function DwellOf(line: string): (d: Option<real>)
    ensures d.Some? ==> d.value >= 0.0
  {
    var text := DwellText(line, false);
    if text.None? then Some(0.0) else ParseFloat(text.value)
  }

  ghost predicate IsFloat(s: string, whole: string, point: string, fraction: string) {
    && s == whole + (point + fraction) && AllDigits(whole) && AllDigits(fraction) && whole + fraction != ""
    && (point == "." || (point == "" && fraction == ""))
  }

  /** A dwell is digits with a point among them, before or behind them, or none; with that value. */
  lemma FloatsByText(s: string, x: real)
    ensures ParseFloat(s) == Some(x)
       <==> exists whole, point, fraction :: IsFloat(s, whole, point, fraction) && x == PointValue(whole, fraction)
  {
    hide PointValue, IndexOf;
    if ParseFloat(s) == Some(x) {
      var n := IndexOf(s, '.');
      var whole, point, fraction := s[..n], if n < |s| then "." else "", if n < |s| then s[n + 1..] else "";
      assert s == whole + (point + fraction);
      assert IsFloat(s, whole, point, fraction);
    }
    if whole, point, fraction :| IsFloat(s, whole, point, fraction) && x == PointValue(whole, fraction) {
      PointIsFirst(s, whole, point, fraction);
    }
  }

  lemma PointIsFirst(s: string, whole: string, point: string, fraction: string)
    requires IsFloat(s, whole, point, fraction)
    ensures var n := IndexOf(s, '.');
            n == |whole| && s[..n] == whole && (if n < |s| then s[n + 1..] else "") == fraction
  {
    assert forall i :: 0 <= i < |whole| ==> s[i] == whole[i] && s[i] != '.';
    if point == "." { assert s[|whole|] == '.'; }
  }

  function LongestDwell(lines: seq<string>): Option<real> {
    if lines == [] then Some(0.0)
    else
      var before, last := LongestDwell(lines[..|lines| - 1]), DwellOf(lines[|lines| - 1]);
      if before.None? || last.None? then None
      else Some(if last.value > before.value then last.value else before.value)
  }

  /** The generator under max() in _stream_lines. */
  method FindLongestDwell(lines: seq<string>) returns (longest: Option<real>)
    ensures longest == LongestDwell(lines)
  {
    var best := 0.0;
    var i := 0;
    while i < |lines|
      invariant 0 <= i <= |lines| && LongestDwell(lines[..i]) == Some(best)
    {
      assert lines[..i + 1][..i] == lines[..i];
      var d := DwellOf(lines[i]);
      if d.None? {
        NoneForGood(lines, i + 1);
        return None;
      }
      if d.value > best { best := d.value; }
      i := i + 1;
    }
    assert lines[..i] == lines;
    return Some(best);
  }

  lemma {:induction false} NoneForGood(lines: seq<string>, n: nat)
    requires n <= |lines| && LongestDwell(lines[..n]).None?
    ensures LongestDwell(lines).None?
    decreases |lines|
  {
    if n == |lines| {
      assert lines[..n] == lines;
    } else {
      var before := lines[..|lines| - 1];
      assert before[..n] == lines[..n];
      NoneForGood(before, n);
    }
  }

  /** The longest dwell is one of the job's, or zero, and none is longer. */
  lemma {:induction false} LongestIsLongest(lines: seq<string>)
    requires LongestDwell(lines).Some?
    ensures LongestDwell(lines).value >= 0.0
    ensures forall l :: l in lines ==> DwellOf(l).Some? && DwellOf(l).value <= LongestDwell(lines).value
    ensures LongestDwell(lines).value == 0.0 || exists l :: l in lines && DwellOf(l) == LongestDwell(lines)
  {
    if lines == [] {
    } else {
      var before, last := lines[..|lines| - 1], lines[|lines| - 1];
      LongestIsLongest(before);
      assert lines == before + [last];
    }
  }

  function JobOf(lines: seq<string>): Job {
    Job(lines, LongestDwell(lines))
  }

  /** A run never declares a job stalled before the stall timeout and any of its dwells, together,
      have passed since the last sign of progress. */
  lemma DwellsAreWaitedOut(c: Config, lines: seq<string>, t0: real, tape: seq<Event>, line: string)
    requires line in lines && DwellOf(line).Some?
    requires var h := RunOf(c, JobOf(lines), t0, tape).history;
             h.Then? && h.last.ResetTried? && h.last.reason.message == Some(Stalled)
    ensures var h := RunOf(c, JobOf(lines), t0, tape).history;
            h.last.now - LastProgress(h.before) >= c.stallTimeout + DwellOf(line).value
  {
    var job := JobOf(lines);
    EveryRunIsLawful(c, job, t0, tape);
    var h := RunOf(c, job, t0, tape).history;
    assert ReasonShown(c, job, FactsOf(h.before), h.last.reason, h.last.now);
    if job.dwell.Some? {
      LongestIsLongest(lines);
    } else {
      NoStallWithoutDwell(c, job, t0, tape);
    }
  }

  /** A job whose dwell cannot be read is never streamed, so it never stalls. */
  lemma {:induction false} NoStallWithoutDwell(c: Config, job: Job, t0: real, tape: seq<Event>)
    requires job.dwell.None?
    ensures forall e :: Recorded(RunOf(c, job, t0, tape).history, e) && e.ResetTried? ==>
              e.reason.message == Some(InternalError)
    decreases |tape|
  {
    NeverStarts(c, Init(job, t0), tape);
  }

  ghost predicate Recorded(h: History, e: Entry) {
    h.Then? && (h.last == e || Recorded(h.before, e))
  }

  /** Before its job is read, or after it failed to be. */
  ghost predicate Unstarted(s: Streamer) {
    && (s.point.Loading? || s.point.AtFailsafe? || s.point.Finished?)
    && forall e :: Recorded(s.history, e) && e.ResetTried? ==> e.reason.message == Some(InternalError)
  }

  lemma {:induction false} NeverStarts(c: Config, s: Streamer, tape: seq<Event>)
    requires s.job.dwell.None? && Unstarted(s)
    ensures Unstarted(Run(c, s, tape))
    decreases |tape|
  {
    if tape == [] {
    } else {
      UnstartedStep(c, s, tape[0]);
      NeverStarts(c, Step(c, s, tape[0]), tape[1..]);
    }
  }

  lemma UnstartedStep(c: Config, s: Streamer, e: Event)
    requires s.job.dwell.None? && Unstarted(s)
    ensures Unstarted(Step(c, s, e)) && Step(c, s, e).job == s.job
  {
    hide Continue, Unstarted;
    if e.Wake? {
      UnstartedContinue(c, s, e.at, e.outcome);
    } else if !s.point.Finished? {
      UnstartedCommand(s, e.op, e.at);
    }
  }

  lemma UnstartedContinue(c: Config, s: Streamer, now: real, o: Outcome)
    requires s.job.dwell.None? && Unstarted(s)
    ensures var s' := Continue(c, s, now, o); Unstarted(s') && Suspended(s'.point) && s'.job == s.job
  {
  }

  lemma UnstartedCommand(s: Streamer, op: Operator, now: real)
    requires Unstarted(s) && !s.point.Finished?
    ensures Unstarted(DoCommand(s, op, now))
  {
  }

  // ----- Which dwells are recognised -------------------------------------------------------

  /** A G4 word stands at positions i to k: G or g with no word character before it, zeros, a 4 with
      no word character after it. */
  predicate G4At(s: string, i: int, k: int) {
    && 0 <= i < k < |s|
    && UpperChar(s[i]) == 'G' && (i > 0 ==> !IsWord(s[i - 1]))
    && (forall z :: i < z < k ==> s[z] == '0')
    && s[k] == '4' && (k + 1 < |s| ==> !IsWord(s[k + 1]))
  }

  /** At position j stands a P or p, then blanks, then from a to b the longest run of digits and
      points. */
  predicate NumberAt(s: string, j: int, a: int, b: int) {
    && 0 <= j < a < b <= |s|
    && UpperChar(s[j]) == 'P'
    && (forall z :: j < z < a ==> IsSpace(s[z]))
    && (forall z :: a <= z < b ==> InNumber(s[z])) && (b < |s| ==> !InNumber(s[b]))
  }

  /** Somewhere from position `from` on a P has a number. */
  ghost predicate NumberFrom(s: string, from: int) {
    exists j, a, b :: from <= j && NumberAt(s, j, a, b)
  }

  /** The line dwells: a G4 word, and later a P with a number. */
  ghost predicate HasDwell(s: string) {
    exists i, k :: G4At(s, i, k) && NumberFrom(s, k + 1)
  }

  /** text is the number of the first P that has one after the first G4 word that such a P follows. */
  ghost predicate IsDwellText(s: string, text: string) {
    exists i, k, j, a, b ::
      && G4At(s, i, k) && k < j && NumberAt(s, j, a, b) && text == s[a..b]
      && (forall i', k' :: i' < i && G4At(s, i', k') ==> !NumberFrom(s, k' + 1))
      && (forall j', a', b' :: k < j' < j ==> !NumberAt(s, j', a', b'))
  }

  lemma {:induction false} NumberRunIs(s: string)
    ensures var n := NumberRun(s);
            && (forall z :: 0 <= z < n ==> InNumber(s[z])) && (n < |s| ==> !InNumber(s[n]))
  {
    if s == [] || !InNumber(s[0]) {
    } else {
      NumberRunIs(s[1..]);
      assert forall z :: 1 <= z < |s| ==> s[z] == s[1..][z - 1];
    }
  }

  /** Blanks end, and the number after them ends, in one place. */
  lemma NumberIsThere(s: string, a: nat, n: nat, a': int, b': int)
    requires NumberAt(s, 0, a', b') && 1 <= a <= a + n <= |s|
    requires (forall z :: 1 <= z < a ==> IsSpace(s[z])) && (a < |s| ==> !IsSpace(s[a]))
    requires (forall z :: a <= z < a + n ==> InNumber(s[z])) && (a + n < |s| ==> !InNumber(s[a + n]))
    ensures n > 0 && a' == a && b' == a + n
  {
    assert InNumber(s[a']) && !IsSpace(s[a']);
    assert a' == a;
  }

  /** A P at the front has a number where the recogniser finds one. */
  lemma NumberHere(s: string)
    requires s != [] && UpperChar(s[0]) == 'P' && NumberRun(Lstrip(s[1..])) > 0
    ensures var r := Lstrip(s[1..]); var a := |s| - |r|; var b := a + NumberRun(r);
            |r| < |s| && NumberAt(s, 0, a, b) && s[a..b] == r[..NumberRun(r)]
  {
    hide Lstrip, NumberRun;
    AfterBlanks(s);
    NumberRunIs(Lstrip(s[1..]));
  }

  /** And nowhere else. */
  lemma NumberOnlyHere(s: string, a: int, b: int)
    requires NumberAt(s, 0, a, b)
    ensures var r := Lstrip(s[1..]); NumberRun(r) > 0 && a == |s| - |r| && b == a + NumberRun(r)
  {
    hide Lstrip, NumberRun;
    AfterBlanks(s);
    var r := Lstrip(s[1..]);
    NumberRunIs(r);
    NumberIsThere(s, |s| - |r|, NumberRun(r), a, b);
  }

  lemma AfterBlanks(s: string)
    requires s != []
    ensures var r := Lstrip(s[1..]); var a := |s| - |r|;
            && 1 <= a <= |s| && (a < |s| ==> !IsSpace(s[a]))
            && (forall z :: 1 <= z < a ==> IsSpace(s[z])) && (forall z :: a <= z < |s| ==> s[z] == r[z - a])
  {
    hide Lstrip;
    var t := s[1..];
    LstripIs(t);
    assert forall z :: 1 <= z < |s| ==> s[z] == t[z - 1];
  }

  lemma {:induction false} LstripIs(t: string)
    ensures var r := Lstrip(t);
            && |r| <= |t| && r == t[|t| - |r|..] && (r != [] ==> !IsSpace(r[0]))
            && forall z :: 0 <= z < |t| - |r| ==> IsSpace(t[z])
  {
    if t == [] || !IsSpace(t[0]) {
    } else {
      LstripIs(t[1..]);
      assert forall z :: 1 <= z < |t| ==> t[z] == t[1..][z - 1];
    }
  }

  lemma NumberShifts(s: string, n: nat, j: int, a: int, b: int)
    requires n <= |s| && j >= n
    ensures NumberAt(s, j, a, b) <==> NumberAt(s[n..], j - n, a - n, b - n)
  {
    var t := s[n..];
    assert forall z :: n <= z < |s| ==> s[z] == t[z - n];
    if NumberAt(t, j - n, a - n, b - n) {
      forall z | j < z < a ensures IsSpace(s[z]) { assert IsSpace(t[z - n]); }
      forall z | a <= z < b ensures InNumber(s[z]) { assert InNumber(t[z - n]); }
    }
  }

  /** The recogniser takes the number of the first P that has one. */
  lemma {:induction false} FirstNumber(s: string)
    ensures NumberAfterP(s).Some? <==> NumberFrom(s, 0)
    ensures NumberAfterP(s).Some? ==>
              exists j, a, b :: 0 <= j < a < b <= |s| && NumberAt(s, j, a, b) && NumberAfterP(s).value == s[a..b]
                && forall j', a', b' :: 0 <= j' < j ==> !NumberAt(s, j', a', b')
  {
    if s == [] {
    } else {
      var r := Lstrip(s[1..]);
      var a := |s| - |r|;
      if UpperChar(s[0]) == 'P' && NumberRun(r) > 0 {
        NumberHere(s);
      } else {
        forall a', b' ensures !NumberAt(s, 0, a', b') {
          if NumberAt(s, 0, a', b') { NumberOnlyHere(s, a', b'); }
        }
        FirstNumber(s[1..]);
        forall j, a', b' | 1 <= j ensures NumberAt(s, j, a', b') <==> NumberAt(s[1..], j - 1, a' - 1, b' - 1) {
          NumberShifts(s, 1, j, a', b');
        }
        NumberLater(s);
        if NumberAfterP(s).Some? { FirstNumberLater(s); }
      }
    }
  }

  /** Nothing at the front: a number is there exactly when one is behind it. */
  lemma NumberLater(s: string)
    requires s != [] && (forall a, b :: !NumberAt(s, 0, a, b))
    requires forall j, a, b :: 1 <= j ==> (NumberAt(s, j, a, b) <==> NumberAt(s[1..], j - 1, a - 1, b - 1))
    ensures NumberFrom(s, 0) <==> NumberFrom(s[1..], 0)
  {
    hide NumberAt;
    var t := s[1..];
    if NumberFrom(s, 0) {
      var j, a, b :| 0 <= j && NumberAt(s, j, a, b);
      assert NumberAt(t, j - 1, a - 1, b - 1);
    }
    if NumberFrom(t, 0) {
      var j, a, b :| 0 <= j && NumberAt(t, j, a, b);
      assert NumberAt(s, j + 1, a + 1, b + 1);
    }
  }

  /** And the first one is the first one behind it. */
  lemma FirstNumberLater(s: string)
    requires s != [] && (forall a, b :: !NumberAt(s, 0, a, b))
    requires NumberAfterP(s) == NumberAfterP(s[1..]) && NumberAfterP(s).Some?
    requires forall j, a, b :: 1 <= j ==> (NumberAt(s, j, a, b) <==> NumberAt(s[1..], j - 1, a - 1, b - 1))
    requires exists j, a, b :: 0 <= j < a < b < |s| && NumberAt(s[1..], j, a, b)
               && NumberAfterP(s[1..]).value == s[1..][a..b]
               && forall j', a', b' :: 0 <= j' < j ==> !NumberAt(s[1..], j', a', b')
    ensures exists j, a, b :: 0 <= j < a < b <= |s| && NumberAt(s, j, a, b) && NumberAfterP(s).value == s[a..b]
              && forall j', a', b' :: 0 <= j' < j ==> !NumberAt(s, j', a', b')
  {
    hide NumberAfterP, NumberAt;
    var t := s[1..];
    var j, a, b :| 0 <= j < a < b <= |t| && NumberAt(t, j, a, b) && NumberAfterP(t).value == t[a..b]
                   && forall j', a', b' :: 0 <= j' < j ==> !NumberAt(t, j', a', b');
    FirstShifts(s, j, a, b);
    assert s[a + 1..b + 1] == t[a..b];
  }

  lemma FirstShifts(s: string, j: int, a: int, b: int)
    requires s != [] && 0 <= j && NumberAt(s[1..], j, a, b) && (forall a', b' :: !NumberAt(s, 0, a', b'))
    requires forall j', a', b' :: 1 <= j' ==> (NumberAt(s, j', a', b') <==> NumberAt(s[1..], j' - 1, a' - 1, b' - 1))
    requires forall j', a', b' :: 0 <= j' < j ==> !NumberAt(s[1..], j', a', b')
    ensures NumberAt(s, j + 1, a + 1, b + 1)
    ensures forall j', a', b' :: 0 <= j' < j + 1 ==> !NumberAt(s, j', a', b')
  {
    hide NumberAt;
    assert NumberAt(s[1..], j + 1 - 1, a + 1 - 1, b + 1 - 1);
    forall j', a', b' | 0 <= j' < j + 1 ensures !NumberAt(s, j', a', b') {
      if j' > 0 { assert !NumberAt(s[1..], j' - 1, a' - 1, b' - 1); }
    }
  }

  // ----- The G4 word -----------------------------------------------------------------------

  /** Position i may begin a word; before the string stands a word character if `inWord`. */
  predicate BeginsWord(s: string, i: int, inWord: bool)
    requires 0 <= i <= |s|
  {
    if i == 0 then !inWord else !IsWord(s[i - 1])
  }

  lemma {:induction false} ZerosAre(s: string, n: nat)
    requires n <= |s| && (forall z :: 0 <= z < n ==> s[z] == '0') && (n < |s| ==> s[n] != '0')
    ensures ZeroRun(s) == n
  {
    if n == 0 {
    } else {
      assert forall z :: 0 <= z < |s| - 1 ==> s[1..][z] == s[z + 1];
      ZerosAre(s[1..], n - 1);
    }
  }

  /** The string begins with a G4 word that ends at k. */
  predicate Front(s: string, k: int) {
    && 0 < k < |s| && UpperChar(s[0]) == 'G' && (forall z :: 0 < z < k ==> s[z] == '0')
    && s[k] == '4' && (k + 1 < |s| ==> !IsWord(s[k + 1]))
  }

  lemma FrontDwells(s: string, k: int)
    requires Front(s, k)
    ensures DwellHere(s) == NumberAfterP(s[k + 1..])
  {
    hide NumberAfterP;
    assert forall z :: 0 <= z < |s| - 1 ==> s[1..][z] == s[z + 1];
    ZerosAre(s[1..], k - 1);
  }

  lemma DwellsAtFront(s: string)
    requires DwellHere(s).Some?
    ensures Front(s, 1 + ZeroRun(s[1..]))
  {
    hide NumberAfterP;
    assert forall z :: 1 <= z < |s| ==> s[z] == s[1..][z - 1];
  }

  lemma FrontShifts(s: string, i: nat, k: int)
    requires i <= |s|
    ensures G4At(s, i, k) <==> Front(s[i..], k - i) && BeginsWord(s, i, false)
  {
    var t := s[i..];
    assert forall z :: i <= z < |s| ==> s[z] == t[z - i];
    if Front(t, k - i) {
      forall z | i < z < k ensures s[z] == '0' { assert t[z - i] == '0'; }
    }
    if G4At(s, i, k) {
      forall z | 0 < z < k - i ensures t[z] == '0' { assert s[z + i] == '0'; }
    }
  }

  /** The recogniser takes the first word whose dwell it can read. */
  lemma {:induction false} FirstWord(s: string, inWord: bool)
    ensures DwellText(s, inWord).Some? <==>
              exists i :: 0 <= i < |s| && BeginsWord(s, i, inWord) && DwellHere(s[i..]).Some?
    ensures DwellText(s, inWord).Some? ==>
              exists i :: 0 <= i < |s| && BeginsWord(s, i, inWord) && DwellHere(s[i..]) == DwellText(s, inWord)
                && forall i' :: 0 <= i' < i && BeginsWord(s, i', inWord) ==> DwellHere(s[i'..]).None?
  {
    if s == [] {
    } else if !inWord && DwellHere(s).Some? {
      assert s[0..] == s;
      assert BeginsWord(s, 0, inWord) && DwellHere(s[0..]) == DwellText(s, inWord);
    } else {
      var t, w := s[1..], IsWord(s[0]);
      FirstWord(t, w);
      assert s[0..] == s;
      forall i | 0 <= i < |t| ensures t[i..] == s[i + 1..] && (BeginsWord(t, i, w) <==> BeginsWord(s, i + 1, inWord)) {
      }
      if i :| 0 <= i < |s| && BeginsWord(s, i, inWord) && DwellHere(s[i..]).Some? {
        assert i > 0 && BeginsWord(t, i - 1, w) && DwellHere(t[i - 1..]).Some?;
      }
      if DwellText(t, w).Some? {
        var i :| 0 <= i < |t| && BeginsWord(t, i, w) && DwellHere(t[i..]) == DwellText(t, w)
                 && forall i' :: 0 <= i' < i && BeginsWord(t, i', w) ==> DwellHere(t[i'..]).None?;
        assert BeginsWord(s, i + 1, inWord) && DwellHere(s[i + 1..]) == DwellText(s, inWord);
        forall i' | 0 <= i' < i + 1 && BeginsWord(s, i', inWord) ensures DwellHere(s[i'..]).None? {
          if i' > 0 { assert BeginsWord(t, i' - 1, w) && t[i' - 1..] == s[i'..]; }
        }
      }
    }
  }

  lemma NumberFromShifts(s: string, n: nat)
    requires n <= |s|
    ensures NumberFrom(s[n..], 0) <==> NumberFrom(s, n)
  {
    hide NumberAt;
    if NumberFrom(s[n..], 0) {
      var j, a, b :| 0 <= j && NumberAt(s[n..], j, a, b);
      NumberShifts(s, n, j + n, a + n, b + n);
    }
    if NumberFrom(s, n) {
      var j, a, b :| n <= j && NumberAt(s, j, a, b);
      NumberShifts(s, n, j, a, b);
    }
  }

  /** A G4 word at position i dwells for what follows it. */
  lemma WordAt(s: string, i: nat, k: int)
    requires G4At(s, i, k)
    ensures i < |s| && BeginsWord(s, i, false) && DwellHere(s[i..]) == NumberAfterP(s[k + 1..])
    ensures DwellHere(s[i..]).Some? <==> NumberFrom(s, k + 1)
  {
    hide DwellHere, NumberAfterP, NumberFrom, Front;
    FrontShifts(s, i, k);
    FrontDwells(s[i..], k - i);
    assert s[i..][k - i + 1..] == s[k + 1..];
    FirstNumber(s[k + 1..]);
    NumberFromShifts(s, k + 1);
  }

  /** Where the recogniser reads a dwell there is a G4 word. */
  lemma WordFound(s: string, i: nat)
    requires i < |s| && BeginsWord(s, i, false) && DwellHere(s[i..]).Some?
    ensures G4At(s, i, i + 1 + ZeroRun(s[i + 1..]))
  {
    hide DwellHere, Front, G4At;
    assert s[i..][1..] == s[i + 1..];
    DwellsAtFront(s[i..]);
    FrontShifts(s, i, i + 1 + ZeroRun(s[i + 1..]));
  }

  lemma G4Bounds(s: string, i: int, k: int)
    requires G4At(s, i, k)
    ensures 0 <= i < k < |s|
  {
  }

  /** A dwell is recognised exactly when the line holds a G4 word, with no word character next to
      it, and after it a P with optional blanks and a digit or point. */
  lemma DwellIsRecognised(line: string)
    ensures DwellText(line, false).Some? <==> HasDwell(line)
    ensures !HasDwell(line) ==> DwellOf(line) == Some(0.0)
  {
    hide DwellText, DwellHere, G4At, NumberFrom, NumberAfterP;
    FirstWord(line, false);
    if HasDwell(line) {
      var i, k :| G4At(line, i, k) && NumberFrom(line, k + 1);
      G4Bounds(line, i, k);
      WordAt(line, i, k);
    }
    if i :| 0 <= i < |line| && BeginsWord(line, i, false) && DwellHere(line[i..]).Some? {
      WordFound(line, i);
      WordAt(line, i, i + 1 + ZeroRun(line[i + 1..]));
    }
  }

  /** The first P with a number from position n on. */
  ghost predicate FirstNumberFrom(s: string, n: int, j: int, a: int, b: int) {
    n <= j && NumberAt(s, j, a, b) && forall j', a', b' :: n <= j' < j ==> !NumberAt(s, j', a', b')
  }

  lemma SliceOfTail(s: string, n: nat, a: nat, b: nat)
    requires n <= |s| && a <= b <= |s| - n
    ensures s[n..][a..b] == s[n + a..n + b]
  {
  }

  lemma NumberAfterIsFirst(s: string, n: nat) returns (j: int, a: int, b: int)
    requires n <= |s| && NumberAfterP(s[n..]).Some?
    ensures FirstNumberFrom(s, n, j, a, b) && 0 <= a <= b <= |s| && NumberAfterP(s[n..]).value == s[a..b]
  {
    hide NumberAfterP, NumberAt;
    var t := s[n..];
    FirstNumber(t);
    var j0, a0, b0 :| 0 <= j0 < a0 < b0 <= |t| && NumberAt(t, j0, a0, b0) && NumberAfterP(t).value == t[a0..b0]
                      && forall j', a', b' :: 0 <= j' < j0 ==> !NumberAt(t, j', a', b');
    j, a, b := j0 + n, a0 + n, b0 + n;
    NumberShifts(s, n, j, a, b);
    SliceOfTail(s, n, a0, b0);
    forall j', a', b' | n <= j' < j ensures !NumberAt(s, j', a', b') {
      NumberShifts(s, n, j', a', b');
    }
  }

  /** What is read is the number of the first P that has one, after the first G4 word that such a P
      follows. */
  lemma DwellTextIsFirst(line: string)
    requires DwellText(line, false).Some?
    ensures IsDwellText(line, DwellText(line, false).value)
  {
    hide DwellText, DwellHere, NumberFrom, NumberAfterP, NumberAt, G4At, FirstNumberFrom;
    FirstWord(line, false);
    var text := DwellText(line, false);
    var i :| 0 <= i < |line| && BeginsWord(line, i, false) && DwellHere(line[i..]) == text
             && forall i' :: 0 <= i' < i && BeginsWord(line, i', false) ==> DwellHere(line[i'..]).None?;
    var k := i + 1 + ZeroRun(line[i + 1..]);
    WordFound(line, i);
    WordAt(line, i, k);
    G4Bounds(line, i, k);
    forall i', k' | i' < i && G4At(line, i', k') ensures !NumberFrom(line, k' + 1) {
      G4Bounds(line, i', k');
      WordAt(line, i', k');
    }
    var j, a, b := NumberAfterIsFirst(line, k + 1);
    DwellTextHolds(line, text.value, i, k, j, a, b);
  }

  lemma DwellTextHolds(s: string, text: string, i: int, k: int, j: int, a: int, b: int)
    requires G4At(s, i, k) && FirstNumberFrom(s, k + 1, j, a, b) && text == s[a..b]
    requires forall i', k' :: i' < i && G4At(s, i', k') ==> !NumberFrom(s, k' + 1)
    ensures IsDwellText(s, text)
  {
    hide G4At, NumberFrom;
  }

  /** So a G4 word is missed when its P runs on from it, when its P comes first, and when a word
      character stands before it. */
  lemma MissedDwells()
    ensures !HasDwell("G4P2") && !HasDwell("P2 G4") && !HasDwell("N10G4 P2") && HasDwell("G4 P2")
    ensures DwellOf("G4P2") == DwellOf("P2 G4") == DwellOf("N10G4 P2") == Some(0.0)
  {
    hide DwellText, HasDwell;
    RunOn();
    NumberFirst();
    InsideWord();
    assert NumberAt("G4 P2", 3, 4, 5);
    Dwells("G4 P2", 0, 1, 3, 4, 5);
    DwellIsRecognised("G4P2");
    DwellIsRecognised("P2 G4");
    DwellIsRecognised("N10G4 P2");
  }

  lemma Dwells(s: string, i: int, k: int, j: int, a: int, b: int)
    requires G4At(s, i, k) && k < j && NumberAt(s, j, a, b)
    ensures HasDwell(s)
  {
    assert NumberFrom(s, k + 1);
  }

  lemma RunOn()
    ensures !HasDwell("G4P2")
  {
    assert forall i, k :: !G4At("G4P2", i, k);
  }

  lemma NumberFirst()
    ensures !HasDwell("P2 G4")
  {
    var s := "P2 G4";
    forall i, k | G4At(s, i, k) ensures !NumberFrom(s, k + 1) {
      assert k == 4;
    }
  }

  lemma InsideWord()
    ensures !HasDwell("N10G4 P2")
  {
    var s := "N10G4 P2";
    assert IsWord(s[2]);
    assert forall i, k :: !G4At(s, i, k);
  }
}
