/** How status reports read: field by field, and printed ones back. */
module ReportLaws {
  import opened Options
  import opened Text
  import opened Decimals
  import opened GrblMessages
  import opened GrblProtocol

  // ----- Printing and reading a status -----------------------------------------------------

  lemma FieldSplits(key: string, value: string)
    requires key != [] && value != [] && forall i :: 0 <= i < |key| ==> IsLetter(key[i])
    ensures SplitField(key + ":" + value) == Some((Upper(key), value))
  {
    var f := key + ":" + value;
    assert f[|key|] == ':';
    assert IndexOf(f, ':') == |key|;
    assert f[..|key|] == key && f[|key| + 1..] == value;
  }

  lemma ThreeSplit(x: string, y: string, z: string, c: char)
    requires c !in x && c !in y && c !in z
    ensures SplitOn(x + [c] + y + [c] + z, c) == [x, y, z]
  {
    hide SplitOn;
    assert x + [c] + y + [c] + z == x + [c] + (y + [c] + z);
    SplitOnFirst(x, c, y + [c] + z);
    SplitOnFirst(y, c, z);
    SplitOnNone(z, c);
  }

  lemma PositionLooks(p: Position)
    ensures var t := PositionText(p); t != [] && forall c :: c in t ==> IsDigit(c) || c in "-.,"
  {
    hide Fixed3;
    NumbersLook(p.x, 0);
    NumbersLook(p.y, 0);
    NumbersLook(p.z, 0);
  }

  lemma PositionReads(p: Position)
    ensures ParsePosition(PositionText(p)) == Some(Position(Rounded(p.x), Rounded(p.y), Rounded(p.z)))
  {
    hide ParseDecimal, Fixed3, Rounded, SplitOn;
    var x, y, z := Fixed3(p.x), Fixed3(p.y), Fixed3(p.z);
    NumbersLook(p.x, 0);
    NumbersLook(p.y, 0);
    NumbersLook(p.z, 0);
    ThreeSplit(x, y, z, ',');
    Fixed3Parses(p.x);
    Fixed3Parses(p.y);
    Fixed3Parses(p.z);
    PositionLooks(p);
    var t := PositionText(p);
    assert '\n' !in t;
    assert t[|t| - 1] != '\n';
  }

  function FeedText(feed: int, spindle: int): string {
    IntText(feed) + "," + IntText(spindle)
  }

  lemma FeedReads(feed: int, spindle: int)
    ensures var t := FeedText(feed, spindle);
            ParsePair(t) == Some((feed, spindle)) && t != [] && '|' !in t && '>' !in t && '<' !in t
  {
    hide ParseInt, IntText;
    NumbersLook(0.0, feed);
    NumbersLook(0.0, spindle);
    SplitOnFirst(IntText(feed), ',', IntText(spindle));
    SplitOnNone(IntText(spindle), ',');
    IntTextParses(feed);
    IntTextParses(spindle);
  }

  function StatusBody(state: string, mpos: Position, feed: int, spindle: int): string {
    state + "|" + ("MPos:" + PositionText(mpos)) + "|" + ("FS:" + FeedText(feed, spindle))
  }

  lemma PrintedStrips(state: string, mpos: Position, feed: int, spindle: int)
    ensures Strip(MakeStatusResponse(state, mpos, feed, spindle)) == "<" + StatusBody(state, mpos, feed, spindle) + ">"
  {
    hide PositionText, IntText;
    var s := "<" + StatusBody(state, mpos, feed, spindle) + ">";
    var t := MakeStatusResponse(state, mpos, feed, spindle);
    assert t == s + "\r\n";
    assert t[..|t| - 1] == s + "\r" && (s + "\r")[..|s|] == s;
    assert Rstrip(s + "\r") == Rstrip(s) == s;
  }

  lemma NotInEither(c: char, a: string, b: string)
    requires c !in a && c !in b
    ensures c !in a + b
  {
  }

  lemma FieldsLook(mpos: Position, feed: int, spindle: int, c: char)
    requires c == '|' || c == '<' || c == '>'
    ensures c !in "MPos:" + PositionText(mpos) && c !in "FS:" + FeedText(feed, spindle)
  {
    hide PositionText, FeedText, ParsePair;
    NotInKeys(c);
    assert c !in PositionText(mpos) by { PositionLooks(mpos); }
    NotInEither(c, "MPos:", PositionText(mpos));
    assert c !in FeedText(feed, spindle) by { FeedReads(feed, spindle); }
    NotInEither(c, "FS:", FeedText(feed, spindle));
  }

  lemma NotInKeys(c: char)
    requires c == '|' || c == '<' || c == '>'
    ensures c !in "MPos:" && c !in "FS:"
  {
  }

  lemma BodySplits(state: string, mpos: Position, feed: int, spindle: int)
    requires '|' !in state
    ensures SplitOn(StatusBody(state, mpos, feed, spindle), '|')
         == [state, "MPos:" + PositionText(mpos), "FS:" + FeedText(feed, spindle)]
  {
    hide PositionText, FeedText, SplitOn;
    FieldsLook(mpos, feed, spindle, '|');
    ThreeSplit(state, "MPos:" + PositionText(mpos), "FS:" + FeedText(feed, spindle), '|');
  }

  lemma MposField(r: StatusReport, mpos: Position)
    ensures AddField(r, "MPos:" + PositionText(mpos))
         == r.(mpos := Some(Position(Rounded(mpos.x), Rounded(mpos.y), Rounded(mpos.z))))
  {
    hide PositionText, SplitField, ParsePosition, Rounded;
    PositionLooks(mpos);
    PositionReads(mpos);
    FieldSplits("MPos", PositionText(mpos));
    assert "MPos" + ":" + PositionText(mpos) == "MPos:" + PositionText(mpos);
    assert Upper("MPos") == "MPOS";
  }

  lemma FeedField(r: StatusReport, feed: int, spindle: int)
    ensures AddField(r, "FS:" + FeedText(feed, spindle)) == r.(fs := Some((feed, spindle)))
  {
    hide FeedText, SplitField, ParsePair;
    FeedReads(feed, spindle);
    FieldSplits("FS", FeedText(feed, spindle));
    assert "FS" + ":" + FeedText(feed, spindle) == "FS:" + FeedText(feed, spindle);
    assert Upper("FS") == "FS";
  }

  lemma BodyLooks(state: string, mpos: Position, feed: int, spindle: int)
    requires '>' !in state
    ensures '>' !in StatusBody(state, mpos, feed, spindle) && StatusBody(state, mpos, feed, spindle) != []
  {
    hide PositionText, FeedText;
    FieldsLook(mpos, feed, spindle, '>');
  }

  lemma PartsRead(state: string, mpos: Position, feed: int, spindle: int)
    requires state != "" && '|' !in state && '>' !in state
    ensures StatusParts(MakeStatusResponse(state, mpos, feed, spindle))
         == Some([state, "MPos:" + PositionText(mpos), "FS:" + FeedText(feed, spindle)])
  {
    hide PositionText, FeedText, SplitOn, Strip, MakeStatusResponse, StatusBody;
    PrintedStrips(state, mpos, feed, spindle);
    BodySplits(state, mpos, feed, spindle);
    BodyLooks(state, mpos, feed, spindle);
    var body := StatusBody(state, mpos, feed, spindle);
    var s := "<" + body + ">";
    assert s[1..|s| - 1] == body;
  }

  lemma TwoFields(r: StatusReport, f: string, g: string)
    ensures AddFields(r, [f, g]) == AddField(AddField(r, f), g)
  {
    hide AddField;
    assert [f, g][1..] == [g] && [g][1..] == [];
    assert AddFields(AddField(r, f), [g]) == AddField(AddField(r, f), g);
  }

  /** The report that says just this. */
  function PlainReport(state: string, mpos: Position, feed: int, spindle: int): StatusReport {
    StatusReport(state, Some(mpos), None, None, Some((feed, spindle)), None, None, None, None)
  }

  function RoundedPosition(p: Position): Position {
    Position(Rounded(p.x), Rounded(p.y), Rounded(p.z))
  }

  /** A printed status reads back: same state, feed and spindle, and the position rounded to
      the nearest thousandth. */
  lemma StatusReadsBack(state: string, mpos: Position, feed: int, spindle: int)
    requires state != "" && '|' !in state && '>' !in state
    ensures ParseStatusReport(MakeStatusResponse(state, mpos, feed, spindle))
         == Some(PlainReport(state, RoundedPosition(mpos), feed, spindle))
  {
    hide PositionText, FeedText, Rounded, StatusParts, AddField, AddFields, MakeStatusResponse;
    PartsRead(state, mpos, feed, spindle);
    MposField(BareReport(state), mpos);
    var f, g := "MPos:" + PositionText(mpos), "FS:" + FeedText(feed, spindle);
    var r := AddField(BareReport(state), f);
    FeedField(r, feed, spindle);
    TwoFields(BareReport(state), f, g);
    assert [state, f, g][1..] == [f, g];
  }

  /** The position comes back as it was exactly when it is in whole thousandths. */
  lemma PositionReadsBackExactly(state: string, mpos: Position, feed: int, spindle: int)
    requires state != "" && '|' !in state && '>' !in state
    ensures ParseStatusReport(MakeStatusResponse(state, mpos, feed, spindle))
         == Some(PlainReport(state, mpos, feed, spindle))
      <==> WholeThousandths(mpos.x) && WholeThousandths(mpos.y) && WholeThousandths(mpos.z)
  {
    hide ParseStatusReport, MakeStatusResponse, Rounded, WholeThousandths;
    StatusReadsBack(state, mpos, feed, spindle);
    RoundedStays(mpos.x);
    RoundedStays(mpos.y);
    RoundedStays(mpos.z);
    assert PlainReport(state, RoundedPosition(mpos), feed, spindle).mpos.value == RoundedPosition(mpos);
    assert PlainReport(state, mpos, feed, spindle).mpos.value == mpos;
  }

  /** A printed status is one message, whatever the state is called. */
  lemma PrintedStatusIsOneMessage(state: string, mpos: Position, feed: int, spindle: int)
    ensures var t := MakeStatusResponse(state, mpos, feed, spindle);
            SplitResponses(t) == [Strip(t)] && IsStatusReport(Strip(t))
  {
    hide MakeStatusResponse, StatusBody;
    PrintedStrips(state, mpos, feed, spindle);
    var s := "<" + StatusBody(state, mpos, feed, spindle) + ">";
    StripTrimmed(s);
  }

  // ----- Fields by their text --------------------------------------------------------------

  /** What one field of a report says. */
  datatype Reading =
    | ReadsMPos(mpos: Position)
    | ReadsWPos(wpos: Position)
    | ReadsWco(wco: Position)
    | ReadsFs(feed: int, spindle: int)
    | ReadsOv(feedPct: int, rapidPct: int, spindlePct: int)
    | ReadsPn(pins: string)
    | ReadsA(accessories: string)
    | ReadsBf(blocks: int, bytes: int)

  /** The same letters in either case; `capitals` gives them in capitals. */
  ghost predicate Spells(name: string, capitals: string) {
    |name| == |capitals| && forall i :: 0 <= i < |name| ==>
      'A' <= capitals[i] <= 'Z' && (name[i] == capitals[i] || name[i] as int == capitals[i] as int + 32)
  }

  /** A name in letters of either case, a colon and a value. */
  ghost predicate FieldIs(field: string, capitals: string, value: string) {
    value != "" && capitals != "" && exists name :: Spells(name, capitals) && field == name + (":" + value)
  }

  ghost predicate PairIs(value: string, a: int, b: int) {
    exists x, y :: IsPair(value, x, y) && ParseInt(x) == Some(a) && ParseInt(y) == Some(b)
  }

  /** Two texts without commas, and a comma between them. */
  ghost predicate IsPair(value: string, x: string, y: string) {
    value == x + ("," + y) && ',' !in x && ',' !in y
  }

  ghost predicate TripleIs(value: string, a: int, b: int, c: int) {
    exists x, y, z ::
      IsTriple(value, x, y, z) && ParseInt(x) == Some(a) && ParseInt(y) == Some(b) && ParseInt(z) == Some(c)
  }

  ghost predicate IsTriple(value: string, x: string, y: string, z: string) {
    value == x + ("," + (y + ("," + z))) && ',' !in x && ',' !in y && ',' !in z
  }

  /** One line feed after the coordinates is let pass. */
  ghost predicate PositionIs(value: string, p: Position) {
    exists x, y, z ::
      && IsCoordinates(value, x, y, z)
      && ParseDecimal(x) == Some(p.x) && ParseDecimal(y) == Some(p.y) && ParseDecimal(z) == Some(p.z)
  }

  ghost predicate IsCoordinates(value: string, x: string, y: string, z: string) {
    IsTriple(value, x, y, z) || IsTriple(value, x, y, z + "\n")
  }

  /** What a field says by its text. */
  ghost predicate Reads(field: string, x: Reading) {
    match x
    case ReadsMPos(p) => exists v :: FieldIs(field, "MPOS", v) && PositionIs(v, p)
    case ReadsWPos(p) => exists v :: FieldIs(field, "WPOS", v) && PositionIs(v, p)
    case ReadsWco(p) => exists v :: FieldIs(field, "WCO", v) && PositionIs(v, p)
    case ReadsFs(a, b) => exists v :: FieldIs(field, "FS", v) && PairIs(v, a, b)
    case ReadsOv(a, b, c) => exists v :: FieldIs(field, "OV", v) && TripleIs(v, a, b, c)
    case ReadsPn(t) => FieldIs(field, "PN", t)
    case ReadsA(t) => FieldIs(field, "A", t)
    case ReadsBf(a, b) => exists v :: FieldIs(field, "BF", v) && PairIs(v, a, b)
  }

  ghost predicate SameKind(x: Reading, y: Reading) {
    match x
    case ReadsMPos(_) => y.ReadsMPos?
    case ReadsWPos(_) => y.ReadsWPos?
    case ReadsWco(_) => y.ReadsWco?
    case ReadsFs(_, _) => y.ReadsFs?
    case ReadsOv(_, _, _) => y.ReadsOv?
    case ReadsPn(_) => y.ReadsPn?
    case ReadsA(_) => y.ReadsA?
    case ReadsBf(_, _) => y.ReadsBf?
  }

  /** A report holds what the reading says. */
  ghost predicate Shows(r: StatusReport, x: Reading) {
    match x
    case ReadsMPos(p) => r.mpos == Some(p)
    case ReadsWPos(p) => r.wpos == Some(p)
    case ReadsWco(p) => r.wco == Some(p)
    case ReadsFs(a, b) => r.fs == Some((a, b))
    case ReadsOv(a, b, c) => r.ov == Some((a, b, c))
    case ReadsPn(t) => r.pn == Some(t)
    case ReadsA(t) => r.a == Some(t)
    case ReadsBf(a, b) => r.bf == Some((a, b))
  }

  /** No field says anything of that kind. */
  ghost predicate NoneReads(fields: seq<string>, x: Reading) {
    forall f, y :: f in fields && Reads(f, y) ==> !SameKind(x, y)
  }

  /** Some field says x, and no later one says anything of that kind. */
  ghost predicate LastReads(fields: seq<string>, x: Reading) {
    fields != [] && (LastReads(fields[1..], x) || (Reads(fields[0], x) && NoneReads(fields[1..], x)))
  }

  lemma UpperSpells(name: string, capitals: string)
    requires forall c :: c in name ==> IsLetter(c)
    ensures Upper(name) == capitals <==> Spells(name, capitals)
  {
    var u := Upper(name);
    assert forall i :: 0 <= i < |name| ==> name[i] in name && u[i] == UpperChar(name[i]);
  }

  lemma FieldsByText(field: string, capitals: string, value: string)
    ensures SplitField(field) == Some((capitals, value)) <==> FieldIs(field, capitals, value)
  {
    hide IndexOf, Upper;
    if SplitField(field) == Some((capitals, value)) {
      var n := IndexOf(field, ':');
      var name := field[..n];
      UpperSpells(name, capitals);
      assert field == name + (":" + value);
    }
    if FieldIs(field, capitals, value) {
      var name :| Spells(name, capitals) && field == name + (":" + value);
      assert field == name + ":" + value;
      forall i | 0 <= i < |name| ensures IsLetter(name[i]) { assert 'A' <= capitals[i] <= 'Z'; }
      FieldSplits(name, value);
      UpperSpells(name, capitals);
    }
  }

  /** Parts with a character between them. */
  ghost function Joined(parts: seq<string>, c: char): string
    requires parts != []
  {
    if |parts| == 1 then parts[0] else parts[0] + ([c] + Joined(parts[1..], c))
  }

  ghost predicate Free(parts: seq<string>, c: char) {
    forall p :: p in parts ==> c !in p
  }

  lemma {:induction false} SplitJoined(parts: seq<string>, c: char)
    requires parts != [] && Free(parts, c)
    ensures SplitOn(Joined(parts, c), c) == parts
  {
    hide SplitOn;
    assert parts[0] in parts;
    if |parts| == 1 {
      SplitOnNone(parts[0], c);
    } else {
      var rest := Joined(parts[1..], c);
      assert Joined(parts, c) == parts[0] + [c] + rest;
      SplitOnFirst(parts[0], c, rest);
      SplitJoined(parts[1..], c);
    }
  }

  lemma {:induction false} JoinedSplit(s: string, c: char)
    ensures Joined(SplitOn(s, c), c) == s && Free(SplitOn(s, c), c)
    decreases |s|
  {
    hide IndexOf;
    var n := IndexOf(s, c);
    if n == |s| {
    } else {
      var rest := s[n + 1..];
      JoinedSplit(rest, c);
      var parts := SplitOn(s, c);
      assert parts[1..] == SplitOn(rest, c);
      assert s == s[..n] + ([c] + rest);
    }
  }

  lemma TwoJoined(parts: seq<string>)
    requires |parts| == 2
    ensures Joined(parts, ',') == parts[0] + ("," + parts[1])
  {
    assert Joined(parts[1..], ',') == parts[1];
  }

  lemma ThreeJoined(parts: seq<string>)
    requires |parts| == 3
    ensures Joined(parts, ',') == parts[0] + ("," + (parts[1] + ("," + parts[2])))
  {
    TwoJoined(parts[1..]);
  }

  lemma PairsByText(value: string, a: int, b: int)
    ensures ParsePair(value) == Some((a, b)) <==> PairIs(value, a, b)
  {
    hide ParseInt, SplitOn, Joined;
    var parts := SplitOn(value, ',');
    if ParsePair(value) == Some((a, b)) {
      JoinedSplit(value, ',');
      TwoJoined(parts);
      assert IsPair(value, parts[0], parts[1]);
    }
    if PairIs(value, a, b) {
      var x, y :| IsPair(value, x, y) && ParseInt(x) == Some(a) && ParseInt(y) == Some(b);
      SplitJoined([x, y], ',');
      TwoJoined([x, y]);
    }
  }

  lemma TriplesByText(value: string, a: int, b: int, c: int)
    ensures ParseTriple(value) == Some((a, b, c)) <==> TripleIs(value, a, b, c)
  {
    hide ParseInt, SplitOn, Joined;
    var parts := SplitOn(value, ',');
    if ParseTriple(value) == Some((a, b, c)) {
      JoinedSplit(value, ',');
      ThreeJoined(parts);
      assert IsTriple(value, parts[0], parts[1], parts[2]);
    }
    if TripleIs(value, a, b, c) {
      var x, y, z :|
        IsTriple(value, x, y, z) && ParseInt(x) == Some(a) && ParseInt(y) == Some(b) && ParseInt(z) == Some(c);
      SplitJoined([x, y, z], ',');
      ThreeJoined([x, y, z]);
    }
  }

  lemma TripleSplits(value: string, x: string, y: string, z: string)
    ensures IsTriple(value, x, y, z) <==> SplitOn(value, ',') == [x, y, z]
  {
    hide SplitOn, Joined;
    ThreeJoined([x, y, z]);
    JoinedSplit(value, ',');
    if IsTriple(value, x, y, z) { SplitJoined([x, y, z], ','); }
  }

  /** A coordinate ends in a digit or a point. */
  lemma DecimalEnds(s: string)
    requires ParseDecimal(s).Some?
    ensures s != [] && s[|s| - 1] != '\n'
  {
    hide ParseDecimal, PointValue;
    DecimalsByText(s, ParseDecimal(s).value);
    var sign, whole, point, fraction :| IsDecimal(s, sign, whole, point, fraction);
    var last := if fraction != "" then fraction else if point != "" then point else whole;
    assert s[|s| - 1] == last[|last| - 1];
    assert fraction != "" ==> IsDigit(fraction[|fraction| - 1]);
    assert IsDigit(whole[|whole| - 1]);
  }

  lemma PositionsByText(value: string, p: Position)
    ensures ParsePosition(value) == Some(p) <==> PositionIs(value, p)
  {
    hide ParsePosition, PositionIs;
    if ParsePosition(value) == Some(p) { PositionShows(value, p); }
    if PositionIs(value, p) { PositionParses(value, p); }
  }

  lemma PositionShows(value: string, p: Position)
    requires ParsePosition(value) == Some(p)
    ensures PositionIs(value, p)
  {
    hide ParseDecimal, SplitOn, IsTriple;
    var v := if IsSuffix("\n", value) then value[..|value| - 1] else value;
    var parts := SplitOn(v, ',');
    TripleSplits(v, parts[0], parts[1], parts[2]);
    if v != value { LineFeedAfter(value, v, parts[0], parts[1], parts[2]) by { LastCut(value); } }
    assert IsCoordinates(value, parts[0], parts[1], parts[2]);
  }

  lemma LastCut(value: string)
    requires IsSuffix("\n", value)
    ensures value == value[..|value| - 1] + "\n"
  {
  }

  lemma PositionParses(value: string, p: Position)
    requires PositionIs(value, p)
    ensures ParsePosition(value) == Some(p)
  {
    hide ParseDecimal, SplitOn, IsCoordinates;
    var x, y, z :|
      && IsCoordinates(value, x, y, z)
      && ParseDecimal(x) == Some(p.x) && ParseDecimal(y) == Some(p.y) && ParseDecimal(z) == Some(p.z);
    var v := if IsSuffix("\n", value) then value[..|value| - 1] else value;
    DecimalEnds(z);
    TripleEnds(value, v, x, y, z);
    TripleSplits(v, x, y, z);
  }

  lemma LineFeedAfter(value: string, v: string, x: string, y: string, z: string)
    requires IsTriple(v, x, y, z) && value == v + "\n"
    ensures IsTriple(value, x, y, z + "\n")
  {
    assert x + ("," + (y + ("," + z))) + "\n" == x + ("," + (y + ("," + (z + "\n"))));
  }

  lemma TripleEnds(value: string, v: string, x: string, y: string, z: string)
    requires z != [] && z[|z| - 1] != '\n'
    requires v == if IsSuffix("\n", value) then value[..|value| - 1] else value
    requires IsCoordinates(value, x, y, z)
    ensures IsTriple(v, x, y, z)
  {
    if IsTriple(value, x, y, z) {
      assert value[|value| - 1] == z[|z| - 1];
    } else {
      LineFeedAfter(x + ("," + (y + ("," + z))) + "\n", x + ("," + (y + ("," + z))), x, y, z);
      assert value == x + ("," + (y + ("," + z))) + "\n";
      assert ',' !in z by { assert forall c :: c in z ==> c in z + "\n"; }
    }
  }

  // ----- Reading a report ------------------------------------------------------------------

  /** Key and value of a field, as AddField takes them, say what its text says. */
  lemma ReadsByKey(field: string, x: Reading)
    ensures Reads(field, x) <==> SplitField(field).Some? && var (key, value) := SplitField(field).value;
            match x
            case ReadsMPos(p) => key == "MPOS" && ParsePosition(value) == Some(p)
            case ReadsWPos(p) => key == "WPOS" && ParsePosition(value) == Some(p)
            case ReadsWco(p) => key == "WCO" && ParsePosition(value) == Some(p)
            case ReadsFs(a, b) => key == "FS" && ParsePair(value) == Some((a, b))
            case ReadsOv(a, b, c) => key == "OV" && ParseTriple(value) == Some((a, b, c))
            case ReadsPn(t) => key == "PN" && value == t
            case ReadsA(t) => key == "A" && value == t
            case ReadsBf(a, b) => key == "BF" && ParsePair(value) == Some((a, b))
  {
    hide SplitField, FieldIs, ParsePosition, PositionIs, ParsePair, PairIs, ParseTriple, TripleIs;
    forall k, v ensures SplitField(field) == Some((k, v)) <==> FieldIs(field, k, v) { FieldsByText(field, k, v); }
    forall v, p ensures ParsePosition(v) == Some(p) <==> PositionIs(v, p) { PositionsByText(v, p); }
    forall v, a, b ensures ParsePair(v) == Some((a, b)) <==> PairIs(v, a, b) { PairsByText(v, a, b); }
    forall v, a, b, c ensures ParseTriple(v) == Some((a, b, c)) <==> TripleIs(v, a, b, c) { TriplesByText(v, a, b, c); }
    if SplitField(field).Some? {
      var (key, value) := SplitField(field).value;
      assert FieldIs(field, key, value);
    }
  }

  /** What AddField finds in a field. */
  function Found(field: string): Option<Reading> {
    var f := SplitField(field);
    if f.None? then None else
    var (key, value) := f.value;
    match key
    case "MPOS" => var p := ParsePosition(value); if p.Some? then Some(ReadsMPos(p.value)) else None
    case "WPOS" => var p := ParsePosition(value); if p.Some? then Some(ReadsWPos(p.value)) else None
    case "WCO" => var p := ParsePosition(value); if p.Some? then Some(ReadsWco(p.value)) else None
    case "FS" => var p := ParsePair(value); if p.Some? then Some(ReadsFs(p.value.0, p.value.1)) else None
    case "OV" =>
      var p := ParseTriple(value); if p.Some? then Some(ReadsOv(p.value.0, p.value.1, p.value.2)) else None
    case "PN" => Some(ReadsPn(value))
    case "A" => Some(ReadsA(value))
    case "BF" => var p := ParsePair(value); if p.Some? then Some(ReadsBf(p.value.0, p.value.1)) else None
    case _ => None
  }

  lemma FoundReads(field: string, x: Reading)
    ensures Reads(field, x) <==> Found(field) == Some(x)
  {
    hide Reads, SplitField, ParsePosition, ParsePair, ParseTriple;
    ReadsByKey(field, x);
  }

  lemma AddsFound(r: StatusReport, field: string, x: Reading)
    ensures var y := Found(field);
            Shows(AddField(r, field), x) <==> y == Some(x) || (Shows(r, x) && !(y.Some? && SameKind(x, y.value)))
    ensures AddField(r, field).state == r.state
  {
    hide SplitField, ParsePosition, ParsePair, ParseTriple;
  }

  /** One more field: what it says is taken over, and replaces what was there of its kind. */
  lemma FieldAdds(r: StatusReport, field: string, x: Reading)
    ensures Shows(AddField(r, field), x) <==> Reads(field, x) || (Shows(r, x) && NoneReads([field], x))
    ensures AddField(r, field).state == r.state
  {
    hide Reads, Found, AddField, Shows, SameKind;
    forall y ensures Reads(field, y) <==> Found(field) == Some(y) { FoundReads(field, y); }
    AddsFound(r, field, x);
    assert field in [field];
    if Found(field).Some? { assert Reads(field, Found(field).value); }
  }

  lemma {:induction false} FieldsAdd(r: StatusReport, fields: seq<string>, x: Reading)
    ensures Shows(AddFields(r, fields), x) <==> LastReads(fields, x) || (Shows(r, x) && NoneReads(fields, x))
    ensures AddFields(r, fields).state == r.state
    decreases |fields|
  {
    hide Reads, AddField, Shows, SameKind;
    if fields == [] {
    } else {
      FieldAdds(r, fields[0], x);
      FieldsAdd(AddField(r, fields[0]), fields[1..], x);
      NoneApart(fields, x);
    }
  }

  lemma NoneApart(fields: seq<string>, x: Reading)
    requires fields != []
    ensures NoneReads(fields, x) <==> NoneReads([fields[0]], x) && NoneReads(fields[1..], x)
  {
    hide Reads, SameKind;
    assert forall f :: f in fields <==> f in [fields[0]] || f in fields[1..];
  }

  /** A report: a state and fields, with bars between them and none within, in angle brackets. */
  ghost predicate IsReport(s: string, state: string, fields: seq<string>) {
    && s == "<" + (Joined([state] + fields, '|') + ">")
    && state != "" && Free([state] + fields, '|') && Free([state] + fields, '>')
  }

  /** A report reads as its state and, of each kind, what the last readable field says; a field with
      another name or without a readable value says nothing. */
  lemma ReportReads(line: string, state: string, fields: seq<string>, x: Reading)
    requires IsReport(Strip(line), state, fields)
    ensures var r := ParseStatusReport(line);
            r.Some? && r.value.state == state && (Shows(r.value, x) <==> LastReads(fields, x))
  {
    hide Joined, AddFields, LastReads, NoneReads, Strip, SplitOn;
    PartsShow(line, state, fields);
    assert ([state] + fields)[1..] == fields;
    FieldsAdd(BareReport(state), fields, x);
  }

  lemma PartsShow(line: string, state: string, fields: seq<string>)
    requires IsReport(Strip(line), state, fields)
    ensures StatusParts(line) == Some([state] + fields)
  {
    hide Joined, Strip, SplitOn;
    var parts := [state] + fields;
    var body := Joined(parts, '|');
    var s := Strip(line);
    assert s[1..|s| - 1] == body;
    SplitJoined(parts, '|');
    FreeJoined(parts, '|', '>');
    assert body != [] by { JoinedStart(parts, '|'); }
  }

  lemma JoinedStart(parts: seq<string>, c: char)
    requires parts != [] && parts[0] != []
    ensures Joined(parts, c) != []
  {
  }

  lemma {:induction false} FreeJoined(parts: seq<string>, c: char, d: char)
    requires parts != [] && Free(parts, d) && d != c
    ensures d !in Joined(parts, c)
  {
    assert parts[0] in parts;
    if |parts| == 1 {
    } else {
      FreeJoined(parts[1..], c, d);
    }
  }

  /** Nothing else reads as a report. */
  lemma OnlyReportsRead(line: string)
    requires ParseStatusReport(line).Some?
    ensures exists state, fields :: IsReport(Strip(line), state, fields)
  {
    hide Joined, Strip, SplitOn, AddFields;
    var s := Strip(line);
    var body := s[1..|s| - 1];
    var parts := SplitOn(body, '|');
    JoinedSplit(body, '|');
    assert [parts[0]] + parts[1..] == parts;
    assert s == "<" + (body + ">");
    PartsFree(parts, '|', '>');
    assert IsReport(s, parts[0], parts[1..]);
  }

  lemma {:induction false} PartsFree(parts: seq<string>, c: char, d: char)
    requires parts != [] && d !in Joined(parts, c)
    ensures Free(parts, d)
  {
    if |parts| == 1 {
    } else {
      var rest := Joined(parts[1..], c);
      assert Joined(parts, c) == parts[0] + ([c] + rest);
      assert forall e :: e in rest ==> e in [c] + rest;
      PartsFree(parts[1..], c, d);
    }
  }

  // ----- Printed fields --------------------------------------------------------------------

  /** A field as a controller prints it. */
  function FieldText(x: Reading): string {
    match x
    case ReadsMPos(p) => "MPos:" + PositionText(p)
    case ReadsWPos(p) => "WPos:" + PositionText(p)
    case ReadsWco(p) => "WCO:" + PositionText(p)
    case ReadsFs(a, b) => "FS:" + FeedText(a, b)
    case ReadsOv(a, b, c) => "Ov:" + (IntText(a) + ("," + FeedText(b, c)))
    case ReadsPn(t) => "Pn:" + t
    case ReadsA(t) => "A:" + t
    case ReadsBf(a, b) => "Bf:" + FeedText(a, b)
  }

  /** Positions to the thousandth, everything else as it is. */
  function RoundedReading(x: Reading): Reading {
    match x
    case ReadsMPos(p) => ReadsMPos(RoundedPosition(p))
    case ReadsWPos(p) => ReadsWPos(RoundedPosition(p))
    case ReadsWco(p) => ReadsWco(RoundedPosition(p))
    case _ => x
  }

  lemma NameIs(field: string, name: string, capitals: string, value: string)
    requires field == name + (":" + value) && Spells(name, capitals) && capitals != "" && value != ""
    ensures FieldIs(field, capitals, value)
  {
  }

  lemma PositionField(field: string, name: string, capitals: string, p: Position)
    requires field == name + (":" + PositionText(p)) && Spells(name, capitals) && capitals != ""
    ensures exists v :: FieldIs(field, capitals, v) && PositionIs(v, RoundedPosition(p))
  {
    hide PositionText, PositionIs, Spells, ParsePosition, Rounded;
    PositionLooks(p);
    PositionReads(p);
    PositionsByText(PositionText(p), RoundedPosition(p));
    NameIs(field, name, capitals, PositionText(p));
  }

  lemma PairField(field: string, name: string, capitals: string, a: int, b: int)
    requires field == name + (":" + FeedText(a, b)) && Spells(name, capitals) && capitals != ""
    ensures exists v :: FieldIs(field, capitals, v) && PairIs(v, a, b)
  {
    hide FeedText, PairIs, Spells, ParsePair;
    FeedReads(a, b);
    PairsByText(FeedText(a, b), a, b);
    NameIs(field, name, capitals, FeedText(a, b));
  }

  lemma TripleField(field: string, name: string, capitals: string, a: int, b: int, c: int)
    requires field == name + (":" + (IntText(a) + ("," + FeedText(b, c)))) && Spells(name, capitals) && capitals != ""
    ensures exists v :: FieldIs(field, capitals, v) && TripleIs(v, a, b, c)
  {
    hide Spells, ParseInt, IntText;
    var x, y, z := IntText(a), IntText(b), IntText(c);
    IntTextParses(a);
    IntTextParses(b);
    IntTextParses(c);
    NumbersLook(0.0, a);
    NumbersLook(0.0, b);
    NumbersLook(0.0, c);
    var v := x + ("," + FeedText(b, c));
    assert v == x + ("," + (y + ("," + z)));
    assert IsTriple(v, x, y, z);
    NameIs(field, name, capitals, v);
  }

  /** A printed field says what was printed. */
  lemma PrintedFieldReads(x: Reading)
    requires (x.ReadsPn? ==> x.pins != "") && (x.ReadsA? ==> x.accessories != "")
    ensures Reads(FieldText(x), RoundedReading(x))
  {
    hide PositionText, FeedText, IntText, PositionIs, PairIs, TripleIs, FieldIs;
    match x
    case ReadsMPos(p) => PositionField(FieldText(x), "MPos", "MPOS", p);
    case ReadsWPos(p) => PositionField(FieldText(x), "WPos", "WPOS", p);
    case ReadsWco(p) => PositionField(FieldText(x), "WCO", "WCO", p);
    case ReadsFs(a, b) => PairField(FieldText(x), "FS", "FS", a, b);
    case ReadsOv(a, b, c) => TripleField(FieldText(x), "Ov", "OV", a, b, c);
    case ReadsPn(t) => NameIs(FieldText(x), "Pn", "PN", t);
    case ReadsA(t) => NameIs(FieldText(x), "A", "A", t);
    case ReadsBf(a, b) => PairField(FieldText(x), "Bf", "BF", a, b);
  }

  /** A printed field reads back among any other fields, unless a later one says something of its kind. */
  lemma PrintedFieldShows(line: string, state: string, before: seq<string>, x: Reading, after: seq<string>)
    requires (x.ReadsPn? ==> x.pins != "") && (x.ReadsA? ==> x.accessories != "")
    requires IsReport(Strip(line), state, before + ([FieldText(x)] + after)) && NoneReads(after, RoundedReading(x))
    ensures ParseStatusReport(line).Some? && Shows(ParseStatusReport(line).value, RoundedReading(x))
  {
    hide Reads, IsReport, FieldText, RoundedReading, Shows, ParseStatusReport, NoneReads;
    PrintedFieldReads(x);
    LastOfThree(before, FieldText(x), after, RoundedReading(x));
    ReportReads(line, state, before + ([FieldText(x)] + after), RoundedReading(x));
  }

  lemma {:induction false} LastOfThree(before: seq<string>, field: string, after: seq<string>, x: Reading)
    requires Reads(field, x) && NoneReads(after, x)
    ensures LastReads(before + ([field] + after), x)
  {
    hide Reads, NoneReads;
    var fields := before + ([field] + after);
    if before == [] {
      assert fields == [field] + after && fields[1..] == after;
    } else {
      LastOfThree(before[1..], field, after, x);
      assert fields[1..] == before[1..] + ([field] + after);
    }
  }
}
