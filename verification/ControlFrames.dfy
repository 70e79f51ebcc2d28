/** Whole control codes: joined commands, their symbology, their split over
    several barcodes, and the way from paper back to the same commands. */
module ControlFrames {
  import opened Options
  import opened Text
  import opened Controls
  import opened ControlTrip
  import opened Detector
  import opened DetectorLedger
  import opened ScanPipeline

  const FRAME := "--"

  function Body(cmds: seq<Control>): string {
    if cmds == [] then ""
    else if |cmds| == 1 then EncodeOne(cmds[0])
    else EncodeOne(cmds[0]) + [JOIN] + Body(cmds[1..])
  }

  /** The whole printed payload. */
  function Encode(cmds: seq<Control>): string {
    FRAME + [FRAME_VERSION] + Body(cmds) + FRAME
  }

  predicate IsText(c: Control) {
    c.Give? && c.value.FreeText?
  }

  /** Commands a frame can carry: at least one, each canonical, no slash key,
      and text only as the last. */
  predicate Sound(cmds: seq<Control>) {
    && cmds != []
    && (forall i :: 0 <= i < |cmds| ==> Canonical(cmds[i]) && cmds[i] != Press(JOIN))
    && (forall i :: 0 <= i < |cmds| - 1 ==> !IsText(cmds[i]))
  }

  lemma EncodedStart(c: Control)
    ensures EncodeOne(c) != "" && !IsBlank(EncodeOne(c)[0])
    ensures IsText(c) <==> EncodeOne(c)[0] == 'V'
  {
    if c.Give? {
      GivenStart(c.value);
    } else {
      OtherStart(c);
    }
  }

  lemma GivenStart(v: Value)
    ensures EncodeValue(v) != "" && !IsBlank(EncodeValue(v)[0])
    ensures v.FreeText? <==> EncodeValue(v)[0] == 'V'
  {
    match v {
      case Plus(n, u) => assert EncodeValue(v)[0] == 'P';
      case Minus(n, u) => assert EncodeValue(v)[0] == 'M';
      case FreeText(t) => assert EncodeValue(v)[0] == TEXT[0];
      case _ =>
    }
  }

  lemma OtherStart(c: Control)
    requires !c.Give?
    ensures EncodeOne(c) != "" && 'A' <= EncodeOne(c)[0] <= 'Z' && EncodeOne(c)[0] != 'V'
  {
  }

  lemma FindJoinAt(s: string, n: nat)
    requires n < |s| && s[n] == JOIN && JOIN !in s[..n]
    ensures FindJoin(s) == Some(n)
  {
    var i := FindJoin(s).value;
    assert forall k :: 0 <= k < n ==> s[k] in s[..n];
    assert forall k :: 0 <= k < i ==> s[k] in s[..i];
  }

  /** How the parser cuts the first of several commands off. */
  lemma FirstToken(c: Control, rest: string)
    requires !IsText(c) && c != Press(JOIN)
    ensures ParseList(EncodeOne(c) + [JOIN] + rest) ==
            match ParseOne(EncodeOne(c))
            case Some(d) => Prefixed([d], ParseList(rest))
            case None => Err(UnknownCommand(EncodeOne(c)))
  {
    var t := EncodeOne(c);
    var body := t + [JOIN] + rest;
    EncodedStart(c);
    TokenHasNoJoin(c);
    assert body[..|t|] == t && body[|t| + 1..] == rest;
    FindJoinAt(body, |t|);
    assert body[0] != TEXT[0];
  }

  lemma SameList(d: Control, r: Result<seq<Control>, ControlError>, cmds: seq<Control>)
    requires cmds != []
    ensures Prefixed([d], r) == Ok(cmds) <==> d == cmds[0] && r == Ok(cmds[1..])
  {
    assert cmds == [cmds[0]] + cmds[1..];
    if r.Ok? {
      assert ([d] + r.value)[0] == d && ([d] + r.value)[1..] == r.value;
    }
  }

  lemma TokenHasNoJoin(c: Control)
    requires !IsText(c) && c != Press(JOIN)
    ensures JOIN !in EncodeOne(c)
  {
    OneRoundTrips(c);
    if c.Press? {
      assert EncodeOne(c) == ['K', c.c];
    }
  }

  lemma LastToken(c: Control)
    ensures ParseList(EncodeOne(c)) == Ok([c]) <==> Canonical(c) && c != Press(JOIN)
  {
    var t := EncodeOne(c);
    OneRoundTrips(c);
    EncodedStart(c);
    if c == Press(JOIN) {
      SlashKeyIsCut("");
      assert t == "K/" + "";
    } else if IsText(c) {
      assert TEXT <= t;
    } else {
      TokenHasNoJoin(c);
      assert t[0] != TEXT[0];
      assert FindJoin(t) == None;
    }
  }

  lemma SlashKeyIsCut(rest: string)
    ensures ParseList("K/" + rest) == Err(UnknownCommand("K"))
  {
    var body := "K/" + rest;
    FindJoinAt(body, 1);
    assert body[..1] == "K" && body[0] != TEXT[0];
    assert Upper("K") == "K";
  }

  /** Text takes everything after it. */
  lemma TextTakesAll(body: string)
    requires TEXT <= body
    ensures ParseList(body) == Ok([Give(FreeText(body[2..]))])
  {
  }

  lemma {:induction false} ListRoundTrips(cmds: seq<Control>)
    requires cmds != []
    ensures ParseList(Body(cmds)) == Ok(cmds) <==> Sound(cmds)
  {
    var c := cmds[0];
    if |cmds| == 1 {
      LastToken(c);
      assert cmds == [c];
    } else {
      ListRoundTrips(cmds[1..]);
      SoundCons(cmds);
      if IsText(c) || c == Press(JOIN) {
        SpoilsList(cmds);
      } else {
        FirstOfList(cmds);
      }
    }
  }

  /** A free text takes all that follows it, and the separator's own key cuts
      the list short. */
  lemma SpoilsList(cmds: seq<Control>)
    requires |cmds| > 1 && (IsText(cmds[0]) || cmds[0] == Press(JOIN))
    ensures ParseList(Body(cmds)) != Ok(cmds)
  {
    BodyIs(cmds);
    if IsText(cmds[0]) {
      TextSpoils(cmds[0], [JOIN] + Body(cmds[1..]));
    } else {
      SlashKeyEncodes();
      SlashKeyIsCut([JOIN] + Body(cmds[1..]));
    }
  }

  lemma BodyIs(cmds: seq<Control>)
    requires |cmds| > 1
    ensures Body(cmds) == EncodeOne(cmds[0]) + ([JOIN] + Body(cmds[1..]))
  {
  }

  lemma SlashKeyEncodes()
    ensures EncodeOne(Press(JOIN)) == "K/"
  {
  }

  lemma TextSpoils(c: Control, after: string)
    requires IsText(c)
    ensures ParseList(EncodeOne(c) + after).Ok? && |ParseList(EncodeOne(c) + after).value| == 1
  {
    assert TEXT <= EncodeOne(c) + after;
    TextTakesAll(EncodeOne(c) + after);
  }

  lemma FirstOfList(cmds: seq<Control>)
    requires |cmds| > 1 && !IsText(cmds[0]) && cmds[0] != Press(JOIN)
    ensures ParseList(Body(cmds)) == Ok(cmds) <==> Canonical(cmds[0]) && ParseList(Body(cmds[1..])) == Ok(cmds[1..])
  {
    var c, rest := cmds[0], cmds[1..];
    FirstToken(c, Body(rest));
    OneRoundTrips(c);
    var d := ParseOne(EncodeOne(c));
    if d.Some? {
      SameList(d.value, ParseList(Body(rest)), cmds);
    }
  }

  lemma SoundCons(cmds: seq<Control>)
    requires |cmds| > 1
    ensures Sound(cmds) <==> Canonical(cmds[0]) && cmds[0] != Press(JOIN) && !IsText(cmds[0]) && Sound(cmds[1..])
  {
    var rest := cmds[1..];
    if Canonical(cmds[0]) && cmds[0] != Press(JOIN) && !IsText(cmds[0]) && Sound(rest) {
      forall i | 0 < i < |cmds|
        ensures Canonical(cmds[i]) && cmds[i] != Press(JOIN) && (i < |cmds| - 1 ==> !IsText(cmds[i]))
      {
        assert cmds[i] == rest[i - 1];
      }
    }
    if Sound(cmds) {
      forall i | 0 <= i < |rest|
        ensures Canonical(rest[i]) && rest[i] != Press(JOIN) && (i < |rest| - 1 ==> !IsText(rest[i]))
      {
        assert rest[i] == cmds[i + 1];
      }
    }
  }

  lemma BodyStart(cmds: seq<Control>)
    requires cmds != []
    ensures Body(cmds) != "" && !IsBlank(Body(cmds)[0])
  {
    EncodedStart(cmds[0]);
  }

  lemma NotBlankStart(s: string)
    requires s != "" && !IsBlank(s[0])
    ensures Trim(s) != ""
  {
    assert TrimStart(s) == s;
    TrimEndKeepsStart(s);
  }

  lemma {:induction false} TrimEndKeepsStart(s: string)
    requires s != "" && !IsBlank(s[0])
    ensures TrimEnd(s) != ""
  {
    if IsBlank(s[|s| - 1]) {
      TrimEndKeepsStart(s[..|s| - 1]);
    }
  }

  /** A list of commands is printed and read back as itself exactly when it is
      sound. */
  lemma CommandsRoundTrip(cmds: seq<Control>)
    ensures ParseBody(Body(cmds)) == Ok(cmds) <==> Sound(cmds)
  {
    if cmds != [] {
      BodyStart(cmds);
      NotBlankStart(Body(cmds));
      ListRoundTrips(cmds);
    }
  }

  // Symbologies and widths.

  datatype Symbology = Code39 | Code128

  predicate IsCode39Char(c: char) {
    IsDigit(c) || 'A' <= c <= 'Z' || c in " -.$/+%"
  }

  predicate IsCode39(s: string) {
    forall i :: 0 <= i < |s| ==> IsCode39Char(s[i])
  }

  function Code39Modules(chars: nat): nat {
    (chars + 2) * 13 - 1
  }

  function Code128Modules(chars: nat): nat {
    (chars + 2) * 11 + 13
  }

  predicate Fits(chars: nat, symbology: Symbology, dots: nat) {
    (if symbology.Code39? then Code39Modules(chars) else Code128Modules(chars)) * 2 <= dots
  }

  predicate NeedsCode128(c: Control) {
    match c
    case Press(k) => !IsCode39Char(k)
    case Give(FreeText(t)) => !IsCode39(t)
    case _ => false
  }

  function SymbologyFor(cmds: seq<Control>, dots: nat): Symbology {
    var payload := Encode(cmds);
    if (exists i :: 0 <= i < |cmds| && NeedsCode128(cmds[i])) || !IsCode39(payload) then Code128
    else if Fits(|payload|, Code39, dots) then Code39
    else Code128
  }

  lemma {:induction false} BodyHolds(cmds: seq<Control>, i: nat)
    requires i < |cmds| && IsCode39(Body(cmds))
    ensures IsCode39(EncodeOne(cmds[i]))
  {
    if |cmds| > 1 {
      var t, rest := EncodeOne(cmds[0]), Body(cmds[1..]);
      assert Body(cmds) == t + [JOIN] + rest;
      PartsHold(t + [JOIN], rest);
      PartsHold(t, [JOIN]);
      if i > 0 {
        BodyHolds(cmds[1..], i - 1);
      }
    }
  }

  lemma PartsHold(a: string, b: string)
    requires IsCode39(a + b)
    ensures IsCode39(a) && IsCode39(b)
  {
    assert forall k :: 0 <= k < |a| ==> a[k] == (a + b)[k];
    assert forall k :: 0 <= k < |b| ==> b[k] == (a + b)[|a| + k];
  }

  /** What prints in CODE39 needs no other symbology. */
  lemma CarriedNeedsNoOther(c: Control)
    requires IsCode39(EncodeOne(c))
    ensures !NeedsCode128(c)
  {
    match c {
      case Press(k) => PartsHold("K", [k]); assert [k][0] == k;
      case Give(FreeText(text)) => PartsHold(TEXT, text);
      case _ =>
    }
  }

  /** CODE39 is chosen exactly when it can carry every character of the payload
      and fits; the commands that are said to need CODE128 regardless never
      decide anything. */
  lemma Code39IsForWhatItCarries(cmds: seq<Control>, dots: nat)
    ensures SymbologyFor(cmds, dots) == Code39
       <==> IsCode39(Encode(cmds)) && Fits(|Encode(cmds)|, Code39, dots)
  {
    if IsCode39(Encode(cmds)) {
      PartsHold(FRAME + [FRAME_VERSION] + Body(cmds), FRAME);
      PartsHold(FRAME + [FRAME_VERSION], Body(cmds));
      forall i | 0 <= i < |cmds| ensures !NeedsCode128(cmds[i]) {
        BodyHolds(cmds, i);
        CarriedNeedsNoOther(cmds[i]);
      }
    }
  }

  /** The key A by itself goes out as CODE39 on 384 dots, though keys are said to
      go out as CODE128 whatever they are. */
  lemma KeyGoesOutAsCode39()
    ensures Encode([Press('A')]) == "--1KA--" && SymbologyFor([Press('A')], 384) == Code39
  {
    assert EncodeOne(Press('A')) == "KA" && Body([Press('A')]) == "KA";
    assert Encode([Press('A')]) == "--1KA--";
    Code39IsForWhatItCarries([Press('A')], 384);
  }

  // Splitting over several barcodes.

  /** The most characters, up to `n`, that fit at one dot per module; one if
      none do. */
  function MostThatFit(n: nat, dots: nat): nat {
    if n == 0 then 1 else if Code128Modules(n) <= dots then n else MostThatFit(n - 1, dots)
  }

  function Pieces(s: string, size: nat): (r: seq<string>)
    requires size > 0
    decreases |s|
  {
    if |s| <= size then (if s == "" then [] else [s]) else [s[..size]] + Pieces(s[size..], size)
  }

  function Chunks(payload: string, dots: nat): seq<string> {
    var max := MostThatFit(|payload|, dots);
    if |payload| <= max then [payload] else Pieces(payload, if max < 3 then 3 else max)
  }

  /** What a scanner types for some pieces: each followed by Enter. */
  function TypedPieces(pieces: seq<string>): seq<Key> {
    if pieces == [] then [] else AsKeys(pieces[0]) + [Enter] + TypedPieces(pieces[1..])
  }

  function Concat(pieces: seq<string>): string {
    if pieces == [] then "" else pieces[0] + Concat(pieces[1..])
  }

  lemma {:induction false} MostFits(n: nat, dots: nat)
    ensures var m := MostThatFit(n, dots);
            m <= n || m == 1
    ensures Code128Modules(1) <= dots && n > 0 ==> Code128Modules(MostThatFit(n, dots)) <= dots
    ensures forall k :: MostThatFit(n, dots) < k <= n ==> Code128Modules(k) > dots
  {
    if n > 0 && Code128Modules(n) > dots {
      MostFits(n - 1, dots);
    }
  }

  lemma {:induction false} PiecesJoin(s: string, size: nat)
    requires size >= 3
    ensures Concat(Pieces(s, size)) == s
    ensures forall i :: 0 <= i < |Pieces(s, size)| ==> 0 < |Pieces(s, size)[i]| <= size
    ensures |s| >= 3 ==> Pieces(s, size) != [] && |Pieces(s, size)[0]| >= 3
    decreases |s|
  {
    var ps := Pieces(s, size);
    if s == "" {
    } else if |s| <= size {
      assert Concat([s]) == s + Concat([]) by { assert [s][1..] == []; }
    } else {
      PiecesJoin(s[size..], size);
      assert ps[1..] == Pieces(s[size..], size);
      assert s == s[..size] + s[size..];
    }
  }

  /** The pieces make up the payload, none is empty, the first holds the whole
      opening, and each prints on the paper if three characters do. */
  lemma ChunksJoin(payload: string, dots: nat)
    requires |payload| >= 3
    ensures var ps := Chunks(payload, dots);
            Concat(ps) == payload && ps != [] && |ps[0]| >= 3
            && forall i :: 0 <= i < |ps| ==>
                 ps[i] != "" && (Code128Modules(3) <= dots ==> Code128Modules(|ps[i]|) <= dots)
  {
    var max := MostThatFit(|payload|, dots);
    MostFits(|payload|, dots);
    if |payload| <= max {
      assert [payload][1..] == [];
      assert Concat([payload]) == payload + Concat([]);
    } else {
      PiecesJoin(payload, if max < 3 then 3 else max);
    }
  }

  lemma {:induction false} FewestPieces(s: string, size: nat, other: seq<string>)
    requires size >= 3 && |Concat(other)| >= |s| && forall i :: 0 <= i < |other| ==> |other[i]| <= size
    ensures |Pieces(s, size)| <= |other|
    decreases |other|
  {
    if other != [] && s != "" {
      if |s| > size {
        FewestPieces(s[size..], size, other[1..]);
      }
    }
  }

  /** No fewer pieces that print on the paper make up the payload; one that fits comes
      back whole. */
  lemma ChunksAreFewest(payload: string, dots: nat, other: seq<string>)
    requires |payload| >= 3 && Code128Modules(3) <= dots
    requires Concat(other) == payload && forall i :: 0 <= i < |other| ==> Code128Modules(|other[i]|) <= dots
    ensures |Chunks(payload, dots)| <= |other|
  {
    var max := MostThatFit(|payload|, dots);
    MostFits(|payload|, dots);
    forall i | 0 <= i < |other| ensures |other[i]| <= max {
      PartIsShorter(other, i);
    }
    assert other != [];
    if |payload| > max {
      FewestPieces(payload, if max < 3 then 3 else max, other);
    }
  }

  lemma {:induction false} PartIsShorter(pieces: seq<string>, i: nat)
    requires i < |pieces|
    ensures |pieces[i]| <= |Concat(pieces)|
  {
    if i > 0 {
      PartIsShorter(pieces[1..], i - 1);
    }
  }

  lemma {:induction false} CharsOfConcat(a: seq<Key>, b: seq<Key>)
    ensures Chars(a + b) == Chars(a) + Chars(b)
    decreases |b|
  {
    if b == [] {
      assert a + b == a;
    } else {
      var n := |b| - 1;
      CharsOfConcat(a, b[..n]);
      assert (a + b)[..|a| + n] == a + b[..n];
    }
  }

  lemma {:induction false} CharsOfTyped(pieces: seq<string>)
    ensures Chars(TypedPieces(pieces)) == Concat(pieces)
  {
    if pieces != [] {
      CharsOfTyped(pieces[1..]);
      CharsOfAsKeys(pieces[0]);
      CharsOfPush(AsKeys(pieces[0]), Enter);
      CharsOfConcat(AsKeys(pieces[0]) + [Enter], TypedPieces(pieces[1..]));
    }
  }

  lemma {:induction false} TypedEnds(pieces: seq<string>)
    requires pieces != [] && forall i :: 0 <= i < |pieces| ==> pieces[i] != ""
    ensures var keys := TypedPieces(pieces);
            |keys| >= 2 && keys[|keys| - 1] == Enter && keys[|keys| - 2].Char?
  {
    if |pieces| > 1 {
      TypedEnds(pieces[1..]);
    } else {
      assert TypedPieces(pieces[1..]) == [];
      assert TypedPieces(pieces) == AsKeys(pieces[0]) + [Enter];
    }
  }

  /** What a scanner types for a printed code: the opening, then keys that
      spell the body and the closing dashes, then a last Enter. */
  lemma TypedChunks(body: string, dots: nat) returns (rest: seq<Key>)
    ensures var payload := FRAME + [FRAME_VERSION] + body + FRAME;
            TypedPieces(Chunks(payload, dots)) == AsKeys(FRAME + [FRAME_VERSION]) + rest + [Enter]
    ensures Chars(rest) == body + FRAME && rest[|rest| - 1].Char?
  {
    var opening := FRAME + [FRAME_VERSION];
    var payload := opening + body + FRAME;
    var ps := Chunks(payload, dots);
    var keys := TypedPieces(ps);
    ChunksJoin(payload, dots);
    TypedOpens(ps);
    assert payload[..3] == opening;
    TypedEnds(ps);
    var n := |keys| - 1;
    rest := keys[3..n];
    assert keys == AsKeys(opening) + rest + [Enter];
    CharsOfTyped(ps);
    SpelledAfterOpening(opening, rest);
    assert payload == opening + (body + FRAME);
  }

  lemma TypedOpens(ps: seq<string>)
    requires ps != [] && |ps[0]| >= 3
    ensures |TypedPieces(ps)| > 3 && |Concat(ps)| >= 3 && TypedPieces(ps)[..3] == AsKeys(Concat(ps)[..3])
  {
    assert Concat(ps)[..3] == ps[0][..3];
    assert AsKeys(ps[0])[..3] == AsKeys(ps[0][..3]);
  }

  lemma SpelledAfterOpening(opening: string, rest: seq<Key>)
    ensures Chars(AsKeys(opening) + rest + [Enter]) == opening + Chars(rest)
  {
    CharsOfPush(AsKeys(opening) + rest, Enter);
    CharsOfConcat(AsKeys(opening), rest);
    CharsOfAsKeys(opening);
  }

  /** From paper to client: sound commands, printed on paper of any width over
      as many barcodes as it takes, scanned with an Enter after each into a
      waiting detector without prefix, arrive as one frame that parses to the
      same commands; the Enter after the last of them, whenever it comes,
      dispatches nothing. The opening is typed at `early`, the rest at `ts`. */
  lemma PrintedCommandsArrive(
    cfg: Config, s: State, cmds: seq<Control>, dots: nat, early: seq<nat>, ts: seq<nat>)
    returns (typed: seq<Key>)
    requires Waiting(cfg, s) && cfg.prefix == ""
    requires Sound(cmds) && Frameable(Body(cmds))
    requires |early| == 3 && forall i :: 0 <= i < 3 ==> early[i] <= early[0] + cfg.timeout
    requires |early| + |ts| + 1 == |TypedPieces(Chunks(Encode(cmds), dots))|
    requires InTime(cfg, early[0], ts)
    ensures TypedPieces(Chunks(Encode(cmds), dots)) == typed + [Enter]
    ensures |typed| == |early + ts| && Delivers(cfg, s, typed, early + ts, FrameRead(Body(cmds)))
    ensures forall last :: EndsQuietly(cfg, s, typed, early + ts, last, FrameRead(Body(cmds)))
    ensures ParseBody(Body(cmds)) == Ok(cmds)
  {
    var body := Body(cmds);
    CommandsRoundTrip(cmds);
    var rest := TypedChunks(body, dots);
    assert FrameOpening(cfg) == FRAME + [FRAME_VERSION];
    typed := AsKeys(FrameOpening(cfg)) + rest;
    FrameIsRead(cfg, s, body, rest, early, ts);
    forall last ensures EndsQuietly(cfg, s, typed, early + ts, last, FrameRead(body)) {
      LastEnterIsQuiet(cfg, s, typed, early + ts, last, FrameRead(body));
    }
  }
}
