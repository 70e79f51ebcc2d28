/** What a scanned task code says, and the payload `..1<action><id><check>` it
    is printed as. */
module Barcode {
  import opened Options
  import opened Text
  import opened Ids
  import Checksum

  const MAGIC_CHAR := '.'
  const MAGIC := ".."
  const VERSION_1 := '1'
  const MAX_CHOICES := 8
  /** Two for the magic, six for the id, and one each for version, action and
      check character. */
  const V1_LEN := 11

  datatype ScanAction = StartPause | Finish | Yes | No | Choice(n: nat) | FinishChildren

  function Code(a: ScanAction): char {
    match a
    case StartPause => 'S'
    case Finish => 'F'
    case Yes => 'Y'
    case No => 'N'
    case Choice(n) => DigitChar(if n < 1 then 1 else if n > MAX_CHOICES then MAX_CHOICES else n)
    case FinishChildren => 'C'
  }

  function FromCode(c: char): Option<ScanAction> {
    var u := UpperChar(c);
    if u == 'S' then Some(StartPause)
    else if u == 'F' then Some(Finish)
    else if u == 'Y' then Some(Yes)
    else if u == 'N' then Some(No)
    else if '1' <= u <= '8' then Some(Choice(u as int - '0' as int))
    else if u == 'C' then Some(FinishChildren)
    else None
  }

  /** An action the codes can carry: choices run from 1 to 8, others print as
      the nearest of these. */
  predicate Printable(a: ScanAction) {
    a.Choice? ==> 1 <= a.n <= MAX_CHOICES
  }

  lemma CodesRoundTrip(a: ScanAction, c: char)
    requires UpperChar(c) == c
    ensures FromCode(c) == Some(a) <==> Printable(a) && Code(a) == c
  {
  }

  datatype ScanPayload = ScanPayload(action: ScanAction, id: ShortId)

  datatype ScanError =
    | NoMagic
    | UnknownVersion(c: char)
    | Truncated(expected: nat, got: nat)
    | TooLong(expected: nat, got: nat)
    | BadAction(c: char)
    | BadChar(c: char)
    | BadCheck

  function PayloadLen(version: char): Option<nat> {
    if version == VERSION_1 then Some(V1_LEN) else None
  }

  function Body(p: ScanPayload): (body: string)
    ensures |body| == V1_LEN - 3 && IsUpper36(body)
  {
    var body := [VERSION_1, Code(p.action)] + p.id;
    assert forall i :: 2 <= i < |body| ==> body[i] == p.id[i - 2] == UpperChar(p.id[i - 2]);
    body
  }

  function Encode(p: ScanPayload): (payload: string)
    ensures |payload| == V1_LEN && MAGIC <= payload && IsUpper36(payload[2..])
  {
    MAGIC + Body(p) + [Checksum.CheckChar(Body(p)).value]
  }

  function Parse(raw: string): Result<ScanPayload, ScanError> {
    var chars := Upper(Trim(raw));
    if !(MAGIC <= chars) then Err(NoMagic)
    else if |chars| == 2 then Err(Truncated(V1_LEN, |chars|))
    else
      var version := chars[2];
      match PayloadLen(version)
      case None => Err(UnknownVersion(version))
      case Some(expected) =>
        if |chars| < expected then Err(Truncated(expected, |chars|))
        else if |chars| > expected then Err(TooLong(expected, |chars|))
        else
          match BadDigit(chars[2..])
          case Some(c) => Err(ScanError.BadChar(c))
          case None =>
            if !Checksum.Verify(chars[2..]) then Err(BadCheck)
            else
              match FromCode(chars[3])
              case None => Err(BadAction(chars[3]))
              case Some(action) =>
                match ParseId(chars[4..10])
                case Ok(id) => Ok(ScanPayload(action, id))
                case Err(BadChar(c)) => Err(ScanError.BadChar(c))
                case Err(WrongLength(_)) => Err(Truncated(expected, |chars|))
  }

  lemma UpperTwice(s: string)
    ensures Upper(Upper(s)) == Upper(s)
  {
  }

  lemma BodyOf(chars: string, p: ScanPayload)
    requires |chars| == V1_LEN && Upper(chars) == chars
    requires chars[..3] == MAGIC + [VERSION_1]
    ensures chars[2..10] == Body(p) <==> chars[3] == Code(p.action) && chars[4..10] == p.id
  {
    assert chars[2] == chars[..3][2];
    assert chars[2..10] == [VERSION_1, chars[3]] + chars[4..10];
    assert Body(p)[1] == Code(p.action) && Body(p)[2..] == p.id;
    assert chars[2..10][1] == chars[3] && chars[2..10][2..] == chars[4..10];
  }

  /** Completing a body with its check character and verifying the completed
      string are the same thing, on uppercase strings. */
  lemma CheckedTail(chars: string, p: ScanPayload)
    requires |chars| == V1_LEN && Upper(chars) == chars && IsBase36(chars[2..])
    requires chars[2..10] == Body(p)
    ensures Checksum.Verify(chars[2..]) <==> chars[10] == Checksum.CheckChar(Body(p)).value
  {
    assert chars[2..] == Body(p) + [chars[10]];
    var check := Checksum.CheckChar(Body(p)).value;
    Checksum.CheckCharCompletes(Body(p), chars[10]);
    assert chars[2..][8] == chars[10];
    assert chars[10] == UpperChar(chars[10]);
    DigitOfValue(chars[10]);
    DigitOfValue(check);
  }

  lemma EncodeSplits(chars: string, p: ScanPayload)
    requires |chars| == V1_LEN
    ensures chars == Encode(p)
       <==> chars[..2] == MAGIC && chars[2..10] == Body(p) && chars[10] == Checksum.CheckChar(Body(p)).value
  {
    var e := Encode(p);
    assert e[..2] == MAGIC && e[2..10] == Body(p) && e[10] == Checksum.CheckChar(Body(p)).value;
    assert chars == chars[..2] + chars[2..10] + [chars[10]];
  }

  /** `Parse` accepts exactly the strings whose trimmed uppercase form is the
      printed form of its result. */
  lemma ParseInvertsEncode(raw: string, p: ScanPayload)
    ensures Parse(raw) == Ok(p) <==> Printable(p.action) && Upper(Trim(raw)) == Encode(p)
  {
    var chars := Upper(Trim(raw));
    UpperTwice(Trim(raw));
    if Parse(raw) == Ok(p) {
      ParsedShape(raw, p);
    }
    if Printable(p.action) && chars == Encode(p) {
      EncodeSplits(chars, p);
      assert chars[2] == chars[2..10][0];
      assert chars[..3] == MAGIC + [VERSION_1];
      BodyOf(chars, p);
      CheckedTail(chars, p);
      CodesRoundTrip(p.action, chars[3]);
      assert Upper(p.id) == p.id;
    }
  }

  lemma ParsedShape(raw: string, p: ScanPayload)
    requires Parse(raw) == Ok(p)
    ensures Printable(p.action) && Upper(Trim(raw)) == Encode(p)
  {
    var chars := Upper(Trim(raw));
    UpperTwice(Trim(raw));
    assert |chars| == V1_LEN && chars[2] == VERSION_1 && chars[..2] == MAGIC;
    assert chars[..3] == MAGIC + [VERSION_1];
    CodesRoundTrip(p.action, chars[3]);
    assert Upper(chars[4..10]) == chars[4..10];
    BodyOf(chars, p);
    CheckedTail(chars, p);
    EncodeSplits(chars, p);
  }

  /** No blanks and no lowercase in print. */
  lemma EncodeIsPlain(p: ScanPayload)
    ensures Upper(Encode(p)) == Encode(p)
    ensures forall i :: 0 <= i < V1_LEN ==> !IsBlank(Encode(p)[i])
  {
    var e := Encode(p);
    var tail := e[2..];
    assert forall i :: 2 <= i < V1_LEN ==> e[i] == tail[i - 2];
    forall i | 0 <= i < V1_LEN ensures UpperChar(e[i]) == e[i] && !IsBlank(e[i]) {
      if i >= 2 {
        assert DigitValue(tail[i - 2]).Some? && Upper(tail)[i - 2] == tail[i - 2];
      } else {
        assert e[i] == MAGIC[i];
      }
    }
  }

  /** What is printed is read back. */
  lemma PrintedIsRead(p: ScanPayload)
    requires Printable(p.action)
    ensures Parse(Encode(p)) == Ok(p)
  {
    EncodeIsPlain(p);
    TrimKeeps(Encode(p));
    ParseInvertsEncode(Encode(p), p);
  }

  /** A scanner that types lowercase is read the same. */
  lemma LowercaseIsRead(p: ScanPayload)
    requires Printable(p.action)
    ensures Parse(Lower(Encode(p))) == Ok(p)
  {
    var e := Encode(p);
    var l := Lower(e);
    EncodeIsPlain(p);
    forall i | 0 <= i < V1_LEN ensures UpperChar(l[i]) == e[i] && !IsBlank(l[i]) {
      assert UpperChar(e[i]) == Upper(e)[i];
    }
    assert Upper(l) == e;
    TrimKeeps(l);
    ParseInvertsEncode(l, p);
  }

  /** The module documentation says every swap of adjacent characters is
      caught; these two codes differ by one and name different tasks. */
  lemma SwappedIdsBothScan()
    ensures ExampleId(31, 32) == "VW0000" && ExampleId(32, 31) == "WV0000"
    ensures Parse("..1S" + ExampleId(31, 32) + "C") == Ok(ScanPayload(StartPause, ExampleId(31, 32)))
    ensures Parse("..1S" + ExampleId(32, 31) + "C") == Ok(ScanPayload(StartPause, ExampleId(32, 31)))
  {
    SwapExample(31, 32);
    SwapExample(32, 31);
  }

  function ExampleId(v: nat, w: nat): (id: ShortId)
    requires v < 36 && w < 36
  {
    var id := [DigitChar(v), DigitChar(w), DigitChar(0), DigitChar(0), DigitChar(0), DigitChar(0)];
    assert forall i :: 0 <= i < 6 ==> DigitValue(id[i]).Some? && UpperChar(id[i]) == id[i];
    assert Upper(id) == id;
    id
  }

  lemma SwapExample(v: nat, w: nat)
    requires (v == 31 && w == 32) || (v == 32 && w == 31)
    ensures Parse("..1S" + ExampleId(v, w) + "C") == Ok(ScanPayload(StartPause, ExampleId(v, w)))
  {
    var p := ScanPayload(StartPause, ExampleId(v, w));
    var values := Checksum.Values(Body(p));
    assert |values| == 8 && values[0] == 1 && values[1] == 28 && values[2] == v && values[3] == w;
    assert values[4] == 0 && values[5] == 0 && values[6] == 0 && values[7] == 0;
    assert values == [1, 28, v, w, 0, 0, 0, 0];
    ExampleRunning(v, w);
    assert Checksum.CheckChar(Body(p)) == Some('C');
    assert Encode(p) == "..1S" + p.id + "C";
    PrintedIsRead(p);
  }

  lemma ExampleRunning(v: nat, w: nat)
    requires (v == 31 && w == 32) || (v == 32 && w == 31)
    ensures Checksum.AllDigits([1, 28, v, w, 0, 0, 0, 0])
    ensures Checksum.Running([1, 28, v, w, 0, 0, 0, 0]) == 31
  {
    Checksum.RunningOfPair([], 1, 28);
    AbsorbTwo(18, 1, 28, 30);
    var a := [] + [1, 28];
    Checksum.RunningOfPair(a, v, w);
    AbsorbTwo(30, v, w, 32);
    var b := a + [v, w];
    Checksum.RunningOfPair(b, 0, 0);
    AbsorbTwo(32, 0, 0, 17);
    var c := b + [0, 0];
    Checksum.RunningOfPair(c, 0, 0);
    AbsorbTwo(17, 0, 0, 31);
    assert c + [0, 0] == [1, 28, v, w, 0, 0, 0, 0];
  }

  lemma AbsorbTwo(check: nat, v: nat, w: nat, r: nat)
    requires (check, v, w, r) in {(18, 1, 28, 30), (30, 31, 32, 32), (30, 32, 31, 32), (32, 0, 0, 17), (17, 0, 0, 31)}
    ensures Checksum.Absorb(Checksum.Absorb(check, v), w) == r
  {
  }
}
