/** What the parser reads at all: nothing but the codes of commands, in either case,
    and numbers spelled in any way. */
module ControlReads {
  import opened Options
  import opened Text
  import opened Ids
  import opened Controls
  import opened ControlTrip

  /** A number as the standard library reads one. */
  predicate IsNumber(s: string, n: nat) {
    var digits := if s != "" && s[0] == '+' then s[1..] else s;
    digits != "" && AllDigits(digits) && DecimalValue(digits) == n
  }

  /** An offset: its sign, a number in digits, and its unit. */
  predicate IsOffset(t: string, sign: char, n: nat, u: Unit) {
    && t != "" && t[0] == sign
    && exists k :: 1 < k <= |t| && AllDigits(t[1..k]) && DecimalValue(t[1..k]) == n && t[k..] == UnitCode(u)
  }

  /** Whether an uppercased token is the code of a command, its numbers in any
      spelling. */
  predicate IsCodeOf(t: string, c: Control) {
    match c
    case Give(Plus(n, u)) => IsOffset(t, 'P', n, u)
    case Give(Minus(n, u)) => IsOffset(t, 'M', n, u)
    case Named(F(n)) => |t| > 2 && t[..2] == "XF" && IsNumber(t[2..], n)
    case NamedTimes(k, n) => |t| > 2 && t[..2] == "X" + KeyCode(k) && IsNumber(t[2..], n)
    case _ => t == EncodeOne(c)
  }

  /** What an uppercased token is read as: neither a key to press nor text. */
  predicate IsRead(t: string, c: Control) {
    IsCodeOf(t, c) && Canonical(c) && !c.Press? && !(c.Give? && c.value.FreeText?)
  }

  lemma VerbIsWord(t: string)
    ensures match Verb(t)
            case Some(c) => IsMoveWord(c) || IsTaskWord(c) || IsScreenWord(c) || IsValueWord(c)
            case None => true
  {
  }

  lemma MoveVerb(t: string)
    requires Verb(t).Some? && IsMoveWord(Verb(t).value)
    ensures t == EncodeOne(Verb(t).value)
  {
  }

  lemma TaskVerb(t: string)
    requires Verb(t).Some? && IsTaskWord(Verb(t).value)
    ensures t == EncodeOne(Verb(t).value)
  {
  }

  predicate IsPlaceWord(c: Control) {
    c.Dashboard? || c.NextBoard? || c.PrevBoard? || c.Search?
  }

  lemma PlaceVerb(t: string)
    requires Verb(t).Some? && IsPlaceWord(Verb(t).value)
    ensures t == EncodeOne(Verb(t).value)
  {
  }

  lemma ScreenVerb(t: string)
    requires Verb(t).Some? && IsScreenWord(Verb(t).value) && !IsPlaceWord(Verb(t).value)
    ensures t == EncodeOne(Verb(t).value)
  {
  }

  lemma ValueVerb(t: string)
    requires Verb(t).Some? && IsValueWord(Verb(t).value)
    ensures t == EncodeOne(Verb(t).value)
  {
  }

  lemma VerbIsCode(t: string)
    requires Verb(t).Some?
    ensures IsRead(t, Verb(t).value)
  {
    var c := Verb(t).value;
    VerbIsWord(t);
    if IsMoveWord(c) {
      MoveVerb(t);
    } else if IsTaskWord(c) {
      TaskVerb(t);
    } else if IsPlaceWord(c) {
      PlaceVerb(t);
    } else if IsScreenWord(c) {
      ScreenVerb(t);
    } else {
      ValueVerb(t);
    }
  }

  lemma ColumnIsCode(c: char)
    ensures match ColumnFrom(c)
            case Some(col) => ColumnCode(col) == UpperChar(c) && CanonicalColumn(col)
            case None => true
  {
  }

  lemma FieldIsCode(s: string)
    ensures match FieldFrom(s)
            case Some(f) => FieldCode(f) == s && Canonical(Set(f))
            case None => true
  {
  }

  lemma SlipIsCode(c: char)
    ensures match SlipFrom(c) case Some(s) => SlipCode(s) == c case None => true
  {
  }

  lemma UnitIsCode(s: string)
    ensures match UnitFrom(s) case Some(u) => UnitCode(u) == Upper(s) case None => true
  {
  }

  lemma KeyIsCode(s: string)
    ensures match KeyFrom(s)
            case Some(F(n)) => 1 <= n <= 12 && |s| > 1 && s[0] == 'F' && IsNumber(s[1..], n)
            case Some(k) => KeyCode(k) == s && |s| == 1
            case None => true
  {
  }

  lemma NumberIsRead(s: string, max: nat)
    ensures match ParseUnsigned(s, max) case Some(n) => IsNumber(s, n) && n <= max case None => true
  {
  }

  lemma OffsetIsCode(t: string)
    requires t != "" && Upper(t) == t && (t[0] == 'P' || t[0] == 'M')
    ensures match ParseOffset(t) case Some(c) => IsRead(t, c) case None => true
  {
    if ParseOffset(t).Some? {
      var c := ParseOffset(t).value;
      var k := LeadingDigits(t[1..]);
      assert t[1..][..k] == t[1..k + 1] && t[1..][k..] == t[k + 1..];
      UnitIsCode(t[k + 1..]);
      UpperTail(t, k + 1);
      DigitsAreNumber(t[1..k + 1]);
      assert k > 0;
      assert 1 < k + 1 <= |t| && t[k + 1..] == UnitCode(c.value.unit);
      assert AllDigits(t[1..k + 1]) && DecimalValue(t[1..k + 1]) == c.value.n;
    }
  }

  lemma UpperTail(t: string, k: nat)
    requires Upper(t) == t && k <= |t|
    ensures Upper(t[k..]) == t[k..]
  {
    forall i | 0 <= i < |t| - k ensures Upper(t[k..])[i] == t[k..][i] {
      assert t[k..][i] == t[k + i] == Upper(t)[k + i];
    }
  }

  lemma DigitsAreNumber(s: string)
    requires AllDigits(s)
    ensures match ParseUnsigned(s, 0xFFFF_FFFF) case Some(n) => s != "" && DecimalValue(s) == n case None => true
  {
    assert s != "" ==> IsDigit(s[0]);
  }

  lemma KeyCommandIsCode(t: string)
    requires |t| >= 2 && t[0] == 'X'
    ensures match ParseKey(t[1..]) case Some(c) => IsRead(t, c) case None => true
  {
    var rest := t[1..];
    assert t == "X" + rest && t[..2] == "X" + rest[..1] && t[2..] == rest[1..];
    KeyIsCode(rest);
    if KeyFrom(rest).None? {
      TimesAreCode(t);
    }
  }

  lemma TimesAreCode(t: string)
    requires |t| >= 2 && t[0] == 'X' && KeyFrom(t[1..]).None?
    ensures match ParseKey(t[1..]) case Some(c) => IsRead(t, c) case None => true
  {
    var rest := t[1..];
    assert t[..2] == "X" + rest[..1] && t[2..] == rest[1..];
    KeyIsCode(rest[..1]);
    NumberIsRead(rest[1..], 255);
  }

  lemma IdIsCode(s: string)
    requires Upper(s) == s
    ensures match IdFrom(s) case Some(id) => id == s case None => true
  {
  }

  /** The commands that begin with two letters of their own and end in an id. */
  lemma TargetIsCode(t: string)
    requires |t| >= 2 && Upper(t) == t && IdFrom(t[2..]).Some?
    ensures var id := IdFrom(t[2..]).value;
            && (t[0] == 'S' && t[1] == 'H' ==> IsRead(t, Show(Some(id))))
            && (t[0] == 'R' && t[1] == 'P' ==> IsRead(t, StartProgram(id)))
            && (t[0] == 'R' && t[1] == 'N' ==> IsRead(t, StartProgramNow(id)))
  {
    TargetSplits(t);
  }

  lemma BoardIsCode(t: string)
    requires |t| >= 2 && Upper(t) == t && IdFrom(t[2..]).Some?
    ensures var id := IdFrom(t[2..]).value;
            && (t[0] == 'G' && t[1] == 'B' ==> IsRead(t, ShowBoard(id)))
            && (t[0] == 'G' && t[1] == 'A' ==> IsRead(t, Analytics(id)))
  {
    TargetSplits(t);
  }

  lemma TargetSplits(t: string)
    requires |t| >= 2 && Upper(t) == t && IdFrom(t[2..]).Some?
    ensures t == t[..2] + IdFrom(t[2..]).value && t[..2] == [t[0], t[1]]
  {
    UpperTail(t, 2);
    IdIsCode(t[2..]);
    assert t == t[..2] + t[2..];
  }

  lemma TemplateIsCode(t: string)
    requires |t| >= 2 && Upper(t) == t && t[0] == 'N' && (t[1] == 'T' || t[1] == 'A')
    ensures match ParseTemplate(t) case Some(c) => IsRead(t, c) case None => true
  {
    if ParseTemplate(t).Some? {
      var last := |t| - 1;
      forall i | 0 <= i < last - 2 ensures Upper(t[2..last])[i] == t[2..last][i] {
        assert t[2..last][i] == t[2 + i] == Upper(t)[2 + i];
      }
      assert Upper(t[2..last]) == t[2..last];
      IdIsCode(t[2..last]);
      ColumnIsCode(t[last]);
      assert UpperChar(t[last]) == Upper(t)[last] == t[last];
      assert t == [t[0], t[1]] + t[2..last] + [t[last]];
    }
  }

  lemma ColumnCommandIsCode(t: string)
    requires |t| == 3 && Upper(t) == t && t[..2] == "MC"
    ensures match ColumnFrom(t[2]) case Some(col) => IsRead(t, MoveTo(Some(col))) case None => true
  {
    ColumnIsCode(t[2]);
    assert UpperChar(t[2]) == Upper(t)[2] == t[2];
    assert t == t[..2] + [t[2]];
  }

  lemma FieldCommandIsCode(t: string)
    requires |t| >= 2 && t[0] == 'S'
    ensures match FieldFrom(t[1..]) case Some(f) => IsRead(t, Set(f)) case None => true
  {
    FieldIsCode(t[1..]);
    assert t == [t[0]] + t[1..];
  }

  lemma SlipCommandIsCode(t: string)
    requires |t| == 2 && t[0] == 'P'
    ensures match SlipFrom(t[1]) case Some(s) => IsRead(t, PrintSlip(s)) case None => true
  {
    SlipIsCode(t[1]);
    assert t == [t[0]] + [t[1]];
  }

  lemma LongIsCode(t: string)
    requires Upper(t) == t && ParseLong(t).Some?
    ensures IsRead(t, ParseLong(t).value)
  {
    var a, b := t[0], t[1];
    if a == 'M' && b == 'C' && |t| == 3 {
      ColumnCommandIsCode(t);
    } else if a == 'P' && |t| == 2 && SlipFrom(b).Some? {
      SlipCommandIsCode(t);
    } else if (a == 'P' || a == 'M') && IsDigit(b) {
      OffsetIsCode(t);
    } else if a == 'S' && |t| <= 3 {
      FieldCommandIsCode(t);
    } else if a == 'X' {
      KeyCommandIsCode(t);
    } else if a == 'N' && (b == 'T' || b == 'A') {
      TemplateIsCode(t);
    } else {
      TargetIsCode(t);
      BoardIsCode(t);
    }
  }

  /** Whatever is read as a command is that command's own code: text behind `V.`, a key
      behind a K, and otherwise the printed form but for case and the spelling of a
      number. And it is a command that reads back as itself when printed. */
  lemma OnlyCodesAreRead(token: string)
    requires ParseOne(token).Some?
    ensures var c := ParseOne(token).value;
            Canonical(c) && ParseOne(EncodeOne(c)) == Some(c)
            && match c
               case Give(FreeText(text)) => token == TEXT + text
               case Press(k) => |token| == 2 && UpperChar(token[0]) == 'K' && token[1] == k
               case _ => IsCodeOf(Upper(token), c)
  {
    var c, t := ParseOne(token).value, Upper(token);
    if !(TEXT <= token) && !(|token| == 2 && UpperChar(token[0]) == 'K') {
      UpperIsUpper(token);
      if Verb(t).Some? {
        VerbIsCode(t);
      } else {
        LongIsCode(t);
      }
    }
    OneRoundTrips(c);
  }

  /** Tokens with a slash between each two. */
  function JoinAll(tokens: seq<string>): string {
    if tokens == [] then ""
    else if |tokens| == 1 then tokens[0]
    else tokens[0] + [JOIN] + JoinAll(tokens[1..])
  }

  predicate AreRead(tokens: seq<string>, cmds: seq<Control>) {
    && |tokens| == |cmds| > 0
    && (forall i :: 0 <= i < |cmds| ==> ParseOne(tokens[i]) == Some(cmds[i]))
    && (forall i :: 0 <= i < |cmds| - 1 ==> JOIN !in tokens[i])
  }

  /** A body that is read is made of codes, joined by slashes, each read as its own
      command; only the last may hold a slash. */
  lemma {:induction false} ListIsOfCodes(body: string) returns (tokens: seq<string>)
    requires ParseList(body).Ok?
    ensures JoinAll(tokens) == body && AreRead(tokens, ParseList(body).value)
    decreases |body|
  {
    var join := if TEXT <= body then None else FindJoin(body);
    if join.None? {
      tokens := [body];
    } else {
      var first, rest := body[..join.value], body[join.value + 1..];
      ListSplits(body, join.value);
      tokens := ListIsOfCodes(rest);
      MoreIsRead(first, tokens, ParseOne(first).value, ParseList(rest).value);
      tokens := [first] + tokens;
    }
  }

  lemma ListSplits(body: string, at: nat)
    requires ParseList(body).Ok? && !(TEXT <= body) && FindJoin(body) == Some(at)
    ensures at < |body|
    ensures var first, rest := body[..at], body[at + 1..];
            body == first + [JOIN] + rest && JOIN !in first && ParseOne(first).Some? && ParseList(rest).Ok?
            && ParseList(body).value == [ParseOne(first).value] + ParseList(rest).value
  {
    ListIs(body, at);
    FromParts(ParseList(body), ParseOne(body[..at]), ParseList(body[at + 1..]), body[..at]);
    SplitsAt(body, at);
  }

  lemma FromParts(
    whole: Result<seq<Control>, ControlError>, first: Option<Control>, rest: Result<seq<Control>, ControlError>,
    token: string)
    requires whole.Ok?
    requires whole == match first case None => Err(UnknownCommand(token)) case Some(c) => Prefixed([c], rest)
    ensures first.Some? && rest.Ok? && whole.value == [first.value] + rest.value
  {
  }

  lemma SplitsAt(s: string, at: nat)
    requires at < |s|
    ensures s == s[..at] + [s[at]] + s[at + 1..]
  {
  }

  lemma ListIs(body: string, at: nat)
    requires !(TEXT <= body) && at < |body| && FindJoin(body) == Some(at)
    ensures ParseList(body) ==
            match ParseOne(body[..at])
            case None => Err(UnknownCommand(body[..at]))
            case Some(c) => Prefixed([c], ParseList(body[at + 1..]))
  {
  }

  lemma MoreIsRead(first: string, tokens: seq<string>, c: Control, cmds: seq<Control>)
    requires AreRead(tokens, cmds) && ParseOne(first) == Some(c) && JOIN !in first
    ensures AreRead([first] + tokens, [c] + cmds) && JoinAll([first] + tokens) == first + [JOIN] + JoinAll(tokens)
  {
    assert ([first] + tokens)[1..] == tokens;
    forall i | 0 <= i < |cmds| + 1 ensures ParseOne(([first] + tokens)[i]) == Some(([c] + cmds)[i]) {
      assert i > 0 ==> ([first] + tokens)[i] == tokens[i - 1] && ([c] + cmds)[i] == cmds[i - 1];
    }
  }

  lemma UpperIsUpper(s: string)
    ensures Upper(Upper(s)) == Upper(s)
  {
    forall i | 0 <= i < |s| ensures Upper(Upper(s))[i] == Upper(s)[i] {
    }
  }
}
