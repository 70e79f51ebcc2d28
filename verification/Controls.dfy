/** Control codes: the grammar `<command>[/<command>]*` between `--1` and `--`,
    its printer and its parser. */
module Controls {
  import opened Options
  import opened Text
  import opened Ids

  type U8 = n: int | 0 <= n < 0x100
  type U32 = n: int | 0 <= n < 0x1_0000_0000

  datatype ColumnRef = Todo | Paused | Doing | Finished | Index(n: U8) | Last

  datatype Unit = Minutes | Hours | Days | Weeks | Months | Years

  datatype Value =
    | Now | Today | Time
    | Plus(n: U32, unit: Unit)
    | Minus(n: U32, unit: Unit)
    | Me | Clear | Split
    | FreeText(text: string)

  datatype Field =
    | Title | Description | Start | Due | RemindStart | RemindDue | Assign
    | Checklist
    | ChecklistItem(n: U8)
    | ExcludeFromStats | StartAndDue

  datatype SlipChoice = Reminder | Finish | Pause | Combo

  datatype NamedKey = Up | Down | Left | Right | Esc | EnterKey | Tab | BackTab | F(n: U8)

  datatype Control =
    | MoveLeft | MoveRight | MoveUp | MoveDown | MoveTop | MoveBottom
    | MoveTo(to: Option<ColumnRef>)
    | Delete
    | PrintSlip(slip: SlipChoice)
    | AssignMe | UnassignMe | ToggleAssign
    | Set(field: Field)
    | Show(task: Option<ShortId>)
    | Edit | Selected | Sticky
    | Press(c: char)
    | Named(key: NamedKey)
    | NamedTimes(key: NamedKey, times: U8)
    | Dashboard | NextBoard | PrevBoard
    | Search(archive: bool)
    | Ping | Undo | Insert | Replace
    | Give(value: Value)
    | ShowBoard(id: ShortId)
    | Analytics(id: ShortId)
    | StartProgram(id: ShortId)
    | StartProgramNow(id: ShortId)
    | NewFromTemplate(id: ShortId, column: ColumnRef)
    | NewFromTemplateAsk(id: ShortId, column: ColumnRef)

  const JOIN := '/'
  const TEXT := "V."

  // Numbers in decimal.

  function Digit(d: nat): char
    requires d < 10
  {
    ('0' as int + d) as char
  }

  function Decimal(n: nat): (s: string)
    ensures s != "" && forall i :: 0 <= i < |s| ==> IsDigit(s[i])
  {
    if n < 10 then [Digit(n)] else Decimal(n / 10) + [Digit(n % 10)]
  }

  function AllDigits(s: string): bool {
    forall i :: 0 <= i < |s| ==> IsDigit(s[i])
  }

  function DecimalValue(s: string): nat
    requires AllDigits(s)
  {
    if s == "" then 0
    else DecimalValue(s[..|s| - 1]) * 10 + (s[|s| - 1] as int - '0' as int)
  }

  /** How the standard library reads an unsigned integer: digits, a plus sign
      allowed before them, the value at most `max`. */
  function ParseUnsigned(s: string, max: nat): Option<nat> {
    var digits := if s != "" && s[0] == '+' then s[1..] else s;
    if digits == "" || !AllDigits(digits) || DecimalValue(digits) > max then None
    else Some(DecimalValue(digits))
  }

  lemma {:induction false} DecimalReadsBack(n: nat)
    ensures DecimalValue(Decimal(n)) == n
  {
    if n >= 10 {
      DecimalReadsBack(n / 10);
      assert Decimal(n)[..|Decimal(n)| - 1] == Decimal(n / 10);
    }
  }

  lemma PrintedNumberIsRead(n: nat, max: nat)
    ensures ParseUnsigned(Decimal(n), max) == if n <= max then Some(n) else None
  {
    DecimalReadsBack(n);
    assert IsDigit(Decimal(n)[0]);
  }

  // The pieces of a command.

  function Clamp(n: U8, max: U8): (r: nat)
    requires 1 <= max <= 9
    ensures 1 <= r <= max && (1 <= n <= max ==> r == n)
  {
    if n < 1 then 1 else if n > max then max else n
  }

  function ColumnCode(c: ColumnRef): char {
    match c
    case Todo => 'T'
    case Paused => 'P'
    case Doing => 'D'
    case Finished => 'F'
    case Index(n) => Digit(Clamp(n, 9))
    case Last => 'L'
  }

  function ColumnFrom(c: char): Option<ColumnRef> {
    var u := UpperChar(c);
    if u == 'T' then Some(Todo)
    else if u == 'P' then Some(Paused)
    else if u == 'D' then Some(Doing)
    else if u == 'F' then Some(Finished)
    else if '1' <= u <= '9' then Some(Index(u as int - '0' as int))
    else if u == 'L' then Some(Last)
    else None
  }

  function UnitCode(u: Unit): string {
    match u
    case Minutes => ""
    case Hours => "H"
    case Days => "D"
    case Weeks => "W"
    case Months => "MO"
    case Years => "Y"
  }

  function UnitFrom(s: string): Option<Unit> {
    var u := Upper(s);
    if u == "" then Some(Minutes)
    else if u == "H" then Some(Hours)
    else if u == "D" then Some(Days)
    else if u == "W" then Some(Weeks)
    else if u == "MO" then Some(Months)
    else if u == "Y" then Some(Years)
    else None
  }

  function FieldCode(f: Field): string {
    match f
    case Title => "T"
    case Description => "D"
    case Start => "S"
    case Due => "U"
    case RemindStart => "RS"
    case RemindDue => "RU"
    case Assign => "A"
    case Checklist => "C"
    case ChecklistItem(n) => ['C', Digit(Clamp(n, 9))]
    case ExcludeFromStats => "X"
    case StartAndDue => "B"
  }

  function FieldFrom(s: string): Option<Field> {
    if s == "T" then Some(Title)
    else if s == "D" then Some(Description)
    else if s == "S" then Some(Start)
    else if s == "U" then Some(Due)
    else if s == "RS" then Some(RemindStart)
    else if s == "RU" then Some(RemindDue)
    else if s == "A" then Some(Assign)
    else if s == "C" then Some(Checklist)
    else if s == "X" then Some(ExcludeFromStats)
    else if s == "B" then Some(StartAndDue)
    else if |s| == 2 && s[0] == 'C' && '1' <= s[1] <= '9' then Some(ChecklistItem(s[1] as int - '0' as int))
    else None
  }

  function SlipCode(s: SlipChoice): char {
    match s
    case Reminder => 'R'
    case Finish => 'F'
    case Pause => 'P'
    case Combo => 'C'
  }

  function SlipFrom(c: char): Option<SlipChoice> {
    if c == 'R' then Some(Reminder)
    else if c == 'F' then Some(Finish)
    else if c == 'P' then Some(Pause)
    else if c == 'C' then Some(Combo)
    else None
  }

  function KeyCode(k: NamedKey): string {
    match k
    case Up => "U"
    case Down => "D"
    case Left => "L"
    case Right => "R"
    case Esc => "E"
    case EnterKey => "N"
    case Tab => "T"
    case BackTab => "B"
    case F(n) => "F" + Decimal(n)
  }

  function KeyFrom(s: string): Option<NamedKey> {
    if s == "U" then Some(Up)
    else if s == "D" then Some(Down)
    else if s == "L" then Some(Left)
    else if s == "R" then Some(Right)
    else if s == "E" then Some(Esc)
    else if s == "N" then Some(EnterKey)
    else if s == "T" then Some(Tab)
    else if s == "B" then Some(BackTab)
    else if s == "" || s[0] != 'F' then None
    else
      match ParseUnsigned(s[1..], 255)
      case Some(n) => if 1 <= n <= 12 then Some(F(n)) else None
      case None => None
  }

  function EncodeValue(v: Value): string {
    match v
    case Now => "N"
    case Today => "TD"
    case Time => "TM"
    case Plus(n, u) => "P" + Decimal(n) + UnitCode(u)
    case Minus(n, u) => "M" + Decimal(n) + UnitCode(u)
    case Me => "ME"
    case Clear => "X"
    case Split => "U"
    case FreeText(t) => TEXT + t
  }

  /** The text of one command. */
  function EncodeOne(c: Control): string {
    match c
    case MoveLeft => "ML"
    case MoveRight => "MR"
    case MoveUp => "MU"
    case MoveDown => "MD"
    case MoveTop => "MT"
    case MoveBottom => "MB"
    case MoveTo(None) => "MC"
    case MoveTo(Some(col)) => "MC" + [ColumnCode(col)]
    case Delete => "DEL"
    case PrintSlip(s) => "P" + [SlipCode(s)]
    case AssignMe => "AM"
    case UnassignMe => "AU"
    case ToggleAssign => "AT"
    case Set(f) => "S" + FieldCode(f)
    case Show(None) => "SH"
    case Show(Some(id)) => "SH" + id
    case Selected => "SEL"
    case Edit => "ED"
    case Sticky => "STK"
    case Press(k) => "K" + [k]
    case Named(k) => "X" + KeyCode(k)
    case NamedTimes(k, n) => "X" + KeyCode(k) + Decimal(n)
    case Dashboard => "GD"
    case NextBoard => "GN"
    case PrevBoard => "GP"
    case Search(archive) => if archive then "QA" else "Q"
    case Ping => "PING"
    case Undo => "UNDO"
    case Insert => "I"
    case Replace => "R"
    case Give(v) => EncodeValue(v)
    case ShowBoard(id) => "GB" + id
    case Analytics(id) => "GA" + id
    case StartProgram(id) => "RP" + id
    case StartProgramNow(id) => "RN" + id
    case NewFromTemplate(id, col) => "NT" + id + [ColumnCode(col)]
    case NewFromTemplateAsk(id, col) => "NA" + id + [ColumnCode(col)]
  }

  // The parser.

  /** The verbs that are whole words, uppercased. */
  function Verb(t: string): Option<Control> {
    if t == "ML" then Some(MoveLeft)
    else if t == "MR" then Some(MoveRight)
    else if t == "MU" then Some(MoveUp)
    else if t == "MD" then Some(MoveDown)
    else if t == "MT" then Some(MoveTop)
    else if t == "MB" then Some(MoveBottom)
    else if t == "MC" then Some(MoveTo(None))
    else if t == "DEL" then Some(Delete)
    else if t == "AM" then Some(AssignMe)
    else if t == "AU" then Some(UnassignMe)
    else if t == "AT" then Some(ToggleAssign)
    else if t == "SH" then Some(Show(None))
    else if t == "SEL" then Some(Selected)
    else if t == "ED" then Some(Edit)
    else if t == "STK" then Some(Sticky)
    else if t == "GD" then Some(Dashboard)
    else if t == "GN" then Some(NextBoard)
    else if t == "GP" then Some(PrevBoard)
    else if t == "Q" then Some(Search(false))
    else if t == "QA" then Some(Search(true))
    else if t == "PING" then Some(Ping)
    else if t == "UNDO" then Some(Undo)
    else if t == "I" then Some(Insert)
    else if t == "R" then Some(Replace)
    else if t == "N" then Some(Give(Now))
    else if t == "TD" then Some(Give(Today))
    else if t == "TM" then Some(Give(Time))
    else if t == "ME" then Some(Give(Me))
    else if t == "X" then Some(Give(Clear))
    else if t == "U" then Some(Give(Split))
    else None
  }

  function LeadingDigits(s: string): (n: nat)
    ensures n <= |s| && AllDigits(s[..n]) && (n < |s| ==> !IsDigit(s[n]))
  {
    if s == "" || !IsDigit(s[0]) then 0
    else
      var n := 1 + LeadingDigits(s[1..]);
      assert s[..n] == [s[0]] + s[1..][..n - 1];
      n
  }

  /** An offset: P or M, a number, and the letters of a unit unless it is minutes. */
  function ParseOffset(t: string): Option<Control>
    requires t != ""
  {
    var rest := t[1..];
    var digits := LeadingDigits(rest);
    match (ParseUnsigned(rest[..digits], 0xFFFF_FFFF), UnitFrom(rest[digits..]))
    case (Some(n), Some(unit)) => Some(Give(if t[0] == 'P' then Plus(n, unit) else Minus(n, unit)))
    case _ => None
  }

  function IdFrom(s: string): Option<ShortId> {
    match ParseId(s)
    case Ok(id) => Some(id)
    case Err(_) => None
  }

  /** A named key, alone or with a count behind it. */
  function ParseKey(rest: string): Option<Control>
    requires rest != ""
  {
    match KeyFrom(rest)
    case Some(k) => Some(Named(k))
    case None =>
      match (KeyFrom(rest[..1]), ParseUnsigned(rest[1..], 255))
      case (Some(k), Some(n)) => if 1 <= n <= 99 then Some(NamedTimes(k, n)) else None
      case _ => None
  }

  /** `NT<id><column>`. */
  function ParseTemplate(t: string): Option<Control>
    requires |t| >= 2
  {
    if |t| == 2 then None
    else
      var last := |t| - 1;
      match (IdFrom(t[2..last]), ColumnFrom(t[last]))
      case (Some(id), Some(col)) => Some(if t[1] == 'T' then NewFromTemplate(id, col) else NewFromTemplateAsk(id, col))
      case _ => None
  }

  /** The verbs that carry arguments, uppercased. */
  function ParseLong(t: string): Option<Control> {
    if |t| < 2 then None
    else
      var (a, b) := (t[0], t[1]);
      if a == 'M' && b == 'C' && |t| == 3 then
        (match ColumnFrom(t[2]) case Some(col) => Some(MoveTo(Some(col))) case None => None)
      else if a == 'P' && |t| == 2 && SlipFrom(b).Some? then Some(PrintSlip(SlipFrom(b).value))
      else if (a == 'P' || a == 'M') && IsDigit(b) then ParseOffset(t)
      else if a == 'S' && |t| <= 3 then
        (match FieldFrom(t[1..]) case Some(f) => Some(Set(f)) case None => None)
      else if a == 'S' && b == 'H' then
        (match IdFrom(t[2..]) case Some(id) => Some(Show(Some(id))) case None => None)
      else if a == 'X' then ParseKey(t[1..])
      else if a == 'G' && b == 'B' then
        (match IdFrom(t[2..]) case Some(id) => Some(ShowBoard(id)) case None => None)
      else if a == 'G' && b == 'A' then
        (match IdFrom(t[2..]) case Some(id) => Some(Analytics(id)) case None => None)
      else if a == 'R' && b == 'P' then
        (match IdFrom(t[2..]) case Some(id) => Some(StartProgram(id)) case None => None)
      else if a == 'R' && b == 'N' then
        (match IdFrom(t[2..]) case Some(id) => Some(StartProgramNow(id)) case None => None)
      else if a == 'N' && (b == 'T' || b == 'A') then ParseTemplate(t)
      else None
  }

  /** One command; None where the code answers that it knows no such command. */
  function ParseOne(token: string): Option<Control> {
    if TEXT <= token then Some(Give(FreeText(token[|TEXT|..])))
    else if |token| == 2 && UpperChar(token[0]) == 'K' then Some(Press(token[1]))
    else
      var t := Upper(token);
      match Verb(t)
      case Some(c) => Some(c)
      case None => ParseLong(t)
  }

  datatype ControlError = Empty | UnknownCommand(token: string)

  function FindJoin(s: string): (r: Option<nat>)
    ensures r.Some? ==> r.value < |s| && s[r.value] == JOIN && JOIN !in s[..r.value]
    ensures r.None? ==> JOIN !in s
  {
    if s == "" then None
    else if s[0] == JOIN then Some(0)
    else
      match FindJoin(s[1..])
      case None => None
      case Some(i) =>
        assert s[..i + 1] == [s[0]] + s[1..][..i];
        Some(i + 1)
  }

  function ParseList(rest: string): Result<seq<Control>, ControlError>
    decreases |rest|
  {
    var join := if TEXT <= rest then None else FindJoin(rest);
    var token := if join.Some? then rest[..join.value] else rest;
    match ParseOne(token)
    case None => Err(UnknownCommand(token))
    case Some(c) =>
      if join.None? then Ok([c]) else Prefixed([c], ParseList(rest[join.value + 1..]))
  }

  function Prefixed(out: seq<Control>, r: Result<seq<Control>, ControlError>): Result<seq<Control>, ControlError> {
    match r
    case Ok(cs) => Ok(out + cs)
    case Err(e) => Err(e)
  }

  lemma PrefixedByNothing(r: Result<seq<Control>, ControlError>)
    ensures Prefixed([], r) == r
  {
    assert r.Ok? ==> [] + r.value == r.value;
  }

  lemma PrefixedTwice(a: seq<Control>, b: seq<Control>, r: Result<seq<Control>, ControlError>)
    ensures Prefixed(a, Prefixed(b, r)) == Prefixed(a + b, r)
  {
    assert r.Ok? ==> a + (b + r.value) == (a + b) + r.value;
  }

  /** Every command of a body, its blank edges and emptiness aside. */
  function ParseBody(body: string): Result<seq<Control>, ControlError> {
    if Trim(body) == "" then Err(Empty) else ParseList(body)
  }

  /** The parser's loop: cut commands off the front until text or the last. */
  method Parse(body: string) returns (r: Result<seq<Control>, ControlError>)
    ensures r == ParseBody(body)
  {
    if Trim(body) == "" {
      return Err(Empty);
    }
    var out: seq<Control> := [];
    var rest := body;
    PrefixedByNothing(ParseList(body));
    while true
      invariant ParseList(body) == Prefixed(out, ParseList(rest))
      decreases |rest|
    {
      var join := if TEXT <= rest then None else FindJoin(rest);
      var token := if join.Some? then rest[..join.value] else rest;
      var one := ParseOne(token);
      if one.None? {
        return Err(UnknownCommand(token));
      }
      if join.None? {
        return Ok(out + [one.value]);
      }
      var next := rest[join.value + 1..];
      PrefixedTwice(out, [one.value], ParseList(next));
      out, rest := out + [one.value], next;
    }
  }
}
