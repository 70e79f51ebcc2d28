/** Printing control codes and reading them back. */
module ControlTrip {
  import opened Options
  import opened Text
  import opened Ids
  import opened Controls

  predicate CanonicalColumn(col: ColumnRef) {
    col.Index? ==> 1 <= col.n <= 9
  }

  /** A command whose printed form is its own: numbers within the range the
      code spells, and no function key pressed several times. */
  predicate Canonical(c: Control) {
    match c
    case MoveTo(Some(col)) => CanonicalColumn(col)
    case NewFromTemplate(_, col) => CanonicalColumn(col)
    case NewFromTemplateAsk(_, col) => CanonicalColumn(col)
    case Set(ChecklistItem(n)) => 1 <= n <= 9
    case Named(F(n)) => 1 <= n <= 12
    case NamedTimes(k, n) => !k.F? && 1 <= n <= 99
    case _ => true
  }

  /** Text that uppercasing leaves alone and that joins no commands. */
  predicate IsPlain(s: string) {
    forall i :: 0 <= i < |s| ==> UpperChar(s[i]) == s[i] && s[i] != JOIN
  }

  lemma PlainIsUpper(s: string)
    requires IsPlain(s)
    ensures Upper(s) == s
  {
  }

  lemma WordIsRead(t: string, c: Control)
    requires IsPlain(t) && t != "" && t[0] != 'V' && t[0] != 'K' && Verb(t) == Some(c)
    ensures ParseOne(t) == Some(c)
  {
    PlainIsUpper(t);
    assert TEXT[0] == 'V';
  }

  lemma LongIsRead(t: string)
    requires IsPlain(t) && t != "" && t[0] != 'V' && t[0] != 'K' && Verb(t) == None
    ensures ParseOne(t) == ParseLong(t)
  {
    PlainIsUpper(t);
    assert TEXT[0] == 'V';
  }

  /** What the whole words look like, so that nothing else is taken for one. */
  lemma WordShapes(t: string)
    requires Verb(t).Some? && |t| >= 2
    ensures |t| <= 4 && !IsDigit(t[1]) && t[0] != 'X'
    ensures t[0] == 'P' ==> |t| == 4
    ensures t[0] == 'M' ==> |t| == 2
    ensures t[0] == 'S' ==> t[1] == 'H' || t[1] == 'E' || (t[1] == 'T' && |t| == 3)
  {
  }

  predicate IsMoveWord(c: Control) {
    c.MoveLeft? || c.MoveRight? || c.MoveUp? || c.MoveDown? || c.MoveTop? || c.MoveBottom? || c == MoveTo(None)
  }

  predicate IsTaskWord(c: Control) {
    || c.Delete? || c.AssignMe? || c.UnassignMe? || c.ToggleAssign? || c == Show(None)
    || c.Edit? || c.Selected? || c.Sticky?
  }

  predicate IsScreenWord(c: Control) {
    || c.Dashboard? || c.NextBoard? || c.PrevBoard? || c.Search? || c.Ping? || c.Undo? || c.Insert? || c.Replace?
  }

  predicate IsValueWord(c: Control) {
    c.Give? && !c.value.Plus? && !c.value.Minus? && !c.value.FreeText?
  }

  predicate IsWordCode(t: string) {
    IsPlain(t) && t != "" && t[0] != 'V' && t[0] != 'K'
  }

  lemma WordEncodings(c: Control)
    requires IsMoveWord(c) || IsTaskWord(c) || IsScreenWord(c) || IsValueWord(c)
    ensures IsWordCode(EncodeOne(c))
  {
    if IsMoveWord(c) {
      MoveEncodings(c);
    } else if IsTaskWord(c) {
      TaskEncodings(c);
    } else if IsScreenWord(c) {
      ScreenEncodings(c);
    } else {
      ValueEncodings(c);
    }
  }

  lemma MoveEncodings(c: Control)
    requires IsMoveWord(c)
    ensures IsWordCode(EncodeOne(c))
  {
  }

  lemma TaskEncodings(c: Control)
    requires IsTaskWord(c)
    ensures IsWordCode(EncodeOne(c))
  {
  }

  lemma ScreenEncodings(c: Control)
    requires IsScreenWord(c)
    ensures IsWordCode(EncodeOne(c))
  {
  }

  lemma ValueEncodings(c: Control)
    requires IsValueWord(c)
    ensures IsWordCode(EncodeOne(c))
  {
  }

  lemma MoveWords(c: Control)
    requires IsMoveWord(c)
    ensures Verb(EncodeOne(c)) == Some(c)
  {
    var t := EncodeOne(c);
    assert t[1] == t[1];
  }

  lemma TaskWords(c: Control)
    requires IsTaskWord(c)
    ensures Verb(EncodeOne(c)) == Some(c)
  {
    var t := EncodeOne(c);
    assert t[0] == t[0] && t[1] == t[1];
    assert |t| > 2 ==> t[2] == t[2];
  }

  lemma ScreenWords(c: Control)
    requires IsScreenWord(c)
    ensures Verb(EncodeOne(c)) == Some(c)
  {
    var t := EncodeOne(c);
    assert t[0] == t[0];
    assert |t| > 1 ==> t[1] == t[1];
  }

  lemma ValueWords(c: Control)
    requires IsValueWord(c)
    ensures Verb(EncodeOne(c)) == Some(c)
  {
    var t := EncodeOne(c);
    assert t[0] == t[0];
    assert |t| > 1 ==> t[1] == t[1];
  }

  // Arguments.

  lemma ColumnRoundTrips(col: ColumnRef)
    ensures ColumnFrom(ColumnCode(col)) == Some(col) <==> CanonicalColumn(col)
    ensures IsPlain([ColumnCode(col)])
  {
  }

  lemma IdIsPlain(id: ShortId)
    ensures IsPlain(id) && IdFrom(id) == Some(id)
  {
    forall i | 0 <= i < |id| ensures UpperChar(id[i]) == id[i] && id[i] != JOIN {
      assert DigitValue(id[i]).Some?;
      assert Upper(id)[i] == id[i];
    }
  }

  lemma {:induction false} LeadingDigitsOf(digits: string, tail: string)
    requires AllDigits(digits) && (tail == "" || !IsDigit(tail[0]))
    ensures LeadingDigits(digits + tail) == |digits|
  {
    if digits == "" {
      assert digits + tail == tail;
    } else {
      assert (digits + tail)[1..] == digits[1..] + tail;
      LeadingDigitsOf(digits[1..], tail);
    }
  }

  lemma DecimalIsPlain(n: nat)
    ensures IsPlain(Decimal(n))
  {
    forall i | 0 <= i < |Decimal(n)| ensures UpperChar(Decimal(n)[i]) == Decimal(n)[i] && Decimal(n)[i] != JOIN {
      assert IsDigit(Decimal(n)[i]);
    }
  }

  lemma UnitRoundTrips(u: Unit)
    ensures UnitFrom(UnitCode(u)) == Some(u) && IsPlain(UnitCode(u))
    ensures UnitCode(u) != "" ==> !IsDigit(UnitCode(u)[0])
  {
    PlainIsUpper(UnitCode(u));
    var s := UnitCode(u);
    assert s != "" ==> s[0] == s[0];
  }

  lemma OffsetIsParsed(sign: char, n: U32, u: Unit)
    requires sign == 'P' || sign == 'M'
    ensures var v := if sign == 'P' then Plus(n, u) else Minus(n, u);
            ParseOffset([sign] + (Decimal(n) + UnitCode(u))) == Some(Give(v))
  {
    var d, w := Decimal(n), UnitCode(u);
    UnitRoundTrips(u);
    assert ([sign] + (d + w))[1..] == d + w;
    LeadingDigitsOf(d, w);
    assert (d + w)[..|d|] == d && (d + w)[|d|..] == w;
    PrintedNumberIsRead(n, 0xFFFF_FFFF);
  }

  /** A sign and a digit cannot be anything but an offset. */
  lemma OffsetIsRead(t: string)
    requires IsPlain(t) && |t| >= 2 && (t[0] == 'P' || t[0] == 'M') && IsDigit(t[1])
    ensures ParseOne(t) == ParseOffset(t)
  {
    if Verb(t).Some? {
      WordShapes(t);
    }
    LongIsRead(t);
    OffsetIsLong(t);
  }

  lemma OffsetIsLong(t: string)
    requires |t| >= 2 && (t[0] == 'P' || t[0] == 'M') && IsDigit(t[1])
    ensures ParseLong(t) == ParseOffset(t)
  {
    assert SlipFrom(t[1]) == None && t[1] != 'C';
  }

  lemma OffsetText(sign: char, n: U32, u: Unit) returns (t: string)
    requires sign == 'P' || sign == 'M'
    ensures t == [sign] + Decimal(n) + UnitCode(u)
    ensures ParseOffset(t) == Some(Give(if sign == 'P' then Plus(n, u) else Minus(n, u)))
    ensures IsPlain(t) && |t| >= 2 && t[0] == sign && IsDigit(t[1])
  {
    t := [sign] + (Decimal(n) + UnitCode(u));
    OffsetIsPlain(sign, n, u);
    OffsetIsParsed(sign, n, u);
    assert t == [sign] + Decimal(n) + UnitCode(u);
  }

  lemma OffsetIsPlain(sign: char, n: U32, u: Unit)
    requires sign == 'P' || sign == 'M'
    ensures var t := [sign] + (Decimal(n) + UnitCode(u));
            IsPlain(t) && |t| >= 2 && t[0] == sign && IsDigit(t[1])
  {
    DecimalIsPlain(n);
    UnitRoundTrips(u);
    assert IsDigit(Decimal(n)[0]);
    JoinedArePlain([sign], Decimal(n) + UnitCode(u));
    JoinedArePlain(Decimal(n), UnitCode(u));
  }

  lemma JoinedArePlain(a: string, b: string)
    requires IsPlain(a) && IsPlain(b)
    ensures IsPlain(a + b)
  {
  }

  /** What an offset prints as, and how the offset parser takes it. */
  lemma OffsetToken(c: Control) returns (t: string)
    requires c.Give? && (c.value.Plus? || c.value.Minus?)
    ensures t == EncodeOne(c) && ParseOffset(t) == Some(c)
    ensures IsPlain(t) && |t| >= 2 && (t[0] == 'P' || t[0] == 'M') && IsDigit(t[1])
  {
    t := OffsetText(if c.value.Plus? then 'P' else 'M', c.value.n, c.value.unit);
    OffsetEncodes(c);
  }

  lemma OffsetEncodes(c: Control)
    requires c.Give? && (c.value.Plus? || c.value.Minus?)
    ensures EncodeOne(c) == [if c.value.Plus? then 'P' else 'M'] + Decimal(c.value.n) + UnitCode(c.value.unit)
  {
  }

  lemma LongTokenIsRead(t: string)
    requires IsPlain(t) && |t| > 4 && t[0] != 'V' && t[0] != 'K'
    ensures ParseOne(t) == ParseLong(t)
  {
    if Verb(t).Some? {
      WordShapes(t);
    }
    LongIsRead(t);
  }

  /** The two letters in front of an id that stands alone. */
  function TargetLetters(c: Control): (char, char)
    requires c.ShowBoard? || c.Analytics? || c.StartProgram? || c.StartProgramNow? || c.Show?
  {
    match c
    case ShowBoard(_) => ('G', 'B')
    case Analytics(_) => ('G', 'A')
    case StartProgram(_) => ('R', 'P')
    case StartProgramNow(_) => ('R', 'N')
    case Show(_) => ('S', 'H')
  }

  lemma TargetIsParsed(c: Control, t: string)
    requires c.ShowBoard? || c.Analytics? || c.StartProgram? || c.StartProgramNow? || (c.Show? && c.task.Some?)
    requires |t| == 8 && (t[0], t[1]) == TargetLetters(c)
    requires IdFrom(t[2..]) == Some(if c.Show? then c.task.value else c.id)
    ensures ParseLong(t) == Some(c)
  {
  }

  lemma TargetedToken(c: Control) returns (t: string)
    requires c.ShowBoard? || c.Analytics? || c.StartProgram? || c.StartProgramNow? || (c.Show? && c.task.Some?)
    ensures t == EncodeOne(c) && IsPlain(t) && |t| == 8 && ParseLong(t) == Some(c)
    ensures t[0] in "GRS"
  {
    var id := if c.Show? then c.task.value else c.id;
    var (a, b) := TargetLetters(c);
    t := [a, b] + id;
    assert [a, b][0] == a && [a, b][1] == b;
    IdIsPlain(id);
    assert t[2..] == id;
    TargetIsParsed(c, t);
    TargetEncodes(c, id);
  }

  lemma TargetEncodes(c: Control, id: ShortId)
    requires c.ShowBoard? || c.Analytics? || c.StartProgram? || c.StartProgramNow? || (c.Show? && c.task.Some?)
    requires id == if c.Show? then c.task.value else c.id
    ensures var (a, b) := TargetLetters(c); EncodeOne(c) == [a, b] + id
  {
    match c {
      case ShowBoard(_) => assert "GB" == ['G', 'B'];
      case Analytics(_) => assert "GA" == ['G', 'A'];
      case StartProgram(_) => assert "RP" == ['R', 'P'];
      case StartProgramNow(_) => assert "RN" == ['R', 'N'];
      case Show(_) => assert "SH" == ['S', 'H'];
    }
  }

  lemma TemplateText(asks: bool, id: ShortId, col: ColumnRef) returns (t: string)
    ensures t == (if asks then "NA" else "NT") + id + [ColumnCode(col)]
    ensures IsPlain(t) && |t| == 9 && t[0] == 'N' && t[1] == if asks then 'A' else 'T'
    ensures t[2..8] == id && t[8] == ColumnCode(col)
  {
    t := (if asks then "NA" else "NT") + id + [ColumnCode(col)];
    IdIsPlain(id);
    ColumnRoundTrips(col);
    assert [ColumnCode(col)][0] == ColumnCode(col);
  }

  lemma TemplateToken(c: Control) returns (t: string)
    requires c.NewFromTemplate? || c.NewFromTemplateAsk?
    ensures t == EncodeOne(c) && IsPlain(t) && |t| == 9 && t[0] == 'N'
    ensures ParseLong(t) == Some(c) <==> Canonical(c)
  {
    t := TemplateText(c.NewFromTemplateAsk?, c.id, c.column);
    TemplateIsParsed(c, t);
  }

  lemma TemplateIsParsed(c: Control, t: string)
    requires c.NewFromTemplate? || c.NewFromTemplateAsk?
    requires |t| == 9 && t[0] == 'N' && t[1] == (if c.NewFromTemplateAsk? then 'A' else 'T')
    requires t[2..8] == c.id && t[8] == ColumnCode(c.column)
    ensures ParseLong(t) == Some(c) <==> Canonical(c)
  {
    IdIsPlain(c.id);
    ColumnRoundTrips(c.column);
    assert ParseLong(t) == ParseTemplate(t);
  }

  lemma MoveToRoundTrip(c: Control)
    requires c.MoveTo? && c.to.Some?
    ensures ParseOne(EncodeOne(c)) == Some(c) <==> Canonical(c)
    ensures IsPlain(EncodeOne(c))
  {
    var t := EncodeOne(c);
    ColumnRoundTrips(c.to.value);
    assert [ColumnCode(c.to.value)][0] == ColumnCode(c.to.value);
    assert IsPlain(t);
    if Verb(t).Some? {
      WordShapes(t);
    }
    LongIsRead(t);
  }

  lemma PrintRoundTrip(c: Control)
    requires c.PrintSlip?
    ensures ParseOne(EncodeOne(c)) == Some(c) && IsPlain(EncodeOne(c))
  {
    SlipRoundTrips(c.slip);
    var code := SlipCode(c.slip);
    var t := ['P', code];
    assert EncodeOne(c) == t;
    PrintTokenIsRead(t, c.slip);
  }

  lemma SlipRoundTrips(s: SlipChoice)
    ensures SlipFrom(SlipCode(s)) == Some(s) && SlipCode(s) in "RFPC"
  {
    assert "RFPC"[0] == 'R' && "RFPC"[1] == 'F' && "RFPC"[2] == 'P' && "RFPC"[3] == 'C';
  }

  lemma PrintTokenIsRead(t: string, s: SlipChoice)
    requires |t| == 2 && t[0] == 'P' && t[1] in "RFPC" && SlipFrom(t[1]) == Some(s)
    ensures ParseOne(t) == Some(PrintSlip(s)) && IsPlain(t)
  {
    if Verb(t).Some? {
      WordShapes(t);
    }
    LongIsRead(t);
  }

  lemma FieldRoundTrips(f: Field)
    ensures FieldFrom(FieldCode(f)) == Some(f) <==> (f.ChecklistItem? ==> 1 <= f.n <= 9)
    ensures IsPlain(FieldCode(f)) && 1 <= |FieldCode(f)| <= 2 && FieldCode(f)[0] !in "HE"
    ensures FieldCode(f)[0] == 'T' ==> |FieldCode(f)| == 1
  {
    var s := FieldCode(f);
    assert s[0] == s[0];
    assert |s| > 1 ==> s[1] == s[1];
  }

  lemma SetRoundTrip(c: Control)
    requires c.Set?
    ensures ParseOne(EncodeOne(c)) == Some(c) <==> Canonical(c)
    ensures IsPlain(EncodeOne(c))
  {
    var t := EncodeOne(c);
    FieldRoundTrips(c.field);
    var code := FieldCode(c.field);
    assert t[1..] == code && t[1] == code[0];
    assert IsPlain(t);
    if Verb(t).Some? {
      WordShapes(t);
    }
    LongIsRead(t);
  }

  lemma KeyRoundTrips(k: NamedKey)
    ensures KeyFrom(KeyCode(k)) == if k.F? && !(1 <= k.n <= 12) then None else Some(k)
    ensures IsPlain(KeyCode(k)) && KeyCode(k) != ""
    ensures !k.F? ==> |KeyCode(k)| == 1 && KeyCode(k)[0] != 'F'
  {
    var s := KeyCode(k);
    assert s[0] == s[0];
    if k.F? {
      DecimalIsPlain(k.n);
      PrintedNumberIsRead(k.n, 255);
      assert s[1..] == Decimal(k.n);
    }
  }

  /** Keys come in as `X` and what follows. */
  lemma KeyCommandIsRead(rest: string)
    requires IsPlain(rest) && rest != ""
    ensures IsPlain("X" + rest) && ParseOne("X" + rest) == ParseKey(rest)
  {
    var t := "X" + rest;
    assert t[1..] == rest;
    if Verb(t).Some? {
      WordShapes(t);
    }
    LongIsRead(t);
  }

  lemma NamedRoundTrip(c: Control)
    requires c.Named?
    ensures ParseOne(EncodeOne(c)) == Some(c) <==> Canonical(c)
    ensures IsPlain(EncodeOne(c))
  {
    var rest := KeyCode(c.key);
    KeyRoundTrips(c.key);
    KeyCommandIsRead(rest);
  }

  lemma TimesText(key: NamedKey, times: U8) returns (t: string)
    ensures t == "X" + KeyCode(key) + Decimal(times) && IsPlain(t)
    ensures ParseOne(t) == Some(NamedTimes(key, times)) <==> !key.F? && 1 <= times <= 99
  {
    var code, count := KeyCode(key), Decimal(times);
    var rest := code + count;
    KeyRoundTrips(key);
    DecimalIsPlain(times);
    assert IsPlain(rest);
    KeyCommandIsRead(rest);
    t := "X" + rest;
    assert t == "X" + code + count;
    PrintedNumberIsRead(times, 255);
    if key.F? {
      assert rest[0] == 'F' && rest[..1] == "F";
      assert KeyFrom("F") == None by { assert "F"[1..] == ""; }
    } else {
      assert rest[..1] == code && rest[1..] == count;
      assert |rest| > 1 && KeyFrom(rest) == None;
    }
  }

  lemma NamedTimesRoundTrip(c: Control)
    requires c.NamedTimes?
    ensures ParseOne(EncodeOne(c)) == Some(c) <==> Canonical(c)
    ensures IsPlain(EncodeOne(c))
  {
    var t := TimesText(c.key, c.times);
  }

  /** One command is read back as itself exactly when it is canonical. */
  lemma OneRoundTrips(c: Control)
    ensures ParseOne(EncodeOne(c)) == Some(c) <==> Canonical(c)
    ensures c.Press? || (c.Give? && c.value.FreeText?) || IsPlain(EncodeOne(c))
  {
    if IsMoveWord(c) || IsTaskWord(c) || IsScreenWord(c) || IsValueWord(c) {
      WordEncodings(c);
      if IsMoveWord(c) { MoveWords(c); }
      else if IsTaskWord(c) { TaskWords(c); }
      else if IsScreenWord(c) { ScreenWords(c); }
      else { ValueWords(c); }
      WordIsRead(EncodeOne(c), c);
    } else {
      match c {
        case MoveTo(_) => MoveToRoundTrip(c);
        case PrintSlip(_) => PrintRoundTrip(c);
        case Set(_) => SetRoundTrip(c);
        case Named(_) => NamedRoundTrip(c);
        case NamedTimes(_, _) => NamedTimesRoundTrip(c);
        case NewFromTemplate(_, _) => var t := TemplateToken(c); LongTokenIsRead(t);
        case NewFromTemplateAsk(_, _) => var t := TemplateToken(c); LongTokenIsRead(t);
        case Give(Plus(_, _)) => var t := OffsetToken(c); OffsetIsRead(t);
        case Give(Minus(_, _)) => var t := OffsetToken(c); OffsetIsRead(t);
        case Give(FreeText(text)) => assert (TEXT + text)[|TEXT|..] == text;
        case Press(k) => assert "K" + [k] == ['K', k] && TEXT[0] == 'V';
        case _ => var t := TargetedToken(c); LongTokenIsRead(t);
      }
    }
  }
}
