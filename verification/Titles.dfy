/** Titles of tasks: what is too long, and what a fan-out entry makes of one. */
module Titles {
  import opened Options
  import opened Text

  const MAX_TITLE_CHARS := 200
  const PARAM := "{param}"

  datatype TitleError = EmptyTitle | TitleTooLong

  /** What is wrong with a title, blanks around it aside. */
  function Fault(title: string): Option<TitleError> {
    if Trim(title) == "" then Some(EmptyTitle)
    else if |Trim(title)| > MAX_TITLE_CHARS then Some(TitleTooLong)
    else None
  }

  predicate TitleOk(title: string) {
    Fault(title).None?
  }

  predicate HasParam(s: string) {
    |s| >= |PARAM| && (PARAM <= s || HasParam(s[1..]))
  }

  /** Every placeholder replaced, from the left. */
  function Replaced(s: string, p: string): string {
    if |s| < |PARAM| then s
    else if PARAM <= s then p + Replaced(s[|PARAM|..], p)
    else [s[0]] + Replaced(s[1..], p)
  }

  /** The title of a task made for an entry, or for none: a title that does not
      say where the entry goes has it at its end. */
  function Filled(title: string, param: Option<string>): string {
    var base := Trim(title);
    match param
    case None => base
    case Some(p) => if HasParam(base) then Replaced(base, p) else base + " " + p
  }

  // What filling does.

  /** Texts with the same text between each two. */
  function Joined(parts: seq<string>, sep: string): string {
    if parts == [] then ""
    else if |parts| == 1 then parts[0]
    else parts[0] + sep + Joined(parts[1..], sep)
  }

  /** A title is made up of parts without a placeholder, and placeholders between
      them: it is filled by putting the entry in place of each of these. */
  lemma {:induction false} EveryPlaceIsFilled(parts: seq<string>, p: string)
    requires parts != [] && forall i :: 0 <= i < |parts| ==> !HasParam(parts[i])
    ensures Replaced(Joined(parts, PARAM), p) == Joined(parts, p)
    ensures HasParam(Joined(parts, PARAM)) <==> |parts| > 1
  {
    if |parts| == 1 {
      NothingIsFilled(parts[0], p);
    } else {
      EveryPlaceIsFilled(parts[1..], p);
      FirstIsFilled(parts[0], Joined(parts[1..], PARAM), p);
    }
  }

  lemma {:induction false} NothingIsFilled(s: string, p: string)
    requires !HasParam(s)
    ensures Replaced(s, p) == s
  {
    if |s| >= |PARAM| {
      NothingIsFilled(s[1..], p);
    }
  }

  lemma {:induction false} FirstIsFilled(part: string, rest: string, p: string)
    requires !HasParam(part)
    ensures Replaced(part + PARAM + rest, p) == part + p + Replaced(rest, p) && HasParam(part + PARAM + rest)
  {
    var s := part + PARAM + rest;
    if part == "" {
      assert s == PARAM + rest && s[|PARAM|..] == rest;
    } else {
      NoneAcross(part, rest);
      assert s[1..] == part[1..] + PARAM + rest;
      NoneInTail(part);
      FirstIsFilled(part[1..], rest, p);
      assert Replaced(s, p) == [s[0]] + Replaced(s[1..], p);
      assert [part[0]] + part[1..] == part;
    }
  }

  lemma NoneInTail(part: string)
    requires part != "" && !HasParam(part)
    ensures !HasParam(part[1..])
  {
  }

  /** No placeholder begins in a part and ends behind it: its first character is
      none of its others. */
  lemma NoneAcross(part: string, rest: string)
    requires part != "" && !HasParam(part)
    ensures !(PARAM <= part + PARAM + rest)
  {
    var s, k := part + PARAM + rest, |part|;
    assert s[k] == PARAM[0] == '{';
    if k >= |PARAM| {
      assert part[..|PARAM|] == s[..|PARAM|];
    } else {
      assert PARAM[k] != '{';
    }
  }

  /** Every title is so made up, in one way. */
  lemma {:induction false} PartsOf(s: string) returns (parts: seq<string>)
    ensures parts != [] && Joined(parts, PARAM) == s && forall i :: 0 <= i < |parts| ==> !HasParam(parts[i])
    decreases |s|
  {
    if !HasParam(s) {
      parts := [s];
    } else {
      var k := FirstPlace(s);
      parts := PartsOf(s[k + |PARAM|..]);
      assert s == s[..k] + PARAM + s[k + |PARAM|..];
      assert ([s[..k]] + parts)[1..] == parts;
      parts := [s[..k]] + parts;
    }
  }

  lemma {:induction false} FirstPlace(s: string) returns (k: nat)
    requires HasParam(s)
    ensures k + |PARAM| <= |s| && s[k..k + |PARAM|] == PARAM && !HasParam(s[..k])
  {
    if PARAM <= s {
      k := 0;
    } else {
      k := FirstPlace(s[1..]);
      assert s[1..][k..k + |PARAM|] == s[k + 1..k + 1 + |PARAM|];
      assert s[..k + 1][1..] == s[1..][..k];
      assert PARAM <= s[..k + 1] ==> PARAM <= s;
      k := k + 1;
    }
  }

  // Which titles some entry fits.

  lemma {:induction false} ReplacedIsShorter(s: string, c: char)
    ensures |Replaced(s, [c])| <= |s|
    ensures HasParam(s) ==> |Replaced(s, [c])| < |s| && c in Replaced(s, [c])
  {
    if |s| >= |PARAM| {
      if PARAM <= s {
        ReplacedIsShorter(s[|PARAM|..], c);
      } else {
        ReplacedIsShorter(s[1..], c);
      }
    }
  }

  lemma {:induction false} TrimIsShorter(s: string)
    ensures |Trim(s)| <= |s|
  {
    TrimStartIsShorter(s);
  }

  lemma {:induction false} TrimStartIsShorter(s: string)
    ensures |TrimStart(s)| <= |s|
  {
    if s != [] && IsBlank(s[0]) {
      TrimStartIsShorter(s[1..]);
    }
  }

  lemma {:induction false} TrimStartKeeps(s: string, c: char)
    requires !IsBlank(c)
    ensures c in TrimStart(s) <==> c in s
  {
    if s != [] && IsBlank(s[0]) {
      assert s == [s[0]] + s[1..];
      TrimStartKeeps(s[1..], c);
    }
  }

  lemma {:induction false} TrimEndKeeps(s: string, c: char)
    requires !IsBlank(c)
    ensures c in TrimEnd(s) <==> c in s
  {
    if s != [] && IsBlank(s[|s| - 1]) {
      assert s == s[..|s| - 1] + [s[|s| - 1]];
      TrimEndKeeps(s[..|s| - 1], c);
    }
  }

  /** Trimming keeps every character that is not blank. */
  lemma TrimKeepsChar(s: string, c: char)
    requires !IsBlank(c)
    ensures c in Trim(s) <==> c in s
  {
    TrimStartKeeps(s, c);
    TrimEndKeeps(TrimStart(s), c);
  }

  /** Something is left of what was appended: trimming `base + rest` goes no
      further than the last character that is not blank. */
  lemma {:induction false} TrimEndReaches(s: string, i: nat)
    requires i < |s| && !IsBlank(s[i])
    ensures |TrimEnd(s)| > i
  {
    if IsBlank(s[|s| - 1]) {
      TrimEndReaches(s[..|s| - 1], i);
    }
  }

  /** Whether the title of a fan-out step leaves room for an entry. */
  predicate LeavesRoom(title: string) {
    HasParam(Trim(title)) || |Trim(title)| + 2 <= MAX_TITLE_CHARS
  }

  /** A title that leaves room fits the shortest entry. */
  lemma ShortEntryFits(title: string)
    requires TitleOk(title) && LeavesRoom(title)
    ensures TitleOk(Filled(title, Some("x")))
  {
    var base, filled := Trim(title), Filled(title, Some("x"));
    ReplacedIsShorter(base, 'x');
    TrimIsShorter(filled);
    assert 'x' in filled by {
      assert !HasParam(base) ==> filled[|base| + 1] == 'x';
    }
    TrimKeepsChar(filled, 'x');
  }

  /** One that does not fits no entry that is not blank. */
  lemma NoRoomNoFit(title: string, p: string)
    requires TitleOk(title) && !LeavesRoom(title) && Trim(p) != ""
    ensures Fault(Filled(title, Some(p))) == Some(TitleTooLong)
  {
    var base, filled := Trim(title), Filled(title, Some(p));
    var k := LastInk(p);
    assert filled[0] == base[0] && filled[|base| + 1 + k] == p[k];
    TrimEndReaches(filled, |base| + 1 + k);
  }

  lemma LastInk(p: string) returns (k: nat)
    requires Trim(p) != ""
    ensures k < |p| && !IsBlank(p[k])
  {
    var c := Trim(p)[0];
    TrimKeepsChar(p, c);
    k :| 0 <= k < |p| && p[k] == c;
  }

  /** So the room a title leaves is exact: some entry that is not blank fits it if
      and only if there is room. */
  lemma RoomIsExact(title: string)
    requires TitleOk(title)
    ensures (exists p :: Trim(p) != "" && TitleOk(Filled(title, Some(p)))) <==> LeavesRoom(title)
  {
    if LeavesRoom(title) {
      ShortEntryFits(title);
      TrimKeeps("x");
    }
    forall p | Trim(p) != "" && !LeavesRoom(title) ensures !TitleOk(Filled(title, Some(p))) {
      NoRoomNoFit(title, p);
    }
  }
}
