/** The base36 alphabet and the six character short ids printed in barcodes. */
module Ids {
  import opened Options
  import opened Text

  type TaskId = int

  const ID_LEN := 6
  /** Number of distinct short ids. */
  const SPACE := 36 * 36 * 36 * 36 * 36 * 36

  /** What a digit stands for, in either case. */
  function DigitValue(c: char): (r: Option<nat>)
    ensures r.Some? ==> r.value < 36
  {
    if '0' <= c <= '9' then Some(c as int - '0' as int)
    else if 'A' <= c <= 'Z' then Some(c as int - 'A' as int + 10)
    else if 'a' <= c <= 'z' then Some(c as int - 'a' as int + 10)
    else None
  }

  /** The uppercase digit of a value below 36. */
  function DigitChar(v: nat): (c: char)
    requires v < 36
    ensures DigitValue(c) == Some(v) && UpperChar(c) == c
  {
    if v < 10 then ('0' as int + v) as char else ('A' as int + v - 10) as char
  }

  lemma DigitOfValue(c: char)
    requires DigitValue(c).Some?
    ensures DigitChar(DigitValue(c).value) == UpperChar(c)
    ensures DigitValue(UpperChar(c)) == DigitValue(c)
  {
  }

  predicate IsBase36(s: string) {
    forall i :: 0 <= i < |s| ==> DigitValue(s[i]).Some?
  }

  /** Uppercase base36 digits only. */
  predicate IsUpper36(s: string) {
    IsBase36(s) && Upper(s) == s
  }

  predicate IsShortId(s: string) {
    |s| == ID_LEN && IsUpper36(s)
  }

  type ShortId = s: string | IsShortId(s) witness "000000"

  /** The number a string of base36 digits spells. */
  function Number(s: string): nat
    requires IsBase36(s)
  {
    if s == [] then 0
    else Number(s[..|s| - 1]) * 36 + DigitValue(s[|s| - 1]).value
  }

  function Power(e: nat): (p: nat)
    ensures p > 0
  {
    if e == 0 then 1 else 36 * Power(e - 1)
  }

  lemma Shift(v: nat, p: nat, m: nat)
    ensures (v * p + m) * 36 == v * (36 * p) + m * 36
  {
    assert (v * p) * 36 == v * (36 * p);
  }

  /** A leading digit weighs as many places as follow it. */
  lemma {:induction false} NumberOfCons(d: char, s: string)
    requires DigitValue(d).Some? && IsBase36(s)
    ensures IsBase36([d] + s)
    ensures Number([d] + s) == DigitValue(d).value * Power(|s|) + Number(s)
    decreases |s|
  {
    var all := [d] + s;
    if s == [] {
      assert all[..0] == [];
    } else {
      var init := s[..|s| - 1];
      assert all[..|all| - 1] == [d] + init;
      NumberOfCons(d, init);
      assert Number(all) == Number([d] + init) * 36 + DigitValue(s[|s| - 1]).value;
      Shift(DigitValue(d).value, Power(|init|), Number(init));
    }
  }

  lemma {:induction false} NumberBelowPower(s: string)
    requires IsBase36(s)
    ensures Number(s) < Power(|s|)
  {
    if s != [] {
      NumberBelowPower(s[..|s| - 1]);
    }
  }

  /** Equal length uppercase strings that spell the same number are equal, so
      an id's number identifies it. */
  lemma {:induction false} NumberIdentifies(a: string, b: string)
    requires IsUpper36(a) && IsUpper36(b) && |a| == |b|
    requires Number(a) == Number(b)
    ensures a == b
  {
    if a != [] {
      var n := |a| - 1;
      NumberSplit(a);
      NumberSplit(b);
      assert IsUpper36(a[..n]) && IsUpper36(b[..n]);
      NumberIdentifies(a[..n], b[..n]);
      assert a == a[..n] + [a[n]] && b == b[..n] + [b[n]];
    }
  }

  lemma NumberSplit(s: string)
    requires IsUpper36(s) && s != []
    ensures Number(s) / 36 == Number(s[..|s| - 1])
    ensures DigitChar(Number(s) % 36) == s[|s| - 1]
  {
    var last := s[|s| - 1];
    DigitOfValue(last);
    assert UpperChar(last) == last;
    var q, v := Number(s[..|s| - 1]), DigitValue(last).value;
    assert Number(s) == q * 36 + v;
  }

  lemma SpaceIsSixPlaces()
    ensures Power(ID_LEN) == SPACE
  {
    assert Power(1) == 36 && Power(2) == 36 * Power(1) && Power(3) == 36 * Power(2);
    assert Power(4) == 36 * Power(3) && Power(5) == 36 * Power(4) && Power(6) == 36 * Power(5);
  }

  /** The inverse of `FromIndex`. */
  function Index(id: ShortId): (n: nat)
    ensures n < SPACE
  {
    NumberBelowPower(id);
    SpaceIsSixPlaces();
    Number(id)
  }

  /** `n` and the digits already written to its right spell `total`. */
  predicate Spells(n: nat, digits: string, total: nat) {
    IsUpper36(digits) && n * Power(|digits|) + Number(digits) == total
  }

  lemma Regroup(n: nat, p: nat, more: nat)
    requires more == 36 * p
    ensures n * p == (n / 36) * more + (n % 36) * p
  {
    var q, d := n / 36, n % 36;
    assert n == q * 36 + d;
    assert (q * 36 + d) * p == (q * 36) * p + d * p;
    assert (q * 36) * p == q * (36 * p);
  }

  /** Moving the last place of `n` in front of the digits already written
      changes nothing. */
  lemma PlaceStep(n: nat, digits: string, total: nat)
    requires Spells(n, digits, total)
    ensures Spells(n / 36, [DigitChar(n % 36)] + digits, total)
  {
    NumberOfCons(DigitChar(n % 36), digits);
    Regroup(n, Power(|digits|), Power(|digits| + 1));
  }

  lemma AllPlacesWritten(n: nat, digits: string, total: nat)
    requires Spells(n, digits, total) && |digits| == ID_LEN && total < SPACE
    ensures Number(digits) == total
  {
    SpaceIsSixPlaces();
    assert n > 0 ==> n * SPACE >= SPACE;
  }

  /** The id a number spells, the number taken modulo the space; by
      `NumberIdentifies` it is the only such id. */
  method FromIndex(index: nat) returns (id: ShortId)
    ensures Index(id) == index % SPACE
  {
    var n := index % SPACE;
    var out := new char[ID_LEN];
    var slot := ID_LEN;
    ghost var digits := "";
    while slot > 0
      invariant 0 <= slot <= ID_LEN == out.Length && n >= 0
      invariant digits == out[slot..]
      invariant Spells(n, digits, index % SPACE)
    {
      PlaceStep(n, digits, index % SPACE);
      digits := [DigitChar(n % 36)] + digits;
      slot := slot - 1;
      out[slot] := DigitChar(n % 36);
      n := n / 36;
    }
    AllPlacesWritten(n, digits, index % SPACE);
    assert digits == out[..];
    id := out[..];
  }

  datatype IdError = WrongLength(got: nat) | BadChar(c: char)

  function BadDigit(s: string): (r: Option<char>)
    ensures r.None? <==> IsBase36(s)
  {
    if s == [] then None
    else if DigitValue(s[0]).None? then Some(s[0])
    else
      assert s == [s[0]] + s[1..];
      BadDigit(s[1..])
  }

  /** A bad character among the first six is reported before the length. */
  function ParseId(s: string): (r: Result<ShortId, IdError>)
    ensures r.Ok? <==> |s| == ID_LEN && IsBase36(s)
    ensures r.Ok? ==> r.value == Upper(s)
  {
    match BadDigit(s[..if |s| < ID_LEN then |s| else ID_LEN])
    case Some(c) => Err(BadChar(c))
    case None =>
      if |s| != ID_LEN then Err(WrongLength(|s|))
      else
        assert s[..ID_LEN] == s;
        UpperIsUpper36(s);
        Ok(Upper(s))
  }

  lemma UpperIsUpper36(s: string)
    requires IsBase36(s)
    ensures IsUpper36(Upper(s))
  {
    forall i | 0 <= i < |s| ensures DigitValue(Upper(s)[i]).Some? && UpperChar(Upper(s)[i]) == Upper(s)[i] {
      DigitOfValue(s[i]);
    }
  }

  lemma {:induction false} BadDigitAt(s: string, n: nat)
    requires n < |s| && IsBase36(s[..n])
    ensures DigitValue(s[n]).None? ==> BadDigit(s) == Some(s[n])
    ensures IsBase36(s[..n + 1]) <==> DigitValue(s[n]).Some?
  {
    if n > 0 {
      assert DigitValue(s[..n][0]).Some?;
      assert s[..n][1..] == s[1..][..n - 1];
      BadDigitAt(s[1..], n - 1);
      assert forall i :: 0 <= i < n ==> DigitValue(s[..n][i]).Some?;
    }
  }

  /** Reads an id digit by digit into its six places. */
  method ReadId(s: string) returns (r: Result<ShortId, IdError>)
    ensures r == ParseId(s)
  {
    var out := new char[ID_LEN];
    var n := 0;
    ghost var six := s[..if |s| < ID_LEN then |s| else ID_LEN];
    while n < |s|
      invariant 0 <= n <= |six|
      invariant IsBase36(s[..n])
      invariant out[..n] == Upper(s[..n])
    {
      if n == ID_LEN {
        return Err(WrongLength(|s|));
      }
      assert six[..n] == s[..n] && six[..n + 1] == s[..n + 1];
      BadDigitAt(six, n);
      match DigitValue(s[n])
      case None => return Err(BadChar(s[n]));
      case Some(v) =>
        DigitOfValue(s[n]);
        out[n] := DigitChar(v);
        n := n + 1;
    }
    assert s[..n] == s;
    if n != ID_LEN {
      return Err(WrongLength(n));
    }
    UpperIsUpper36(s);
    assert out[..n] == out[..];
    return Ok(out[..]);
  }
}
