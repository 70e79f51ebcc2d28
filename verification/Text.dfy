/** Characters and strings as the sources use them: ASCII case, the Unicode
    white space property, and trimming. */
module Text {
  /** The White_Space property, which `str::trim` and `split_whitespace` go by. */
  predicate IsBlank(c: char) {
    || '\U{9}' <= c <= '\U{D}'
    || c == ' ' || c == '\U{85}' || c == '\U{A0}' || c == '\U{1680}'
    || '\U{2000}' <= c <= '\U{200A}'
    || c == '\U{2028}' || c == '\U{2029}' || c == '\U{202F}' || c == '\U{205F}' || c == '\U{3000}'
  }

  predicate IsDigit(c: char) {
    '0' <= c <= '9'
  }

  function UpperChar(c: char): char {
    if 'a' <= c <= 'z' then (c as int - 32) as char else c
  }

  function LowerChar(c: char): char {
    if 'A' <= c <= 'Z' then (c as int + 32) as char else c
  }

  function Upper(s: string): (r: string)
    ensures |r| == |s| && forall i :: 0 <= i < |s| ==> r[i] == UpperChar(s[i])
  {
    seq(|s|, i requires 0 <= i < |s| => UpperChar(s[i]))
  }

  function Lower(s: string): (r: string)
    ensures |r| == |s| && forall i :: 0 <= i < |s| ==> r[i] == LowerChar(s[i])
  {
    seq(|s|, i requires 0 <= i < |s| => LowerChar(s[i]))
  }

  function TrimStart(s: string): (r: string)
    ensures r != [] ==> !IsBlank(r[0])
    ensures r != [] && s != [] && !IsBlank(s[|s| - 1]) ==> r[|r| - 1] == s[|s| - 1]
  {
    if s == [] || !IsBlank(s[0]) then s else TrimStart(s[1..])
  }

  function TrimEnd(s: string): (r: string)
    ensures r <= s
    ensures r != [] ==> !IsBlank(r[|r| - 1])
  {
    if s == [] || !IsBlank(s[|s| - 1]) then s else TrimEnd(s[..|s| - 1])
  }

  function Trim(s: string): (r: string)
    ensures r != [] ==> !IsBlank(r[0]) && !IsBlank(r[|r| - 1])
  {
    TrimEnd(TrimStart(s))
  }

  predicate AllBlank(s: string) {
    forall c :: c in s ==> IsBlank(c)
  }

  /** Trimming takes blanks off both ends, and all of them. */
  lemma {:induction false} TrimTakesBlanks(s: string) returns (a: string, b: string)
    ensures s == a + Trim(s) + b && AllBlank(a) && AllBlank(b)
  {
    a := StartBlanks(s);
    b := EndBlanks(TrimStart(s));
    assert a + (Trim(s) + b) == a + Trim(s) + b;
  }

  lemma {:induction false} StartBlanks(s: string) returns (a: string)
    ensures s == a + TrimStart(s) && AllBlank(a)
  {
    a := "";
    if s != [] && IsBlank(s[0]) {
      a := StartBlanks(s[1..]);
      assert s == [s[0]] + (a + TrimStart(s[1..]));
      a := [s[0]] + a;
    }
  }

  lemma {:induction false} EndBlanks(s: string) returns (b: string)
    ensures s == TrimEnd(s) + b && AllBlank(b)
  {
    b := "";
    if s != [] && IsBlank(s[|s| - 1]) {
      b := EndBlanks(s[..|s| - 1]);
      assert s == (TrimEnd(s[..|s| - 1]) + b) + [s[|s| - 1]];
      b := b + [s[|s| - 1]];
    }
  }

  /** A string with no blank at either end is its own trim. */
  lemma TrimKeeps(s: string)
    requires s != [] ==> !IsBlank(s[0]) && !IsBlank(s[|s| - 1])
    ensures Trim(s) == s
  {
  }

  /** Comparing without regard to ASCII case, as `eq_ignore_ascii_case`. */
  predicate SameButCase(a: string, b: string) {
    Lower(a) == Lower(b)
  }
}
