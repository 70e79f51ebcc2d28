/** The check character of scanned payloads: ISO/IEC 7064:2003 MOD 37,36, a
    hybrid system. */
module Checksum {
  import opened Options
  import opened Ids


  /** The doubling a running check goes through, modulo 37; never zero. */
  function Doubled(check: nat): (d: nat)
    requires check < 36
    ensures 1 <= d <= 36
  {
    if check == 0 then 35 else if check <= 18 then 2 * check else 2 * check - 37
  }

  /** The running check after one more value. */
  function Absorb(check: nat, v: nat): (r: nat)
    requires check < 36 && v < 36
    ensures r < 36
  {
    var sum := Doubled(check) + v;
    if sum < 36 then sum else sum - 36
  }

  /** The two steps above, in the standard's arithmetic. */
  lemma AbsorbIsModular(check: nat, v: nat)
    requires check < 36 && v < 36
    ensures var base := if check == 0 then 36 else check;
            Doubled(check) == (base * 2) % 37 && Absorb(check, v) == ((base * 2) % 37 + v) % 36
  {
  }

  predicate AllDigits(values: seq<nat>) {
    forall i :: 0 <= i < |values| ==> values[i] < 36
  }

  /** The running check after absorbing every value, from the standard's start. */
  function Running(values: seq<nat>): (check: nat)
    requires AllDigits(values)
    ensures check < 36
  {
    if values == [] then 18
    else Absorb(Running(values[..|values| - 1]), values[|values| - 1])
  }

  /** The loop the code runs. */
  method Compute(values: seq<nat>) returns (check: nat)
    requires AllDigits(values)
    ensures check == Running(values)
  {
    check := 18;
    for i := 0 to |values|
      invariant check == Running(values[..i])
    {
      assert values[..i + 1][..i] == values[..i];
      AbsorbIsModular(check, values[i]);
      var base := if check == 0 then 36 else check;
      check := ((base * 2) % 37 + values[i]) % 36;
    }
    assert values[..|values|] == values;
  }

  function Values(s: string): (r: seq<nat>)
    requires IsBase36(s)
    ensures |r| == |s| && AllDigits(r)
    ensures forall i :: 0 <= i < |s| ==> r[i] == DigitValue(s[i]).value
  {
    seq(|s|, i requires 0 <= i < |s| => DigitValue(s[i]).value)
  }

  /** The check character of a body; None outside base36. */
  function CheckChar(body: string): (r: Option<char>)
    ensures r.Some? <==> IsBase36(body)
    ensures r.Some? ==> DigitValue(r.value).Some? && Text.UpperChar(r.value) == r.value
  {
    if !IsBase36(body) then None
    else
      var d := Doubled(Running(Values(body)));
      Some(DigitChar(if d == 1 then 0 else 37 - d))
  }

  predicate Verify(withCheck: string) {
    IsBase36(withCheck) && withCheck != [] && Running(Values(withCheck)) == 1
  }

  lemma DoubledIsInjective(a: nat, b: nat)
    requires a < 36 && b < 36 && Doubled(a) == Doubled(b)
    ensures a == b
  {
  }

  lemma AbsorbIsInjective(a: nat, b: nat, v: nat, w: nat)
    requires a < 36 && b < 36 && v < 36 && w < 36
    ensures Absorb(a, v) == Absorb(b, v) <==> a == b
    ensures Absorb(a, v) == Absorb(a, w) <==> v == w
  {
    if Absorb(a, v) == Absorb(b, v) {
      DoubledIsInjective(a, b);
    }
  }

  /** A common tail neither separates nor joins two running checks. */
  lemma {:induction false} TailPreserves(a: seq<nat>, b: seq<nat>, tail: seq<nat>)
    requires AllDigits(a) && AllDigits(b) && AllDigits(tail)
    ensures AllDigits(a + tail) && AllDigits(b + tail)
    ensures Running(a + tail) == Running(b + tail) <==> Running(a) == Running(b)
    decreases |tail|
  {
    if tail == [] {
      assert a + tail == a && b + tail == b;
    } else {
      var n := |tail| - 1;
      TailPreserves(a, b, tail[..n]);
      assert (a + tail)[..|a + tail| - 1] == a + tail[..n];
      assert (b + tail)[..|b + tail| - 1] == b + tail[..n];
      AbsorbIsInjective(Running(a + tail[..n]), Running(b + tail[..n]), tail[n], 0);
    }
  }

  lemma ValuesOfConcat(a: string, b: string)
    requires IsBase36(a) && IsBase36(b)
    ensures IsBase36(a + b) && Values(a + b) == Values(a) + Values(b)
  {
  }

  lemma RunningOfPush(values: seq<nat>, v: nat)
    requires AllDigits(values) && v < 36
    ensures AllDigits(values + [v])
    ensures Running(values + [v]) == Absorb(Running(values), v)
  {
    assert (values + [v])[..|values|] == values;
  }

  /** The check character completes its body, and only characters of the same
      value do. */
  lemma CheckCharCompletes(body: string, c: char)
    requires IsBase36(body)
    ensures Verify(body + [c]) <==> DigitValue(c) == DigitValue(CheckChar(body).value)
  {
    var check := CheckChar(body).value;
    var r := Running(Values(body));
    ValuesOfConcat(body, [check]);
    RunningOfPush(Values(body), DigitValue(check).value);
    assert Values(body + [check]) == Values(body) + [DigitValue(check).value];
    assert Absorb(r, DigitValue(check).value) == 1;
    if DigitValue(c).Some? {
      ValuesOfConcat(body, [c]);
      assert Values(body + [c]) == Values(body) + [DigitValue(c).value];
      RunningOfPush(Values(body), DigitValue(c).value);
      AbsorbIsInjective(r, r, DigitValue(c).value, DigitValue(check).value);
    } else {
      assert (body + [c])[|body|] == c;
    }
  }

  /** Every single character substitution is caught, wherever it falls. */
  lemma SubstitutionIsCaught(s: string, i: nat, c: char)
    requires i < |s| && Verify(s) && DigitValue(c) != DigitValue(s[i])
    ensures !Verify(s[i := c])
  {
    var t := s[i := c];
    if IsBase36(t) {
      assert t[i] == c;
      var head, tail := Values(s)[..i], Values(s)[i + 1..];
      var v, w := DigitValue(s[i]).value, DigitValue(c).value;
      assert Values(s) == (head + [v]) + tail;
      assert Values(t) == (head + [w]) + tail;
      RunningOfPush(head, v);
      RunningOfPush(head, w);
      AbsorbIsInjective(Running(head), Running(head), v, w);
      TailPreserves(head + [v], head + [w], tail);
    }
  }

  /** Two different running checks agree again after absorbing each other's
      digit exactly when they are 18 and 19. */
  lemma SwapCollision(check: nat, v: nat, w: nat)
    requires check < 36 && v < 36 && w < 36 && v != w
    ensures Absorb(Absorb(check, v), w) == Absorb(Absorb(check, w), v)
        <==> {Absorb(check, v), Absorb(check, w)} == {18, 19}
  {
    var x, y := Absorb(check, v), Absorb(check, w);
    AbsorbIsInjective(check, check, v, w);
    SameDrift(x, y);
    DriftIs(x);
    DriftIs(y);
  }

  /** How far the doubling moves a check, modulo 36. */
  function Drift(x: nat): (g: nat)
    requires x < 36
    ensures g < 36
  {
    if Doubled(x) >= x + 36 then Doubled(x) - x - 36
    else if Doubled(x) >= x then Doubled(x) - x
    else Doubled(x) + 36 - x
  }

  lemma DriftIs(x: nat)
    requires x < 36
    ensures Drift(x) == if x == 0 then 35 else if x <= 18 then x else x - 1
  {
  }

  lemma SameDrift(x: nat, y: nat)
    requires x < 36 && y < 36 && x != y
    ensures Drift(x) == Drift(y) <==> {x, y} == {18, 19}
  {
    DriftIs(x);
    DriftIs(y);
    if {x, y} == {18, 19} {
      assert x in {18, 19} && y in {18, 19};
    }
    if Drift(x) == Drift(y) {
      assert (x == 18 && y == 19) || (x == 19 && y == 18);
    }
  }

  /** A swap of adjacent unequal digits goes unnoticed exactly when the running
      checks after absorbing one or the other first are 18 and 19. */
  lemma SwapIsMissedExactlyAt18And19(pre: string, a: char, b: char, post: string)
    requires IsBase36(pre + [a]) && IsBase36(pre + [b])
    requires DigitValue(a) != DigitValue(b)
    requires Verify(pre + [a, b] + post)
    ensures Verify(pre + [b, a] + post)
       <==> {Running(Values(pre + [a])), Running(Values(pre + [b]))} == {18, 19}
  {
    PartsAreBase36(pre, a, b, post);
    var p, tail := Values(pre), Values(post);
    var v, w := DigitValue(a).value, DigitValue(b).value;
    assert Values([a, b]) == [v, w] && Values([b, a]) == [w, v];
    SwappedRunning(pre, a, b, post, p, [v, w], tail);
    SwappedRunning(pre, b, a, post, p, [w, v], tail);
    TailPreserves(p + [v, w], p + [w, v], tail);
    RunningOfPair(p, v, w);
    RunningOfPair(p, w, v);
    SwapCollision(Running(p), v, w);
    RunningOfPush(p, v);
    RunningOfPush(p, w);
    assert Values(pre + [a]) == p + [v] && Values(pre + [b]) == p + [w];
  }

  lemma PartsAreBase36(pre: string, a: char, b: char, post: string)
    requires IsBase36(pre + [a, b] + post)
    ensures IsBase36(pre) && IsBase36([a, b]) && IsBase36([b, a]) && IsBase36(post)
    ensures DigitValue(a).Some? && DigitValue(b).Some?
  {
    var s := pre + [a, b] + post;
    assert forall i :: 0 <= i < |pre| ==> s[i] == pre[i];
    assert s[|pre|] == a && s[|pre| + 1] == b;
    assert forall i :: 0 <= i < |post| ==> s[|pre| + 2 + i] == post[i];
  }

  lemma SwappedRunning(pre: string, a: char, b: char, post: string, p: seq<nat>, mid: seq<nat>, tail: seq<nat>)
    requires IsBase36(pre) && IsBase36([a, b]) && IsBase36(post)
    requires p == Values(pre) && mid == Values([a, b]) && tail == Values(post)
    ensures IsBase36(pre + [a, b] + post) && Values(pre + [a, b] + post) == p + mid + tail
  {
    ValuesOfConcat(pre, [a, b]);
    ValuesOfConcat(pre + [a, b], post);
  }

  lemma RunningOfPair(values: seq<nat>, v: nat, w: nat)
    requires AllDigits(values) && v < 36 && w < 36
    ensures AllDigits(values + [v, w])
    ensures Running(values + [v, w]) == Absorb(Absorb(Running(values), v), w)
  {
    RunningOfPush(values, v);
    RunningOfPush(values + [v], w);
    assert values + [v] + [w] == values + [v, w];
  }
}
