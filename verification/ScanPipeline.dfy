/** From paper to dispatch: the keystrokes a scanner types for a printed code,
    fed to a detector that is waiting for one. */
module ScanPipeline {
  import opened Options
  import opened Text
  import opened Barcode
  import opened Detector
  import opened DetectorLedger

  /** Keys typed at given readings of the clock. */
  function Pushes(keys: seq<Key>, ts: seq<nat>): (ops: seq<Op>)
    requires |keys| == |ts|
    ensures |ops| == |keys| && forall i :: 0 <= i < |keys| ==> ops[i] == Push(keys[i], ts[i])
  {
    seq(|keys|, i requires 0 <= i < |keys| => Push(keys[i], ts[i]))
  }

  /** Nothing to do, `n` times over. */
  function AllHeld(n: nat): (outs: seq<Output>)
    ensures |outs| == n
  {
    seq(n, _ => Fed(Held))
  }

  lemma RunOfPush(cfg: Config, s: State, keys: seq<Key>, ts: seq<nat>)
    requires |keys| == |ts| > 0
    ensures var (s1, fed) := PushStep(cfg, s, keys[0], ts[0]);
            var (s2, outs) := Run(cfg, s1, Pushes(keys[1..], ts[1..]));
            Run(cfg, s, Pushes(keys, ts)) == (s2, [Fed(fed)] + outs)
  {
    assert Pushes(keys, ts)[1..] == Pushes(keys[1..], ts[1..]);
  }

  /** A waiting detector, or one again waiting. */
  predicate Waiting(cfg: Config, s: State) {
    Consistent(cfg, s, []) && s.phase.Idle?
  }

  /** Feeding these keys dispatches `feed` with the last of them and nothing
      before, and leaves the detector waiting. */
  predicate Delivers(cfg: Config, s: State, keys: seq<Key>, ts: seq<nat>, feed: Feed)
    requires |keys| == |ts| > 0
  {
    var (s', outs) := Run(cfg, s, Pushes(keys, ts));
    outs == AllHeld(|ts| - 1) + [Fed(feed)] && Waiting(cfg, s') && s'.swallowEnter == cfg.enterTerminates
  }

  /** With one Enter more nothing else is dispatched: it is swallowed, or handed
      on where codes do not end in Enter. */
  predicate EndsQuietly(cfg: Config, s: State, keys: seq<Key>, ts: seq<nat>, last: nat, feed: Feed)
    requires |keys| == |ts| > 0
  {
    var (s', outs) := Run(cfg, s, Pushes(keys + [Enter], ts + [last]));
    && Dispatched(outs) == [feed] && Waiting(cfg, s')
    && |outs| == |ts| + 1
    && outs[|ts|] == Fed(if cfg.enterTerminates then Held else Pass([Enter]))
  }

  lemma {:induction false} RunOneMore(cfg: Config, s: State, ops: seq<DetectorLedger.Op>, op: DetectorLedger.Op)
    ensures var (s1, outs) := Run(cfg, s, ops);
            var (s2, out) := StepOf(cfg, s1, op);
            Run(cfg, s, ops + [op]) == (s2, outs + [out])
    decreases |ops|
  {
    if ops == [] {
      var out := StepOf(cfg, s, op).1;
      assert ops + [op] == [op] && [op][1..] == [] && [out] + [] == [] + [out];
    } else {
      var (s1, out) := StepOf(cfg, s, ops[0]);
      RunOneMore(cfg, s1, ops[1..], op);
      var (s2, rest) := Run(cfg, s1, ops[1..]);
      var last := StepOf(cfg, s2, op).1;
      assert (ops + [op])[0] == ops[0] && (ops + [op])[1..] == ops[1..] + [op];
      assert [out] + (rest + [last]) == ([out] + rest) + [last];
    }
  }

  lemma {:induction false} DispatchedConcat(a: seq<Output>, b: seq<Output>)
    ensures Dispatched(a + b) == Dispatched(a) + Dispatched(b)
  {
    if a == [] {
      assert a + b == b;
    } else {
      assert (a + b)[1..] == a[1..] + b;
      DispatchedConcat(a[1..], b);
    }
  }

  lemma {:induction false} HeldDispatchesNothing(n: nat)
    ensures Dispatched(AllHeld(n)) == []
  {
    if n > 0 {
      assert AllHeld(n)[1..] == AllHeld(n - 1);
      HeldDispatchesNothing(n - 1);
    }
  }

  lemma LastEnterIsQuiet(cfg: Config, s: State, keys: seq<Key>, ts: seq<nat>, last: nat, feed: Feed)
    requires |keys| == |ts| > 0 && Delivers(cfg, s, keys, ts, feed) && (feed.Scan? || feed.FrameRead?)
    ensures EndsQuietly(cfg, s, keys, ts, last, feed)
  {
    var ops := Pushes(keys, ts);
    var (s1, outs) := Run(cfg, s, ops);
    assert Pushes(keys + [Enter], ts + [last]) == ops + [Push(Enter, last)];
    RunOneMore(cfg, s, ops, Push(Enter, last));
    var end := Fed(if cfg.enterTerminates then Held else Pass([Enter]));
    assert StepOf(cfg, s1, Push(Enter, last)).1 == end;
    HeldDispatchesNothing(|ts| - 1);
    DispatchedConcat(AllHeld(|ts| - 1), [Fed(feed)]);
    DispatchedConcat(outs, [end]);
    assert Dispatched([Fed(feed)]) == [feed] && Dispatched([end]) == [] by {
      assert [Fed(feed)][1..] == [] && [end][1..] == [];
    }
  }

  lemma DeliversLast(cfg: Config, s: State, keys: seq<Key>, ts: seq<nat>, feed: Feed)
    requires |keys| == |ts| == 1
    requires var (s', fed) := PushStep(cfg, s, keys[0], ts[0]);
             fed == feed && Waiting(cfg, s') && s'.swallowEnter == cfg.enterTerminates
    ensures Delivers(cfg, s, keys, ts, feed)
  {
    RunOfPush(cfg, s, keys, ts);
    assert Pushes(keys[1..], ts[1..]) == [];
  }

  lemma DeliversMore(cfg: Config, s: State, keys: seq<Key>, ts: seq<nat>, s1: State, feed: Feed)
    requires |keys| == |ts| > 1
    requires PushStep(cfg, s, keys[0], ts[0]) == (s1, Held)
    requires Delivers(cfg, s1, keys[1..], ts[1..], feed)
    ensures Delivers(cfg, s, keys, ts, feed)
  {
    RunOfPush(cfg, s, keys, ts);
    assert [Fed(Held)] + (AllHeld(|ts| - 2) + [Fed(feed)]) == AllHeld(|ts| - 1) + [Fed(feed)];
  }

  /** The detector after the first `n` characters of a task code. */
  function Midway(cfg: Config, s: State, p: ScanPayload, n: nat, since: nat): State
    requires 0 < n < |cfg.prefix| + V1_LEN
  {
    var k := |cfg.prefix|;
    var phase :=
      if n < k then Prefix(n)
      else if n == k then PrefixDone
      else if n == k + 1 then HalfMagic
      else if n == k + 2 then Version
      else Collect(V1_LEN);
    State(
      phase,
      (cfg.prefix + MAGIC)[..if n < k + 2 then n else k + 2],
      if n <= k + 2 then "" else Encode(p)[2..n - k],
      Some(since), false, s.lastScan)
  }

  lemma FirstKey(cfg: Config, s: State, p: ScanPayload, t: nat)
    requires Waiting(cfg, s)
    ensures PushStep(cfg, s, Char((cfg.prefix + Encode(p))[0]), t) == (Midway(cfg, s, p, 1, t), Held)
  {
    var full := cfg.prefix + Encode(p);
    assert Encode(p)[0] == MAGIC[0] == MAGIC_CHAR;
    assert s.held + [full[0]] == (cfg.prefix + MAGIC)[..1];
  }

  lemma NextKey(cfg: Config, s: State, p: ScanPayload, n: nat, t0: nat, t: nat)
    requires 0 < n < |cfg.prefix| + V1_LEN - 1
    requires t <= t0 + cfg.timeout
    ensures PushStep(cfg, Midway(cfg, s, p, n, t0), Char((cfg.prefix + Encode(p))[n]), t)
         == (Midway(cfg, s, p, n + 1, t0), Held)
  {
    var k := |cfg.prefix|;
    var e := Encode(p);
    var c := (cfg.prefix + e)[n];
    var m := Midway(cfg, s, p, n, t0);
    assert ExpireStep(cfg, m, t) == (m, Nothing);
    EncodeIsPlain(p);
    if n < k + 2 {
      assert c == (cfg.prefix + MAGIC)[n] by { assert e[..2] == MAGIC; }
      assert m.held + [c] == (cfg.prefix + MAGIC)[..n + 1];
    } else {
      assert c == e[n - k] && UpperChar(c) == Upper(e)[n - k];
      assert e[2] == e[2..][0] == VERSION_1;
      assert e[2..n - k] + [c] == e[2..n - k + 1];
    }
  }

  lemma LastKey(cfg: Config, s: State, p: ScanPayload, t0: nat, t: nat)
    requires Printable(p.action) && t <= t0 + cfg.timeout
    ensures var n := |cfg.prefix| + V1_LEN - 1;
            var (s', fed) := PushStep(cfg, Midway(cfg, s, p, n, t0), Char((cfg.prefix + Encode(p))[n]), t);
            fed == Scan(Ok(p)) && Waiting(cfg, s') && s'.swallowEnter == cfg.enterTerminates
  {
    var e := Encode(p);
    var m := Midway(cfg, s, p, |cfg.prefix| + V1_LEN - 1, t0);
    var c := e[V1_LEN - 1];
    EncodeIsPlain(p);
    assert UpperChar(c) == Upper(e)[V1_LEN - 1] == c;
    assert ExpireStep(cfg, m, t) == (m, Nothing);
    assert (cfg.prefix + e)[|cfg.prefix| + V1_LEN - 1] == c;
    PrintedIsRead(p);
    CollectLast(cfg, m, c, t, e);
  }

  lemma CollectLast(cfg: Config, m: State, c: char, t: nat, e: string)
    requires m.phase == Collect(V1_LEN) && UpperChar(c) == c && |e| == V1_LEN && MAGIC <= e
    requires m.body == e[2..V1_LEN - 1] && c == e[V1_LEN - 1]
    ensures var (s', fed) := CharStep(cfg, m, c, t);
            fed == Scan(Parse(e)) && Waiting(cfg, s') && s'.swallowEnter == cfg.enterTerminates
  {
    assert m.body + [c] == e[2..];
    assert MAGIC + e[2..] == e;
  }

  lemma {:induction false} RestOfCode(cfg: Config, s: State, p: ScanPayload, n: nat, t0: nat, ts: seq<nat>)
    requires 0 < n < |cfg.prefix| + V1_LEN && |ts| == |cfg.prefix| + V1_LEN - n
    requires Printable(p.action) && forall i :: 0 <= i < |ts| ==> ts[i] <= t0 + cfg.timeout
    ensures Delivers(cfg, Midway(cfg, s, p, n, t0), AsKeys((cfg.prefix + Encode(p))[n..]), ts, Scan(Ok(p)))
    decreases |ts|
  {
    var full := cfg.prefix + Encode(p);
    var m := Midway(cfg, s, p, n, t0);
    if |ts| == 1 {
      LastKey(cfg, s, p, t0, ts[0]);
      DeliversLast(cfg, m, AsKeys(full[n..]), ts, Scan(Ok(p)));
    } else {
      NextKey(cfg, s, p, n, t0, ts[0]);
      RestOfCode(cfg, s, p, n + 1, t0, ts[1..]);
      DeliversFrom(cfg, m, Midway(cfg, s, p, n + 1, t0), full, n, ts, Scan(Ok(p)));
    }
  }

  lemma DeliversFrom(cfg: Config, m: State, m1: State, text: string, n: nat, ts: seq<nat>, feed: Feed)
    requires n < |text| && |ts| == |text| - n > 1
    requires PushStep(cfg, m, Char(text[n]), ts[0]) == (m1, Held)
    requires Delivers(cfg, m1, AsKeys(text[n + 1..]), ts[1..], feed)
    ensures Delivers(cfg, m, AsKeys(text[n..]), ts, feed)
  {
    assert AsKeys(text[n..])[1..] == AsKeys(text[n + 1..]);
    DeliversMore(cfg, m, AsKeys(text[n..]), ts, m1, feed);
  }

  /** A printed task code, typed by a scanner within the timeout into a waiting
      detector, is dispatched as exactly the payload that was printed, and
      nothing leaks into the client on the way. */
  lemma PrintedCodeIsScanned(cfg: Config, s: State, p: ScanPayload, ts: seq<nat>)
    requires Waiting(cfg, s) && Printable(p.action)
    requires |ts| == |cfg.prefix| + V1_LEN
    requires forall i :: 0 <= i < |ts| ==> ts[i] <= ts[0] + cfg.timeout
    ensures Delivers(cfg, s, AsKeys(cfg.prefix + Encode(p)), ts, Scan(Ok(p)))
  {
    var full := cfg.prefix + Encode(p);
    FirstKey(cfg, s, p, ts[0]);
    RestOfCode(cfg, s, p, 1, ts[0], ts[1..]);
    assert AsKeys(full)[1..] == AsKeys(full[1..]);
    DeliversMore(cfg, s, AsKeys(full), ts, Midway(cfg, s, p, 1, ts[0]), Scan(Ok(p)));
  }

  // Control frames.

  predicate NoDoubleDash(s: string) {
    forall i :: 0 <= i < |s| - 1 ==> s[i] != FRAME_CHAR || s[i + 1] != FRAME_CHAR
  }

  /** The body of a frame a scanner can carry: no two dashes in a row, the
      closing ones included. */
  predicate Frameable(body: string) {
    NoDoubleDash(body + [FRAME_CHAR])
  }

  /** Inside a frame, after the text `t`. */
  predicate ReadSoFar(cfg: Config, s: State, t: string) {
    && s.phase.Frame? && s.since.Some? && !s.swallowEnter
    && s.phase.dash == (t != "" && t[|t| - 1] == FRAME_CHAR)
    && t == Dashed(s.body, s.phase.dash)
  }

  /** Each key of a frame comes before the frame goes stale. */
  predicate InTime(cfg: Config, since: nat, ts: seq<nat>) {
    cfg.frameTimeout > 0 && ts != [] ==>
      && ts[0] <= since + cfg.frameTimeout
      && forall i :: 0 < i < |ts| ==> ts[i] <= ts[i - 1] + cfg.frameTimeout
  }

  lemma {:induction false} PrefixOfChars(keys: seq<Key>, n: nat)
    requires n <= |keys|
    ensures Chars(keys[..n]) <= Chars(keys)
    decreases |keys| - n
  {
    if n < |keys| {
      PrefixOfChars(keys, n + 1);
      assert keys[..n + 1] == keys[..n] + [keys[n]];
      CharsOfPush(keys[..n], keys[n]);
    } else {
      assert keys[..n] == keys;
    }
  }

  /** One key inside a frame that is not yet complete. */
  lemma FrameKey(cfg: Config, s: State, body: string, t: string, key: Key, now: nat)
    requires ReadSoFar(cfg, s, t) && Frameable(body)
    requires cfg.frameTimeout > 0 ==> now <= s.since.value + cfg.frameTimeout
    requires var t' := if key.Char? then t + [key.c] else t;
             t' <= body + [FRAME_CHAR, FRAME_CHAR] && |t'| < |body| + 2
    ensures var t' := if key.Char? then t + [key.c] else t;
            var (s', fed) := PushStep(cfg, s, key, now);
            fed == Held && ReadSoFar(cfg, s', t') && s'.since == Some(now)
  {
    assert ExpireStep(cfg, s, now) == (s, Nothing);
    if key.Char? && t != "" {
      var framed := body + [FRAME_CHAR];
      var t' := t + [key.c];
      assert t' == (body + [FRAME_CHAR, FRAME_CHAR])[..|t'|] == framed[..|t'|];
      assert framed[|t| - 1] == t'[|t| - 1] && framed[|t|] == t'[|t|];
    }
  }

  /** The dash that closes a frame. */
  lemma ClosingKey(cfg: Config, s: State, body: string, now: nat)
    requires ReadSoFar(cfg, s, body + [FRAME_CHAR])
    requires cfg.frameTimeout > 0 ==> now <= s.since.value + cfg.frameTimeout
    ensures var (s', fed) := PushStep(cfg, s, Char(FRAME_CHAR), now);
            fed == FrameRead(body) && Waiting(cfg, s') && s'.swallowEnter == cfg.enterTerminates
  {
    assert ExpireStep(cfg, s, now) == (s, Nothing);
    assert s.body == (body + [FRAME_CHAR])[..|body|] == body;
  }

  /** The rest of a frame, Enters wherever they fall. */
  lemma {:induction false} RestOfFrame(
    cfg: Config, s: State, body: string, keys: seq<Key>, n: nat, ts: seq<nat>)
    requires n < |keys| && |ts| == |keys| - n && Frameable(body)
    requires Chars(keys) == body + [FRAME_CHAR, FRAME_CHAR] && keys[|keys| - 1].Char?
    requires ReadSoFar(cfg, s, Chars(keys[..n])) && InTime(cfg, s.since.value, ts)
    ensures Delivers(cfg, s, keys[n..], ts, FrameRead(body))
    decreases |keys| - n
  {
    var t := Chars(keys[..n]);
    assert keys[..n + 1] == keys[..n] + [keys[n]];
    CharsOfPush(keys[..n], keys[n]);
    PrefixOfChars(keys, n + 1);
    if n + 1 == |keys| {
      assert keys[..n + 1] == keys;
      assert t == Chars(keys)[..|body| + 1] == body + [FRAME_CHAR];
      assert keys[n].c == Chars(keys)[|body| + 1] == FRAME_CHAR;
      ClosingKey(cfg, s, body, ts[0]);
      DeliversLast(cfg, s, keys[n..], ts, FrameRead(body));
    } else {
      ProperPrefix(keys, n + 1);
      FrameKey(cfg, s, body, t, keys[n], ts[0]);
      var (s1, _) := PushStep(cfg, s, keys[n], ts[0]);
      RestOfFrame(cfg, s1, body, keys, n + 1, ts[1..]);
      assert keys[n..][1..] == keys[n + 1..];
      DeliversMore(cfg, s, keys[n..], ts, s1, FrameRead(body));
    }
  }

  /** Before a last character there is always at least one to come. */
  lemma ProperPrefix(keys: seq<Key>, n: nat)
    requires n < |keys| && keys[|keys| - 1].Char?
    ensures |Chars(keys[..n])| < |Chars(keys)|
  {
    var k := |keys| - 1;
    PrefixOfChars(keys[..k], n);
    assert keys[..k][..n] == keys[..n];
  }

  lemma LaterKeys(o: string, rest: seq<Key>)
    requires o != ""
    ensures (AsKeys(o) + rest)[1..] == AsKeys(o[1..]) + rest && (AsKeys(o) + rest)[0] == Char(o[0])
  {
    assert AsKeys(o)[1..] == AsKeys(o[1..]);
  }

  /** A frame typed by a scanner: prefix, `--1`, then body and closing dashes
      with any Enters in between, is read as its body. The opening comes at
      `early`, the rest at `ts`. */
  lemma FrameIsRead(cfg: Config, s: State, body: string, rest: seq<Key>, early: seq<nat>, ts: seq<nat>)
    requires Waiting(cfg, s) && Frameable(body)
    requires Chars(rest) == body + [FRAME_CHAR, FRAME_CHAR] && rest[|rest| - 1].Char?
    requires |early| == |FrameOpening(cfg)| && |ts| == |rest|
    requires forall i :: 0 <= i < |early| ==> early[i] <= early[0] + cfg.timeout
    requires InTime(cfg, early[0], ts)
    ensures Delivers(cfg, s, AsKeys(FrameOpening(cfg)) + rest, early + ts, FrameRead(body))
  {
    var o := FrameOpening(cfg);
    var keys := AsKeys(o) + rest;
    FirstFrameKey(cfg, s, early[0]);
    OpeningThenRest(cfg, s, body, rest, 1, early[0], early[1..], ts);
    LaterKeys(o, rest);
    assert (early + ts)[1..] == early[1..] + ts;
    DeliversMore(cfg, s, keys, early + ts, Opening(cfg, s, 1, early[0]), FrameRead(body));
  }

  // What becomes of any other body.

  /** Where the first two dashes in a row begin, in a text that ends in two. */
  function FirstDoubleDash(s: string): (k: nat)
    requires |s| >= 2 && s[|s| - 2] == FRAME_CHAR && s[|s| - 1] == FRAME_CHAR
    ensures k + 2 <= |s| && s[k] == FRAME_CHAR && s[k + 1] == FRAME_CHAR
    ensures forall i :: 0 <= i < k ==> s[i] != FRAME_CHAR || s[i + 1] != FRAME_CHAR
  {
    if s[0] == FRAME_CHAR && s[1] == FRAME_CHAR then 0 else 1 + FirstDoubleDash(s[1..])
  }

  /** What a detector takes a body for: what comes before two dashes. */
  function Cut(body: string): string {
    body[..FirstDoubleDash(body + [FRAME_CHAR, FRAME_CHAR])]
  }

  lemma CutIsFrameable(body: string)
    ensures Frameable(Cut(body))
    ensures Cut(body) == body <==> Frameable(body)
  {
    var closed := body + [FRAME_CHAR, FRAME_CHAR];
    var k := FirstDoubleDash(closed);
    var cut := Cut(body) + [FRAME_CHAR];
    forall i | 0 <= i < |cut| - 1 ensures cut[i] != FRAME_CHAR || cut[i + 1] != FRAME_CHAR {
      assert cut[i] == closed[i] && cut[i + 1] == closed[i + 1];
    }
    if k < |body| {
      assert (body + [FRAME_CHAR])[k] == closed[k] && (body + [FRAME_CHAR])[k + 1] == closed[k + 1];
    }
  }

  /** The keys up to the `m`th character. */
  lemma {:induction false} KeysUpTo(keys: seq<Key>, m: nat) returns (n: nat)
    requires 0 < m <= |Chars(keys)|
    ensures 0 < n <= |keys| && keys[n - 1].Char? && Chars(keys[..n]) == Chars(keys)[..m]
    decreases |keys|
  {
    var k := |keys| - 1;
    if m <= |Chars(keys[..k])| {
      n := KeysUpTo(keys[..k], m);
      assert keys[..k][..n] == keys[..n];
      assert Chars(keys[..k]) <= Chars(keys) by {
        PrefixOfChars(keys, k);
      }
    } else {
      n := k + 1;
      assert keys[..n] == keys;
    }
  }

  /** Whatever the body, the first frame read is what comes before two dashes;
      so the body arrives exactly when it is frameable. */
  lemma FrameIsCut(cfg: Config, s: State, body: string, rest: seq<Key>, early: seq<nat>, ts: seq<nat>)
    returns (n: nat)
    requires Waiting(cfg, s) && Chars(rest) == body + [FRAME_CHAR, FRAME_CHAR]
    requires |early| == |FrameOpening(cfg)| && |ts| == |rest|
    requires forall i :: 0 <= i < |early| ==> early[i] <= early[0] + cfg.timeout
    requires InTime(cfg, early[0], ts)
    ensures 0 < n <= |rest|
    ensures Delivers(
      cfg, s, AsKeys(FrameOpening(cfg)) + rest[..n], early + ts[..n], FrameRead(Cut(body)))
    ensures Cut(body) == body <==> Frameable(body)
  {
    CutIsFrameable(body);
    var k := |Cut(body)|;
    n := KeysUpTo(rest, k + 2);
    assert Chars(rest[..n]) == Cut(body) + [FRAME_CHAR, FRAME_CHAR];
    FrameIsRead(cfg, s, Cut(body), rest[..n], early, ts[..n]);
  }

  /** The detector after the first `n` characters of a frame opening. */
  function Opening(cfg: Config, s: State, n: nat, since: nat): State
    requires 0 < n <= |FrameOpening(cfg)|
  {
    var k := |cfg.prefix|;
    var phase :=
      if n < k then Prefix(n)
      else if n == k then PrefixDone
      else if n == k + 1 then HalfFrame
      else if n == k + 2 then FrameOpen
      else Frame(false);
    State(phase, FrameOpening(cfg)[..n], "", Some(since), false, s.lastScan)
  }

  lemma FirstFrameKey(cfg: Config, s: State, t: nat)
    requires Waiting(cfg, s)
    ensures PushStep(cfg, s, Char(FrameOpening(cfg)[0]), t) == (Opening(cfg, s, 1, t), Held)
  {
    assert s.held + [FrameOpening(cfg)[0]] == FrameOpening(cfg)[..1];
  }

  lemma NextFrameKey(cfg: Config, s: State, n: nat, t0: nat, t: nat)
    requires 0 < n < |FrameOpening(cfg)| && t <= t0 + cfg.timeout
    ensures PushStep(cfg, Opening(cfg, s, n, t0), Char(FrameOpening(cfg)[n]), t) == (Opening(cfg, s, n + 1, t0), Held)
  {
    var m := Opening(cfg, s, n, t0);
    assert ExpireStep(cfg, m, t) == (m, Nothing);
    assert m.held + [FrameOpening(cfg)[n]] == FrameOpening(cfg)[..n + 1];
  }

  lemma {:induction false} OpeningThenRest(
    cfg: Config, s: State, body: string, rest: seq<Key>, n: nat, t0: nat, early: seq<nat>, ts: seq<nat>)
    requires 0 < n <= |FrameOpening(cfg)| && Frameable(body)
    requires Chars(rest) == body + [FRAME_CHAR, FRAME_CHAR] && rest[|rest| - 1].Char?
    requires |early| == |FrameOpening(cfg)| - n && |ts| == |rest|
    requires forall i :: 0 <= i < |early| ==> early[i] <= t0 + cfg.timeout
    requires InTime(cfg, t0, ts)
    ensures Delivers(
      cfg, Opening(cfg, s, n, t0), AsKeys(FrameOpening(cfg)[n..]) + rest, early + ts, FrameRead(body))
    decreases |early|
  {
    var o := FrameOpening(cfg);
    var keys := AsKeys(o[n..]) + rest;
    var m := Opening(cfg, s, n, t0);
    if n == |o| {
      assert keys == rest[0..] && early + ts == ts;
      assert rest[..0] == [];
      RestOfFrame(cfg, m, body, rest, 0, ts);
    } else {
      NextFrameKey(cfg, s, n, t0, early[0]);
      OpeningThenRest(cfg, s, body, rest, n + 1, t0, early[1..], ts);
      assert keys[1..] == AsKeys(o[n + 1..]) + rest;
      assert (early + ts)[1..] == early[1..] + ts;
      DeliversMore(cfg, m, keys, early + ts, Opening(cfg, s, n + 1, t0), FrameRead(body));
    }
  }
}
