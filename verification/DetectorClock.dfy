/** What goes stale, and when, told by the keys typed and the readings of the
    clock they were typed at. */
module DetectorClock {
  import opened Options
  import opened Text
  import opened Barcode
  import opened Detector
  import opened DetectorLedger
  import opened ScanPipeline

  /** The readings of the clock the keys were typed at. */
  function Times(ops: seq<Op>): seq<nat>
    decreases |ops|
  {
    if ops == [] then [] else (if ops[0].Push? then [ops[0].now] else []) + Times(ops[1..])
  }

  /** A frame has been opened. */
  predicate InFrame(cfg: Config, open: seq<Key>) {
    AsKeys(FrameOpening(cfg)) <= open
  }

  /** A task code has come far enough not to be typing. */
  predicate InCode(cfg: Config, open: seq<Key>) {
    AsKeys(ScanOpening(cfg)) <= open
  }

  /** Since when a match waits: the reading at its first key; once a frame has been
      opened and gone on, at its last. `times` are those of all keys typed, the
      match's own at the end. */
  function WaitsSince(cfg: Config, open: seq<Key>, times: seq<nat>): nat
    requires 0 < |open| <= |times|
  {
    if InFrame(cfg, open) && |open| > |FrameOpening(cfg)| then times[|times| - 1] else times[|times| - |open|]
  }

  /** Whether a match has waited longer than it may; a frame for its own time, zero
      being for ever. */
  predicate IsStale(cfg: Config, open: seq<Key>, times: seq<nat>, now: nat)
    requires 0 < |open| <= |times|
  {
    var since := WaitsSince(cfg, open, times);
    if InFrame(cfg, open) then cfg.frameTimeout != 0 && now > since + cfg.frameTimeout
    else now > since + cfg.timeout
  }

  /** What becomes of a match that has gone stale: a frame or a code is dropped,
      what may still be typing is given back. */
  function Dropping(cfg: Config, open: seq<Key>): Expired {
    if InFrame(cfg, open) then StaleFrame
    else if InCode(cfg, open) then StaleScan
    else Keys(open)
  }

  /** The clock of a match in progress is the one told by its keys. */
  predicate Timed(cfg: Config, s: State, open: seq<Key>, times: seq<nat>) {
    && |open| <= |times|
    && (open != [] ==> s.since == Some(WaitsSince(cfg, open, times)))
  }

  /** How far a match has come is told by its keys. */
  lemma PhaseIs(cfg: Config, s: State, open: seq<Key>)
    requires Consistent(cfg, s, open)
    ensures open == [] <==> s.phase.Idle?
    ensures InFrame(cfg, open) <==> s.phase.Frame?
    ensures InCode(cfg, open) <==> s.phase.Version? || s.phase.Collect?
    ensures !s.phase.Frame? ==> |open| == |s.held| + |s.body|
  {
    var n := |cfg.prefix|;
    if InFrame(cfg, open) {
      assert open[n] == AsKeys(FrameOpening(cfg))[n] == Char(FRAME_CHAR);
    }
    if InCode(cfg, open) {
      assert open[n] == AsKeys(ScanOpening(cfg))[n] == Char(MAGIC_CHAR);
    }
    if s.phase.Frame? {
      assert AsKeys(FrameOpening(cfg)) <= open;
      assert open[n] == AsKeys(FrameOpening(cfg))[n];
    }
    if s.phase.Collect? || s.phase.Version? {
      assert AsKeys(ScanOpening(cfg)) <= open;
      assert open[n] == AsKeys(ScanOpening(cfg))[n];
    }
  }

  /** What a key does to the clock of a detector not in a frame: a match begins with
      it, or one goes on with it, its clock as it was. */
  lemma KeySince(cfg: Config, s: State, key: Key, now: nat)
    requires !s.phase.Frame? && (s.phase.FrameOpen? || s.phase.Idle? ==> s.body == "") && (s.phase.Idle? ==> s.held == "")
    requires s.swallowEnter ==> s.phase.Idle?
    ensures var s' := KeyStep(cfg, s, key, now).0;
            || s'.phase.Idle?
            || (s'.since == Some(now) && !s'.phase.Frame? && |s'.held| == 1 && s'.body == "")
            || (s'.since == s.since && !s.phase.Idle? && |s'.held| + |s'.body| == |s.held| + |s.body| + 1
                && (s'.phase.Frame? ==> s.phase.FrameOpen?))
  {
  }

  lemma KeyInFrame(cfg: Config, s: State, key: Key, now: nat)
    requires s.phase.Frame? && !s.swallowEnter
    ensures var s' := KeyStep(cfg, s, key, now).0; s'.phase.Idle? || (s'.phase.Frame? && s'.since == Some(now))
  {
  }

  lemma FrameGrows(cfg: Config, s: State, open: seq<Key>, key: Key, s': State, open': seq<Key>)
    requires Consistent(cfg, s, open) && Consistent(cfg, s', open') && s'.phase.Frame?
    requires open' == open + [key] || open' == [key] || open' == []
    ensures open' == open + [key] && InFrame(cfg, open')
  {
    PhaseIs(cfg, s', open');
  }

  lemma KeyIsTimed(cfg: Config, s: State, open: seq<Key>, times: seq<nat>, key: Key, now: nat, s': State, open': seq<Key>)
    requires Consistent(cfg, s, open) && s' == KeyStep(cfg, s, key, now).0 && Consistent(cfg, s', open')
    requires open' == open + [key] || open' == [key] || open' == []
    requires Timed(cfg, s, open, times)
    ensures Timed(cfg, s', open', times + [now])
  {
    PhaseIs(cfg, s', open');
    if s'.phase.Idle? {
      assert open' == [];
    } else if s.phase.Frame? {
      KeyInFrame(cfg, s, key, now);
      FrameGrows(cfg, s, open, key, s', open');
    } else {
      EarlyKeyIsTimed(cfg, s, open, times, key, now, s', open');
    }
  }

  lemma EarlyKeyIsTimed(
    cfg: Config, s: State, open: seq<Key>, times: seq<nat>, key: Key, now: nat, s': State, open': seq<Key>)
    requires Consistent(cfg, s, open) && s' == KeyStep(cfg, s, key, now).0 && Consistent(cfg, s', open')
    requires open' == open + [key] || open' == [key] || open' == []
    requires Timed(cfg, s, open, times) && !s.phase.Frame? && !s'.phase.Idle?
    ensures Timed(cfg, s', open', times + [now])
  {
    PhaseIs(cfg, s, open);
    PhaseIs(cfg, s', open');
    KeySince(cfg, s, key, now);
    if s'.phase.Frame? {
      FrameGrows(cfg, s, open, key, s', open');
      assert |open'| == |s'.held| == |FrameOpening(cfg)|;
    }
    if |open'| == |open| + 1 && open != [] {
      FirstKeyStays(cfg, open, open', times, now);
    }
  }

  lemma FirstKeyStays(cfg: Config, open: seq<Key>, open': seq<Key>, times: seq<nat>, now: nat)
    requires 0 < |open| <= |times| && |open'| == |open| + 1
    requires InFrame(cfg, open) ==> |open| <= |FrameOpening(cfg)|
    requires InFrame(cfg, open') ==> |open'| <= |FrameOpening(cfg)|
    ensures WaitsSince(cfg, open', times + [now]) == WaitsSince(cfg, open, times)
  {
  }

  /** An expiry does just what the clock and the keys say. */
  lemma ExpiryIs(cfg: Config, s: State, open: seq<Key>, times: seq<nat>, now: nat)
    requires Consistent(cfg, s, open) && Timed(cfg, s, open, times)
    ensures var (s', out) := ExpireStep(cfg, s, now);
            if open == [] || !IsStale(cfg, open, times, now) then s' == s && out == Nothing
            else s' == Reset(s) && s'.phase.Idle? && Consistent(cfg, s', []) && !s'.swallowEnter && out == Dropping(cfg, open)
  {
    PhaseIs(cfg, s, open);
  }

  lemma StepIsTimed(cfg: Config, s: State, a: Account, times: seq<nat>, op: Op) returns (a': Account)
    requires Balanced(cfg, s, a) && Timed(cfg, s, a.open, times)
    ensures var (s', out) := StepOf(cfg, s, op);
            Clocked(cfg, s', a', times + if op.Push? then [op.now] else [])
            && Follows(a, if op.Push? then [op.key] else [], out, a')
  {
    a' := StepAccounts(cfg, s, op, a);
    ExpiryIs(cfg, s, a.open, times, op.now);
    match op {
      case Expire(now) =>
        ExpiryIsTimed(cfg, s, a.open, times, now, a'.open);
      case Push(key, now) =>
        PushIsTimed(cfg, s, a.open, times, key, now, a'.open);
    }
  }

  lemma ExpiryIsTimed(cfg: Config, s: State, open: seq<Key>, times: seq<nat>, now: nat, open': seq<Key>)
    requires Consistent(cfg, s, open) && Timed(cfg, s, open, times) && Consistent(cfg, ExpireStep(cfg, s, now).0, open')
    requires open' == open || open' == []
    ensures Timed(cfg, ExpireStep(cfg, s, now).0, open', times + [])
  {
    PhaseIs(cfg, ExpireStep(cfg, s, now).0, open');
    PhaseIs(cfg, s, open);
    assert times + [] == times;
  }

  lemma PushIsTimed(cfg: Config, s: State, open: seq<Key>, times: seq<nat>, key: Key, now: nat, open': seq<Key>)
    requires Consistent(cfg, s, open) && Timed(cfg, s, open, times) && Consistent(cfg, PushStep(cfg, s, key, now).0, open')
    requires open' == open + [key] || open' == [key] || open' == []
    ensures Timed(cfg, PushStep(cfg, s, key, now).0, open', times + [now])
  {
    var s1, s' := ExpireStep(cfg, s, now).0, PushStep(cfg, s, key, now).0;
    ExpiryIs(cfg, s, open, times, now);
    assert s' == KeyStep(cfg, s1, key, now).0;
    if s1 == s {
      KeyIsTimed(cfg, s, open, times, key, now, s', open');
    } else {
      FreshKeyIsTimed(cfg, s1, times, key, now, s', open');
    }
  }

  /** A key that meets a detector that has just been emptied. */
  lemma FreshKeyIsTimed(cfg: Config, s: State, times: seq<nat>, key: Key, now: nat, s': State, open': seq<Key>)
    requires Consistent(cfg, s, []) && s.phase.Idle? && s' == KeyStep(cfg, s, key, now).0 && Consistent(cfg, s', open')
    ensures Timed(cfg, s', open', times + [now])
  {
    KeySince(cfg, s, key, now);
    PhaseIs(cfg, s', open');
  }

  predicate Clocked(cfg: Config, s: State, a: Account, times: seq<nat>) {
    Balanced(cfg, s, a) && Timed(cfg, s, a.open, times)
  }

  lemma {:induction false} RunIsTimed(cfg: Config, s: State, a: Account, times: seq<nat>, ops: seq<Op>)
    returns (a': Account)
    requires Clocked(cfg, s, a, times)
    ensures var (s', outs) := Run(cfg, s, ops);
            Clocked(cfg, s', a', times + Times(ops)) && FollowsAll(a, Typed(ops), outs, a')
    decreases |ops|
  {
    if ops == [] {
      a' := a;
      assert times + [] == times;
    } else {
      var op, rest := ops[0], ops[1..];
      var head := if op.Push? then [op.now] else [];
      var (s1, out) := StepOf(cfg, s, op);
      var a1 := StepIsTimed(cfg, s, a, times, op);
      a' := RunIsTimed(cfg, s1, a1, times + head, rest);
      TimesInTurn(times, head, Times(rest));
      assert Times(ops) == head + Times(rest);
      FollowsCons(a, if op.Push? then [op.key] else [], out, a1, Typed(rest), Run(cfg, s1, rest).1, a');
    }
  }

  lemma TimesInTurn(a: seq<nat>, b: seq<nat>, c: seq<nat>)
    ensures (a + b) + c == a + (b + c)
  {
  }

  /** `a` is the account of what was typed into a fresh detector, its last keys
      being the match still open. */
  predicate IsAccount(cfg: Config, ops: seq<Op>, a: Account) {
    var (s, outs) := Run(cfg, FRESH, ops);
    && Balanced(cfg, s, a) && a.typed == Typed(ops) && a.handed == Handed(outs) && a.feeds == Dispatched(outs)
    && |a.open| <= |Times(ops)|
  }

  /** Whatever was typed and whenever: an expiry finds a match in progress stale
      exactly when the clock has gone past its time since its first key, or for a
      frame since its last. Then it is dropped, or given back if it may be typing,
      and the detector idle; otherwise nothing at all changes. */
  lemma StaleExactlyInTime(cfg: Config, ops: seq<Op>, now: nat) returns (a: Account)
    ensures IsAccount(cfg, ops, a)
    ensures var (s, outs) := Run(cfg, FRESH, ops);
            var (s', outs') := Run(cfg, FRESH, ops + [Expire(now)]);
            if a.open == [] || !IsStale(cfg, a.open, Times(ops), now) then s' == s && outs' == outs + [Stale(Nothing)]
            else Waiting(cfg, s') && outs' == outs + [Stale(Dropping(cfg, a.open))]
  {
    a := RunIsTimed(cfg, FRESH, NOTHING_TYPED, [], ops);
    assert [] + Times(ops) == Times(ops);
    RunOneMore(cfg, FRESH, ops, Expire(now));
    ExpiryIs(cfg, Run(cfg, FRESH, ops).0, a.open, Times(ops), now);
  }

  /** The character a match begins with. */
  predicate Begins(cfg: Config, c: char) {
    if cfg.prefix == "" then c == MAGIC_CHAR || c == FRAME_CHAR else c == cfg.prefix[0]
  }

  /** A character that begins no match, typed when the one in progress is stale, is
      given back, after the keys that were held if these may be typing; it is not
      taken into the stale one. */
  lemma TypingAfterStalePasses(cfg: Config, ops: seq<Op>, c: char, now: nat) returns (a: Account)
    requires !Begins(cfg, c)
    ensures IsAccount(cfg, ops, a)
    ensures var (s, outs) := Run(cfg, FRESH, ops);
            var (s', outs') := Run(cfg, FRESH, ops + [Push(Char(c), now)]);
            a.open == [] || IsStale(cfg, a.open, Times(ops), now) ==>
              Waiting(cfg, s')
              && outs' == outs + [Fed(Pass((if InFrame(cfg, a.open) || InCode(cfg, a.open) then [] else a.open) + [Char(c)]))]
  {
    a := RunIsTimed(cfg, FRESH, NOTHING_TYPED, [], ops);
    assert [] + Times(ops) == Times(ops);
    RunOneMore(cfg, FRESH, ops, Push(Char(c), now));
    var s := Run(cfg, FRESH, ops).0;
    if a.open == [] || IsStale(cfg, a.open, Times(ops), now) {
      CharAfterStale(cfg, s, a.open, Times(ops), c, now);
    }
  }

  lemma CharAfterStale(cfg: Config, s: State, open: seq<Key>, times: seq<nat>, c: char, now: nat)
    requires Consistent(cfg, s, open) && Timed(cfg, s, open, times) && !Begins(cfg, c)
    requires open == [] || IsStale(cfg, open, times, now)
    ensures var (s', fed) := PushStep(cfg, s, Char(c), now);
            Waiting(cfg, s') && fed == Pass((if InFrame(cfg, open) || InCode(cfg, open) then [] else open) + [Char(c)])
  {
    var (s1, stale) := ExpireStep(cfg, s, now);
    PhaseIs(cfg, s, open);
    ExpiryIs(cfg, s, open, times, now);
    assert KeyStep(cfg, s1, Char(c), now) == (s1.(swallowEnter := false), Pass([Char(c)]));
    assert [] + [Char(c)] == [Char(c)];
  }

  // How long a scan is said to have taken.

  /** What a detector says after a push of how long the last code took, before it
      having said `was`: a task code the time since its first key, a frame no time at
      all, whatever it took. A code refused for its version leaves it as it was. */
  predicate SaysDuration(cfg: Config, open: seq<Key>, times: seq<nat>, now: nat, was: Option<nat>, fed: Feed, said: Option<nat>)
    requires |open| <= |times|
  {
    match fed
    case FrameRead(_) => said == Some(0)
    case Scan(_) =>
      if |open| > |ScanOpening(cfg)| then said == Some(Elapsed(times[|times| - |open|], now)) else said == was
    case _ => said == was
  }

  lemma DurationOfPush(cfg: Config, s: State, open: seq<Key>, times: seq<nat>, key: Key, now: nat)
    requires Consistent(cfg, s, open) && Timed(cfg, s, open, times)
    ensures var (s', fed) := PushStep(cfg, s, key, now);
            SaysDuration(cfg, open, times, now, s.lastScan, fed, s'.lastScan)
  {
    var (s1, stale) := ExpireStep(cfg, s, now);
    PhaseIs(cfg, s, open);
    ExpiryIs(cfg, s, open, times, now);
    if s1 == s {
      DurationOfKey(cfg, s, open, times, key, now);
    } else {
      EmptyTakesNothing(cfg, s1, key, now);
    }
  }

  lemma EmptyTakesNothing(cfg: Config, s: State, key: Key, now: nat)
    requires s.phase.Idle? && !s.swallowEnter
    ensures var (s', fed) := KeyStep(cfg, s, key, now); (fed.Held? || fed.Pass?) && s'.lastScan == s.lastScan
  {
  }

  lemma DurationOfKey(cfg: Config, s: State, open: seq<Key>, times: seq<nat>, key: Key, now: nat)
    requires Consistent(cfg, s, open) && Timed(cfg, s, open, times)
    ensures var (s', fed) := KeyStep(cfg, s, key, now);
            SaysDuration(cfg, open, times, now, s.lastScan, fed, s'.lastScan)
  {
    PhaseIs(cfg, s, open);
    match key {
      case Char(c) =>
        if s.phase.Version? {
          assert |s.held| == |ScanOpening(cfg)|;
        }
      case Enter =>
    }
  }

  lemma DurationIs(cfg: Config, ops: seq<Op>, key: Key, now: nat) returns (a: Account)
    ensures IsAccount(cfg, ops, a)
    ensures var s := Run(cfg, FRESH, ops).0;
            var (s', outs') := Run(cfg, FRESH, ops + [Push(key, now)]);
            |outs'| > 0 && outs'[|outs'| - 1].Fed?
            && SaysDuration(cfg, a.open, Times(ops), now, s.lastScan, outs'[|outs'| - 1].feed, s'.lastScan)
  {
    a := RunIsTimed(cfg, FRESH, NOTHING_TYPED, [], ops);
    assert [] + Times(ops) == Times(ops);
    RunOneMore(cfg, FRESH, ops, Push(key, now));
    DurationOfPush(cfg, Run(cfg, FRESH, ops).0, a.open, Times(ops), key, now);
  }
}
