/** What becomes of every key a detector is fed, over whole runs: pushes and
    expiries in any order, at any clock readings. */
module DetectorLedger {
  import opened Options
  import opened Text
  import opened Barcode
  import opened Detector

  datatype Op = Push(key: Key, now: nat) | Expire(now: nat)
  datatype Output = Fed(feed: Feed) | Stale(expired: Expired)

  function StepOf(cfg: Config, s: State, op: Op): (State, Output) {
    match op
    case Push(key, now) => var (s', fed) := PushStep(cfg, s, key, now); (s', Fed(fed))
    case Expire(now) => var (s', out) := ExpireStep(cfg, s, now); (s', Stale(out))
  }

  function Run(cfg: Config, s: State, ops: seq<Op>): (State, seq<Output>)
    decreases |ops|
  {
    if ops == [] then (s, [])
    else
      var (s1, out) := StepOf(cfg, s, ops[0]);
      var (s2, outs) := Run(cfg, s1, ops[1..]);
      (s2, [out] + outs)
  }

  /** The keys fed in, in order. */
  function Typed(ops: seq<Op>): seq<Key> {
    if ops == [] then []
    else (if ops[0].Push? then [ops[0].key] else []) + Typed(ops[1..])
  }

  function HandedIn(out: Output): seq<Key> {
    match out
    case Fed(Pass(keys)) => keys
    case Stale(Keys(keys)) => keys
    case _ => []
  }

  /** The keys handed back to normal handling, in order. */
  function Handed(outs: seq<Output>): seq<Key> {
    if outs == [] then [] else HandedIn(outs[0]) + Handed(outs[1..])
  }

  function DispatchedIn(out: Output): seq<Feed> {
    if out.Fed? && (out.feed.Scan? || out.feed.FrameRead?) then [out.feed] else []
  }

  /** The codes dispatched, in order. */
  function Dispatched(outs: seq<Output>): seq<Feed> {
    if outs == [] then [] else DispatchedIn(outs[0]) + Dispatched(outs[1..])
  }

  /** A stretch of the typed keys and what became of it: handed back, taken as
      a code and dispatched, taken as a code that went stale, or the Enter a
      scanner sends after a code. */
  datatype Segment =
    | Typing(keys: seq<Key>)
    | Code(keys: seq<Key>, feed: Feed)
    | Dropped(keys: seq<Key>)
    | SwallowedEnter

  function KeysOf(g: Segment): seq<Key> {
    if g.SwallowedEnter? then [Enter] else g.keys
  }

  function AllKeys(segs: seq<Segment>): seq<Key> {
    if segs == [] then [] else AllKeys(segs[..|segs| - 1]) + KeysOf(segs[|segs| - 1])
  }

  function TypingKeys(segs: seq<Segment>): seq<Key> {
    if segs == [] then []
    else
      var g := segs[|segs| - 1];
      TypingKeys(segs[..|segs| - 1]) + (if g.Typing? then g.keys else [])
  }

  function Feeds(segs: seq<Segment>): seq<Feed> {
    if segs == [] then []
    else
      var g := segs[|segs| - 1];
      Feeds(segs[..|segs| - 1]) + (if g.Code? then [g.feed] else [])
  }

  /** The characters among some keys. */
  function Chars(keys: seq<Key>): string {
    if keys == [] then ""
    else
      var before := Chars(keys[..|keys| - 1]);
      match keys[|keys| - 1]
      case Char(c) => before + [c]
      case Enter => before
  }

  /** Where a code stops being typing: after the scanner's prefix, `..` or `--1`. */
  function ScanOpening(cfg: Config): string {
    cfg.prefix + MAGIC
  }

  function FrameOpening(cfg: Config): string {
    cfg.prefix + [FRAME_CHAR, FRAME_CHAR, FRAME_VERSION]
  }

  predicate Opens(cfg: Config, keys: seq<Key>) {
    AsKeys(ScanOpening(cfg)) <= keys || AsKeys(FrameOpening(cfg)) <= keys
  }

  /** A dispatched code says what its keys spell, read independently of the
      automaton: a scan is the parse of the magic and the uppercased rest, a
      frame is what lies between its opening and the closing dashes. */
  predicate Spells(cfg: Config, keys: seq<Key>, feed: Feed) {
    match feed
    case Scan(read) =>
      && AsKeys(ScanOpening(cfg)) <= keys
      && var rest := Chars(keys[|ScanOpening(cfg)|..]);
         read == (if |rest| == 1 && PayloadLen(rest[0]).None? then Err(UnknownVersion(rest[0]))
                  else Parse(MAGIC + Upper(rest)))
    case FrameRead(body) =>
      && AsKeys(FrameOpening(cfg)) <= keys
      && Chars(keys[|FrameOpening(cfg)|..]) == body + [FRAME_CHAR, FRAME_CHAR]
    case _ => false
  }

  predicate SegmentOk(cfg: Config, segs: seq<Segment>, i: nat)
    requires i < |segs|
  {
    match segs[i]
    case Typing(_) => true
    case Code(keys, feed) => Spells(cfg, keys, feed)
    case Dropped(keys) => Opens(cfg, keys)
    case SwallowedEnter => cfg.enterTerminates && i > 0 && segs[i - 1].Code?
  }

  predicate SegmentsOk(cfg: Config, segs: seq<Segment>) {
    forall i :: 0 <= i < |segs| ==> SegmentOk(cfg, segs, i)
  }

  /** The held characters each phase stands for. */
  function HeldIn(cfg: Config, phase: Phase): string {
    match phase
    case Idle => ""
    case Prefix(n) => if n <= |cfg.prefix| then cfg.prefix[..n] else ""
    case PrefixDone => cfg.prefix
    case HalfMagic => cfg.prefix + [MAGIC_CHAR]
    case Version => ScanOpening(cfg)
    case Collect(_) => ScanOpening(cfg)
    case HalfFrame => cfg.prefix + [FRAME_CHAR]
    case FrameOpen => cfg.prefix + [FRAME_CHAR, FRAME_CHAR]
    case Frame(_) => FrameOpening(cfg)
  }

  /** What every reachable snapshot keeps; `open` is the keys typed since the
      match in progress began. */
  predicate Consistent(cfg: Config, s: State, open: seq<Key>) {
    && s.held == HeldIn(cfg, s.phase)
    && (s.since.None? <==> s.phase.Idle?)
    && (s.phase.Prefix? ==> 1 <= s.phase.n < |cfg.prefix|)
    && (s.phase.PrefixDone? ==> cfg.prefix != "")
    && (s.swallowEnter ==> s.phase.Idle? && cfg.enterTerminates)
    && match s.phase
       case Collect(total) =>
         && total == V1_LEN && 1 <= |s.body| < V1_LEN - 2
         && AsKeys(s.held) <= open
         && open == AsKeys(s.held) + AsKeys(Chars(open[|s.held|..]))
         && s.body == Upper(Chars(open[|s.held|..]))
         && Chars(open[|s.held|..])[0] == VERSION_1
       case Frame(dash) =>
         && AsKeys(s.held) <= open
         && Chars(open[|s.held|..]) == Dashed(s.body, dash)
       case _ => s.body == "" && open == AsKeys(s.held)
  }

  /** The account of a run: the keys typed, the keys handed back, the codes
      dispatched, the typed keys cut into segments, and those of the match
      still open. */
  datatype Account = Account(
    typed: seq<Key>, handed: seq<Key>, feeds: seq<Feed>, segs: seq<Segment>, open: seq<Key>)

  const NOTHING_TYPED := Account([], [], [], [], [])

  /** Every typed key is in exactly one segment or in the match still open, in
      the order typed; what is handed back is the typing, what is dispatched
      is the codes. */
  predicate Balanced(cfg: Config, s: State, a: Account) {
    && Consistent(cfg, s, a.open)
    && SegmentsOk(cfg, a.segs)
    && (s.swallowEnter ==> a.segs != [] && a.segs[|a.segs| - 1].Code?)
    && a.typed == AllKeys(a.segs) + a.open
    && a.handed == TypingKeys(a.segs)
    && a.feeds == Feeds(a.segs)
  }

  /** One more key, still part of the match in progress. */
  function Extended(a: Account, key: Key): Account {
    a.(typed := a.typed + [key], open := a.open + [key])
  }

  /** The match in progress turned out to be `g`. */
  function Closed(a: Account, g: Segment): Account {
    a.(handed := a.handed + (if g.Typing? then g.keys else []),
       feeds := a.feeds + (if g.Code? then [g.feed] else []),
       segs := a.segs + [g],
       open := [])
  }

  lemma AsKeysOfPush(s: string, c: char)
    ensures AsKeys(s + [c]) == AsKeys(s) + [Char(c)]
  {
  }

  lemma CharsOfPush(keys: seq<Key>, k: Key)
    ensures Chars(keys + [k]) == if k.Char? then Chars(keys) + [k.c] else Chars(keys)
  {
    assert (keys + [k])[..|keys|] == keys;
  }

  lemma {:induction false} CharsOfAsKeys(s: string)
    ensures Chars(AsKeys(s)) == s
  {
    if s != "" {
      var n := |s| - 1;
      assert AsKeys(s)[..n] == AsKeys(s[..n]);
      CharsOfAsKeys(s[..n]);
      assert s == s[..n] + [s[n]];
    }
  }

  lemma CloseBalances(cfg: Config, s: State, a: Account, g: Segment, s': State)
    requires Balanced(cfg, s, a)
    requires SegmentOk(cfg, a.segs + [g], |a.segs|) && KeysOf(g) == a.open
    requires Consistent(cfg, s', []) && (s'.swallowEnter ==> g.Code?)
    ensures Balanced(cfg, s', Closed(a, g))
  {
    var all := a.segs + [g];
    assert all[..|all| - 1] == a.segs;
    forall i | 0 <= i < |a.segs| ensures SegmentOk(cfg, all, i) {
      assert SegmentOk(cfg, a.segs, i);
      assert all[i] == a.segs[i] && (i > 0 ==> all[i - 1] == a.segs[i - 1]);
    }
    assert AllKeys(all) + [] == AllKeys(a.segs) + a.open;
  }

  /** A last key, and the match turned out to be `g`. */
  lemma LastKeyBalances(cfg: Config, s: State, a: Account, key: Key, g: Segment, s': State)
    requires Balanced(cfg, s, a)
    requires SegmentOk(cfg, a.segs + [g], |a.segs|) && KeysOf(g) == a.open + [key]
    requires Consistent(cfg, s', []) && (s'.swallowEnter ==> g.Code?)
    ensures Balanced(cfg, s', Closed(Extended(a, key), g))
  {
    var all := a.segs + [g];
    assert all[..|all| - 1] == a.segs;
    forall i | 0 <= i < |a.segs| ensures SegmentOk(cfg, all, i) {
      assert SegmentOk(cfg, a.segs, i);
      assert all[i] == a.segs[i] && (i > 0 ==> all[i - 1] == a.segs[i - 1]);
    }
    assert AllKeys(all) + [] == AllKeys(a.segs) + (a.open + [key]);
    assert a.typed + [key] == AllKeys(a.segs) + (a.open + [key]);
  }

  /** `a'` is `a` after typing `keys` and seeing `out`: a match in progress goes on
      with them, a new one begins with them, or none is in progress. */
  predicate Follows(a: Account, keys: seq<Key>, out: Output, a': Account) {
    && a'.typed == a.typed + keys
    && a'.handed == a.handed + HandedIn(out)
    && a'.feeds == a.feeds + DispatchedIn(out)
    && (a'.open == a.open + keys || a'.open == keys || a'.open == [])
  }

  lemma ExpireAccounts(cfg: Config, s: State, now: nat, a: Account) returns (a': Account)
    requires Balanced(cfg, s, a)
    ensures var (s', out) := ExpireStep(cfg, s, now);
            Balanced(cfg, s', a') && Follows(a, [], Stale(out), a')
            && (out.Keys? ==> s'.phase.Idle? && !s'.swallowEnter)
  {
    var (s', out) := ExpireStep(cfg, s, now);
    if out.Nothing? {
      return a;
    }
    var g := if out.Keys? then Typing(a.open) else Dropped(a.open);
    CloseBalances(cfg, s, a, g, s');
    return Closed(a, g);
  }

  lemma ExtendBalances(cfg: Config, s: State, a: Account, key: Key, s': State)
    requires Balanced(cfg, s, a)
    requires Consistent(cfg, s', a.open + [key]) && !s'.swallowEnter
    ensures Balanced(cfg, s', Extended(a, key))
  {
    assert a.typed + [key] == AllKeys(a.segs) + (a.open + [key]);
  }

  /** A character that meets an idle detector. */
  lemma StartAccounts(cfg: Config, s: State, c: char, now: nat, a: Account) returns (a': Account)
    requires Balanced(cfg, s, a) && s.phase.Idle? && !s.swallowEnter
    ensures var (s', fed) := StartStep(cfg, s, c, now);
            (fed.Held? || fed.Pass?) && Balanced(cfg, s', a') && Follows(a, [Char(c)], Fed(fed), a')
  {
    var (s', fed) := StartStep(cfg, s, c, now);
    if fed.Held? {
      StartConsistent(cfg, s, c, now);
      ExtendBalances(cfg, s, a, Char(c), s');
      a' := Extended(a, Char(c));
    } else {
      var g := Typing([Char(c)]);
      LastKeyBalances(cfg, s, a, Char(c), g, s');
      a' := Closed(Extended(a, Char(c)), g);
    }
  }

  lemma StartConsistent(cfg: Config, s: State, c: char, now: nat)
    requires Consistent(cfg, s, []) && s.phase.Idle? && !s.swallowEnter
    requires StartStep(cfg, s, c, now).1.Held?
    ensures Consistent(cfg, StartStep(cfg, s, c, now).0, [] + [Char(c)])
  {
    assert s.held + [c] == [c];
    assert AsKeys([c]) == [Char(c)];
  }

  lemma ReleaseAccounts(cfg: Config, s: State, c: char, now: nat, a: Account) returns (a': Account)
    requires Balanced(cfg, s, a)
    requires !s.swallowEnter && !s.phase.Collect? && !s.phase.Frame?
    ensures var (s', fed) := ReleaseStep(cfg, s, c, now);
            Balanced(cfg, s', a') && Follows(a, [Char(c)], Fed(fed), a')
  {
    var g := Typing(a.open);
    CloseBalances(cfg, s, a, g, Reset(s));
    a' := StartAccounts(cfg, Reset(s), c, now, Closed(a, g));
    var (_, started) := StartStep(cfg, Reset(s), c, now);
    var handed := HandedIn(Fed(started));
    Regroup(a.handed, a.open, handed);
  }

  lemma Regroup(a: seq<Key>, b: seq<Key>, c: seq<Key>)
    ensures (a + b) + c == a + (b + c) && b + [] == b
  {
  }

  /** A key either stays in the match or completes a code. */
  predicate KeepsOrCompletes(cfg: Config, s': State, fed: Feed, open': seq<Key>) {
    || (fed.Held? && !s'.swallowEnter && Consistent(cfg, s', open'))
    || ((fed.Scan? || fed.FrameRead?) && Spells(cfg, open', fed) && Consistent(cfg, s', []))
  }

  lemma DropOfPush(keys: seq<Key>, k: Key, n: nat)
    requires n <= |keys|
    ensures (keys + [k])[n..] == keys[n..] + [k]
  {
  }

  lemma ShortCodeSpells(cfg: Config, keys: seq<Key>, text: string, feed: Feed)
    requires AsKeys(ScanOpening(cfg)) <= keys && Chars(keys[|ScanOpening(cfg)|..]) == text
    requires text != "" && text[0] == VERSION_1
    requires feed == Scan(Parse(MAGIC + Upper(text)))
    ensures Spells(cfg, keys, feed)
  {
  }

  /** A character inside a task code: one more, or the last. */
  lemma CollectConsistent(cfg: Config, s: State, c: char, now: nat, open: seq<Key>)
    requires Consistent(cfg, s, open) && s.phase.Collect? && !s.swallowEnter
    ensures var (s', fed) := CharStep(cfg, s, c, now); KeepsOrCompletes(cfg, s', fed, open + [Char(c)])
  {
    var (s', fed) := CharStep(cfg, s, c, now);
    var rest := open[|s.held|..];
    var text := Chars(rest);
    CharsOfPush(rest, Char(c));
    DropOfPush(open, Char(c), |s.held|);
    assert s.held == ScanOpening(cfg);
    UpperGrows(text, c);
    if fed.Held? {
      CollectedMore(cfg, s, s', c, open);
    } else {
      assert fed == Scan(Parse(MAGIC + Upper(text + [c])));
      ShortCodeSpells(cfg, open + [Char(c)], text + [c], fed);
      assert s'.held == "" && s'.body == "" && s'.since == None;
      assert Consistent(cfg, s', []);
    }
  }

  lemma UpperGrows(text: string, c: char)
    ensures Upper(text + [c]) == Upper(text) + [UpperChar(c)]
  {
  }

  lemma CollectedMore(cfg: Config, s: State, s': State, c: char, open: seq<Key>)
    requires Consistent(cfg, s, open) && s.phase.Collect? && !s.swallowEnter
    requires s' == s.(body := s.body + [UpperChar(c)]) && |s'.body| < V1_LEN - 2
    ensures Consistent(cfg, s', open + [Char(c)])
  {
    var rest := open[|s.held|..];
    var text := Chars(rest);
    CharsOfPush(rest, Char(c));
    DropOfPush(open, Char(c), |s.held|);
    AsKeysOfPush(text, c);
    assert Upper(text + [c]) == s'.body;
    assert open + [Char(c)] == AsKeys(s.held) + (AsKeys(text) + [Char(c)]);
  }

  /** Keys are held back for the phase, and while that opening stays, so do they. */
  lemma HeldStays(cfg: Config, a: Phase, b: Phase)
    requires (a.Frame? && b.Frame?) || (a.Version? && b.Collect?)
    ensures HeldIn(cfg, a) == HeldIn(cfg, b)
  {
  }

  /** A character inside a control frame: one more, or the closing dash. */
  lemma FrameConsistent(cfg: Config, s: State, c: char, now: nat, open: seq<Key>)
    requires Consistent(cfg, s, open) && s.phase.Frame? && !s.swallowEnter
    ensures var (s', fed) := CharStep(cfg, s, c, now); KeepsOrCompletes(cfg, s', fed, open + [Char(c)])
  {
    if c == FRAME_CHAR && s.phase.dash {
      FrameCloses(cfg, s, open);
    } else {
      FrameGoesOn(cfg, s, c, now, CharStep(cfg, s, c, now).0, open);
    }
  }

  lemma FrameGoesOn(cfg: Config, s: State, c: char, now: nat, s': State, open: seq<Key>)
    requires Consistent(cfg, s, open) && s.phase.Frame? && !s.swallowEnter && !(c == FRAME_CHAR && s.phase.dash)
    requires s' == CharStep(cfg, s, c, now).0
    ensures Consistent(cfg, s', open + [Char(c)]) && !s'.swallowEnter
  {
    HeldStays(cfg, s.phase, s'.phase);
    CharsOfPush(open[|s.held|..], Char(c));
    DropOfPush(open, Char(c), |s.held|);
    assert Chars((open + [Char(c)])[|s.held|..]) == Dashed(s'.body, s'.phase.dash);
  }

  lemma FrameCloses(cfg: Config, s: State, open: seq<Key>)
    requires Consistent(cfg, s, open) && s.phase == Frame(true)
    ensures Spells(cfg, open + [Char(FRAME_CHAR)], FrameRead(s.body))
  {
    CharsOfPush(open[|s.held|..], Char(FRAME_CHAR));
    DropOfPush(open, Char(FRAME_CHAR), |s.held|);
    assert s.body + [FRAME_CHAR] + [FRAME_CHAR] == s.body + [FRAME_CHAR, FRAME_CHAR];
  }

  /** A character after the magic: the version that fixes the length, or none. */
  lemma VersionConsistent(cfg: Config, s: State, c: char, now: nat, open: seq<Key>)
    requires Consistent(cfg, s, open) && s.phase.Version? && !s.swallowEnter
    ensures var (s', fed) := CharStep(cfg, s, c, now);
            KeepsOrCompletes(cfg, s', fed, open + [Char(c)])
  {
    if c == VERSION_1 {
      VersionTaken(cfg, s, s.(body := [VERSION_1], phase := Collect(V1_LEN)), open);
    } else {
      VersionRefused(cfg, s, c, open);
    }
  }

  lemma VersionSpelled(s: State, c: char, open: seq<Key>)
    requires open == AsKeys(s.held)
    ensures var open' := open + [Char(c)];
            AsKeys(s.held) <= open' && open' == AsKeys(s.held) + AsKeys([c]) && Chars(open'[|s.held|..]) == [c]
  {
    assert (open + [Char(c)])[|s.held|..] == [] + [Char(c)];
    CharsOfPush([], Char(c));
    assert AsKeys([c]) == [Char(c)];
  }

  lemma VersionTaken(cfg: Config, s: State, s': State, open: seq<Key>)
    requires Consistent(cfg, s, open) && s.phase.Version? && !s.swallowEnter
    requires s' == s.(body := [VERSION_1], phase := Collect(V1_LEN))
    ensures Consistent(cfg, s', open + [Char(VERSION_1)])
  {
    HeldStays(cfg, s.phase, s'.phase);
    VersionSpelled(s, VERSION_1, open);
    VersionIsUpper();
    OpenSpells(s', open + [Char(VERSION_1)], [VERSION_1]);
  }

  lemma VersionRefused(cfg: Config, s: State, c: char, open: seq<Key>)
    requires Consistent(cfg, s, open) && s.phase.Version? && c != VERSION_1
    ensures Spells(cfg, open + [Char(c)], Scan(Err(UnknownVersion(c))))
  {
    VersionSpelled(s, c, open);
  }

  lemma VersionIsUpper()
    ensures Upper([VERSION_1]) == [VERSION_1]
  {
  }

  lemma OpenSpells(s: State, open: seq<Key>, text: string)
    requires AsKeys(s.held) <= open && open == AsKeys(s.held) + AsKeys(text) && Chars(open[|s.held|..]) == text
    requires s.body == Upper(text)
    ensures open == AsKeys(s.held) + AsKeys(Chars(open[|s.held|..])) && s.body == Upper(Chars(open[|s.held|..]))
  {
  }

  lemma CodeKeyAccounts(cfg: Config, s: State, key: Key, s': State, fed: Feed, a: Account) returns (a': Account)
    requires Balanced(cfg, s, a)
    requires KeepsOrCompletes(cfg, s', fed, a.open + [key])
    ensures Balanced(cfg, s', a') && Follows(a, [key], Fed(fed), a')
  {
    if fed.Held? {
      ExtendBalances(cfg, s, a, key, s');
      a' := Extended(a, key);
    } else {
      var g := Code(a.open + [key], fed);
      LastKeyBalances(cfg, s, a, key, g, s');
      a' := Closed(Extended(a, key), g);
    }
  }

  /** A character past the opening of a code. */
  lemma CodeAccounts(cfg: Config, s: State, c: char, now: nat, a: Account) returns (a': Account)
    requires Balanced(cfg, s, a) && !s.swallowEnter
    requires s.phase.Version? || s.phase.Collect? || s.phase.Frame?
    ensures var (s', fed) := CharStep(cfg, s, c, now);
            Balanced(cfg, s', a') && Follows(a, [Char(c)], Fed(fed), a')
  {
    var (s', fed) := CharStep(cfg, s, c, now);
    if s.phase.Version? {
      VersionConsistent(cfg, s, c, now, a.open);
    } else if s.phase.Collect? {
      CollectConsistent(cfg, s, c, now, a.open);
    } else {
      FrameConsistent(cfg, s, c, now, a.open);
    }
    a' := CodeKeyAccounts(cfg, s, Char(c), s', fed, a);
  }

  /** A character that carries a partial match one further. */
  lemma HeldAccounts(cfg: Config, s: State, c: char, now: nat, a: Account)
    requires Balanced(cfg, s, a) && !s.swallowEnter
    requires s.phase.Prefix? || s.phase.PrefixDone? || s.phase.HalfMagic? || s.phase.HalfFrame? || s.phase.FrameOpen?
    requires CharStep(cfg, s, c, now) != ReleaseStep(cfg, s, c, now)
    ensures CharStep(cfg, s, c, now).1.Held?
    ensures Balanced(cfg, CharStep(cfg, s, c, now).0, Extended(a, Char(c)))
  {
    var (s', fed) := CharStep(cfg, s, c, now);
    AsKeysOfPush(s.held, c);
    if s.phase.Prefix? {
      assert cfg.prefix[..s.phase.n] + [cfg.prefix[s.phase.n]] == cfg.prefix[..s.phase.n + 1];
      assert cfg.prefix[..|cfg.prefix|] == cfg.prefix;
    }
    if s.phase.FrameOpen? {
      assert AsKeys(s'.held)[|s'.held|..] == [];
    }
    assert s'.held == HeldIn(cfg, s'.phase);
  }

  lemma CharAccounts(cfg: Config, s0: State, c: char, now: nat, a: Account) returns (a': Account)
    requires Balanced(cfg, s0, a)
    ensures var (s', fed) := CharStep(cfg, s0, c, now);
            Balanced(cfg, s', a') && Follows(a, [Char(c)], Fed(fed), a')
  {
    var s := s0.(swallowEnter := false);
    assert CharStep(cfg, s, c, now) == CharStep(cfg, s0, c, now);
    match s.phase {
      case Idle => a' := StartAccounts(cfg, s, c, now, a);
      case Version => a' := CodeAccounts(cfg, s, c, now, a);
      case Collect(_) => a' := CodeAccounts(cfg, s, c, now, a);
      case Frame(_) => a' := CodeAccounts(cfg, s, c, now, a);
      case _ =>
        if CharStep(cfg, s, c, now) == ReleaseStep(cfg, s, c, now) {
          a' := ReleaseAccounts(cfg, s, c, now, a);
        } else {
          HeldAccounts(cfg, s, c, now, a);
          a' := Extended(a, Char(c));
        }
    }
  }

  /** An Enter while a frame is being collected. */
  lemma EnterInFrame(cfg: Config, s: State, now: nat, open: seq<Key>)
    requires Consistent(cfg, s, open) && s.phase.Frame? && !s.swallowEnter
    ensures var (s', fed) := EnterStep(cfg, s, now); KeepsOrCompletes(cfg, s', fed, open + [Enter])
  {
    var rest := open[|s.held|..];
    CharsOfPush(rest, Enter);
    DropOfPush(open, Enter, |s.held|);
  }

  /** Enter before a task code is complete ends it. */
  lemma EnterInCode(cfg: Config, s: State, now: nat, open: seq<Key>)
    requires Consistent(cfg, s, open) && s.phase.Collect? && !s.swallowEnter
    ensures var (s', fed) := EnterStep(cfg, s, now); KeepsOrCompletes(cfg, s', fed, open + [Enter])
  {
    var (s', fed) := EnterStep(cfg, s, now);
    var rest := open[|s.held|..];
    CharsOfPush(rest, Enter);
    DropOfPush(open, Enter, |s.held|);
    assert s.held == ScanOpening(cfg);
    assert Chars(rest)[0] == VERSION_1;
    assert AsKeys(ScanOpening(cfg)) <= open + [Enter];
    assert fed == Scan(Parse(MAGIC + s.body));
    ShortCodeSpells(cfg, open + [Enter], Chars(rest), fed);
    assert s'.held == "" && s'.body == "" && s'.since == None;
    assert Consistent(cfg, s', []);
  }

  /** Enter: swallowed, the end of a short task code, part of a frame, or typing. */
  lemma EnterAccounts(cfg: Config, s: State, now: nat, a: Account) returns (a': Account)
    requires Balanced(cfg, s, a)
    ensures var (s', fed) := EnterStep(cfg, s, now);
            Balanced(cfg, s', a') && Follows(a, [Enter], Fed(fed), a')
  {
    var (s', fed) := EnterStep(cfg, s, now);
    if s.phase.Collect? || s.phase.Frame? {
      if s.phase.Frame? {
        EnterInFrame(cfg, s, now, a.open);
      } else {
        EnterInCode(cfg, s, now, a.open);
      }
      a' := CodeKeyAccounts(cfg, s, Enter, s', fed, a);
    } else {
      var g := if s.swallowEnter then SwallowedEnter else Typing(a.open + [Enter]);
      LastKeyBalances(cfg, s, a, Enter, g, s');
      a' := Closed(Extended(a, Enter), g);
    }
  }

  lemma KeyAccounts(cfg: Config, s: State, key: Key, now: nat, a: Account) returns (a': Account)
    requires Balanced(cfg, s, a)
    ensures var (s', fed) := KeyStep(cfg, s, key, now);
            Balanced(cfg, s', a') && Follows(a, [key], Fed(fed), a')
  {
    match key {
      case Char(c) => a' := CharAccounts(cfg, s, c, now, a);
      case Enter => a' := EnterAccounts(cfg, s, now, a);
    }
  }

  /** What an expiry hands back goes before what the key does; a key that meets
      a detector just emptied cannot complete a code. */
  lemma StaleKeysGoFirst(cfg: Config, s: State, key: Key, now: nat)
    requires s.phase.Idle? && !s.swallowEnter
    ensures var (_, fed) := KeyStep(cfg, s, key, now); fed.Held? || fed.Pass?
  {
  }

  function Merge(stale: Expired, fed: Feed): Feed {
    match (stale, fed)
    case (Keys(keys), Pass(more)) => Pass(keys + more)
    case (Keys(keys), Held) => Pass(keys)
    case _ => fed
  }

  lemma MergeFollows(a: Account, stale: Expired, a1: Account, key: Key, fed: Feed, a2: Account)
    requires Follows(a, [], Stale(stale), a1) && Follows(a1, [key], Fed(fed), a2)
    requires stale.Keys? ==> fed.Held? || fed.Pass?
    ensures Follows(a, [key], Fed(Merge(stale, fed)), a2)
  {
  }

  lemma StepAccounts(cfg: Config, s: State, op: Op, a: Account) returns (a': Account)
    requires Balanced(cfg, s, a)
    ensures var (s', out) := StepOf(cfg, s, op);
            Balanced(cfg, s', a') && Follows(a, if op.Push? then [op.key] else [], out, a')
  {
    var a1 := ExpireAccounts(cfg, s, op.now, a);
    match op {
      case Expire(now) => a' := a1;
      case Push(key, now) =>
        var (s1, stale) := ExpireStep(cfg, s, now);
        a' := KeyAccounts(cfg, s1, key, now, a1);
        var (s2, fed) := KeyStep(cfg, s1, key, now);
        if stale.Keys? {
          StaleKeysGoFirst(cfg, s1, key, now);
        }
        MergeFollows(a, stale, a1, key, fed, a');
        assert PushStep(cfg, s, key, now) == (s2, Merge(stale, fed));
    }
  }

  predicate FollowsAll(a: Account, keys: seq<Key>, outs: seq<Output>, a': Account) {
    && a'.typed == a.typed + keys
    && a'.handed == a.handed + Handed(outs)
    && a'.feeds == a.feeds + Dispatched(outs)
  }

  lemma FollowsCons(
    a: Account, keys: seq<Key>, out: Output, a1: Account, more: seq<Key>, outs: seq<Output>, a': Account)
    requires Follows(a, keys, out, a1) && FollowsAll(a1, more, outs, a')
    ensures FollowsAll(a, keys + more, [out] + outs, a')
  {
    assert ([out] + outs)[1..] == outs;
  }

  /** Whatever is typed, at whatever readings of the clock: the keys handed
      back, the codes dispatched and the keys still held account for every key
      typed, each once and in order. */
  lemma {:induction false} RunAccounts(cfg: Config, s: State, ops: seq<Op>, a: Account) returns (a': Account)
    requires Balanced(cfg, s, a)
    ensures var (s', outs) := Run(cfg, s, ops);
            Balanced(cfg, s', a') && FollowsAll(a, Typed(ops), outs, a')
    decreases |ops|
  {
    if ops == [] {
      a' := a;
    } else {
      var (s1, out) := StepOf(cfg, s, ops[0]);
      var a1 := StepAccounts(cfg, s, ops[0], a);
      a' := RunAccounts(cfg, s1, ops[1..], a1);
      FollowsCons(
        a, if ops[0].Push? then [ops[0].key] else [], out, a1, Typed(ops[1..]), Run(cfg, s1, ops[1..]).1, a');
    }
  }

  /** From a fresh detector: the whole account of a run. */
  lemma EveryKeyIsAccountedFor(cfg: Config, ops: seq<Op>) returns (a: Account)
    ensures var (s', outs) := Run(cfg, FRESH, ops);
            Balanced(cfg, s', a) && a.typed == Typed(ops) && a.handed == Handed(outs) && a.feeds == Dispatched(outs)
  {
    a := RunAccounts(cfg, FRESH, ops, NOTHING_TYPED);
  }

  /** `part` lies somewhere in `whole`, unbroken. */
  ghost predicate Within(part: seq<Key>, whole: seq<Key>) {
    exists i :: LiesAt(part, whole, i)
  }

  predicate LiesAt(part: seq<Key>, whole: seq<Key>, i: int) {
    0 <= i <= |whole| - |part| && whole[i..i + |part|] == part
  }

  lemma WithinConcat(part: seq<Key>, pre: seq<Key>, mid: seq<Key>, post: seq<Key>)
    requires part <= mid
    ensures Within(part, pre + mid + post)
  {
    var whole := pre + mid + post;
    assert whole[|pre|..|pre| + |part|] == mid[..|part|] == part;
    assert LiesAt(part, whole, |pre|);
  }

  lemma {:induction false} SegmentWithin(segs: seq<Segment>, i: nat, open: seq<Key>, part: seq<Key>)
    requires i < |segs| && part <= KeysOf(segs[i])
    ensures Within(part, AllKeys(segs) + open)
    decreases |segs|
  {
    var n := |segs| - 1;
    var last := KeysOf(segs[n]);
    if i == n {
      WithinConcat(part, AllKeys(segs[..n]), last, open);
    } else {
      SegmentWithin(segs[..n], i, last + open, part);
      assert AllKeys(segs[..n]) + (last + open) == AllKeys(segs) + open;
    }
  }

  lemma {:induction false} OnlyTyping(segs: seq<Segment>)
    requires forall i :: 0 <= i < |segs| ==> segs[i].Typing?
    ensures AllKeys(segs) == TypingKeys(segs) && Feeds(segs) == []
  {
    if segs != [] {
      OnlyTyping(segs[..|segs| - 1]);
    }
  }

  /** A person's typing: with no opening of a code in it, nothing is lost,
      doubled or reordered, and nothing is dispatched. */
  lemma PlainTypingPasses(cfg: Config, ops: seq<Op>)
    requires !Within(AsKeys(ScanOpening(cfg)), Typed(ops)) && !Within(AsKeys(FrameOpening(cfg)), Typed(ops))
    ensures var (s', outs) := Run(cfg, FRESH, ops);
            Handed(outs) + AsKeys(s'.held) == Typed(ops) && Dispatched(outs) == []
  {
    var a := EveryKeyIsAccountedFor(cfg, ops);
    var (s', _) := Run(cfg, FRESH, ops);
    NoOpeningNoCode(cfg, a);
    OnlyTyping(a.segs);
    if s'.phase.Collect? || s'.phase.Frame? {
      WithinConcat(AsKeys(s'.held), AllKeys(a.segs), a.open, []);
      assert AllKeys(a.segs) + a.open + [] == a.typed;
    }
  }

  lemma NoOpeningNoCode(cfg: Config, a: Account)
    requires SegmentsOk(cfg, a.segs) && a.typed == AllKeys(a.segs) + a.open
    requires !Within(AsKeys(ScanOpening(cfg)), a.typed) && !Within(AsKeys(FrameOpening(cfg)), a.typed)
    ensures forall i :: 0 <= i < |a.segs| ==> a.segs[i].Typing?
  {
    forall i | 0 <= i < |a.segs| ensures a.segs[i].Typing? {
      assert SegmentOk(cfg, a.segs, i);
      var j := if a.segs[i].SwallowedEnter? then i - 1 else i;
      assert SegmentOk(cfg, a.segs, j);
      if AsKeys(ScanOpening(cfg)) <= KeysOf(a.segs[j]) {
        SegmentWithin(a.segs, j, a.open, AsKeys(ScanOpening(cfg)));
      }
      if AsKeys(FrameOpening(cfg)) <= KeysOf(a.segs[j]) {
        SegmentWithin(a.segs, j, a.open, AsKeys(FrameOpening(cfg)));
      }
    }
  }
}
