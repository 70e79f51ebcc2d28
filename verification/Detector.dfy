/** The keystroke automaton that finds scanned codes in what is typed. The
    functions say what each step does to a snapshot of the detector; the class
    is the detector itself, updating its fields in place. */
module Detector {
  import opened Options
  import opened Text
  import opened Barcode

  const FRAME_CHAR := '-'
  const FRAME_VERSION := '1'

  datatype Key = Char(c: char) | Enter

  datatype Feed =
    | Pass(keys: seq<Key>)
    | Held
    | Scan(read: Result<ScanPayload, ScanError>)
    | FrameRead(body: string)

  datatype Expired = Nothing | Keys(keys: seq<Key>) | StaleScan | StaleFrame

  datatype Phase =
    | Idle
    | Prefix(n: nat)
    | PrefixDone
    | HalfMagic
    | Version
    | Collect(total: nat)
    | HalfFrame
    | FrameOpen
    | Frame(dash: bool)

  /** What a person sets up; a frame timeout of zero is never. */
  datatype Config = Config(prefix: string, enterTerminates: bool, timeout: nat, frameTimeout: nat)

  datatype State = State(
    phase: Phase, held: string, body: string, since: Option<nat>, swallowEnter: bool, lastScan: Option<nat>)

  const FRESH := State(Idle, "", "", None, false, None)

  function AsKeys(s: string): (r: seq<Key>)
    ensures |r| == |s| && forall i :: 0 <= i < |s| ==> r[i] == Char(s[i])
  {
    seq(|s|, i requires 0 <= i < |s| => Char(s[i]))
  }

  function Elapsed(since: nat, now: nat): nat {
    if now >= since then now - since else 0
  }

  function Reset(s: State): State {
    s.(phase := Idle, held := "", body := "", since := None)
  }

  function ExpireStep(cfg: Config, s: State, now: nat): (State, Expired) {
    if s.since.None? || s.phase.Idle? then (s, Nothing)
    else
      var age := Elapsed(s.since.value, now);
      if s.phase.Frame? then
        if cfg.frameTimeout == 0 || age <= cfg.frameTimeout then (s, Nothing) else (Reset(s), StaleFrame)
      else if age <= cfg.timeout then (s, Nothing)
      else if s.phase.Collect? || s.phase.Version? then (Reset(s), StaleScan)
      else (Reset(s), Keys(AsKeys(s.held)))
  }

  function StartStep(cfg: Config, s: State, c: char, now: nat): (State, Feed) {
    if cfg.prefix == "" then
      if c == MAGIC_CHAR then (s.(held := s.held + [c], phase := HalfMagic, since := Some(now)), Held)
      else if c == FRAME_CHAR then (s.(held := s.held + [c], phase := HalfFrame, since := Some(now)), Held)
      else (s, Pass([Char(c)]))
    else if cfg.prefix[0] == c then
      (s.(held := s.held + [c], phase := if |cfg.prefix| == 1 then PrefixDone else Prefix(1), since := Some(now)), Held)
    else (s, Pass([Char(c)]))
  }

  /** The character broke a partial match: what was held is typing after all,
      unless the character starts a match of its own. */
  function ReleaseStep(cfg: Config, s: State, c: char, now: nat): (State, Feed) {
    var out := AsKeys(s.held);
    var (s', fed) := StartStep(cfg, Reset(s), c, now);
    match fed
    case Held => (s', if out == [] then Held else Pass(out))
    case Pass(keys) => (s', Pass(out + keys))
    case _ => (s', fed)
  }

  function Took(s: State, now: nat): Option<nat> {
    if s.since.Some? then Some(Elapsed(s.since.value, now)) else None
  }

  function FinishStep(cfg: Config, s: State, now: nat): (State, Feed) {
    (Reset(s).(lastScan := Took(s, now), swallowEnter := cfg.enterTerminates), Scan(Parse(MAGIC + s.body)))
  }

  function FinishFrameStep(cfg: Config, s: State, now: nat): (State, Feed) {
    (Reset(s).(lastScan := Took(s, now), swallowEnter := cfg.enterTerminates), FrameRead(s.body))
  }

  /** A frame's text so far: a dash just seen is not yet in the body. */
  function Dashed(body: string, dash: bool): string {
    if dash then body + [FRAME_CHAR] else body
  }

  function CharStep(cfg: Config, s0: State, c: char, now: nat): (State, Feed) {
    var s := s0.(swallowEnter := false);
    match s.phase
    case Idle => StartStep(cfg, s, c, now)
    case Prefix(n) =>
      if n < |cfg.prefix| && cfg.prefix[n] == c then
        (s.(held := s.held + [c], phase := if n + 1 == |cfg.prefix| then PrefixDone else Prefix(n + 1)), Held)
      else ReleaseStep(cfg, s, c, now)
    case PrefixDone =>
      if c == MAGIC_CHAR then (s.(held := s.held + [c], phase := HalfMagic), Held)
      else if c == FRAME_CHAR then (s.(held := s.held + [c], phase := HalfFrame), Held)
      else ReleaseStep(cfg, s, c, now)
    case HalfMagic =>
      if c == MAGIC_CHAR then (s.(held := s.held + [c], phase := Version), Held) else ReleaseStep(cfg, s, c, now)
    case Version =>
      (match PayloadLen(c)
       case Some(total) => (s.(body := s.body + [c], phase := Collect(total)), Held)
       case None => (Reset(s), Scan(Err(UnknownVersion(c)))))
    case Collect(total) =>
      var s' := s.(body := s.body + [UpperChar(c)]);
      if |MAGIC| + |s'.body| >= total then FinishStep(cfg, s', now) else (s', Held)
    case HalfFrame =>
      if c == FRAME_CHAR then (s.(held := s.held + [c], phase := FrameOpen), Held) else ReleaseStep(cfg, s, c, now)
    case FrameOpen =>
      if c == FRAME_VERSION then (s.(held := s.held + [c], body := "", phase := Frame(false)), Held)
      else ReleaseStep(cfg, s, c, now)
    case Frame(dash) =>
      var s' := s.(since := Some(now));
      if c == FRAME_CHAR then
        if dash then FinishFrameStep(cfg, s', now) else (s'.(phase := Frame(true)), Held)
      else
        (s'.(body := Dashed(s.body, dash) + [c], phase := Frame(false)), Held)
  }

  function EnterStep(cfg: Config, s: State, now: nat): (State, Feed) {
    if s.swallowEnter then (s.(swallowEnter := false), Held)
    else
      match s.phase
      case Idle => (s, Pass([Enter]))
      case Collect(_) => FinishStep(cfg, s, now)
      case Frame(_) => (s.(since := Some(now)), Held)
      case _ => (Reset(s), Pass(AsKeys(s.held) + [Enter]))
  }

  function KeyStep(cfg: Config, s: State, key: Key, now: nat): (State, Feed) {
    match key
    case Char(c) => CharStep(cfg, s, c, now)
    case Enter => EnterStep(cfg, s, now)
  }

  function PushStep(cfg: Config, s: State, key: Key, now: nat): (State, Feed) {
    var (s1, stale) := ExpireStep(cfg, s, now);
    var (s2, fed) := KeyStep(cfg, s1, key, now);
    match (stale, fed)
    case (Keys(keys), Pass(more)) => (s2, Pass(keys + more))
    case (Keys(keys), Held) => (s2, Pass(keys))
    case _ => (s2, fed)
  }

  /** The detector. Each method does to the fields what its step does to a
      snapshot of them. */
  class ScanDetector {
    const cfg: Config
    var phase: Phase
    var held: string
    var body: string
    var since: Option<nat>
    var swallowEnter: bool
    var lastScan: Option<nat>

    constructor (config: Config)
      ensures cfg == config && Snapshot() == FRESH
    {
      cfg := config;
      phase, held, body, since, swallowEnter, lastScan := Idle, "", "", None, false, None;
    }

    function Snapshot(): State
      reads this
    {
      State(phase, held, body, since, swallowEnter, lastScan)
    }

    /** Esc on the keyboard: drop whatever is in progress. */
    method Cancel()
      modifies this
      ensures Snapshot() == Reset(old(Snapshot()))
    {
      phase, held, body, since := Idle, "", "", None;
    }

    method Expire(now: nat) returns (out: Expired)
      modifies this
      ensures (Snapshot(), out) == ExpireStep(cfg, old(Snapshot()), now)
    {
      if since.None? {
        return Nothing;
      }
      var age := Elapsed(since.value, now);
      match phase {
        case Idle => return Nothing;
        case Frame(_) =>
          if cfg.frameTimeout == 0 || age <= cfg.frameTimeout {
            return Nothing;
          }
          out := StaleFrame;
        case _ =>
          if age <= cfg.timeout {
            return Nothing;
          }
          out := if phase.Collect? || phase.Version? then StaleScan else Keys(AsKeys(held));
      }
      Cancel();
    }

    method Start(c: char, now: nat) returns (fed: Feed)
      modifies this
      ensures (Snapshot(), fed) == StartStep(cfg, old(Snapshot()), c, now)
    {
      if cfg.prefix == "" {
        if c == MAGIC_CHAR || c == FRAME_CHAR {
          held := held + [c];
          phase := if c == MAGIC_CHAR then HalfMagic else HalfFrame;
          since := Some(now);
          return Held;
        }
      } else if cfg.prefix[0] == c {
        held := held + [c];
        phase := if |cfg.prefix| == 1 then PrefixDone else Prefix(1);
        since := Some(now);
        return Held;
      }
      return Pass([Char(c)]);
    }

    method ReleaseWith(c: char, now: nat) returns (fed: Feed)
      modifies this
      ensures (Snapshot(), fed) == ReleaseStep(cfg, old(Snapshot()), c, now)
    {
      var out := AsKeys(held);
      Cancel();
      fed := Start(c, now);
      match fed {
        case Held => fed := if out == [] then Held else Pass(out);
        case Pass(keys) => fed := Pass(out + keys);
        case _ =>
      }
    }

    method Finish(now: nat) returns (fed: Feed)
      modifies this
      ensures (Snapshot(), fed) == FinishStep(cfg, old(Snapshot()), now)
    {
      var raw := MAGIC + body;
      lastScan := if since.Some? then Some(Elapsed(since.value, now)) else None;
      Cancel();
      swallowEnter := cfg.enterTerminates;
      fed := Scan(Parse(raw));
    }

    method FinishFrame(now: nat) returns (fed: Feed)
      modifies this
      ensures (Snapshot(), fed) == FinishFrameStep(cfg, old(Snapshot()), now)
    {
      var text := body;
      lastScan := if since.Some? then Some(Elapsed(since.value, now)) else None;
      Cancel();
      swallowEnter := cfg.enterTerminates;
      fed := FrameRead(text);
    }

    method Hold(c: char, next: Phase)
      modifies this
      ensures Snapshot() == old(Snapshot()).(held := old(held) + [c], phase := next)
    {
      held := held + [c];
      phase := next;
    }

    method PushChar(c: char, now: nat) returns (fed: Feed)
      modifies this
      ensures (Snapshot(), fed) == CharStep(cfg, old(Snapshot()), c, now)
    {
      swallowEnter := false;
      fed := Held;
      match phase {
        case Idle => fed := Start(c, now);
        case Prefix(n) =>
          if n < |cfg.prefix| && cfg.prefix[n] == c {
            Hold(c, if n + 1 == |cfg.prefix| then PrefixDone else Prefix(n + 1));
          } else {
            fed := ReleaseWith(c, now);
          }
        case PrefixDone =>
          if c == MAGIC_CHAR {
            Hold(c, HalfMagic);
          } else if c == FRAME_CHAR {
            Hold(c, HalfFrame);
          } else {
            fed := ReleaseWith(c, now);
          }
        case HalfMagic =>
          if c == MAGIC_CHAR { Hold(c, Version); } else { fed := ReleaseWith(c, now); }
        case Version =>
          match PayloadLen(c) {
            case Some(total) =>
              body := body + [c];
              phase := Collect(total);
            case None =>
              Cancel();
              fed := Scan(Err(UnknownVersion(c)));
          }
        case Collect(total) =>
          body := body + [UpperChar(c)];
          if |MAGIC| + |body| >= total {
            fed := Finish(now);
          }
        case HalfFrame =>
          if c == FRAME_CHAR { Hold(c, FrameOpen); } else { fed := ReleaseWith(c, now); }
        case FrameOpen =>
          if c == FRAME_VERSION {
            Hold(c, Frame(false));
            body := "";
          } else {
            fed := ReleaseWith(c, now);
          }
        case Frame(dash) =>
          since := Some(now);
          if c == FRAME_CHAR {
            if dash {
              fed := FinishFrame(now);
            } else {
              phase := Frame(true);
            }
          } else {
            if dash {
              body := body + [FRAME_CHAR];
            }
            body := body + [c];
            phase := Frame(false);
          }
      }
    }

    method PushEnter(now: nat) returns (fed: Feed)
      modifies this
      ensures (Snapshot(), fed) == EnterStep(cfg, old(Snapshot()), now)
    {
      if swallowEnter {
        swallowEnter := false;
        return Held;
      }
      match phase {
        case Idle => fed := Pass([Enter]);
        case Collect(_) => fed := Finish(now);
        case Frame(_) =>
          since := Some(now);
          fed := Held;
        case _ =>
          fed := Pass(AsKeys(held) + [Enter]);
          Cancel();
      }
    }

    method Push(key: Key, now: nat) returns (fed: Feed)
      modifies this
      ensures (Snapshot(), fed) == PushStep(cfg, old(Snapshot()), key, now)
    {
      var stale := Expire(now);
      match key {
        case Char(c) => fed := PushChar(c, now);
        case Enter => fed := PushEnter(now);
      }
      match (stale, fed) {
        case (Keys(keys), Pass(more)) => fed := Pass(keys + more);
        case (Keys(keys), Held) => fed := Pass(keys);
        case _ =>
      }
    }
  }
}
