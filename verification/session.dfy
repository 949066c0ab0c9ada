/** The SMELLIE bring-up session as a script of sends and waits, and the
    reference interpreter that plays a script against the tokens the
    controller delivers.

    Each stage function of the driver is a short script (send a command, wait
    for a status, or both); `main` runs twelve of them in a fixed order.
    `Exec` says what playing a script does: which events appear on the wire,
    how the session ends and which tokens remain unread. Any failing
    classification ends the script on the spot, which is how the driver's
    process exit is modelled.
 */
module Session {

  import opened Flags
  import opened Protocol

  /** One step of a stage: send a token, or block until a token arrives. */
  datatype Action = Send(payload: Token) | Await(at: WaitPoint)

  /** One entry of the wire transcript. A received token is tagged with the
      wait point it was read for. */
  datatype Event = Sent(payload: Token) | Received(at: WaitPoint, data: Token)

  /** How a session (or a stage) ends: it ran to the end, it failed with a
      diagnosis at a wait point (the token that caused it attached), or the
      controller delivered no more tokens while the driver was waiting. */
  datatype Status =
    | Done
    | Failed(at: WaitPoint, reason: Reason, data: Token)
    | Blocked(at: WaitPoint)

  /** The result of playing a script: how it ended, the transcript it
      produced, and the tokens left unread. */
  datatype Run = Run(status: Status, events: seq<Event>, rest: seq<Token>)

  /** The tokens a transcript received, in order. */
  function Tokens(events: seq<Event>): seq<Token> {
    if events == [] then []
    else (if events[0].Received? then [events[0].data] else []) + Tokens(events[1..])
  }

  /** The tokens a transcript sent, in order: the driver's send log. */
  function Sends(events: seq<Event>): seq<Token> {
    if events == [] then []
    else (if events[0].Sent? then [events[0].payload] else []) + Sends(events[1..])
  }

  /** Puts earlier transcript entries in front of a run. */
  function Glue(earlier: seq<Event>, r: Run): Run {
    Run(r.status, earlier + r.events, r.rest)
  }

  /** Plays `script` against the tokens `pending` the controller delivers. */
  function Exec(script: seq<Action>, pending: seq<Token>): Run
    decreases |script|, |pending|
  {
    if script == [] then Run(Done, [], pending)
    else match script[0]
      case Send(t) => Glue([Sent(t)], Exec(script[1..], pending))
      case Await(w) =>
        if pending == [] then Run(Blocked(w), [], [])
        else if SkipsEmpty(w) && pending[0] == "" then
          Glue([Received(w, "")], Exec(script, pending[1..]))
        else match Classify(w, pending[0])
          case Advance => Glue([Received(w, pending[0])], Exec(script[1..], pending[1..]))
          case Reject(why) => Run(Failed(w, why, pending[0]), [Received(w, pending[0])], pending[1..])
  }

  /** The transcript receives exactly a prefix of the tokens delivered, in
      order, and leaves the remainder unread. */
  lemma {:induction false} ExecReadsPrefix(script: seq<Action>, pending: seq<Token>)
    ensures Tokens(Exec(script, pending).events) + Exec(script, pending).rest == pending
    decreases |script|, |pending|
  {
    if script != [] {
      match script[0]
      case Send(t) =>
        var r := Exec(script[1..], pending);
        ExecReadsPrefix(script[1..], pending);
        assert ([Sent(t)] + r.events)[1..] == r.events;
      case Await(w) =>
        if pending != [] {
          if SkipsEmpty(w) && pending[0] == "" {
            var r := Exec(script, pending[1..]);
            ExecReadsPrefix(script, pending[1..]);
            assert ([Received(w, "")] + r.events)[1..] == r.events;
          } else if Classify(w, pending[0]) == Advance {
            var r := Exec(script[1..], pending[1..]);
            ExecReadsPrefix(script[1..], pending[1..]);
            assert ([Received(w, pending[0])] + r.events)[1..] == r.events;
          } else {
            assert [Received(w, pending[0])][1..] == [];
          }
        }
    }
  }

  /** One step of Exec: a send goes out and the script continues. */
  lemma ExecSend(t: Token, rest: seq<Action>, pending: seq<Token>)
    ensures Exec([Send(t)] + rest, pending) == Glue([Sent(t)], Exec(rest, pending))
  {
    assert ([Send(t)] + rest)[1..] == rest;
  }

  /** One step of Exec: a classified token that advances is logged and the
      script continues on the following tokens. */
  lemma ExecAdvance(w: WaitPoint, rest: seq<Action>, data: Token, more: seq<Token>)
    requires Classify(w, data) == Advance && !(SkipsEmpty(w) && data == "")
    ensures Exec([Await(w)] + rest, [data] + more) == Glue([Received(w, data)], Exec(rest, more))
  {
    assert ([Await(w)] + rest)[1..] == rest;
    assert ([data] + more)[1..] == more;
  }

  /** One step of Exec: a classified token that fails ends the run there. */
  lemma ExecReject(w: WaitPoint, rest: seq<Action>, data: Token, more: seq<Token>)
    requires Classify(w, data).Reject? && !(SkipsEmpty(w) && data == "")
    ensures Exec([Await(w)] + rest, [data] + more)
         == Run(Failed(w, Classify(w, data).reason, data), [Received(w, data)], more)
  {
    assert ([data] + more)[1..] == more;
  }

  /** Continues a run with a further script, if the run got to its end. */
  function Then(r: Run, next: seq<Action>): Run {
    if r.status == Done then Glue(r.events, Exec(next, r.rest)) else r
  }

  /** Playing two scripts one after the other is playing their concatenation:
      the second starts on the tokens the first left unread, and only if the
      first ran to its end. */
  lemma {:induction false} Chain(a: seq<Action>, b: seq<Action>, pending: seq<Token>)
    ensures Exec(a + b, pending) == Then(Exec(a, pending), b)
    decreases |a|, |pending|
  {
    if a == [] {
      assert a + b == b;
    } else {
      var ab := a + b;
      assert ab[0] == a[0];
      assert ab[1..] == a[1..] + b;
      if a[0].Send? {
        var e := Sent(a[0].payload);
        Chain(a[1..], b, pending);
        assert Exec(ab, pending) == Glue([e], Exec(ab[1..], pending));
        ThenGlue([e], Exec(a[1..], pending), b);
      } else if pending != [] {
        var w := a[0].at;
        if SkipsEmpty(w) && pending[0] == "" {
          var e := Received(w, "");
          Chain(a, b, pending[1..]);
          assert Exec(ab, pending) == Glue([e], Exec(ab, pending[1..]));
          ThenGlue([e], Exec(a, pending[1..]), b);
        } else if Classify(w, pending[0]).Advance? {
          var e := Received(w, pending[0]);
          Chain(a[1..], b, pending[1..]);
          assert Exec(ab, pending) == Glue([e], Exec(ab[1..], pending[1..]));
          ThenGlue([e], Exec(a[1..], pending[1..]), b);
        }
      }
    }
  }

  /** Continuing a run commutes with putting earlier entries in front of it. */
  lemma ThenGlue(earlier: seq<Event>, r: Run, next: seq<Action>)
    ensures Then(Glue(earlier, r), next) == Glue(earlier, Then(r, next))
  {
    if r.status == Done {
      assert (earlier + r.events) + Exec(next, r.rest).events == earlier + (r.events + Exec(next, r.rest).events);
    }
  }

  /** A received entry that let the session go on: its token advanced its
      wait point, or it was an empty token the wait point discards. */
  predicate Passed(e: Event) {
    e.Received? ==> Classify(e.at, e.data) == Advance || (SkipsEmpty(e.at) && e.data == "")
  }

  /** Fail-fast: a failing run ends its transcript with the receipt of the
      token that failed, whose classification is the run's diagnosis; every
      other token received was accepted. So nothing is sent or received after
      the first failing classification. A blocked run has read everything. */
  lemma {:induction false} FailFast(script: seq<Action>, pending: seq<Token>)
    ensures var r := Exec(script, pending);
      && (r.status.Failed? ==>
            && r.events != []
            && r.events[|r.events| - 1] == Received(r.status.at, r.status.data)
            && Classify(r.status.at, r.status.data) == Reject(r.status.reason))
      && (forall i | 0 <= i < |r.events| && !(r.status.Failed? && i == |r.events| - 1) :: Passed(r.events[i]))
      && (r.status.Blocked? ==> r.rest == [])
    decreases |script|, |pending|
  {
    if script != [] && script[0].Send? {
      FailFast(script[1..], pending);
      GluePassed(Sent(script[0].payload), Exec(script[1..], pending));
    } else if script != [] && pending != [] {
      var w := script[0].at;
      if SkipsEmpty(w) && pending[0] == "" {
        FailFast(script, pending[1..]);
        GluePassed(Received(w, ""), Exec(script, pending[1..]));
      } else if Classify(w, pending[0]) == Advance {
        FailFast(script[1..], pending[1..]);
        GluePassed(Received(w, pending[0]), Exec(script[1..], pending[1..]));
      }
    }
  }

  /** Helper for FailFast: putting an accepted entry in front of a run keeps
      the run's fail-fast shape. */
  lemma GluePassed(e: Event, r: Run)
    requires Passed(e)
    requires r.status.Failed? ==> r.events != [] && r.events[|r.events| - 1] == Received(r.status.at, r.status.data)
    requires forall i | 0 <= i < |r.events| && !(r.status.Failed? && i == |r.events| - 1) :: Passed(r.events[i])
    ensures var g := Glue([e], r);
      && (g.status.Failed? ==> g.events[|g.events| - 1] == Received(g.status.at, g.status.data))
      && (forall i | 0 <= i < |g.events| && !(g.status.Failed? && i == |g.events| - 1) :: Passed(g.events[i]))
  {
    var g := Glue([e], r);
    forall i | 0 <= i < |g.events| && !(g.status.Failed? && i == |g.events| - 1)
      ensures Passed(g.events[i])
    {
      if i > 0 {
        assert g.events[i] == r.events[i - 1];
      }
    }
  }

  /** The number of empty tokens at the front of a token sequence. */
  function LeadingEmpty(ts: seq<Token>): (k: nat)
    ensures k <= |ts|
    ensures forall i | 0 <= i < k :: ts[i] == ""
    ensures k < |ts| ==> ts[k] != ""
  {
    if ts == [] || ts[0] != "" then 0 else 1 + LeadingEmpty(ts[1..])
  }

  /** At a wait that discards empty tokens, the leading empty tokens are read
      and logged, and the wait then behaves as if they had never been sent. */
  lemma {:induction false} SkipEmpties(script: seq<Action>, pending: seq<Token>, n: nat)
    requires script != [] && script[0].Await? && SkipsEmpty(script[0].at)
    requires n <= |pending| && forall i | 0 <= i < n :: pending[i] == ""
    ensures Exec(script, pending) == Glue(seq(n, _ => Received(script[0].at, "")), Exec(script, pending[n..]))
  {
    if n > 0 {
      SkipEmpties(script, pending[1..], n - 1);
      assert pending[1..][n - 1..] == pending[n..];
      assert [Received(script[0].at, "")] + seq(n - 1, _ => Received(script[0].at, ""))
          == seq(n, _ => Received(script[0].at, ""));
    } else {
      assert pending[0..] == pending;
    }
  }

  /** The tokens that make every wait of a script advance, in order. */
  function Expected(script: seq<Action>): seq<Token> {
    if script == [] then []
    else (if script[0].Await? then [SuccessCode(script[0].at)] else []) + Expected(script[1..])
  }

  /** The commands a script sends, in order. */
  function Payloads(script: seq<Action>): seq<Token> {
    if script == [] then []
    else (if script[0].Send? then [script[0].payload] else []) + Payloads(script[1..])
  }

  /** The transcript entry of one action whose wait receives its success code. */
  function IdealEvent(a: Action): Event {
    match a
    case Send(t) => Sent(t)
    case Await(w) => Received(w, SuccessCode(w))
  }

  /** The transcript of a script in which every wait receives its success code. */
  function IdealLog(script: seq<Action>): seq<Event> {
    if script == [] then []
    else [IdealEvent(script[0])] + IdealLog(script[1..])
  }

  /** When every wait receives its success code, the script runs to its end,
      reads exactly those tokens, and sends exactly its commands. */
  lemma {:induction false} HappyPath(script: seq<Action>, extra: seq<Token>)
    ensures Exec(script, Expected(script) + extra) == Run(Done, IdealLog(script), extra)
    ensures Sends(IdealLog(script)) == Payloads(script)
  {
    if script != [] {
      HappyPath(script[1..], extra);
      var log := IdealLog(script);
      assert log == [IdealEvent(script[0])] + IdealLog(script[1..]);
      assert log[1..] == IdealLog(script[1..]);
      var p := Expected(script) + extra;
      if script[0].Send? {
        assert Expected(script) == Expected(script[1..]);
        assert Exec(script, p) == Glue([Sent(script[0].payload)], Exec(script[1..], p));
      } else {
        var w := script[0].at;
        assert Expected(script) == [SuccessCode(w)] + Expected(script[1..]);
        assert p[0] == SuccessCode(w) && p[1..] == Expected(script[1..]) + extra;
        CodeNonEmpty(if w == ConnectionWait then CheckConnectionFlag else ContinueFlag);
        AdvancesOnlyOnSuccess(w, p[0]);
        assert Exec(script, p) == Glue([Received(w, p[0])], Exec(script[1..], p[1..]));
      }
    }
  }

  /** Expected distributes over concatenation. */
  lemma {:induction false} ExpectedAppend(a: seq<Action>, b: seq<Action>)
    ensures Expected(a + b) == Expected(a) + Expected(b)
  {
    if a == [] {
      assert a + b == b;
    } else {
      assert (a + b)[1..] == a[1..] + b;
      ExpectedAppend(a[1..], b);
    }
  }

  /** Payloads distributes over concatenation. */
  lemma {:induction false} PayloadsAppend(a: seq<Action>, b: seq<Action>)
    ensures Payloads(a + b) == Payloads(a) + Payloads(b)
  {
    if a == [] {
      assert a + b == b;
    } else {
      assert (a + b)[1..] == a[1..] + b;
      PayloadsAppend(a[1..], b);
    }
  }

  // ---------------------------------------------------------------------
  // The stages and their order
  // ---------------------------------------------------------------------

  /** The run parameters `main` hands to the stages. */
  datatype Config = Config(
    lsChannel: Token,
    intensity: Token,
    frequencyMode: Token,
    fsChannel: Token,
    numberOfPulses: Token,
    triggerFrequency: Token)

  /** The stage functions of the driver. */
  datatype Stage =
    | CheckConnection
    | Initialise
    | CheckSepiaConnection
    | CheckLaserSwitch
    | CheckSafeStates
    | SetLsChannel
    | SetLaserParameters
    | CheckSelfTest
    | SetFsChannel
    | SetNiPulseNumber
    | SetNiTriggerFrequency
    | RunCompletion

  /** What each stage sends and waits for, in order. */
  function StageScript(s: Stage, cfg: Config): seq<Action> {
    match s
    case CheckConnection => [Await(ConnectionWait)]
    case Initialise => [Send(Code(StartInitialiseFlag))]
    case CheckSepiaConnection => [Await(SepiaWait)]
    case CheckLaserSwitch => [Await(LaserSwitchWait)]
    case CheckSafeStates => [Await(SafeStateWait), Send(Code(SetupRunFlag))]
    case SetLsChannel => [Send(cfg.lsChannel), Await(LsChannelAckWait), Await(LsChannelRebootWait)]
    case SetLaserParameters =>
      [Send(cfg.intensity), Await(IntensityWait), Send(cfg.frequencyMode), Await(FrequencyWait)]
    case CheckSelfTest => [Await(SelfTestWait)]
    case SetFsChannel => [Send(cfg.fsChannel), Await(FibreSwitchWait)]
    case SetNiPulseNumber => [Send(cfg.numberOfPulses), Await(PulseNumberWait)]
    case SetNiTriggerFrequency => [Send(cfg.triggerFrequency), Await(TriggerFrequencyWait)]
    case RunCompletion => [Await(RunCompletionWait)]
  }

  /** The whole session: the stages in the order `main` calls them. */
  function SessionScript(cfg: Config): seq<Action> {
    StageScript(CheckConnection, cfg)
    + StageScript(Initialise, cfg)
    + StageScript(CheckSepiaConnection, cfg)
    + StageScript(CheckLaserSwitch, cfg)
    + StageScript(CheckSafeStates, cfg)
    + StageScript(SetLsChannel, cfg)
    + StageScript(SetLaserParameters, cfg)
    + StageScript(CheckSelfTest, cfg)
    + StageScript(SetFsChannel, cfg)
    + StageScript(SetNiPulseNumber, cfg)
    + StageScript(SetNiTriggerFrequency, cfg)
    + StageScript(RunCompletion, cfg)
  }

  /** The session played against the tokens the controller delivers. */
  function SessionRun(cfg: Config, input: seq<Token>): Run {
    Exec(SessionScript(cfg), input)
  }

  /** The commands of a complete session, stage by stage in `main`'s order. */
  function FullSends(cfg: Config): seq<Token> {
    StageCommands(CheckConnection, cfg)
    + StageCommands(Initialise, cfg)
    + StageCommands(CheckSepiaConnection, cfg)
    + StageCommands(CheckLaserSwitch, cfg)
    + StageCommands(CheckSafeStates, cfg)
    + StageCommands(SetLsChannel, cfg)
    + StageCommands(SetLaserParameters, cfg)
    + StageCommands(CheckSelfTest, cfg)
    + StageCommands(SetFsChannel, cfg)
    + StageCommands(SetNiPulseNumber, cfg)
    + StageCommands(SetNiTriggerFrequency, cfg)
    + StageCommands(RunCompletion, cfg)
  }

  /** The replies of a fully successful session, stage by stage in `main`'s order. */
  function SuccessTokens(): seq<Token> {
    StageReplies(CheckConnection)
    + StageReplies(Initialise)
    + StageReplies(CheckSepiaConnection)
    + StageReplies(CheckLaserSwitch)
    + StageReplies(CheckSafeStates)
    + StageReplies(SetLsChannel)
    + StageReplies(SetLaserParameters)
    + StageReplies(CheckSelfTest)
    + StageReplies(SetFsChannel)
    + StageReplies(SetNiPulseNumber)
    + StageReplies(SetNiTriggerFrequency)
    + StageReplies(RunCompletion)
  }

  /** A complete session sends "20", "70", the laser-switch channel, the
      intensity, the frequency mode, the fibre-switch channel, the pulse count
      and the trigger frequency, in that order. */
  lemma FullSendsInOrder(cfg: Config)
    ensures FullSends(cfg) == ["20", "70", cfg.lsChannel, cfg.intensity, cfg.frequencyMode,
                               cfg.fsChannel, cfg.numberOfPulses, cfg.triggerFrequency]
  {
  }

  /** A fully successful session reads "10" and then twelve "5189". */
  lemma SuccessTokensInOrder()
    ensures SuccessTokens() == ["10"] + seq(12, _ => "5189")
  {
  }

  /** Expected and Payloads of a non-empty script, split at its first action. */
  lemma UnfoldFirst(script: seq<Action>)
    requires script != []
    ensures Expected(script) == (if script[0].Await? then [SuccessCode(script[0].at)] else []) + Expected(script[1..])
    ensures Payloads(script) == (if script[0].Send? then [script[0].payload] else []) + Payloads(script[1..])
  {
  }

  /** The replies that make each stage advance. */
  function StageReplies(s: Stage): seq<Token> {
    match s
    case CheckConnection => [Code(CheckConnectionFlag)]
    case Initialise => []
    case SetLsChannel => [Code(ContinueFlag), Code(ContinueFlag)]
    case SetLaserParameters => [Code(ContinueFlag), Code(ContinueFlag)]
    case _ => [Code(ContinueFlag)]
  }

  /** The commands each stage sends when every reply is a success. */
  function StageCommands(s: Stage, cfg: Config): seq<Token> {
    match s
    case Initialise => [Code(StartInitialiseFlag)]
    case CheckSafeStates => [Code(SetupRunFlag)]
    case SetLsChannel => [cfg.lsChannel]
    case SetLaserParameters => [cfg.intensity, cfg.frequencyMode]
    case SetFsChannel => [cfg.fsChannel]
    case SetNiPulseNumber => [cfg.numberOfPulses]
    case SetNiTriggerFrequency => [cfg.triggerFrequency]
    case _ => []
  }

  /** Each stage's script needs exactly its success replies and sends exactly
      its commands. */
  lemma StageTables(s: Stage, cfg: Config)
    ensures Expected(StageScript(s, cfg)) == StageReplies(s)
    ensures Payloads(StageScript(s, cfg)) == StageCommands(s, cfg)
  {
    if |StageScript(s, cfg)| == 1 {
      ShortStageTables(s, cfg);
    } else if |StageScript(s, cfg)| == 2 {
      PairStageTables(s, cfg);
    } else if |StageScript(s, cfg)| == 3 {
      TripleStageTables(s, cfg);
    } else {
      QuadStageTables(s, cfg);
    }
  }

  /** StageTables for the stages that are a single send or a single wait. */
  lemma ShortStageTables(s: Stage, cfg: Config)
    requires |StageScript(s, cfg)| == 1
    ensures Expected(StageScript(s, cfg)) == StageReplies(s)
    ensures Payloads(StageScript(s, cfg)) == StageCommands(s, cfg)
  {
    var sc := StageScript(s, cfg);
    UnfoldFirst(sc);
    assert sc[1..] == [];
  }

  /** StageTables for the stages made of two actions. */
  lemma PairStageTables(s: Stage, cfg: Config)
    requires |StageScript(s, cfg)| == 2
    ensures Expected(StageScript(s, cfg)) == StageReplies(s)
    ensures Payloads(StageScript(s, cfg)) == StageCommands(s, cfg)
  {
    var sc := StageScript(s, cfg);
    UnfoldFirst(sc);
    UnfoldFirst(sc[1..]);
    assert sc[1..][1..] == [];
  }

  /** StageTables for set_ls_channel, the stage of three actions. */
  lemma TripleStageTables(s: Stage, cfg: Config)
    requires |StageScript(s, cfg)| == 3
    ensures Expected(StageScript(s, cfg)) == StageReplies(s)
    ensures Payloads(StageScript(s, cfg)) == StageCommands(s, cfg)
  {
    var sc := StageScript(s, cfg);
    UnfoldFirst(sc);
    UnfoldFirst(sc[1..]);
    assert sc[1..][1..] == sc[2..];
    UnfoldFirst(sc[2..]);
    assert sc[2..][1..] == [];
  }

  /** StageTables for set_laser_parameters, the stage of four actions. */
  lemma QuadStageTables(s: Stage, cfg: Config)
    requires |StageScript(s, cfg)| == 4
    ensures Expected(StageScript(s, cfg)) == StageReplies(s)
    ensures Payloads(StageScript(s, cfg)) == StageCommands(s, cfg)
  {
    var sc := StageScript(s, cfg);
    UnfoldFirst(sc);
    UnfoldFirst(sc[1..]);
    assert sc[1..][1..] == sc[2..];
    UnfoldFirst(sc[2..]);
    assert sc[2..][1..] == sc[3..];
    UnfoldFirst(sc[3..]);
    assert sc[3..][1..] == [];
  }




  /** Appending a stage to a script appends its replies to the expected tokens. */
  lemma ExtendExpected(pre: seq<Action>, s: Stage, cfg: Config)
    ensures Expected(pre + StageScript(s, cfg)) == Expected(pre) + StageReplies(s)
  {
    ExpectedAppend(pre, StageScript(s, cfg));
    StageTables(s, cfg);
  }

  /** Appending a stage to a script appends its commands to the payloads. */
  lemma ExtendPayloads(pre: seq<Action>, s: Stage, cfg: Config)
    ensures Payloads(pre + StageScript(s, cfg)) == Payloads(pre) + StageCommands(s, cfg)
  {
    PayloadsAppend(pre, StageScript(s, cfg));
    StageTables(s, cfg);
  }

  /** The tokens a fully successful session reads. */
  lemma SessionExpected(cfg: Config)
    ensures Expected(SessionScript(cfg)) == SuccessTokens()
  {
    var s1 := StageScript(CheckConnection, cfg);
    var s2 := s1 + StageScript(Initialise, cfg);
    var s3 := s2 + StageScript(CheckSepiaConnection, cfg);
    var s4 := s3 + StageScript(CheckLaserSwitch, cfg);
    var s5 := s4 + StageScript(CheckSafeStates, cfg);
    var s6 := s5 + StageScript(SetLsChannel, cfg);
    var s7 := s6 + StageScript(SetLaserParameters, cfg);
    var s8 := s7 + StageScript(CheckSelfTest, cfg);
    var s9 := s8 + StageScript(SetFsChannel, cfg);
    var s10 := s9 + StageScript(SetNiPulseNumber, cfg);
    var s11 := s10 + StageScript(SetNiTriggerFrequency, cfg);
    var s12 := s11 + StageScript(RunCompletion, cfg);
    StageTables(CheckConnection, cfg);
    ExtendExpected(s1, Initialise, cfg);
    ExtendExpected(s2, CheckSepiaConnection, cfg);
    ExtendExpected(s3, CheckLaserSwitch, cfg);
    ExtendExpected(s4, CheckSafeStates, cfg);
    ExtendExpected(s5, SetLsChannel, cfg);
    ExtendExpected(s6, SetLaserParameters, cfg);
    ExtendExpected(s7, CheckSelfTest, cfg);
    ExtendExpected(s8, SetFsChannel, cfg);
    ExtendExpected(s9, SetNiPulseNumber, cfg);
    ExtendExpected(s10, SetNiTriggerFrequency, cfg);
    ExtendExpected(s11, RunCompletion, cfg);
  }

  /** The commands a complete session sends, in order. */
  lemma SessionPayloads(cfg: Config)
    ensures Payloads(SessionScript(cfg)) == FullSends(cfg)
  {
    var s1 := StageScript(CheckConnection, cfg);
    var s2 := s1 + StageScript(Initialise, cfg);
    var s3 := s2 + StageScript(CheckSepiaConnection, cfg);
    var s4 := s3 + StageScript(CheckLaserSwitch, cfg);
    var s5 := s4 + StageScript(CheckSafeStates, cfg);
    var s6 := s5 + StageScript(SetLsChannel, cfg);
    var s7 := s6 + StageScript(SetLaserParameters, cfg);
    var s8 := s7 + StageScript(CheckSelfTest, cfg);
    var s9 := s8 + StageScript(SetFsChannel, cfg);
    var s10 := s9 + StageScript(SetNiPulseNumber, cfg);
    var s11 := s10 + StageScript(SetNiTriggerFrequency, cfg);
    var s12 := s11 + StageScript(RunCompletion, cfg);
    StageTables(CheckConnection, cfg);
    ExtendPayloads(s1, Initialise, cfg);
    ExtendPayloads(s2, CheckSepiaConnection, cfg);
    ExtendPayloads(s3, CheckLaserSwitch, cfg);
    ExtendPayloads(s4, CheckSafeStates, cfg);
    ExtendPayloads(s5, SetLsChannel, cfg);
    ExtendPayloads(s6, SetLaserParameters, cfg);
    ExtendPayloads(s7, CheckSelfTest, cfg);
    ExtendPayloads(s8, SetFsChannel, cfg);
    ExtendPayloads(s9, SetNiPulseNumber, cfg);
    ExtendPayloads(s10, SetNiTriggerFrequency, cfg);
    ExtendPayloads(s11, RunCompletion, cfg);
  }

  /** A session fed "10" and then twelve "5189" completes, having consumed
      exactly those thirteen tokens and sent the eight commands in order. */
  lemma CompleteRun(cfg: Config, extra: seq<Token>)
    ensures SessionRun(cfg, SuccessTokens() + extra).status == Done
    ensures SessionRun(cfg, SuccessTokens() + extra).rest == extra
    ensures Tokens(SessionRun(cfg, SuccessTokens() + extra).events) == SuccessTokens()
    ensures Sends(SessionRun(cfg, SuccessTokens() + extra).events) == FullSends(cfg)
    ensures SuccessTokens() == ["10"] + seq(12, _ => "5189")
    ensures FullSends(cfg) == ["20", "70", cfg.lsChannel, cfg.intensity, cfg.frequencyMode,
                               cfg.fsChannel, cfg.numberOfPulses, cfg.triggerFrequency]
  {
    var s := SessionScript(cfg);
    HappyPath(s, extra);
    SessionExpected(cfg);
    SessionPayloads(cfg);
    SuccessTokensInOrder();
    FullSendsInOrder(cfg);
    var r := SessionRun(cfg, SuccessTokens() + extra);
    ExecReadsPrefix(SessionScript(cfg), SuccessTokens() + extra);
    var t := Tokens(r.events);
    assert t + extra == SuccessTokens() + extra;
    assert t == (t + extra)[..|t|] == (SuccessTokens() + extra)[..|SuccessTokens()|];
  }
}
