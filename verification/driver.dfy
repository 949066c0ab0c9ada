/** The SMELLIE driver as it runs: a connection object whose incoming token
    queue shrinks and whose wire log grows, the stage functions that send and
    receive on it, and the main sequence that calls the stages in order and
    stops at the first failure.

    Every stage method is proved to do exactly what `Exec` of its script
    says, and `RunSession` exactly what `SessionRun` says, so all facts proved
    about the scripts (fail-fast, sends only after acknowledgement, the
    complete successful run) hold of the driver.
 */
module Driver {

  import opened Wrappers
  import opened Flags
  import opened Protocol
  import opened Session

  /** The connection to the SMELLIE controller: the tokens it will still
      deliver, in order, and the transcript of everything sent and received
      so far. */
  class Channel {
    var pending: seq<Token>
    var log: seq<Event>

    constructor (incoming: seq<Token>)
      ensures pending == incoming && log == []
    {
      pending := incoming;
      log := [];
    }

    /** Sends one token to the controller. */
    method Send(t: Token)
      modifies this
      ensures pending == old(pending)
      ensures log == old(log) + [Sent(t)]
    {
      log := log + [Sent(t)];
    }

    /** Reads the next token for wait point `at`; `None` when the controller
        has nothing more to deliver, in which case nothing changes. */
    method Recv(at: WaitPoint) returns (data: Option<Token>)
      modifies this
      ensures old(pending) == [] ==> data == None && pending == old(pending) && log == old(log)
      ensures old(pending) != [] ==>
        && data == Some(old(pending)[0])
        && pending == old(pending)[1..]
        && log == old(log) + [Received(at, old(pending)[0])]
    {
      if pending == [] {
        data := None;
      } else {
        data := Some(pending[0]);
        log := log + [Received(at, pending[0])];
        pending := pending[1..];
      }
    }
  }

  /** Going from tokens `p0` and transcript `log0` to status `status`,
      tokens `p1` and transcript `log1` is what playing `script` does. */
  predicate Follows(script: seq<Action>, p0: seq<Token>, log0: seq<Event>,
                    status: Status, p1: seq<Token>, log1: seq<Event>)
  {
    var r := Exec(script, p0);
    status == r.status && p1 == r.rest && log1 == log0 + r.events
  }

  /** Two steps, the second taken only if the first ran to its end, follow
      the concatenation of their scripts. */
  lemma FollowsThen(a: seq<Action>, b: seq<Action>,
                    p0: seq<Token>, log0: seq<Event>, s1: Status, p1: seq<Token>, log1: seq<Event>,
                    s2: Status, p2: seq<Token>, log2: seq<Event>)
    requires Follows(a, p0, log0, s1, p1, log1)
    requires s1 == Done ==> Follows(b, p1, log1, s2, p2, log2)
    requires s1 != Done ==> s2 == s1 && p2 == p1 && log2 == log1
    ensures Follows(a + b, p0, log0, s2, p2, log2)
  {
    Chain(a, b, p0);
    var r := Exec(a, p0);
    if s1 == Done {
      var r2 := Exec(b, r.rest);
      assert log0 + (r.events + r2.events) == (log0 + r.events) + r2.events;
    }
  }

  /** A send on its own: the one-action script `[Send(t)]`. */
  method SendCommand(link: Channel, t: Token) returns (status: Status)
    modifies link
    ensures status == Done
    ensures Follows([Send(t)], old(link.pending), old(link.log), status, link.pending, link.log)
  {
    link.Send(t);
    status := Done;
    ExecSend(t, [], link.pending);
  }

  /** One `recv` followed by the stage's if/elif chain over the token, at a
      wait point that takes the first token as it comes. */
  method AwaitStatus(link: Channel, w: WaitPoint) returns (status: Status)
    requires !SkipsEmpty(w)
    modifies link
    ensures Follows([Await(w)], old(link.pending), old(link.log), status, link.pending, link.log)
  {
    var data := link.Recv(w);
    if data.None? {
      status := Blocked(w);
    } else {
      var more := link.pending;
      assert old(link.pending) == [data.value] + more;
      assert [Await(w)] == [Await(w)] + [];
      match Classify(w, data.value)
      case Advance =>
        status := Done;
        ExecAdvance(w, [], data.value, more);
      case Reject(why) =>
        status := Failed(w, why, data.value);
        ExecReject(w, [], data.value, more);
    }
  }

  /** The transcript entries of `n` empty tokens read at the reboot wait. */
  function EmptyReplies(n: nat): (r: seq<Event>)
    ensures |r| == n && forall i | 0 <= i < n :: r[i] == Received(LsChannelRebootWait, "")
  {
    seq(n, _ => Received(LsChannelRebootWait, ""))
  }

  /** The reboot wait when the controller delivers only empty tokens: all are
      read and logged, and the wait is still blocked. */
  lemma RebootBlockedRun(p0: seq<Token>)
    requires forall i | 0 <= i < |p0| :: p0[i] == ""
    ensures Exec([Await(LsChannelRebootWait)], p0)
         == Run(Blocked(LsChannelRebootWait), EmptyReplies(|p0|), [])
  {
    SkipEmpties([Await(LsChannelRebootWait)], p0, |p0|);
    assert p0[|p0|..] == [];
  }

  /** The reboot wait when the `n`-th token is the first non-empty one: the
      empty tokens before it are logged and that token is classified. */
  lemma RebootReadRun(p0: seq<Token>, n: nat)
    requires 1 <= n <= |p0| && p0[n - 1] != ""
    requires forall i | 0 <= i < n - 1 :: p0[i] == ""
    ensures var d := p0[n - 1];
      Exec([Await(LsChannelRebootWait)], p0)
      == Run(if Classify(LsChannelRebootWait, d) == Advance then Done
             else Failed(LsChannelRebootWait, Classify(LsChannelRebootWait, d).reason, d),
             EmptyReplies(n - 1) + [Received(LsChannelRebootWait, d)], p0[n..])
  {
    var script := [Await(LsChannelRebootWait)];
    var d, more := p0[n - 1], p0[n..];
    SkipEmpties(script, p0, n - 1);
    assert p0[n - 1..] == [d] + more;
    assert script == script + [];
    if Classify(LsChannelRebootWait, d) == Advance {
      ExecAdvance(LsChannelRebootWait, [], d, more);
    } else {
      ExecReject(LsChannelRebootWait, [], d, more);
    }
  }

  /** Where the reboot wait's read loop stops, the channel is where playing
      the reboot wait leaves it. */
  lemma RebootLoopExit(p0: seq<Token>, log0: seq<Event>, n: nat, data: Option<Token>,
                       status: Status, p1: seq<Token>, log1: seq<Event>)
    requires n <= |p0| && p1 == p0[n..] && data != Some("")
    requires data.Some? ==> n >= 1 && data.value == p0[n - 1]
    requires data.Some? ==> log1 == log0 + EmptyReplies(n - 1) + [Received(LsChannelRebootWait, data.value)]
    requires data.None? ==> p1 == [] && log1 == log0 + EmptyReplies(n)
    requires forall i | 0 <= i < n - (if data.Some? then 1 else 0) :: p0[i] == ""
    requires data.None? ==> status == Blocked(LsChannelRebootWait)
    requires data.Some? ==> status == if Classify(LsChannelRebootWait, data.value) == Advance then Done
      else Failed(LsChannelRebootWait, Classify(LsChannelRebootWait, data.value).reason, data.value)
    ensures Follows([Await(LsChannelRebootWait)], p0, log0, status, p1, log1)
  {
    if data.None? {
      RebootBlockedRun(p0);
    } else {
      RebootReadRun(p0, n);
      assert log1 == log0 + (EmptyReplies(n - 1) + [Received(LsChannelRebootWait, data.value)]);
    }
  }

  /** The busy loop of set_ls_channel's second wait: read until a token that
      is not empty arrives, or the controller has nothing more to deliver.
      Returns the last token read and how many tokens were read. */
  method ReadNonEmpty(link: Channel) returns (data: Option<Token>, ghost n: nat)
    modifies link
    ensures data != Some("")
    ensures n <= |old(link.pending)| && link.pending == old(link.pending)[n..]
    ensures data.Some? ==> n >= 1 && data.value == old(link.pending)[n - 1]
    ensures data.Some? ==>
      link.log == old(link.log) + EmptyReplies(n - 1) + [Received(LsChannelRebootWait, data.value)]
    ensures data.None? ==> link.pending == [] && link.log == old(link.log) + EmptyReplies(n)
    ensures forall i | 0 <= i < n - (if data.Some? then 1 else 0) :: old(link.pending)[i] == ""
  {
    ghost var p0, log0 := link.pending, link.log;
    n := 0;
    data := link.Recv(LsChannelRebootWait);
    if data.Some? {
      n := 1;
    }
    while data == Some("")
      invariant n <= |p0| && link.pending == p0[n..]
      invariant data.Some? ==> n >= 1 && data.value == p0[n - 1]
      invariant data.Some? ==> link.log == log0 + EmptyReplies(n - 1) + [Received(LsChannelRebootWait, data.value)]
      invariant data.None? ==> link.pending == [] && link.log == log0 + EmptyReplies(n)
      invariant forall i | 0 <= i < n - (if data.Some? then 1 else 0) :: p0[i] == ""
      decreases |link.pending|, if data.Some? then 1 else 0
    {
      assert EmptyReplies(n - 1) + [Received(LsChannelRebootWait, "")] == EmptyReplies(n);
      data := link.Recv(LsChannelRebootWait);
      if data.Some? {
        n := n + 1;
      }
    }
  }

  /** The second wait of set_ls_channel: wait through empty tokens, then run
      the chain over the first token that is not empty. */
  method AwaitReboot(link: Channel) returns (status: Status)
    modifies link
    ensures Follows([Await(LsChannelRebootWait)], old(link.pending), old(link.log), status, link.pending, link.log)
  {
    ghost var p0, log0 := link.pending, link.log;
    var data, n := ReadNonEmpty(link);
    if data.None? {
      status := Blocked(LsChannelRebootWait);
    } else if Classify(LsChannelRebootWait, data.value) == Advance {
      status := Done;
    } else {
      status := Failed(LsChannelRebootWait, Classify(LsChannelRebootWait, data.value).reason, data.value);
    }
    RebootLoopExit(p0, log0, n, data, status, link.pending, link.log);
  }

  /** check_connection: wait for the connectivity code "10". */
  method CheckConnection(link: Channel) returns (status: Status)
    modifies link
    ensures Follows([Await(ConnectionWait)], old(link.pending), old(link.log), status, link.pending, link.log)
  {
    status := AwaitStatus(link, ConnectionWait);
  }

  /** initialise: send the start-initialisation command "20". */
  method Initialise(link: Channel) returns (status: Status)
    modifies link
    ensures Follows([Send(Code(StartInitialiseFlag))], old(link.pending), old(link.log), status, link.pending, link.log)
  {
    status := SendCommand(link, Code(StartInitialiseFlag));
  }

  /** check_sepia_connection: wait for continue from the Sepia check. */
  method CheckSepiaConnection(link: Channel) returns (status: Status)
    modifies link
    ensures Follows([Await(SepiaWait)], old(link.pending), old(link.log), status, link.pending, link.log)
  {
    status := AwaitStatus(link, SepiaWait);
  }

  /** check_laserSwitch: wait for continue from the laser-switch check. */
  method CheckLaserSwitch(link: Channel) returns (status: Status)
    modifies link
    ensures Follows([Await(LaserSwitchWait)], old(link.pending), old(link.log), status, link.pending, link.log)
  {
    status := AwaitStatus(link, LaserSwitchWait);
  }

  /** check_safe_states: wait for the safe-state verdict, then send the
      setup-run command "70". */
  method CheckSafeStates(link: Channel) returns (status: Status)
    modifies link
    ensures Follows([Await(SafeStateWait), Send(Code(SetupRunFlag))],
                    old(link.pending), old(link.log), status, link.pending, link.log)
  {
    ghost var p0, log0 := link.pending, link.log;
    var s1 := AwaitStatus(link, SafeStateWait);
    ghost var p1, log1 := link.pending, link.log;
    status := s1;
    if s1 == Done {
      status := SendCommand(link, Code(SetupRunFlag));
    }
    FollowsThen([Await(SafeStateWait)], [Send(Code(SetupRunFlag))],
                p0, log0, s1, p1, log1, status, link.pending, link.log);
  }

  /** set_ls_channel: send the channel, wait for it to be accepted, then wait
      through any empty tokens for the confirmation that Sepia rebooted. */
  method SetLsChannel(link: Channel, lsChannel: Token) returns (status: Status)
    modifies link
    ensures Follows([Send(lsChannel), Await(LsChannelAckWait), Await(LsChannelRebootWait)],
                    old(link.pending), old(link.log), status, link.pending, link.log)
  {
    ghost var p0, log0 := link.pending, link.log;
    var s0 := SendCommand(link, lsChannel);
    ghost var p1, log1 := link.pending, link.log;
    var s1 := AwaitStatus(link, LsChannelAckWait);
    ghost var p2, log2 := link.pending, link.log;
    status := s1;
    if s1 == Done {
      status := AwaitReboot(link);
    }
    FollowsThen([Await(LsChannelAckWait)], [Await(LsChannelRebootWait)],
                p1, log1, s1, p2, log2, status, link.pending, link.log);
    FollowsThen([Send(lsChannel)], [Await(LsChannelAckWait), Await(LsChannelRebootWait)],
                p0, log0, s0, p1, log1, status, link.pending, link.log);
  }

  /** set_laser_parameters: send the intensity; only once it is acknowledged
      send the frequency mode and wait for its acknowledgement. */
  method SetLaserParameters(link: Channel, intensity: Token, frequencyMode: Token) returns (status: Status)
    modifies link
    ensures Follows([Send(intensity), Await(IntensityWait), Send(frequencyMode), Await(FrequencyWait)],
                    old(link.pending), old(link.log), status, link.pending, link.log)
  {
    ghost var p0, log0 := link.pending, link.log;
    var s0 := SendCommand(link, intensity);
    ghost var p1, log1 := link.pending, link.log;
    var s1 := AwaitStatus(link, IntensityWait);
    ghost var p2, log2 := link.pending, link.log;
    status := s1;
    if s1 == Done {
      var s2 := SendCommand(link, frequencyMode);
      ghost var p3, log3 := link.pending, link.log;
      status := AwaitStatus(link, FrequencyWait);
      FollowsThen([Send(frequencyMode)], [Await(FrequencyWait)],
                  p2, log2, s2, p3, log3, status, link.pending, link.log);
    }
    FollowsThen([Await(IntensityWait)], [Send(frequencyMode), Await(FrequencyWait)],
                p1, log1, s1, p2, log2, status, link.pending, link.log);
    FollowsThen([Send(intensity)], [Await(IntensityWait), Send(frequencyMode), Await(FrequencyWait)],
                p0, log0, s0, p1, log1, status, link.pending, link.log);
  }

  /** check_self_test: wait for the self-test verdict. */
  method CheckSelfTest(link: Channel) returns (status: Status)
    modifies link
    ensures Follows([Await(SelfTestWait)], old(link.pending), old(link.log), status, link.pending, link.log)
  {
    status := AwaitStatus(link, SelfTestWait);
  }

  /** A command followed by the wait for its acknowledgement, the shape of
      set_fs_channel, set_ni_pulse_number and set_ni_trigger_frequency. */
  method Command(link: Channel, t: Token, w: WaitPoint) returns (status: Status)
    requires !SkipsEmpty(w)
    modifies link
    ensures Follows([Send(t), Await(w)], old(link.pending), old(link.log), status, link.pending, link.log)
  {
    ghost var p0, log0 := link.pending, link.log;
    var s0 := SendCommand(link, t);
    ghost var p1, log1 := link.pending, link.log;
    status := AwaitStatus(link, w);
    FollowsThen([Send(t)], [Await(w)], p0, log0, s0, p1, log1, status, link.pending, link.log);
  }

  /** set_fs_channel: send the fibre-switch channel and wait for it to be set. */
  method SetFsChannel(link: Channel, fsChannel: Token) returns (status: Status)
    modifies link
    ensures Follows([Send(fsChannel), Await(FibreSwitchWait)],
                    old(link.pending), old(link.log), status, link.pending, link.log)
  {
    status := Command(link, fsChannel, FibreSwitchWait);
  }

  /** set_ni_pulse_number: send the number of pulses and wait for it to be
      accepted. */
  method SetNiPulseNumber(link: Channel, numberOfPulses: Token) returns (status: Status)
    modifies link
    ensures Follows([Send(numberOfPulses), Await(PulseNumberWait)],
                    old(link.pending), old(link.log), status, link.pending, link.log)
  {
    status := Command(link, numberOfPulses, PulseNumberWait);
  }

  /** set_ni_trigger_frequency: send the trigger frequency and wait for it to
      be set. */
  method SetNiTriggerFrequency(link: Channel, triggerFrequency: Token) returns (status: Status)
    modifies link
    ensures Follows([Send(triggerFrequency), Await(TriggerFrequencyWait)],
                    old(link.pending), old(link.log), status, link.pending, link.log)
  {
    status := Command(link, triggerFrequency, TriggerFrequencyWait);
  }

  /** run_completion: wait for the end-of-run verdict. */
  method RunCompletion(link: Channel) returns (status: Status)
    modifies link
    ensures Follows([Await(RunCompletionWait)], old(link.pending), old(link.log), status, link.pending, link.log)
  {
    status := AwaitStatus(link, RunCompletionWait);
  }

  /** Calls the stage function of `s` with its parameters from `cfg`. */
  method Perform(link: Channel, s: Stage, cfg: Config) returns (status: Status)
    modifies link
    ensures Follows(StageScript(s, cfg), old(link.pending), old(link.log), status, link.pending, link.log)
  {
    match s
    case CheckConnection => status := CheckConnection(link);
    case Initialise => status := Initialise(link);
    case CheckSepiaConnection => status := CheckSepiaConnection(link);
    case CheckLaserSwitch => status := CheckLaserSwitch(link);
    case CheckSafeStates => status := CheckSafeStates(link);
    case SetLsChannel => status := SetLsChannel(link, cfg.lsChannel);
    case SetLaserParameters => status := SetLaserParameters(link, cfg.intensity, cfg.frequencyMode);
    case CheckSelfTest => status := CheckSelfTest(link);
    case SetFsChannel => status := SetFsChannel(link, cfg.fsChannel);
    case SetNiPulseNumber => status := SetNiPulseNumber(link, cfg.numberOfPulses);
    case SetNiTriggerFrequency => status := SetNiTriggerFrequency(link, cfg.triggerFrequency);
    case RunCompletion => status := RunCompletion(link);
  }

  /** The next line of `main`: the stage runs only if every earlier stage
      succeeded, since a failing stage has already ended the program. */
  method Proceed(link: Channel, s: Stage, cfg: Config, status: Status,
                 ghost input: seq<Token>, ghost played: seq<Action>)
    returns (status': Status, ghost played': seq<Action>)
    requires Follows(played, input, [], status, link.pending, link.log)
    modifies link
    ensures played' == played + StageScript(s, cfg)
    ensures Follows(played', input, [], status', link.pending, link.log)
  {
    ghost var p1, log1 := link.pending, link.log;
    status' := status;
    if status == Done {
      status' := Perform(link, s, cfg);
    }
    FollowsThen(played, StageScript(s, cfg), input, [], status, p1, log1, status', link.pending, link.log);
    played' := played + StageScript(s, cfg);
  }

  /** main: open the connection on the controller's tokens `input` and run
      the twelve stages in order, stopping at the first failure. Returns how
      the session ended and the wire transcript. */
  method RunSession(cfg: Config, input: seq<Token>) returns (status: Status, log: seq<Event>)
    ensures status == SessionRun(cfg, input).status
    ensures log == SessionRun(cfg, input).events
  {
    var link := new Channel(input);
    status := Done;
    ghost var played: seq<Action> := [];
    assert Follows(played, input, [], status, link.pending, link.log);
    status, played := Proceed(link, Stage.CheckConnection, cfg, status, input, played);
    status, played := Proceed(link, Stage.Initialise, cfg, status, input, played);
    status, played := Proceed(link, Stage.CheckSepiaConnection, cfg, status, input, played);
    status, played := Proceed(link, Stage.CheckLaserSwitch, cfg, status, input, played);
    status, played := Proceed(link, Stage.CheckSafeStates, cfg, status, input, played);
    status, played := Proceed(link, Stage.SetLsChannel, cfg, status, input, played);
    status, played := Proceed(link, Stage.SetLaserParameters, cfg, status, input, played);
    status, played := Proceed(link, Stage.CheckSelfTest, cfg, status, input, played);
    status, played := Proceed(link, Stage.SetFsChannel, cfg, status, input, played);
    status, played := Proceed(link, Stage.SetNiPulseNumber, cfg, status, input, played);
    status, played := Proceed(link, Stage.SetNiTriggerFrequency, cfg, status, input, played);
    status, played := Proceed(link, Stage.RunCompletion, cfg, status, input, played);
    assert played == SessionScript(cfg) by {
      assert [] + StageScript(Stage.CheckConnection, cfg) == StageScript(Stage.CheckConnection, cfg);
    }
    log := link.log;
  }
}
