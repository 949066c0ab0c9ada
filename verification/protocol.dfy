/** Classification of one received status token at each wait point of the
    SMELLIE bring-up sequence.

    Every stage of the driver waits for one token (the laser-switch channel
    stage waits twice) and runs an if/elif chain over it: the expected code
    advances, a few codes map to a stage-specific diagnosis and everything
    else falls into the stage's catch-all failure. `Classify` is those chains,
    branch for branch; `Decide(RuleOf(w), t)` is the same protocol stated as a
    uniform table, and `ClassifyFollowsRule` shows the two agree.
 */
module Protocol {

  import opened Flags

  /** The points at which the driver blocks for a status token, in session order. */
  datatype WaitPoint =
    | ConnectionWait         // check_connection
    | SepiaWait              // check_sepia_connection
    | LaserSwitchWait        // check_laserSwitch
    | SafeStateWait          // check_safe_states
    | LsChannelAckWait       // set_ls_channel, first wait: command accepted
    | LsChannelRebootWait    // set_ls_channel, second wait: Sepia rebooted
    | IntensityWait          // set_laser_parameters, intensity acknowledged
    | FrequencyWait          // set_laser_parameters, frequency mode acknowledged
    | SelfTestWait           // check_self_test
    | FibreSwitchWait        // set_fs_channel
    | PulseNumberWait        // set_ni_pulse_number
    | TriggerFrequencyWait   // set_ni_trigger_frequency
    | RunCompletionWait      // run_completion

  /** The diagnosis with which a failing stage ends the session. */
  datatype Reason =
    | NoConnection               // no connection was made to SMELLIE
    | SepiaNotConnected          // Sepia not connected or without power
    | LaserSwitchNotConnected    // laser switch not connected or without power
    | IntensityNotSafe           // safe-state: laser intensity
    | FrequencyNotSafe           // safe-state: laser frequency
    | PulseModeNotSafe           // safe-state: laser pulse mode
    | LaserSwitchNotSafe         // safe-state: laser-switch channel
    | TimedOut                   // SMELLIE has timed out
    | LsChannelNotAccepted       // restart SMELLIE and check all connections
    | LsChannelNotSet            // laser-switch channel not set correctly
    | IntensityNotSeen           // laser intensity not seen by the controller
    | FrequencyNotSeen           // laser frequency not seen by the controller
    | SelfTestFailed             // self-test has failed
    | FibreSwitchChannelBroken   // fibre-switch channel not set correctly
    | TooManyPulses              // more than 100,000 pulses requested
    | TriggerFrequencyWrong      // NI box trigger frequency not set correctly
    | RunFailed                  // the run has failed
    | UnknownError               // unknown error: restart and check connections

  /** What one classified token does to the session. */
  datatype Verdict = Advance | Reject(reason: Reason)

  /** The only wait that discards empty tokens before classifying. */
  predicate SkipsEmpty(w: WaitPoint) {
    w == LsChannelRebootWait
  }

  /** The single token that lets wait point `w` advance. */
  function SuccessCode(w: WaitPoint): Token {
    if w == ConnectionWait then Code(CheckConnectionFlag) else Code(ContinueFlag)
  }

  /** The wait points whose chain has a dedicated timeout branch. */
  predicate ReportsTimeout(w: WaitPoint) {
    !(w.ConnectionWait? || w.SepiaWait? || w.LaserSwitchWait? || w.SafeStateWait?)
  }

  /** The diagnosis of the final `else` branch of each chain. */
  function Fallback(w: WaitPoint): Reason {
    match w
    case ConnectionWait => NoConnection
    case SepiaWait => SepiaNotConnected
    case LaserSwitchWait => LaserSwitchNotConnected
    case LsChannelAckWait => LsChannelNotAccepted
    case LsChannelRebootWait => LsChannelNotSet
    case IntensityWait => IntensityNotSeen
    case FrequencyWait => FrequencyNotSeen
    case _ => UnknownError
  }

  /** The if/elif chain each stage runs over the token it received. */
  function Classify(w: WaitPoint, data: Token): Verdict {
    match w
    case ConnectionWait =>
      if data == Code(CheckConnectionFlag) then Advance else Reject(NoConnection)
    case SepiaWait =>
      if data == Code(ContinueFlag) then Advance else Reject(SepiaNotConnected)
    case LaserSwitchWait =>
      if data == Code(ContinueFlag) then Advance else Reject(LaserSwitchNotConnected)
    case SafeStateWait =>
      if data == Code(ContinueFlag) then Advance
      else if data == Code(SepiaWrongIntensityFlag) then Reject(IntensityNotSafe)
      else if data == Code(SepiaWrongFrequencyFlag) then Reject(FrequencyNotSafe)
      else if data == Code(SepiaWrongPulseModeFlag) then Reject(PulseModeNotSafe)
      else if data == Code(RelaySwitchWrongDefaultFlag) then Reject(LaserSwitchNotSafe)
      else Reject(UnknownError)
    case LsChannelAckWait =>
      if data == Code(ContinueFlag) then Advance
      else if data == Code(TimeoutFlag) then Reject(TimedOut)
      else Reject(LsChannelNotAccepted)
    case LsChannelRebootWait =>
      if data == Code(ContinueFlag) then Advance
      else if data == Code(TimeoutFlag) then Reject(TimedOut)
      else Reject(LsChannelNotSet)
    case IntensityWait =>
      if data == Code(ContinueFlag) then Advance
      else if data == Code(TimeoutFlag) then Reject(TimedOut)
      else Reject(IntensityNotSeen)
    case FrequencyWait =>
      if data == Code(ContinueFlag) then Advance
      else if data == Code(TimeoutFlag) then Reject(TimedOut)
      else Reject(FrequencyNotSeen)
    case SelfTestWait =>
      if data == Code(ContinueFlag) then Advance
      else if data == Code(SelfTestFailFlag) then Reject(SelfTestFailed)
      else if data == Code(TimeoutFlag) then Reject(TimedOut)
      else Reject(UnknownError)
    case FibreSwitchWait =>
      if data == Code(ContinueFlag) then Advance
      else if data == Code(FibreSwitchBrokenFlag) then Reject(FibreSwitchChannelBroken)
      else if data == Code(TimeoutFlag) then Reject(TimedOut)
      else Reject(UnknownError)
    case PulseNumberWait =>
      if data == Code(ContinueFlag) then Advance
      else if data == Code(PulseNumberTooHighFlag) then Reject(TooManyPulses)
      else if data == Code(TimeoutFlag) then Reject(TimedOut)
      else Reject(UnknownError)
    case TriggerFrequencyWait =>
      if data == Code(ContinueFlag) then Advance
      else if data == Code(TriggerFrequencyFlag) then Reject(TriggerFrequencyWrong)
      else if data == Code(TimeoutFlag) then Reject(TimedOut)
      else Reject(UnknownError)
    case RunCompletionWait =>
      if data == Code(ContinueFlag) then Advance
      else if data == Code(RunFailureFlag) then Reject(RunFailed)
      else if data == Code(TimeoutFlag) then Reject(TimedOut)
      else Reject(UnknownError)
  }

  /** A stage's response table: the accepted code, the codes with their own
      diagnosis, and the diagnosis for everything else. */
  datatype Rule = Rule(success: Token, known: map<Token, Reason>, otherwise: Reason)

  /** The order-free reading of a rule: look the token up. */
  function Decide(rule: Rule, data: Token): Verdict {
    if data == rule.success then Advance
    else if data in rule.known then Reject(rule.known[data])
    else Reject(rule.otherwise)
  }

  /** The codes with a dedicated diagnosis at each wait point (besides timeout). */
  function SpecificCodes(w: WaitPoint): map<Token, Reason> {
    match w
    case SafeStateWait =>
      map[Code(SepiaWrongIntensityFlag) := IntensityNotSafe,
          Code(SepiaWrongFrequencyFlag) := FrequencyNotSafe,
          Code(SepiaWrongPulseModeFlag) := PulseModeNotSafe,
          Code(RelaySwitchWrongDefaultFlag) := LaserSwitchNotSafe]
    case SelfTestWait => map[Code(SelfTestFailFlag) := SelfTestFailed]
    case FibreSwitchWait => map[Code(FibreSwitchBrokenFlag) := FibreSwitchChannelBroken]
    case PulseNumberWait => map[Code(PulseNumberTooHighFlag) := TooManyPulses]
    case TriggerFrequencyWait => map[Code(TriggerFrequencyFlag) := TriggerFrequencyWrong]
    case RunCompletionWait => map[Code(RunFailureFlag) := RunFailed]
    case _ => map[]
  }

  /** The response table of each wait point. */
  function RuleOf(w: WaitPoint): Rule {
    var timeout := if ReportsTimeout(w) then map[Code(TimeoutFlag) := TimedOut] else map[];
    Rule(SuccessCode(w), SpecificCodes(w) + timeout, Fallback(w))
  }

  /** Because all registered codes are distinct, the accepted code of a rule
      is never also one of its failure codes. */
  lemma RuleUnambiguous(w: WaitPoint)
    ensures SuccessCode(w) !in RuleOf(w).known
  {
    if w.SafeStateWait? {
      assert SuccessCode(w) !in SpecificCodes(w);
    } else {
      assert SuccessCode(w) !in SpecificCodes(w);
      assert SuccessCode(w) != Code(TimeoutFlag);
    }
  }

  /** The hand-written chains agree with the order-free table lookup for every
      token: the order of the branches never changes which branch a token
      selects. */
  lemma ClassifyFollowsRule(w: WaitPoint, data: Token)
    ensures Classify(w, data) == Decide(RuleOf(w), data)
  {
    if w.SafeStateWait? {
      SafeStateFollowsRule(data);
    } else if !ReportsTimeout(w) {
      PlainCheckFollowsRule(w, data);
    } else if w.LsChannelAckWait? || w.LsChannelRebootWait? || w.IntensityWait? || w.FrequencyWait? {
      TimeoutOnlyFollowsRule(w, data);
    } else if w.SelfTestWait? || w.FibreSwitchWait? {
      SingleCodeFollowsRule(w, data);
    } else {
      NiCodeFollowsRule(w, data);
    }
  }

  /** ClassifyFollowsRule at the safe-state check, with its four codes. */
  lemma SafeStateFollowsRule(data: Token)
    ensures Classify(SafeStateWait, data) == Decide(RuleOf(SafeStateWait), data)
  {
  }

  /** ClassifyFollowsRule at the three connectivity checks. */
  lemma PlainCheckFollowsRule(w: WaitPoint, data: Token)
    requires w.ConnectionWait? || w.SepiaWait? || w.LaserSwitchWait?
    ensures Classify(w, data) == Decide(RuleOf(w), data)
  {
  }

  /** ClassifyFollowsRule at the four waits with a timeout branch only. */
  lemma TimeoutOnlyFollowsRule(w: WaitPoint, data: Token)
    requires w.LsChannelAckWait? || w.LsChannelRebootWait? || w.IntensityWait? || w.FrequencyWait?
    ensures Classify(w, data) == Decide(RuleOf(w), data)
  {
  }

  /** ClassifyFollowsRule at the self-test and fibre-switch waits, each with
      one stage-specific code and a timeout branch. */
  lemma SingleCodeFollowsRule(w: WaitPoint, data: Token)
    requires w.SelfTestWait? || w.FibreSwitchWait?
    ensures Classify(w, data) == Decide(RuleOf(w), data)
  {
  }

  /** ClassifyFollowsRule at the pulse-number, trigger-frequency and
      run-completion waits, each with one stage-specific code and a timeout
      branch. */
  lemma NiCodeFollowsRule(w: WaitPoint, data: Token)
    requires w.PulseNumberWait? || w.TriggerFrequencyWait? || w.RunCompletionWait?
    ensures Classify(w, data) == Decide(RuleOf(w), data)
  {
  }

  /** A wait point advances on its success code and on nothing else: "10" for
      the connectivity check, "5189" everywhere else. */
  lemma AdvancesOnlyOnSuccess(w: WaitPoint, data: Token)
    ensures Classify(w, data) == Advance <==> data == SuccessCode(w)
    ensures w != ConnectionWait ==> (Classify(w, data) == Advance <==> data == Code(ContinueFlag))
  {
  }

  /** The timeout code yields the dedicated timeout failure exactly at the
      wait points whose chain has a timeout branch; at the four early checks
      it falls into their catch-all failure. */
  lemma TimeoutHandling(w: WaitPoint)
    ensures Classify(w, Code(TimeoutFlag)) == Reject(TimedOut) <==> ReportsTimeout(w)
    ensures !ReportsTimeout(w) ==> Classify(w, Code(TimeoutFlag)) == Reject(Fallback(w))
  {
  }

  /** The stage-specific failure codes of the later stages and their
      diagnoses. */
  lemma SpecificFailures()
    ensures Classify(FibreSwitchWait, "84") == Reject(FibreSwitchChannelBroken)
    ensures Classify(PulseNumberWait, "87") == Reject(TooManyPulses)
    ensures Classify(TriggerFrequencyWait, "132") == Reject(TriggerFrequencyWrong)
    ensures Classify(SelfTestWait, "77") == Reject(SelfTestFailed)
    ensures Classify(RunCompletionWait, "102") == Reject(RunFailed)
  {
  }

  /** The safe-state failure codes and their diagnoses. */
  lemma SafeStateFailures()
    ensures Classify(SafeStateWait, "50") == Reject(IntensityNotSafe)
    ensures Classify(SafeStateWait, "55") == Reject(FrequencyNotSafe)
    ensures Classify(SafeStateWait, "60") == Reject(PulseModeNotSafe)
    ensures Classify(SafeStateWait, "65") == Reject(LaserSwitchNotSafe)
  {
  }

  /** Any token that is neither the success code, nor a stage-specific code,
      nor (where handled) the timeout code gets the stage's catch-all
      diagnosis; in the six stages with specific codes that is "Unknown
      error". The empty token is such a token everywhere. */
  lemma OtherTokensFallBack(w: WaitPoint, data: Token)
    requires data != SuccessCode(w) && data !in SpecificCodes(w)
    requires ReportsTimeout(w) ==> data != Code(TimeoutFlag)
    ensures Classify(w, data) == Reject(Fallback(w))
    ensures SpecificCodes(w) != map[] ==> Classify(w, data) == Reject(UnknownError)
  {
    ClassifyFollowsRule(w, data);
  }

  /** The empty token is not a registered code, so every chain sends it to
      its final `else` branch. (The reboot wait of set_ls_channel never
      classifies it: it discards empty tokens first.) */
  lemma EmptyTokenFails(w: WaitPoint)
    ensures Classify(w, "") == Reject(Fallback(w))
  {
  }
}
