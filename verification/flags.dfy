/** The status-code registry of the SMELLIE control protocol.

    Every command the driver sends and every status the SMELLIE controller
    reports is a short numeric string. The registry below is the complete
    table of named codes; the driver compares received tokens against these
    codes by equality only.
 */
module Flags {

  import opened Wrappers

  /** A token exchanged with the controller: one received or sent message. */
  type Token = string

  /** The symbolic names of the registered status and command codes. */
  datatype Flag =
    | ContinueFlag               // advance to the next stage of a run
    | CheckConnectionFlag        // the controller is present and answering
    | StartInitialiseFlag        // command: begin initialisation
    | SepiaNoConnectionFlag      // Sepia laser driver not powered or not connected
    | RelaySwitchNoConnectionFlag // laser switch not powered or not connected
    | SepiaWrongIntensityFlag    // safe-state: wrong default intensity on Sepia
    | SepiaWrongFrequencyFlag    // safe-state: wrong default frequency on Sepia
    | SepiaWrongPulseModeFlag    // safe-state: wrong default pulse mode on Sepia
    | RelaySwitchWrongDefaultFlag // safe-state: wrong default laser-switch channel
    | SetupRunFlag               // command: set up the parameters of a run
    | SelfTestFailFlag           // the self-test has failed
    | RelaySwitchSetWrongFlag    // the laser switch is set incorrectly
    | FibreSwitchBrokenFlag      // fibre-switch channel broken or set incorrectly
    | PulseNumberTooHighFlag     // too many pulses requested from the NI box
    | RunFailureFlag             // the run has failed
    | TriggerFrequencyFlag       // NI box trigger frequency set incorrectly
    | TimeoutFlag                // the controller timed out

  /** The wire code of each flag. */
  function Code(f: Flag): Token {
    match f
    case ContinueFlag => "5189"
    case CheckConnectionFlag => "10"
    case StartInitialiseFlag => "20"
    case SepiaNoConnectionFlag => "30"
    case RelaySwitchNoConnectionFlag => "40"
    case SepiaWrongIntensityFlag => "50"
    case SepiaWrongFrequencyFlag => "55"
    case SepiaWrongPulseModeFlag => "60"
    case RelaySwitchWrongDefaultFlag => "65"
    case SetupRunFlag => "70"
    case SelfTestFailFlag => "77"
    case RelaySwitchSetWrongFlag => "79"
    case FibreSwitchBrokenFlag => "84"
    case PulseNumberTooHighFlag => "87"
    case RunFailureFlag => "102"
    case TriggerFrequencyFlag => "132"
    case TimeoutFlag => "123456"
  }

  /** Reads a received token back as a registered flag, if it is one. */
  function FlagOf(t: Token): (r: Option<Flag>)
    ensures r.Some? ==> Code(r.value) == t
  {
    if t == "5189" then Some(ContinueFlag)
    else if t == "10" then Some(CheckConnectionFlag)
    else if t == "20" then Some(StartInitialiseFlag)
    else if t == "30" then Some(SepiaNoConnectionFlag)
    else if t == "40" then Some(RelaySwitchNoConnectionFlag)
    else if t == "50" then Some(SepiaWrongIntensityFlag)
    else if t == "55" then Some(SepiaWrongFrequencyFlag)
    else if t == "60" then Some(SepiaWrongPulseModeFlag)
    else if t == "65" then Some(RelaySwitchWrongDefaultFlag)
    else if t == "70" then Some(SetupRunFlag)
    else if t == "77" then Some(SelfTestFailFlag)
    else if t == "79" then Some(RelaySwitchSetWrongFlag)
    else if t == "84" then Some(FibreSwitchBrokenFlag)
    else if t == "87" then Some(PulseNumberTooHighFlag)
    else if t == "102" then Some(RunFailureFlag)
    else if t == "132" then Some(TriggerFrequencyFlag)
    else if t == "123456" then Some(TimeoutFlag)
    else None
  }

  /** Reading a flag's code back yields that flag: no two flags share a code. */
  lemma FlagOfCode(f: Flag)
    ensures FlagOf(Code(f)) == Some(f)
  {
  }

  /** All registered codes are pairwise distinct. */
  lemma CodesDistinct(f: Flag, g: Flag)
    ensures Code(f) == Code(g) ==> f == g
  {
    FlagOfCode(f);
    FlagOfCode(g);
  }

  /** A registered code is never the empty token. */
  lemma CodeNonEmpty(f: Flag)
    ensures Code(f) != ""
  {
  }
}
