# SMELLIE status-code driver (orcaControl.py)

This project models the SMELLIE control driver `orcaControl.py` in Dafny.
The driver plays the ORCA side of a TCP/IP exchange with the SMELLIE laser
calibration system. It runs twelve stage functions in a fixed order. Each
stage sends a command, waits for a numeric status token, or both. It then
compares the token against a registry of flag codes with an if/elif chain.
The expected token ("10" for the connectivity check, "5189" everywhere else)
moves on to the next stage. Any other token ends the program with a
stage-specific diagnosis.

The model has five modules.

- `Flags` (flags.dfy) is the registry of the seventeen named codes. It proves
  that the codes are pairwise distinct and never empty.
- `Protocol` (protocol.dfy) holds `Classify`, the if/elif chain of each wait
  point, branch for branch. Its partner is `Decide(RuleOf(w), t)`, an
  order-free table lookup, and a proof shows the two agree on every token.
  The remaining lemmas state which tokens advance, which stages handle
  timeout, and the stage-specific failure codes.
- `Session` (session.dfy) is the reference semantics. Each stage is a
  script of `Send` and `Await` actions, and `main` is the concatenation of
  the twelve scripts. `Exec` plays a script against the tokens the
  controller delivers and returns how it ended, the wire transcript, and
  the unread tokens. The lemmas prove:
  - composition: playing a concatenation equals playing the parts in turn;
  - fail-fast;
  - the empty-token skipping of the reboot wait;
  - the complete successful run.
- `StageFacts` (stages.dfy) covers individual stages and the whole session:
  - a command is sent only after its acknowledgement;
  - the two waits of the laser-switch channel stage;
  - the order of everything sent.
- `Driver` (driver.dfy) is the driver as it runs. `Channel` is a class
  whose queue of incoming tokens shrinks and whose wire log grows. It has
  one method per stage function, including the `while` loop that skips
  empty tokens, plus `RunSession` for `main`. Each method is proved to do
  exactly what `Exec` of its script does. `RunSession` is proved equal to
  `SessionRun`, so the facts proved about the scripts hold of the driver.

A process exit (`sys.exit`) becomes a returned `Failed(at, reason, token)`
status, and no later stage runs. A socket that would block forever because
the controller sends nothing more becomes the status `Blocked(at)`.

## Model

| member | source | states |
|---|---|---|
| Flags.FlagOfCode | orcaControl.py:8-26 | reading any flag's code back through the registry gives that flag again |
| Flags.CodesDistinct | orcaControl.py:8-26 | no two named flags share a code, so each equality test in a chain selects one flag |
| Flags.CodeNonEmpty | orcaControl.py:8-26 | no registered code is the empty token |
| Flags.FlagOf | orcaControl.py:8-26 | a token recognised as a flag is that flag's code |
| Protocol.RuleUnambiguous | orcaControl.py:8-26 | at every wait point the success code is not also one of its failure codes |
| Protocol.ClassifyFollowsRule | orcaControl.py:44-214 | every stage's if/elif chain gives, for every token, the verdict of the order-free table: success code advances, listed codes get their own diagnosis, everything else the catch-all |
| Protocol.AdvancesOnlyOnSuccess | orcaControl.py:44-214 | a wait point advances if and only if the token is its success code: "10" at the connectivity check, "5189" at every other wait |
| Protocol.TimeoutHandling | orcaControl.py:71-214 | "123456" yields the timeout failure exactly at the waits whose chain tests for it; at the connection, Sepia, laser-switch and safe-state checks it falls into their catch-all |
| Protocol.SpecificFailures | orcaControl.py:128-214 | "84", "87", "132", "77" and "102" get the fibre-switch, pulse-number, trigger-frequency, self-test and run-failure diagnoses at their stages |
| Protocol.SafeStateFailures | orcaControl.py:172-187 | "50", "55", "60" and "65" get the intensity, frequency, pulse-mode and laser-switch safe-state diagnoses |
| Protocol.OtherTokensFallBack | orcaControl.py:128-214 | any token that is not the success code, a listed code or a handled timeout gets the catch-all diagnosis, which is "unknown error" in the six stages with listed codes |
| Protocol.EmptyTokenFails | orcaControl.py:44-214 | the empty token always reaches the chain's final else branch |
| Session.ExecReadsPrefix | orcaControl.py:44-214 | the tokens a run receives are exactly a prefix of those delivered, in order; the rest stays unread |
| Session.Chain | orcaControl.py:219-245 | running two scripts one after the other, the second only if the first succeeded, is running their concatenation |
| Session.FailFast | orcaControl.py:44-214 | a failed run ends with the token that failed, whose classification is the diagnosis; every other token was accepted; a blocked run has read everything |
| Session.SkipEmpties | orcaControl.py:83-85 | at the reboot wait, leading empty tokens are read and logged, and the wait then behaves as if they had not been sent |
| Session.HappyPath | orcaControl.py:44-214 | delivering the success code of each wait in order makes any script run to its end, with the transcript that interleaves its sends and those codes |
| Session.ExpectedAppend | orcaControl.py:219-245 | the success tokens of concatenated scripts are the concatenation of their success tokens |
| Session.PayloadsAppend | orcaControl.py:219-245 | the commands of concatenated scripts are the concatenation of their commands |
| Session.StageTables | orcaControl.py:44-214 | each stage's success replies and commands, e.g. set_laser_parameters sends intensity then frequency mode and expects two continue codes |
| Session.SessionExpected | orcaControl.py:219-245 | the success tokens of the whole session are those of the twelve stages in main's order |
| Session.SessionPayloads | orcaControl.py:219-245 | the commands of the whole session are those of the twelve stages in main's order |
| Session.FullSendsInOrder | orcaControl.py:219-245 | the session sends "20", "70", laser-switch channel, intensity, frequency mode, fibre-switch channel, pulse count, trigger frequency |
| Session.SuccessTokensInOrder | orcaControl.py:219-245 | the session's success replies are "10" followed by twelve "5189" |
| Session.CompleteRun | orcaControl.py:219-245 | on "10" followed by twelve "5189" the session succeeds, reads exactly those thirteen tokens and sends the eight commands in order |
| StageFacts.SendsFollowScript | orcaControl.py:44-214 | what a run sends is a prefix of its script's commands in order, and all of them when it succeeds |
| StageFacts.SafeStatesSendOnlyOnContinue | orcaControl.py:172-187 | check_safe_states sends "70" if and only if its reply is continue; otherwise it fails with that reply's safe-state diagnosis |
| StageFacts.LaserParametersAcknowledged | orcaControl.py:105-111 | once the intensity is acknowledged, intensity, acknowledgement and frequency mode are on the wire and the frequency wait follows |
| StageFacts.LaserParametersRejected | orcaControl.py:105-115 | an intensity reply other than continue fails at the intensity wait with only the intensity sent |
| StageFacts.LaserParametersSendOnlyOnAck | orcaControl.py:105-125 | set_laser_parameters sends the frequency mode if and only if the intensity reply is continue, and succeeds if and only if both replies are continue; each failure is reported at its wait |
| StageFacts.LaserParametersNoReply | orcaControl.py:105-107 | with no reply, only the intensity has been sent and the stage waits at the intensity wait |
| StageFacts.FrequencyReply | orcaControl.py:118-125 | the frequency wait sends nothing and succeeds if and only if its reply is continue |
| StageFacts.LsChannelFirstWait | orcaControl.py:71-80 | a first reply other than continue fails at the first wait, having sent only the channel; empty gives "restart SMELLIE", "123456" gives timeout |
| StageFacts.LsChannelAcknowledged | orcaControl.py:71-76 | after a continue first reply, channel and acknowledgement are on the wire and the reboot wait follows |
| StageFacts.RebootWait | orcaControl.py:82-92 | after n empty tokens the reboot wait classifies the first non-empty one and leaves the rest unread |
| StageFacts.RebootWaitBlocked | orcaControl.py:83-85 | while only empty tokens arrive the reboot wait keeps waiting |
| StageFacts.RebootOutcome | orcaControl.py:82-92 | the reboot wait succeeds if and only if the first non-empty token is continue |
| StageFacts.ReceivedCount | orcaControl.py:44-214 | a run that leaves some tokens unread has received all tokens before them |
| StageFacts.LsChannelSecondWait | orcaControl.py:82-92 | after continue and n empty tokens, set_ls_channel reads n+2 tokens and succeeds if and only if the next token is continue; otherwise it fails at the second wait, with timeout for "123456" |
| StageFacts.LsChannelAckedOutcome | orcaControl.py:71-92 | after a continue first reply, the stage succeeds if and only if the first non-empty token after it is continue |
| StageFacts.LsChannelSilent | orcaControl.py:71-73 | with no reply the stage waits at its first wait |
| StageFacts.LsChannelAdvances | orcaControl.py:71-92 | set_ls_channel succeeds if and only if its first reply and the first non-empty reply after it are both continue |
| StageFacts.SessionSendsInOrder | orcaControl.py:219-245 | over any session the driver sends a prefix of the eight commands in order, and all eight when the session succeeds |
| Driver.Channel.constructor | orcaControl.py:30-35 | a fresh connection has all controller tokens pending and an empty transcript |
| Driver.Channel.Send | orcaControl.py:57 | sending appends the token to the transcript and reads nothing |
| Driver.Channel.Recv | orcaControl.py:45 | a receive takes the next pending token and logs it at its wait point; with nothing pending nothing changes |
| Driver.FollowsThen | orcaControl.py:219-245 | two steps, the second taken only after the first succeeded, move the connection as their concatenated script does |
| Driver.SendCommand | orcaControl.py:57 | a send always succeeds and moves the connection as the one-send script does |
| Driver.AwaitStatus | orcaControl.py:45-52 | one receive and the wait point's chain move the connection as the one-wait script does |
| Driver.RebootBlockedRun | orcaControl.py:83-85 | only empty tokens: all logged, still waiting |
| Driver.RebootReadRun | orcaControl.py:83-92 | the first non-empty token after the empties is classified; the empties before it are logged |
| Driver.RebootLoopExit | orcaControl.py:83-92 | where the read loop stops, the connection is where the reboot wait's script leaves it |
| Driver.ReadNonEmpty | orcaControl.py:83-85 | the busy loop reads until a non-empty token or the end of input, logging every token it reads |
| Driver.AwaitReboot | orcaControl.py:82-92 | the second wait of set_ls_channel moves the connection as its one-wait script does |
| Driver.CheckConnection | orcaControl.py:44-52 | check_connection waits for "10" and otherwise fails with "no connection" |
| Driver.Initialise | orcaControl.py:56-58 | initialise sends "20" |
| Driver.CheckSepiaConnection | orcaControl.py:96-102 | check_sepia_connection waits for continue |
| Driver.CheckLaserSwitch | orcaControl.py:62-68 | check_laserSwitch waits for continue |
| Driver.CheckSafeStates | orcaControl.py:172-187 | check_safe_states waits for the verdict, then sends "70" only after continue |
| Driver.SetLsChannel | orcaControl.py:71-92 | set_ls_channel sends the channel, waits for acceptance, then waits through empty tokens for the reboot confirmation |
| Driver.SetLaserParameters | orcaControl.py:105-125 | set_laser_parameters sends the intensity, and only after its acknowledgement the frequency mode, then waits for that |
| Driver.CheckSelfTest | orcaControl.py:191-201 | check_self_test waits for the self-test verdict |
| Driver.Command | orcaControl.py:128-169 | a command followed by the wait for its acknowledgement |
| Driver.SetFsChannel | orcaControl.py:128-139 | set_fs_channel sends the fibre-switch channel and waits for it to be set |
| Driver.SetNiPulseNumber | orcaControl.py:142-153 | set_ni_pulse_number sends the pulse count and waits for acceptance |
| Driver.SetNiTriggerFrequency | orcaControl.py:156-169 | set_ni_trigger_frequency sends the trigger frequency and waits for it to be set |
| Driver.RunCompletion | orcaControl.py:204-214 | run_completion waits for the end-of-run verdict |
| Driver.Perform | orcaControl.py:219-245 | each stage function, called with its parameters, moves the connection as that stage's script does |
| Driver.Proceed | orcaControl.py:219-245 | a line of main runs its stage only if no earlier stage failed, and extends the script played so far by that stage |
| Driver.RunSession | orcaControl.py:219-245 | main's final status and wire transcript are exactly those of the reference session on the same input |

## Left out

- Socket setup and teardown (`initialise_socket`, `close_socket`), the server address and port, and the blank probe message sent on connect are not modelled. The connection starts as a queue of the tokens the controller will deliver.
- Message framing: `recv(1024)` is taken to return exactly one whole token. Split or merged TCP segments are not modelled.
- Console output and the text of every message are left out. A failure carries a diagnosis (`Reason`) instead of the printed sentence.
- `sys.exit` is modelled as a returned `Failed` status after which no stage runs. The exit code and the process ending are not modelled.
- The literal parameters that `main` passes ("1", "100", "6", "1", "100000", "10000") are the fields of a `Config` parameter, so every property holds for any values.
- A receive on a controller that never answers blocks forever in the driver. In the model it becomes `Blocked(at)` once the finite input is exhausted. This includes the busy loop at lines 83-85 when only empty tokens arrive.
- The string literal at orcaControl.py:78 is not terminated, so the file as written does not parse. The model takes the evident intent: a timeout token at the first wait of `set_ls_channel` ends the run with the timeout diagnosis, as at line 90.
- The codes "30", "40" and "79" are declared but no stage compares against them. They are in the registry, and a token carrying one of them falls into the receiving stage's catch-all branch.
