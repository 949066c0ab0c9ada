/** What the individual stages of the SMELLIE driver do with the tokens they
    receive: the sends that depend on an acknowledgement, and the two waits
    of the laser-switch channel stage.
 */
module StageFacts {

  import opened Flags
  import opened Protocol
  import opened Session

  /** The send log distributes over concatenated transcripts. */
  lemma {:induction false} SendsAppend(a: seq<Event>, b: seq<Event>)
    ensures Sends(a + b) == Sends(a) + Sends(b)
  {
    if a == [] {
      assert a + b == b;
    } else {
      assert (a + b)[1..] == a[1..] + b;
      SendsAppend(a[1..], b);
    }
  }

  /** The send log of a one-entry transcript. */
  lemma SendsOne(e: Event)
    ensures Sends([e]) == if e.Sent? then [e.payload] else []
  {
    assert [e][1..] == [];
  }

  /** The commands a transcript sends are, in order, a prefix of what its
      script sends; all of them when the script ran to its end. */
  lemma {:induction false} SendsFollowScript(script: seq<Action>, pending: seq<Token>)
    ensures var r := Exec(script, pending);
      var n := |Sends(r.events)|;
      && n <= |Payloads(script)|
      && Sends(r.events) == Payloads(script)[..n]
      && (r.status == Done ==> Sends(r.events) == Payloads(script))
    decreases |script|, |pending|
  {
    if script != [] {
      var r := Exec(script, pending);
      UnfoldFirst(script);
      if script[0].Send? {
        var e := Sent(script[0].payload);
        SendsFollowScript(script[1..], pending);
        assert r == Glue([e], Exec(script[1..], pending));
        SendsAppend([e], Exec(script[1..], pending).events);
      } else if pending != [] {
        var w := script[0].at;
        if SkipsEmpty(w) && pending[0] == "" {
          var e := Received(w, "");
          SendsFollowScript(script, pending[1..]);
          assert r == Glue([e], Exec(script, pending[1..]));
          SendsAppend([e], Exec(script, pending[1..]).events);
        } else if Classify(w, pending[0]).Advance? {
          var e := Received(w, pending[0]);
          SendsFollowScript(script[1..], pending[1..]);
          assert r == Glue([e], Exec(script[1..], pending[1..]));
          SendsAppend([e], Exec(script[1..], pending[1..]).events);
        }
      }
    }
  }

  /** check_safe_states sends the setup-run command "70" only when the
      safe-state reply is the continue code; any other reply is that stage's
      failure and nothing is sent. */
  lemma SafeStatesSendOnlyOnContinue(cfg: Config, pending: seq<Token>)
    ensures var r := Exec(StageScript(CheckSafeStates, cfg), pending);
      && (r.status == Done <==> pending != [] && pending[0] == Code(ContinueFlag))
      && Sends(r.events) == (if r.status == Done then [Code(SetupRunFlag)] else [])
      && (pending != [] && pending[0] != Code(ContinueFlag) ==>
            r.status == Failed(SafeStateWait, Classify(SafeStateWait, pending[0]).reason, pending[0]))
  {
    var setup := [Send(Code(SetupRunFlag))];
    assert StageScript(CheckSafeStates, cfg) == [Await(SafeStateWait)] + setup;
    if pending != [] {
      var data, more := pending[0], pending[1..];
      assert pending == [data] + more;
      AdvancesOnlyOnSuccess(SafeStateWait, data);
      CodeNonEmpty(ContinueFlag);
      if data == Code(ContinueFlag) {
        ExecAdvance(SafeStateWait, setup, data, more);
        ExecSend(Code(SetupRunFlag), [], more);
        assert setup == [Send(Code(SetupRunFlag))] + [];
        SendsAppend([Received(SafeStateWait, data)], [Sent(Code(SetupRunFlag))]);
      } else {
        ExecReject(SafeStateWait, setup, data, more);
      }
    }
  }

  /** set_laser_parameters when the intensity is acknowledged: the intensity,
      the acknowledgement and the frequency mode are on the wire, and the
      stage goes on to wait for the frequency reply. */
  lemma LaserParametersAcknowledged(cfg: Config, more: seq<Token>)
    ensures Exec(StageScript(SetLaserParameters, cfg), [Code(ContinueFlag)] + more)
         == Glue([Sent(cfg.intensity), Received(IntensityWait, Code(ContinueFlag)), Sent(cfg.frequencyMode)],
                 Exec([Await(FrequencyWait)], more))
  {
    var c := Code(ContinueFlag);
    CodeNonEmpty(ContinueFlag);
    var last := [Await(FrequencyWait)];
    var second := [Send(cfg.frequencyMode)] + last;
    var tail := [Await(IntensityWait)] + second;
    assert StageScript(SetLaserParameters, cfg) == [Send(cfg.intensity)] + tail;
    ExecSend(cfg.intensity, tail, [c] + more);
    ExecAdvance(IntensityWait, second, c, more);
    ExecSend(cfg.frequencyMode, last, more);
  }

  /** set_laser_parameters when the intensity is not acknowledged: it fails at
      the intensity wait, having sent the intensity only. */
  lemma LaserParametersRejected(cfg: Config, data: Token, more: seq<Token>)
    requires data != Code(ContinueFlag)
    ensures Exec(StageScript(SetLaserParameters, cfg), [data] + more)
         == Run(Failed(IntensityWait, Classify(IntensityWait, data).reason, data),
                [Sent(cfg.intensity), Received(IntensityWait, data)], more)
  {
    var second := [Send(cfg.frequencyMode), Await(FrequencyWait)];
    var tail := [Await(IntensityWait)] + second;
    assert StageScript(SetLaserParameters, cfg) == [Send(cfg.intensity)] + tail;
    ExecSend(cfg.intensity, tail, [data] + more);
    AdvancesOnlyOnSuccess(IntensityWait, data);
    ExecReject(IntensityWait, second, data, more);
  }

  /** set_laser_parameters always sends the intensity, and sends the
      frequency mode only after the intensity is acknowledged with the
      continue code; it advances only when both replies are continue. */
  lemma LaserParametersSendOnlyOnAck(cfg: Config, pending: seq<Token>)
    ensures var r := Exec(StageScript(SetLaserParameters, cfg), pending);
      var c := Code(ContinueFlag);
      && Sends(r.events)
         == [cfg.intensity] + (if pending != [] && pending[0] == c then [cfg.frequencyMode] else [])
      && (r.status == Done <==> |pending| >= 2 && pending[0] == c && pending[1] == c)
      && (pending != [] && pending[0] != c ==>
            r.status == Failed(IntensityWait, Classify(IntensityWait, pending[0]).reason, pending[0]))
      && (|pending| >= 2 && pending[0] == c && pending[1] != c ==>
            r.status == Failed(FrequencyWait, Classify(FrequencyWait, pending[1]).reason, pending[1]))
  {
    if pending == [] {
      LaserParametersNoReply(cfg);
    } else {
      assert pending == [pending[0]] + pending[1..];
      if pending[0] == Code(ContinueFlag) {
        LaserParametersAckSends(cfg, pending[1..]);
      } else {
        LaserParametersNackSends(cfg, pending[0], pending[1..]);
      }
    }
  }

  /** Helper for LaserParametersSendOnlyOnAck: no reply at all. */
  lemma LaserParametersNoReply(cfg: Config)
    ensures var r := Exec(StageScript(SetLaserParameters, cfg), []);
      Sends(r.events) == [cfg.intensity] && r.status == Blocked(IntensityWait)
  {
    var tail := [Await(IntensityWait), Send(cfg.frequencyMode), Await(FrequencyWait)];
    assert StageScript(SetLaserParameters, cfg) == [Send(cfg.intensity)] + tail;
    ExecSend(cfg.intensity, tail, []);
    SendsOne(Sent(cfg.intensity));
    assert [Sent(cfg.intensity)] + [] == [Sent(cfg.intensity)];
  }

  /** Helper for LaserParametersSendOnlyOnAck: the intensity is acknowledged. */
  lemma LaserParametersAckSends(cfg: Config, more: seq<Token>)
    ensures var r := Exec(StageScript(SetLaserParameters, cfg), [Code(ContinueFlag)] + more);
      && Sends(r.events) == [cfg.intensity, cfg.frequencyMode]
      && (r.status == Done <==> more != [] && more[0] == Code(ContinueFlag))
      && (more != [] && more[0] != Code(ContinueFlag) ==>
            r.status == Failed(FrequencyWait, Classify(FrequencyWait, more[0]).reason, more[0]))
  {
    var c := Code(ContinueFlag);
    LaserParametersAcknowledged(cfg, more);
    var rl := Exec([Await(FrequencyWait)], more);
    var first, ack, freq := Sent(cfg.intensity), Received(IntensityWait, c), Sent(cfg.frequencyMode);
    var head := [first, ack, freq];
    SendsAppend(head, rl.events);
    SendsOne(first);
    SendsOne(ack);
    SendsOne(freq);
    SendsAppend([first], [ack, freq]);
    SendsAppend([ack], [freq]);
    assert head == [first] + [ack, freq] && [ack, freq] == [ack] + [freq];
    FrequencyReply(more);
  }

  /** Helper for LaserParametersSendOnlyOnAck: the intensity is not acknowledged. */
  lemma LaserParametersNackSends(cfg: Config, data: Token, more: seq<Token>)
    requires data != Code(ContinueFlag)
    ensures var r := Exec(StageScript(SetLaserParameters, cfg), [data] + more);
      && Sends(r.events) == [cfg.intensity]
      && r.status == Failed(IntensityWait, Classify(IntensityWait, data).reason, data)
  {
    LaserParametersRejected(cfg, data, more);
    var first, nack := Sent(cfg.intensity), Received(IntensityWait, data);
    SendsOne(first);
    SendsOne(nack);
    SendsAppend([first], [nack]);
    assert [first, nack] == [first] + [nack];
  }

  /** The frequency wait of set_laser_parameters sends nothing and advances
      only on the continue code. */
  lemma FrequencyReply(more: seq<Token>)
    ensures var r := Exec([Await(FrequencyWait)], more);
      && Sends(r.events) == []
      && (r.status == Done <==> more != [] && more[0] == Code(ContinueFlag))
      && (more != [] && more[0] != Code(ContinueFlag) ==>
            r.status == Failed(FrequencyWait, Classify(FrequencyWait, more[0]).reason, more[0]))
  {
    if more != [] {
      var data, rest := more[0], more[1..];
      assert more == [data] + rest;
      assert [Await(FrequencyWait)] == [Await(FrequencyWait)] + [];
      AdvancesOnlyOnSuccess(FrequencyWait, data);
      CodeNonEmpty(ContinueFlag);
      if data == Code(ContinueFlag) {
        ExecAdvance(FrequencyWait, [], data, rest);
      } else {
        ExecReject(FrequencyWait, [], data, rest);
      }
    }
  }

  /** `n` empty tokens. */
  function Empties(n: nat): (r: seq<Token>)
    ensures |r| == n && forall i | 0 <= i < n :: r[i] == ""
  {
    seq(n, _ => "")
  }

  /** set_ls_channel classifies its first reply as received: anything but the
      continue code fails at the first wait, the empty token with the
      "re-start SMELLIE" diagnosis and the timeout code with the timeout one.
      Only the channel command has been sent. */
  lemma LsChannelFirstWait(cfg: Config, data: Token, more: seq<Token>)
    requires data != Code(ContinueFlag)
    ensures var r := Exec(StageScript(SetLsChannel, cfg), [data] + more);
      && r.status == Failed(LsChannelAckWait, Classify(LsChannelAckWait, data).reason, data)
      && r.rest == more
      && Sends(r.events) == [cfg.lsChannel]
      && (data == "" ==> r.status.reason == LsChannelNotAccepted)
      && (data == Code(TimeoutFlag) ==> r.status.reason == TimedOut)
  {
    var sc := StageScript(SetLsChannel, cfg);
    var p := [data] + more;
    assert sc[1..] == [Await(LsChannelAckWait), Await(LsChannelRebootWait)];
    AdvancesOnlyOnSuccess(LsChannelAckWait, data);
    var e := Received(LsChannelAckWait, data);
    assert p[0] == data && p[1..] == more;
    assert Exec(sc, p) == Glue([Sent(cfg.lsChannel)], Exec(sc[1..], p));
    assert Exec(sc[1..], p) == Run(Failed(LsChannelAckWait, Classify(LsChannelAckWait, data).reason, data), [e], more);
    SendsAppend([Sent(cfg.lsChannel)], [e]);
  }

  /** set_ls_channel once its first reply is continue: the channel command and
      the acknowledgement are on the wire and the stage waits for the
      confirmation that Sepia has rebooted. */
  lemma LsChannelAcknowledged(cfg: Config, more: seq<Token>)
    ensures Exec(StageScript(SetLsChannel, cfg), [Code(ContinueFlag)] + more)
         == Glue([Sent(cfg.lsChannel), Received(LsChannelAckWait, Code(ContinueFlag))],
                 Exec([Await(LsChannelRebootWait)], more))
  {
    var c := Code(ContinueFlag);
    var reboot := [Await(LsChannelRebootWait)];
    var tail := [Await(LsChannelAckWait)] + reboot;
    assert StageScript(SetLsChannel, cfg) == [Send(cfg.lsChannel)] + tail;
    ExecSend(cfg.lsChannel, tail, [c] + more);
    AdvancesOnlyOnSuccess(LsChannelAckWait, c);
    ExecAdvance(LsChannelAckWait, reboot, c, more);
  }

  /** The reboot wait of set_ls_channel: after `n` empty tokens, the first
      non-empty token is classified. */
  lemma RebootWait(n: nat, data: Token, more: seq<Token>)
    requires data != ""
    ensures var r := Exec([Await(LsChannelRebootWait)], Empties(n) + [data] + more);
      && r.rest == more
      && (Classify(LsChannelRebootWait, data) == Advance ==> r.status == Done)
      && (Classify(LsChannelRebootWait, data).Reject? ==>
            r.status == Failed(LsChannelRebootWait, Classify(LsChannelRebootWait, data).reason, data))
  {
    var reboot := [Await(LsChannelRebootWait)];
    var q := Empties(n) + [data] + more;
    SkipEmpties(reboot, q, n);
    assert q[n..] == [data] + more;
    assert reboot == [Await(LsChannelRebootWait)] + [];
    if Classify(LsChannelRebootWait, data) == Advance {
      ExecAdvance(LsChannelRebootWait, [], data, more);
    } else {
      ExecReject(LsChannelRebootWait, [], data, more);
    }
  }

  /** The reboot wait of set_ls_channel stays blocked while only empty tokens
      arrive. */
  lemma RebootWaitBlocked(q: seq<Token>)
    requires forall i | 0 <= i < |q| :: q[i] == ""
    ensures Exec([Await(LsChannelRebootWait)], q).status == Blocked(LsChannelRebootWait)
  {
    SkipEmpties([Await(LsChannelRebootWait)], q, |q|);
    assert q[|q|..] == [];
  }

  /** The reboot wait of set_ls_channel, once a non-empty token follows the
      empty ones, ends well exactly when that token is continue. */
  lemma RebootFound(q: seq<Token>, k: nat)
    requires k < |q| && q[k] != ""
    requires forall i | 0 <= i < k :: q[i] == ""
    ensures Exec([Await(LsChannelRebootWait)], q).status == Done <==> q[k] == Code(ContinueFlag)
  {
    assert q == Empties(k) + [q[k]] + q[k + 1..];
    RebootWait(k, q[k], q[k + 1..]);
    AdvancesOnlyOnSuccess(LsChannelRebootWait, q[k]);
  }

  /** The reboot wait of set_ls_channel ends well exactly when the first
      non-empty token is continue. */
  lemma RebootOutcome(q: seq<Token>)
    ensures var k := LeadingEmpty(q);
      (Exec([Await(LsChannelRebootWait)], q).status == Done)
        == (k < |q| && q[k] == Code(ContinueFlag))
  {
    var k := LeadingEmpty(q);
    if k == |q| {
      RebootWaitBlocked(q);
    } else {
      RebootFound(q, k);
    }
  }

  /** A run that leaves `more` unread has received everything before it. */
  lemma ReceivedCount(script: seq<Action>, pending: seq<Token>, more: seq<Token>)
    requires Exec(script, pending).rest == more
    ensures |Tokens(Exec(script, pending).events)| == |pending| - |more|
  {
    var r := Exec(script, pending);
    ExecReadsPrefix(script, pending);
    assert |Tokens(r.events) + r.rest| == |pending|;
  }

  /** After the first reply is continue, set_ls_channel's second wait
      discards any number of empty tokens and classifies the first non-empty
      one: the stage advances exactly when it is continue, and a timeout there
      is reported against the second wait. */
  lemma LsChannelSecondWait(cfg: Config, n: nat, data: Token, more: seq<Token>)
    requires data != ""
    ensures var r := Exec(StageScript(SetLsChannel, cfg), [Code(ContinueFlag)] + (Empties(n) + [data] + more));
      && r.rest == more
      && |Tokens(r.events)| == n + 2
      && (r.status == Done <==> data == Code(ContinueFlag))
      && (data != Code(ContinueFlag) ==>
            r.status == Failed(LsChannelRebootWait, Classify(LsChannelRebootWait, data).reason, data))
      && (data == Code(TimeoutFlag) ==> r.status == Failed(LsChannelRebootWait, TimedOut, data))
  {
    var q := Empties(n) + [data] + more;
    LsChannelAcknowledged(cfg, q);
    RebootWait(n, data, more);
    AdvancesOnlyOnSuccess(LsChannelRebootWait, data);
    ReceivedCount(StageScript(SetLsChannel, cfg), [Code(ContinueFlag)] + q, more);
  }

  /** set_ls_channel with its first reply continue advances exactly when the
      first non-empty token after it is continue. */
  lemma LsChannelAckedOutcome(cfg: Config, q: seq<Token>)
    ensures var k := LeadingEmpty(q);
      (Exec(StageScript(SetLsChannel, cfg), [Code(ContinueFlag)] + q).status == Done)
        == (k < |q| && q[k] == Code(ContinueFlag))
  {
    LsChannelAcknowledged(cfg, q);
    RebootOutcome(q);
  }

  /** set_ls_channel with no reply at all is blocked at its first wait. */
  lemma LsChannelSilent(cfg: Config)
    ensures Exec(StageScript(SetLsChannel, cfg), []).status == Blocked(LsChannelAckWait)
  {
    var tail := [Await(LsChannelAckWait), Await(LsChannelRebootWait)];
    assert StageScript(SetLsChannel, cfg) == [Send(cfg.lsChannel)] + tail;
    ExecSend(cfg.lsChannel, tail, []);
  }

  /** LsChannelAdvances when the first reply is continue. */
  lemma LsChannelAckedAdvances(cfg: Config, pending: seq<Token>)
    requires pending != [] && pending[0] == Code(ContinueFlag)
    ensures Exec(StageScript(SetLsChannel, cfg), pending).status == Done
        <==> && 1 + LeadingEmpty(pending[1..]) < |pending|
             && pending[1 + LeadingEmpty(pending[1..])] == Code(ContinueFlag)
  {
    var q := pending[1..];
    assert pending == [Code(ContinueFlag)] + q;
    LsChannelAckedOutcome(cfg, q);
    var k := LeadingEmpty(q);
    if k < |q| {
      assert pending[1 + k] == q[k];
    }
  }

  /** set_ls_channel advances exactly when its first reply is continue and the
      first non-empty reply after it is continue as well. */
  lemma LsChannelAdvances(cfg: Config, pending: seq<Token>)
    ensures Exec(StageScript(SetLsChannel, cfg), pending).status == Done
        <==> && |pending| >= 2
             && pending[0] == Code(ContinueFlag)
             && 1 + LeadingEmpty(pending[1..]) < |pending|
             && pending[1 + LeadingEmpty(pending[1..])] == Code(ContinueFlag)
  {
    if pending == [] {
      LsChannelSilent(cfg);
    } else if pending[0] != Code(ContinueFlag) {
      assert pending == [pending[0]] + pending[1..];
      LsChannelFirstWait(cfg, pending[0], pending[1..]);
    } else {
      LsChannelAckedAdvances(cfg, pending);
    }
  }

  /** Over a whole session the driver sends a prefix of
      "20", "70", channel, intensity, frequency mode, fibre channel, pulses,
      trigger frequency, in that order; all of them exactly when the session
      ran to its end. */
  lemma SessionSendsInOrder(cfg: Config, input: seq<Token>)
    ensures var sent := Sends(SessionRun(cfg, input).events);
      && |sent| <= |FullSends(cfg)|
      && sent == FullSends(cfg)[..|sent|]
      && (SessionRun(cfg, input).status == Done ==> sent == FullSends(cfg))
  {
    SendsFollowScript(SessionScript(cfg), input);
    SessionPayloads(cfg);
  }
}
