/** What each command promises about the order of its requests and its outcome. */
module CommandProperties {
  import opened Types
  import opened Oracle
  import opened Protocol
  import opened Commands
  import opened StatusProperties
  import opened ConnectProperties

  /** A command that succeeds never reports a status that still waits for a
      challenge answer. */
  lemma CommandsReportSettledStatus(w: World, command: ServiceCommand)
    ensures var r := RunCommand(w, command); r.result.Success? ==> Settled(r.result.value)
  {
  }

  /** `status`, `disconnect` and `info` leave the parameters and the prompt queue alone;
      `connect` and `reconnect` change the parameters only when no password and no
      client certificate is configured. */
  lemma ConfigurationKept(w: World, command: ServiceCommand)
    ensures var r := RunCommand(w, command);
      (command.Status? || command.Disconnect? || command.Info?)
        ==> r.world.params == w.params && r.world.pwdPrompts == w.pwdPrompts
    ensures var r := RunCommand(w, command);
      (w.params.password != "" || w.params.clientCert.Some?) ==> r.world.params == w.params
  {
    match command
    case Connect =>
      var s := DoStatus(FillPwdPrompts(w));
      if s.result.Success? && (w.params.password != "" || w.params.clientCert.Some?) {
        AcquireSkipped(s.world);
      }
    case Reconnect =>
      var f := FillPwdPrompts(DoDisconnect(w).world);
      if w.params.password != "" || w.params.clientCert.Some? {
        AcquireSkipped(f);
      }
    case _ =>
  }

  /** When the service cannot be reached on the first status poll, `status`, `connect`
      and `disconnect` fail with that transport error at once; `connect` has only
      fetched the server's password prompts before. */
  lemma CommandTransportFailure(w: World, command: ServiceCommand)
    requires command.Status? || command.Connect? || command.Disconnect?
    requires w.env.replies == [] || w.env.replies[0].Failed?
    ensures var r := RunCommand(w, command);
      r.result == Failure(Transport(if w.env.replies == [] then NoReply else w.env.replies[0].reason))
      && Added(w, r.world) ==
           (if command.Connect? then [PwdPromptsFetched(w.params)] else []) + [Sent(GetStatus, RecvTimeoutSecs)]
  {
    if command.Connect? {
      var f := FillPwdPrompts(w);
      StatusTransportFailure(f);
      AddedSplit(w, f, DoStatus(f).world);
    } else {
      StatusTransportFailure(w);
    }
  }

  /** The prompt fetch and a settled first status poll of `connect`. */
  lemma FetchThenSettledStatus(w: World, status: ConnectionStatus)
    requires w.params.password == ""
    requires w.env.replies != [] && w.env.replies[0] == Delivered(StatusReport(status)) && Settled(status)
    ensures var f := FillPwdPrompts(w); var s := DoStatus(f);
      s.result == Success(status) && s.world.params == w.params && s.world.pwdPrompts == f.pwdPrompts
      && Added(w, s.world) == [PwdPromptsFetched(w.params), Sent(GetStatus, RecvTimeoutSecs)]
  {
    var f := FillPwdPrompts(w);
    assert Added(w, f) == [PwdPromptsFetched(w.params)];
    StatusSettledReply(f, status);
    AddedSplit(w, f, DoStatus(f).world);
  }

  /** Without a password or the keychain, the first thing `do_connect` does is prompt. */
  lemma ConnectPromptsFirst(v: World)
    requires v.params.serverName != "" && v.params.loginType != ""
    requires v.params.password == "" && v.params.clientCert.None? && v.params.noKeychain
    ensures var a := Added(v, DoConnect(v).world);
      a != [] && a[0] == Prompted(NextPasswordPrompt(v.pwdPrompts, v.params.userName).0)
  {
    var acq := AcquirePassword(v);
    var r := DoConnect(v);
    PromptAcquisition(v);
    if acq.result.Success? {
      ConnectSendsAcquiredParams(v);
    } else {
      assert r == Run(acq.world, Failure(acq.result.error));
    }
    AddedSplit(v, acq.world, r.world);
  }

  /** `connect` fetches the server's password prompts, checks the status, and then,
      with the keychain off and no password configured, prompts with the server's
      first prompt or else with the default text. */
  lemma ConnectPromptText(w: World, status: ConnectionStatus)
    requires w.params.serverName != "" && w.params.loginType != ""
    requires w.params.password == "" && w.params.clientCert.None? && w.params.noKeychain
    requires w.env.replies != [] && w.env.replies[0] == Delivered(StatusReport(status)) && Settled(status)
    ensures var a := Added(w, RunCommand(w, ServiceCommand.Connect).world);
      var declared := w.env.pwdPrompts != [] && w.env.pwdPrompts[0].Success? && w.env.pwdPrompts[0].value != [];
      |a| >= 3 && a[0] == PwdPromptsFetched(w.params) && a[1] == Sent(GetStatus, RecvTimeoutSecs)
      && a[2] == Prompted(if declared then w.env.pwdPrompts[0].value[0] else DefaultPrompt(w.params.userName))
  {
    var f := FillPwdPrompts(w);
    var s := DoStatus(f);
    FetchThenSettledStatus(w, status);
    var r := DoConnect(s.world);
    assert RunCommand(w, ServiceCommand.Connect) == r;
    ConnectPromptsFirst(s.world);
    AddedSplit(w, s.world, r.world);
  }

  /** A user `alice` with no password, no keychain and no server prompts is asked
      "Enter password for alice: ". */
  lemma AliceIsAskedWithDefaultPrompt(w: World)
    requires w.params == TunnelParams("vpn.example.com", "alice", "", "vpn_Username_Password", None, true)
    requires w.env.pwdPrompts == [Success([])]
    requires w.env.replies != [] && w.env.replies[0] == Delivered(StatusReport(DefaultStatus))
    ensures var a := Added(w, RunCommand(w, ServiceCommand.Connect).world);
      |a| >= 3 && a[2] == Prompted("Enter password for alice: ")
  {
    assert Settled(DefaultStatus);
    ConnectPromptText(w, DefaultStatus);
    assert DefaultPrompt("alice") == "Enter password for alice: ";
  }

  /** `disconnect` polls the status first, then sends Disconnect, and polls the status
      again whatever the service answered to Disconnect; only a transport failure of
      the Disconnect request ends it early. */
  lemma DisconnectCommandOrder(w: World)
    ensures var s := DoStatus(w); var r := RunCommand(w, ServiceCommand.Disconnect);
      Added(w, s.world)[0] == Sent(GetStatus, RecvTimeoutSecs)
      && if s.result.Failure? then r == s
         else
           var d := s.world;
           s.world.env.trace <= r.world.env.trace
           && var b := Added(d, r.world);
           b[0] == Sent(TunnelServiceRequest.Disconnect, RecvTimeoutSecs)
           && (d.env.replies == [] || d.env.replies[0].Failed? ==> |b| == 1 && r.result.Failure? && r.result.error.Transport?)
           && (d.env.replies != [] && d.env.replies[0].Delivered? ==> |b| >= 2 && b[1] == Sent(GetStatus, RecvTimeoutSecs))
  {
    var s := DoStatus(w);
    StatusLoop(w);
    if s.result.Success? {
      var d := s.world;
      var (e1, reply) := Exchange(d.env, TunnelServiceRequest.Disconnect, RecvTimeoutSecs);
      var d1 := d.(env := e1);
      var r := RunCommand(w, ServiceCommand.Disconnect);
      assert Added(d, d1) == [Sent(TunnelServiceRequest.Disconnect, RecvTimeoutSecs)];
      if reply.Delivered? {
        assert r == DoStatus(d1);
        StatusLoop(d1);
        AddedSplit(d, d1, r.world);
      }
    }
  }

  /** `reconnect` runs `connect` on whatever `disconnect` left behind, ignoring its
      outcome: even when the Disconnect request cannot be delivered, the prompts are
      fetched again and Connect is sent. */
  lemma ReconnectIgnoresDisconnectFailure(w: World)
    requires w.params.serverName != "" && w.params.loginType != ""
    requires w.params.password != "" || w.params.clientCert.Some?
    ensures var d := DoDisconnect(w); var r := RunCommand(w, Reconnect);
      && d.world.env.trace <= r.world.env.trace
      && var b := Added(d.world, r.world);
      |b| >= 2 && b[0] == PwdPromptsFetched(w.params)
      && b[1] == Sent(TunnelServiceRequest.Connect(w.params), ConnectTimeoutSecs)
  {
    var d := DoDisconnect(w);
    var f := FillPwdPrompts(d.world);
    var r := DoConnect(f);
    assert Added(d.world, f) == [PwdPromptsFetched(w.params)];
    ConfiguredPasswordSentAsIs(f);
    AddedSplit(d.world, f, r.world);
  }

  /** A disconnect whose follow-up status poll gets an unexpected reply fails, and
      `reconnect` still sends `Connect`. */
  lemma ReconnectAfterInvalidResponse(w: World)
    requires w.params.serverName != "" && w.params.loginType != "" && w.params.password != ""
    requires w.env.replies == [Delivered(Ok), Delivered(Ok)]
    ensures DoDisconnect(w).result == Failure(InvalidResponse)
    ensures Sent(TunnelServiceRequest.Connect(w.params), ConnectTimeoutSecs)
            in Added(w, RunCommand(w, Reconnect).world)
  {
    var d := DoDisconnect(w);
    var r := RunCommand(w, Reconnect);
    ReconnectIgnoresDisconnectFailure(w);
    var b := Added(d.world, r.world);
    AddedSplit(w, d.world, r.world);
    assert Added(w, r.world)[|Added(w, d.world)| + 1] == b[1];
  }

  /** `info` talks to the server directly: no request reaches the service, and it
      reports a disconnected status when the server answers. */
  lemma InfoBypassesService(w: World)
    ensures var r := RunCommand(w, Info);
      Added(w, r.world) == [ServerInfoFetched(w.params)]
      && (w.env.serverInfo != [] && w.env.serverInfo[0].Pass? ==> r.result == Success(DefaultStatus))
      && (w.env.serverInfo == [] || w.env.serverInfo[0].Fail? ==> r.result.Failure? && r.result.error.InfoFailed?)
  {
  }
}
