/** What `do_connect` promises: when it refuses to start, where the password comes
    from, what the Connect request carries and how the service's answer is handled. */
module ConnectProperties {
  import opened Types
  import opened Text
  import opened Oracle
  import opened Protocol
  import opened StatusProperties

  /** Without a server name or a login type nothing is sent, asked or changed. */
  lemma ConnectRejectsMissingParameters(w: World)
    requires w.params.serverName == "" || w.params.loginType == ""
    ensures DoConnect(w) == Run(w, Failure(MissingParameters))
  {
  }

  /** With a configured password or a client certificate, neither the keychain nor the
      user is asked and the state is left as it was. */
  lemma AcquireSkipped(w: World)
    requires w.params.password != "" || w.params.clientCert.Some?
    ensures AcquirePassword(w) == Run(w, Success(()))
  {
  }

  /** With the keychain in use, the keychain is read once and nobody is prompted; the
      password is the keychain's, or stays empty when the keychain has none, and the
      acquisition succeeds either way. */
  lemma KeychainAcquisition(w: World)
    requires w.params.password == "" && w.params.clientCert.None? && !w.params.noKeychain
    ensures var a := AcquirePassword(w);
      a.result.Success? && a.world.pwdPrompts == w.pwdPrompts
      && Added(w, a.world) == [KeychainRead(w.params.userName)]
      && a.world.params == w.params.(password :=
           if w.env.keychain != [] && w.env.keychain[0].Success? then w.env.keychain[0].value else "")
  {
  }

  /** Without the keychain, the user is prompted once: with the first server prompt,
      which is taken off the queue, or else with the default text, leaving the queue
      alone. The stored password is the trimmed answer; a failed prompt keeps the
      parameters (the queue has already given up its front). */
  lemma PromptAcquisition(w: World)
    requires w.params.password == "" && w.params.clientCert.None? && w.params.noKeychain
    ensures var a := AcquirePassword(w); var q := w.pwdPrompts;
      var queued := q.Some? && q.value != [];
      Added(w, a.world) == [Prompted(if queued then q.value[0] else DefaultPrompt(w.params.userName))]
      && a.world.pwdPrompts == (if queued then Some(q.value[1..]) else q)
      && if w.env.inputs != [] && w.env.inputs[0].Success? then
           a.result.Success? && a.world.params == w.params.(password := Trim(w.env.inputs[0].value))
         else
           a.result.Failure? && a.result.error.PromptFailed? && a.world.params == w.params
  {
  }

  /** A failed acquisition ends the connect before any request is sent. */
  lemma AcquisitionFailureSendsNothing(w: World)
    requires w.params.serverName != "" && w.params.loginType != ""
    requires AcquirePassword(w).result.Failure?
    ensures var a := AcquirePassword(w); var r := DoConnect(w);
      r == Run(a.world, Failure(a.result.error))
      && forall ev | ev in Added(w, r.world) :: !ev.Sent?
  {
    var a := AcquirePassword(w);
    assert a.world.params.noKeychain;
    PromptAcquisition(w);
  }

  /** After a successful acquisition the Connect request carries the acquired
      parameters with the long timeout, and the controller keeps exactly those
      parameters. `Ok` leads to a fresh status check, `Error` fails with the service's
      message, and anything else is an invalid response. */
  lemma ConnectSendsAcquiredParams(w: World)
    requires w.params.serverName != "" && w.params.loginType != ""
    requires AcquirePassword(w).result.Success?
    ensures var a := AcquirePassword(w); var r := DoConnect(w); var e := a.world.env;
      a.world.env.trace <= r.world.env.trace
      && var b := Added(a.world, r.world);
      b != [] && b[0] == Sent(TunnelServiceRequest.Connect(a.world.params), ConnectTimeoutSecs)
      && r.world.params == a.world.params && r.world.pwdPrompts == a.world.pwdPrompts
      && if e.replies == [] || e.replies[0].Failed? then
           r.result.Failure? && r.result.error.Transport? && |b| == 1
         else match e.replies[0].response
           case Ok => |b| >= 2 && b[1] == Sent(GetStatus, RecvTimeoutSecs)
           case Error(message) => r.result == Failure(Service(message)) && |b| == 1
           case StatusReport(_) => r.result == Failure(InvalidResponse) && |b| == 1
  {
    var a := AcquirePassword(w);
    var (e2, reply) := Exchange(a.world.env, TunnelServiceRequest.Connect(a.world.params), ConnectTimeoutSecs);
    var w2 := a.world.(env := e2);
    var r := DoConnect(w);
    assert Added(a.world, w2) == [Sent(TunnelServiceRequest.Connect(a.world.params), ConnectTimeoutSecs)];
    if reply == Delivered(Ok) {
      assert r == DoStatus(w2);
      StatusLoop(w2);
      AddedSplit(a.world, w2, r.world);
    }
  }

  /** With the keychain in use and no password configured, the keychain is read and
      Connect is sent right after, with the keychain's password or an empty one:
      nobody is prompted for a password. */
  lemma KeychainPathNeverPrompts(w: World)
    requires w.params.serverName != "" && w.params.loginType != ""
    requires w.params.password == "" && w.params.clientCert.None? && !w.params.noKeychain
    ensures var a := Added(w, DoConnect(w).world);
      var password := if w.env.keychain != [] && w.env.keychain[0].Success? then w.env.keychain[0].value else "";
      |a| >= 2 && a[0] == KeychainRead(w.params.userName)
      && a[1] == Sent(TunnelServiceRequest.Connect(w.params.(password := password)), ConnectTimeoutSecs)
  {
    var acq := AcquirePassword(w);
    KeychainAcquisition(w);
    ConnectSendsAcquiredParams(w);
    AddedSplit(w, acq.world, DoConnect(w).world);
  }

  /** A configured password (or a client certificate) is sent as it is, and the
      parameters are never changed. */
  lemma ConfiguredPasswordSentAsIs(w: World)
    requires w.params.serverName != "" && w.params.loginType != ""
    requires w.params.password != "" || w.params.clientCert.Some?
    ensures var r := DoConnect(w); var a := Added(w, r.world);
      a != [] && a[0] == Sent(TunnelServiceRequest.Connect(w.params), ConnectTimeoutSecs)
      && r.world.params == w.params
  {
    AcquireSkipped(w);
    ConnectSendsAcquiredParams(w);
  }
}
