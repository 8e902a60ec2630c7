/** What a status check promises: the requests it may send, when it saves the
    password in the keychain, and how each kind of reply is handled. */
module StatusProperties {
  import opened Types
  import opened Oracle
  import opened Protocol

  lemma AddedSplit(a: World, b: World, c: World)
    requires a.env.trace <= b.env.trace && b.env.trace <= c.env.trace
    ensures Added(a, c) == Added(a, b) + Added(b, c)
  {
  }

  predicate NoStores(events: seq<Event>) {
    forall ev | ev in events :: !ev.KeychainStore?
  }

  /** Every request among `events` is a status poll or a challenge answer carrying `params`. */
  predicate OnlyStatusTraffic(events: seq<Event>, params: TunnelParams) {
    forall ev | ev in events && ev.Sent? ::
      ev.request.GetStatus? || (ev.request.ChallengeCode? && ev.request.params == params)
  }

  /** When a status check saves the password: the tunnel is up, a password is known and
      the keychain is in use. */
  predicate StoreCondition(params: TunnelParams, result: Result<ConnectionStatus, ControllerError>) {
    result.Success? && result.value.connectedSince.Some? && params.password != "" && !params.noKeychain
  }

  /** Under the store condition exactly one keychain store happens, as the last event,
      with the current user name and password; otherwise none happens. */
  predicate StoresOnceIff(events: seq<Event>, params: TunnelParams, result: Result<ConnectionStatus, ControllerError>) {
    if StoreCondition(params, result) then
      events != [] && events[|events| - 1] == KeychainStore(params.userName, params.password)
      && NoStores(events[..|events| - 1])
    else
      NoStores(events)
  }

  /** The interactions needed to answer a challenge: one prompt with the challenge's
      question, or opening the challenge's URL and then, if that worked, one wait for
      the one-time code. */
  lemma MfaInputEvents(w: World, mfa: MfaChallenge)
    ensures var m := GetMfaInput(w, mfa);
      Added(w, m.world) ==
        if mfa.mfaType.UserInput? then [Prompted(mfa.prompt)]
        else if w.env.browser != [] && w.env.browser[0].Pass? then [UrlOpened(mfa.prompt), OtpAwaited]
        else [UrlOpened(mfa.prompt)]
    ensures var m := GetMfaInput(w, mfa);
      mfa.mfaType.UserInput? && w.env.inputs != [] && w.env.inputs[0].Success? ==> m.result == Success(w.env.inputs[0].value)
  {
  }

  /** Events without stores or foreign requests, followed by a tail that keeps both
      properties, keep them as a whole. */
  lemma ConcatTraffic(x: seq<Event>, y: seq<Event>, params: TunnelParams,
                      result: Result<ConnectionStatus, ControllerError>)
    requires x != [] && NoStores(x) && OnlyStatusTraffic(x, params)
    requires OnlyStatusTraffic(y, params) && StoresOnceIff(y, params, result)
    ensures (x + y)[0] == x[0] && OnlyStatusTraffic(x + y, params) && StoresOnceIff(x + y, params, result)
  {
    if StoreCondition(params, result) {
      assert (x + y)[..|x + y| - 1] == x + y[..|y| - 1];
    }
  }

  /** The shape of the events of a status check or a challenge answer: it starts with
      `first`, sends only status traffic for `params`, and stores as `StoresOnceIff` says. */
  predicate LoopShape(a: seq<Event>, first: Event, params: TunnelParams,
                      result: Result<ConnectionStatus, ControllerError>) {
    a != [] && a[0] == first && OnlyStatusTraffic(a, params) && StoresOnceIff(a, params, result)
  }

  /** A status poll answered with a pending challenge. */
  predicate ChallengePending(e: Env) {
    e.replies != [] && e.replies[0].Delivered? && e.replies[0].response.StatusReport?
    && !Settled(e.replies[0].response.status)
  }

  /** A status check starts with a status poll, sends nothing but status polls and
      challenge answers with the current parameters, and saves the password exactly
      when the store condition holds. */
  lemma {:induction false} StatusLoop(w: World)
    ensures var r := DoStatus(w);
      LoopShape(Added(w, r.world), Sent(GetStatus, RecvTimeoutSecs), w.params, r.result)
    decreases |w.env.replies|, 2
  {
    if ChallengePending(w.env) {
      StatusLoopChallenge(w);
    } else {
      StatusLoopDirect(w);
    }
  }

  lemma StatusLoopDirect(w: World)
    requires !ChallengePending(w.env)
    ensures var r := DoStatus(w);
      LoopShape(Added(w, r.world), Sent(GetStatus, RecvTimeoutSecs), w.params, r.result)
  {
    var w1 := AfterPoll(w);
    var r := DoStatus(w);
    assert Added(w, w1) == [Sent(GetStatus, RecvTimeoutSecs)];
    if StoreCondition(w.params, r.result) {
      assert Added(w, r.world) == [Sent(GetStatus, RecvTimeoutSecs), KeychainStore(w.params.userName, w.params.password)];
    } else {
      assert r.world == w1;
    }
  }

  /** The world after the status poll of a status check. */
  function AfterPoll(w: World): World {
    w.(env := Exchange(w.env, GetStatus, RecvTimeoutSecs).0)
  }

  /** One status poll answered with a pending challenge: the challenge is put to the
      user and, if an answer comes, the answer is submitted. Up to the submission the
      poll is the only request and nothing is stored. */
  lemma ChallengeStep(w: World)
    requires ChallengePending(w.env)
    ensures var m := GetMfaInput(AfterPoll(w), w.env.replies[0].response.status.mfa.value);
      && DoStatus(w) == (if m.result.Failure? then Run(m.world, Failure(m.result.error))
                         else DoChallengeCode(m.world, m.result.value))
      && Added(w, m.world) == [Sent(GetStatus, RecvTimeoutSecs)] + Added(AfterPoll(w), m.world)
      && NoStores(Added(w, m.world)) && OnlyStatusTraffic(Added(w, m.world), w.params)
  {
    var w1 := AfterPoll(w);
    var m := GetMfaInput(w1, w.env.replies[0].response.status.mfa.value);
    assert Added(w, w1) == [Sent(GetStatus, RecvTimeoutSecs)];
    AddedSplit(w, w1, m.world);
    ChallengePrefixTraffic(w);
  }

  /** The events from the status poll to the end of the challenge input. */
  lemma ChallengePrefixTraffic(w: World)
    requires ChallengePending(w.env)
    ensures var m := GetMfaInput(AfterPoll(w), w.env.replies[0].response.status.mfa.value);
      NoStores(Added(w, m.world)) && OnlyStatusTraffic(Added(w, m.world), w.params)
  {
    var w1 := AfterPoll(w);
    var mfa := w.env.replies[0].response.status.mfa.value;
    var m := GetMfaInput(w1, mfa);
    assert Added(w, w1) == [Sent(GetStatus, RecvTimeoutSecs)];
    AddedSplit(w, w1, m.world);
    MfaInputEvents(w1, mfa);
    var x := Added(w, m.world);
    if mfa.mfaType.UserInput? {
      assert x == [Sent(GetStatus, RecvTimeoutSecs), Prompted(mfa.prompt)];
    } else if w1.env.browser != [] && w1.env.browser[0].Pass? {
      assert x == [Sent(GetStatus, RecvTimeoutSecs), UrlOpened(mfa.prompt), OtpAwaited];
    } else {
      assert x == [Sent(GetStatus, RecvTimeoutSecs), UrlOpened(mfa.prompt)];
    }
  }

  lemma {:induction false} StatusLoopChallenge(w: World)
    requires ChallengePending(w.env)
    ensures var r := DoStatus(w);
      LoopShape(Added(w, r.world), Sent(GetStatus, RecvTimeoutSecs), w.params, r.result)
    decreases |w.env.replies|, 1
  {
    var w1 := AfterPoll(w);
    var mfa := w.env.replies[0].response.status.mfa.value;
    var m := GetMfaInput(w1, mfa);
    var r := DoStatus(w);
    ChallengeStep(w);
    var x := Added(w, m.world);
    if m.result.Success? {
      ChallengeLoop(m.world, m.result.value);
      AddedSplit(w, m.world, r.world);
      ConcatTraffic(x, Added(m.world, r.world), w.params, r.result);
    }
  }

  /** A challenge answer is sent first, with the current parameters; what follows is
      a status check. */
  lemma {:induction false} ChallengeLoop(w: World, code: string)
    ensures var r := DoChallengeCode(w, code);
      LoopShape(Added(w, r.world), Sent(ChallengeCode(code, w.params), ConnectTimeoutSecs), w.params, r.result)
    decreases |w.env.replies|, 0
  {
    var (e1, reply) := Exchange(w.env, ChallengeCode(code, w.params), ConnectTimeoutSecs);
    var w1 := w.(env := e1);
    var r := DoChallengeCode(w, code);
    assert Added(w, w1) == [Sent(ChallengeCode(code, w.params), ConnectTimeoutSecs)];
    if reply == Delivered(Ok) {
      assert r == DoStatus(w1);
      StatusLoop(w1);
      AddedSplit(w, w1, r.world);
      ConcatTraffic(Added(w, w1), Added(w1, r.world), w.params, r.result);
    }
  }

  /** A transport failure on the status poll ends the check with that failure; no
      challenge is answered and nothing else happens. */
  lemma StatusTransportFailure(w: World)
    requires w.env.replies == [] || w.env.replies[0].Failed?
    ensures var r := DoStatus(w);
      r.result == Failure(Transport(if w.env.replies == [] then NoReply else w.env.replies[0].reason))
      && Added(w, r.world) == [Sent(GetStatus, RecvTimeoutSecs)]
  {
  }

  /** A reply that is not a status is an invalid response. */
  lemma StatusRejectsOtherReplies(w: World)
    requires w.env.replies != [] && w.env.replies[0].Delivered? && !w.env.replies[0].response.StatusReport?
    ensures var r := DoStatus(w);
      r.result == Failure(InvalidResponse) && Added(w, r.world) == [Sent(GetStatus, RecvTimeoutSecs)]
  {
  }

  /** A status without a pending challenge is returned unchanged; the password is
      saved once if the tunnel is up, a password is known and the keychain is in use. */
  lemma StatusSettledReply(w: World, status: ConnectionStatus)
    requires w.env.replies != [] && w.env.replies[0] == Delivered(StatusReport(status)) && Settled(status)
    ensures var r := DoStatus(w);
      r.result == Success(status)
      && Added(w, r.world) == [Sent(GetStatus, RecvTimeoutSecs)] +
           (if StoreCondition(w.params, r.result) then [KeychainStore(w.params.userName, w.params.password)] else [])
  {
  }

  /** A pending question is asked exactly once; the answer goes straight back to the
      service as a challenge code with the current parameters, and a failed prompt
      ends the check without any further request. */
  lemma UserInputChallenge(w: World, question: string)
    requires w.env.replies != []
    requires w.env.replies[0] == Delivered(StatusReport(ConnectionStatus(None, Some(MfaChallenge(UserInput, question)))))
    ensures var r := DoStatus(w); var a := Added(w, r.world);
      |a| >= 2 && a[0] == Sent(GetStatus, RecvTimeoutSecs) && a[1] == Prompted(question)
      && if w.env.inputs != [] && w.env.inputs[0].Success? then
           |a| >= 3 && a[2] == Sent(ChallengeCode(w.env.inputs[0].value, w.params), ConnectTimeoutSecs)
         else
           r.result.Failure? && r.result.error.PromptFailed? && |a| == 2
  {
    var w1 := AfterPoll(w);
    var mfa := MfaChallenge(UserInput, question);
    var m := GetMfaInput(w1, mfa);
    ChallengeStep(w);
    MfaInputEvents(w1, mfa);
    if m.result.Success? {
      ChallengeLoop(m.world, m.result.value);
      AddedSplit(w, m.world, DoStatus(w).world);
    }
  }

  /** A pending single sign-on opens its URL, waits for the one-time code and submits
      exactly that code with the current parameters. */
  lemma SsoChallenge(w: World, url: string, code: string)
    requires w.env.replies != []
    requires w.env.replies[0] == Delivered(StatusReport(ConnectionStatus(None, Some(MfaChallenge(SamlSso, url)))))
    requires w.env.browser != [] && w.env.browser[0] == Pass
    requires w.env.otpCodes != [] && w.env.otpCodes[0] == Success(code)
    ensures var a := Added(w, DoStatus(w).world);
      |a| >= 4 && a[0] == Sent(GetStatus, RecvTimeoutSecs) && a[1] == UrlOpened(url) && a[2] == OtpAwaited
      && a[3] == Sent(ChallengeCode(code, w.params), ConnectTimeoutSecs)
  {
    var w1 := AfterPoll(w);
    var mfa := MfaChallenge(SamlSso, url);
    var m := GetMfaInput(w1, mfa);
    ChallengeStep(w);
    MfaInputEvents(w1, mfa);
    ChallengeLoop(m.world, code);
    AddedSplit(w, m.world, DoStatus(w).world);
  }

  /** The reply to a challenge answer: success leads to a new status check, a service
      error fails with its message, and anything else is an invalid response. */
  lemma ChallengeReplyHandling(w: World, code: string)
    requires w.env.replies != [] && w.env.replies[0].Delivered?
    ensures var r := DoChallengeCode(w, code);
      var w1 := w.(env := w.env.(replies := w.env.replies[1..],
                                 trace := w.env.trace + [Sent(ChallengeCode(code, w.params), ConnectTimeoutSecs)]));
      match w.env.replies[0].response
      case Ok => r == DoStatus(w1)
      case Error(message) => r == Run(w1, Failure(Service(message)))
      case StatusReport(_) => r == Run(w1, Failure(InvalidResponse))
  {
  }
}
