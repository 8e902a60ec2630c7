/** The controller's behaviour as functions from one world to the next: each
    operation takes the controller's state (the tunnel parameters and the queue of
    password prompts) together with the outside world, and yields the new state and
    the operation's result. */
module Protocol {
  import opened Types
  import opened Text
  import opened Oracle
  import opened Commands

  datatype World = World(params: TunnelParams, pwdPrompts: Option<seq<string>>, env: Env)

  datatype Run<T> = Run(world: World, result: Result<T, ControllerError>)

  /** The events a step added to the trace. */
  function Added(before: World, after: World): seq<Event>
    requires before.env.trace <= after.env.trace
  {
    after.env.trace[|before.env.trace|..]
  }

  /** The prompt shown when the server declared no password prompt. */
  function DefaultPrompt(user: string): string {
    "Enter password for " + user + ": "
  }

  /** `get_mfa_input`: asks the user, or opens the sign-on URL and waits for the code. */
  function GetMfaInput(w: World, mfa: MfaChallenge): (r: Run<string>)
    ensures r.world.params == w.params && r.world.pwdPrompts == w.pwdPrompts
    ensures r.world.env.replies == w.env.replies && w.env.trace <= r.world.env.trace
  {
    match mfa.mfaType
    case UserInput =>
      var (e1, input) := AskSecureInput(w.env, mfa.prompt);
      Run(w.(env := e1), if input.Success? then Success(input.value) else Failure(PromptFailed(input.error)))
    case SamlSso =>
      var (e1, launch) := OpenInBrowser(w.env, mfa.prompt);
      if launch.Fail? then Run(w.(env := e1), Failure(BrowserFailed(launch.error)))
      else
        var (e2, code) := AwaitOtp(e1);
        Run(w.(env := e2), if code.Success? then Success(code.value) else Failure(OtpFailed(code.error)))
  }

  /** `do_status`: polls the service; a pending challenge is answered and the status
      polled again, a settled status is reported (after saving a typed password in the
      keychain once the tunnel is up). */
  function DoStatus(w: World): (r: Run<ConnectionStatus>)
    ensures r.world.params == w.params && r.world.pwdPrompts == w.pwdPrompts
    ensures w.env.trace < r.world.env.trace
    ensures r.result.Success? ==> Settled(r.result.value)
    ensures r.world.env.trace[|w.env.trace|] == Sent(GetStatus, RecvTimeoutSecs)
    decreases |w.env.replies|
  {
    var (e1, reply) := Exchange(w.env, GetStatus, RecvTimeoutSecs);
    var w1 := w.(env := e1);
    match reply
    case Failed(reason) => Run(w1, Failure(Transport(reason)))
    case Delivered(StatusReport(status)) =>
      if status.connectedSince.None? && status.mfa.Some? then
        var m := GetMfaInput(w1, status.mfa.value);
        if m.result.Failure? then Run(m.world, Failure(m.result.error))
        else DoChallengeCode(m.world, m.result.value)
      else if status.connectedSince.Some? && w.params.password != "" && !w.params.noKeychain then
        Run(w1.(env := SaveToKeychain(e1, w.params.userName, w.params.password)), Success(status))
      else
        Run(w1, Success(status))
    case Delivered(_) => Run(w1, Failure(InvalidResponse))
  }

  /** `do_challenge_code`: submits the answer to a challenge with the long timeout. */
  function DoChallengeCode(w: World, code: string): (r: Run<ConnectionStatus>)
    ensures r.world.params == w.params && r.world.pwdPrompts == w.pwdPrompts
    ensures w.env.trace < r.world.env.trace
    ensures r.result.Success? ==> Settled(r.result.value)
    ensures r.world.env.trace[|w.env.trace|] == Sent(ChallengeCode(code, w.params), ConnectTimeoutSecs)
    decreases |w.env.replies|
  {
    var (e1, reply) := Exchange(w.env, ChallengeCode(code, w.params), ConnectTimeoutSecs);
    var w1 := w.(env := e1);
    match reply
    case Failed(reason) => Run(w1, Failure(Transport(reason)))
    case Delivered(Ok) => DoStatus(w1)
    case Delivered(Error(message)) => Run(w1, Failure(Service(message)))
    case Delivered(_) => Run(w1, Failure(InvalidResponse))
  }

  /** The prompt text for the password and the prompt queue after taking it: the front
      of a non-empty queue, which is removed, or else the default text. */
  function NextPasswordPrompt(queue: Option<seq<string>>, user: string): (string, Option<seq<string>>) {
    if queue.Some? && queue.value != [] then (queue.value[0], Some(queue.value[1..]))
    else (DefaultPrompt(user), queue)
  }

  /** The password-acquisition part of `do_connect`. */
  function AcquirePassword(w: World): (r: Run<()>)
    ensures r.world.env.replies == w.env.replies && w.env.trace <= r.world.env.trace
  {
    var p := w.params;
    if p.password == "" && p.clientCert.None? then
      if !p.noKeychain then
        var (e1, stored) := AskKeychain(w.env, p.userName);
        var p1 := if stored.Success? then p.(password := stored.value) else p;
        Run(World(p1, w.pwdPrompts, e1), Success(()))
      else
        var (text, queue) := NextPasswordPrompt(w.pwdPrompts, p.userName);
        var (e1, input) := AskSecureInput(w.env, text);
        if input.Failure? then Run(World(p, queue, e1), Failure(PromptFailed(input.error)))
        else Run(World(p.(password := Trim(input.value)), queue, e1), Success(()))
    else
      Run(w, Success(()))
  }

  /** `do_connect`: checks the required parameters, acquires a password when none is
      configured, asks the service to connect, and polls the status on success. */
  function DoConnect(w: World): (r: Run<ConnectionStatus>)
    ensures w.env.trace <= r.world.env.trace
    ensures r.result.Success? ==> Settled(r.result.value)
  {
    if w.params.serverName == "" || w.params.loginType == "" then
      Run(w, Failure(MissingParameters))
    else
      var a := AcquirePassword(w);
      if a.result.Failure? then Run(a.world, Failure(a.result.error))
      else
        var w1 := a.world;
        var (e2, reply) := Exchange(w1.env, TunnelServiceRequest.Connect(w1.params), ConnectTimeoutSecs);
        var w2 := w1.(env := e2);
        match reply
        case Failed(reason) => Run(w2, Failure(Transport(reason)))
        case Delivered(Ok) => DoStatus(w2)
        case Delivered(Error(message)) => Run(w2, Failure(Service(message)))
        case Delivered(_) => Run(w2, Failure(InvalidResponse))
  }

  /** `do_disconnect`: asks the service to disconnect and, whatever it answers, polls
      the status; only a transport failure ends the operation. */
  function DoDisconnect(w: World): (r: Run<ConnectionStatus>)
    ensures r.world.params == w.params && r.world.pwdPrompts == w.pwdPrompts
    ensures w.env.trace < r.world.env.trace
    ensures r.result.Success? ==> Settled(r.result.value)
    ensures r.world.env.trace[|w.env.trace|] == Sent(TunnelServiceRequest.Disconnect, RecvTimeoutSecs)
  {
    var (e1, reply) := Exchange(w.env, TunnelServiceRequest.Disconnect, RecvTimeoutSecs);
    var w1 := w.(env := e1);
    if reply.Failed? then Run(w1, Failure(Transport(reply.reason))) else DoStatus(w1)
  }

  /** `fill_pwd_prompts`: replaces the prompt queue by the server's prompts, or by an
      empty queue when they cannot be fetched. */
  function FillPwdPrompts(w: World): (r: World)
    ensures r.params == w.params && w.env.trace < r.env.trace
    ensures r.pwdPrompts == Some(if w.env.pwdPrompts != [] && w.env.pwdPrompts[0].Success?
                                 then w.env.pwdPrompts[0].value else [])
  {
    var (e1, prompts) := FetchPwdPrompts(w.env, w.params);
    World(w.params, Some(if prompts.Success? then prompts.value else []), e1)
  }

  /** `do_info`: queries the server directly; the service is not involved. */
  function DoInfo(w: World): (r: Run<ConnectionStatus>)
    ensures r.world.params == w.params && r.world.pwdPrompts == w.pwdPrompts
    ensures w.env.trace < r.world.env.trace
  {
    var (e1, info) := FetchServerInfo(w.env, w.params);
    Run(w.(env := e1), if info.Pass? then Success(DefaultStatus) else Failure(InfoFailed(info.error)))
  }

  /** `command`: the sequence of steps each command runs. */
  function RunCommand(w: World, command: ServiceCommand): (r: Run<ConnectionStatus>)
    ensures w.env.trace <= r.world.env.trace
  {
    match command
    case Status => DoStatus(w)
    case Connect =>
      var s := DoStatus(FillPwdPrompts(w));
      if s.result.Failure? then s else DoConnect(s.world)
    case Disconnect =>
      var s := DoStatus(w);
      if s.result.Failure? then s else DoDisconnect(s.world)
    case Reconnect =>
      DoConnect(FillPwdPrompts(DoDisconnect(w).world))
    case Info => DoInfo(w)
  }
}
