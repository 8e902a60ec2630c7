/** The controller as an object whose methods update its parameters and its prompt
    queue in place. It talks to an `Environment` object that stands for the tunnel
    service and the operating system. Every method is proved to do what the
    function of the same name in `Protocol` describes. */
module Controller {
  import opened Types
  import opened Text
  import opened Oracle
  import opened Commands
  import P = Protocol

  /** The service and the operating system, answering from scripts and keeping a trace. */
  class Environment {
    var replies: seq<Reply>
    var inputs: seq<Result<string, string>>
    var keychain: seq<Result<string, string>>
    var browser: seq<Outcome<string>>
    var otpCodes: seq<Result<string, string>>
    var pwdPrompts: seq<Result<seq<string>, string>>
    var serverInfo: seq<Outcome<string>>
    var trace: seq<Event>

    function Snapshot(): Env
      reads this
    {
      Env(replies, inputs, keychain, browser, otpCodes, pwdPrompts, serverInfo, trace)
    }

    constructor (script: Env)
      ensures Snapshot() == script
    {
      replies, inputs, keychain, browser := script.replies, script.inputs, script.keychain, script.browser;
      otpCodes, pwdPrompts, serverInfo, trace := script.otpCodes, script.pwdPrompts, script.serverInfo, script.trace;
    }

    method SendReceive(request: TunnelServiceRequest, timeoutSecs: nat) returns (reply: Reply)
      modifies this
      ensures (Snapshot(), reply) == Exchange(old(Snapshot()), request, timeoutSecs)
    {
      trace := trace + [Sent(request, timeoutSecs)];
      if replies == [] {
        reply := Failed(NoReply);
      } else {
        reply, replies := replies[0], replies[1..];
      }
    }

    method GetSecureInput(text: string) returns (input: Result<string, string>)
      modifies this
      ensures (Snapshot(), input) == AskSecureInput(old(Snapshot()), text)
    {
      trace := trace + [Prompted(text)];
      if inputs == [] {
        input := Failure(NoAnswer);
      } else {
        input, inputs := inputs[0], inputs[1..];
      }
    }

    method AcquirePassword(user: string) returns (stored: Result<string, string>)
      modifies this
      ensures (Snapshot(), stored) == AskKeychain(old(Snapshot()), user)
    {
      trace := trace + [KeychainRead(user)];
      if keychain == [] {
        stored := Failure(NoAnswer);
      } else {
        stored, keychain := keychain[0], keychain[1..];
      }
    }

    method StorePassword(user: string, password: string)
      modifies this
      ensures Snapshot() == SaveToKeychain(old(Snapshot()), user, password)
    {
      trace := trace + [KeychainStore(user, password)];
    }

    method Open(url: string) returns (launch: Outcome<string>)
      modifies this
      ensures (Snapshot(), launch) == OpenInBrowser(old(Snapshot()), url)
    {
      trace := trace + [UrlOpened(url)];
      if browser == [] {
        launch := Fail(NoAnswer);
      } else {
        launch, browser := browser[0], browser[1..];
      }
    }

    method RunOtpListener() returns (code: Result<string, string>)
      modifies this
      ensures (Snapshot(), code) == AwaitOtp(old(Snapshot()))
    {
      trace := trace + [OtpAwaited];
      if otpCodes == [] {
        code := Failure(NoAnswer);
      } else {
        code, otpCodes := otpCodes[0], otpCodes[1..];
      }
    }

    method GetPwdPrompts(params: TunnelParams) returns (prompts: Result<seq<string>, string>)
      modifies this
      ensures (Snapshot(), prompts) == FetchPwdPrompts(old(Snapshot()), params)
    {
      trace := trace + [PwdPromptsFetched(params)];
      if pwdPrompts == [] {
        prompts := Failure(NoAnswer);
      } else {
        prompts, pwdPrompts := pwdPrompts[0], pwdPrompts[1..];
      }
    }

    method GetServerInfo(params: TunnelParams) returns (info: Outcome<string>)
      modifies this
      ensures (Snapshot(), info) == FetchServerInfo(old(Snapshot()), params)
    {
      trace := trace + [ServerInfoFetched(params)];
      if serverInfo == [] {
        info := Fail(NoAnswer);
      } else {
        info, serverInfo := serverInfo[0], serverInfo[1..];
      }
    }
  }

  class ServiceController {
    var params: TunnelParams
    var pwdPrompts: Option<seq<string>>
    const env: Environment

    function State(): P.World
      reads this, env
    {
      P.World(params, pwdPrompts, env.Snapshot())
    }

    /** `with_params`: the configuration as given, and no prompt queue yet. */
    constructor WithParams(params: TunnelParams, env: Environment)
      ensures this.params == params && pwdPrompts == None && this.env == env
    {
      this.params := params;
      this.pwdPrompts := None;
      this.env := env;
    }

    method Command(command: ServiceCommand) returns (r: Result<ConnectionStatus, ControllerError>)
      modifies this, env
      ensures P.Run(State(), r) == P.RunCommand(old(State()), command)
    {
      match command
      case Status =>
        r := DoStatus();
      case Connect =>
        FillPwdPrompts();
        r := DoStatus();
        if r.Success? {
          r := DoConnect();
        }
      case Disconnect =>
        r := DoStatus();
        if r.Success? {
          r := DoDisconnect();
        }
      case Reconnect =>
        var ignored := DoDisconnect();
        FillPwdPrompts();
        r := DoConnect();
      case Info =>
        r := DoInfo();
    }

    method DoStatus() returns (r: Result<ConnectionStatus, ControllerError>)
      modifies env
      ensures P.Run(State(), r) == P.DoStatus(old(State()))
      decreases |env.replies|
    {
      var reply := env.SendReceive(GetStatus, RecvTimeoutSecs);
      match reply
      case Failed(reason) =>
        r := Failure(Transport(reason));
      case Delivered(StatusReport(status)) =>
        if status.connectedSince.None? && status.mfa.Some? {
          var input := GetMfaInput(status.mfa.value);
          if input.Failure? {
            r := Failure(input.error);
          } else {
            r := DoChallengeCode(input.value);
          }
        } else {
          if status.connectedSince.Some? && params.password != "" && !params.noKeychain {
            env.StorePassword(params.userName, params.password);
          }
          r := Success(status);
        }
      case Delivered(_) =>
        r := Failure(InvalidResponse);
    }

    method GetMfaInput(mfa: MfaChallenge) returns (r: Result<string, ControllerError>)
      modifies env
      ensures P.Run(State(), r) == P.GetMfaInput(old(State()), mfa)
    {
      match mfa.mfaType
      case UserInput =>
        var input := env.GetSecureInput(mfa.prompt);
        r := if input.Success? then Success(input.value) else Failure(PromptFailed(input.error));
      case SamlSso =>
        var launch := env.Open(mfa.prompt);
        if launch.Fail? {
          r := Failure(BrowserFailed(launch.error));
        } else {
          var code := env.RunOtpListener();
          r := if code.Success? then Success(code.value) else Failure(OtpFailed(code.error));
        }
    }

    /** The password-acquisition part of `do_connect`. */
    method AcquirePassword() returns (r: Result<(), ControllerError>)
      modifies this, env
      ensures P.Run(State(), r) == P.AcquirePassword(old(State()))
    {
      var p := params;
      if p.password == "" && p.clientCert.None? {
        if !p.noKeychain {
          var stored := env.AcquirePassword(p.userName);
          if stored.Success? {
            p := p.(password := stored.value);
          }
        } else {
          var text;
          if pwdPrompts.Some? && pwdPrompts.value != [] {
            text := pwdPrompts.value[0];
            pwdPrompts := Some(pwdPrompts.value[1..]);
          } else {
            text := P.DefaultPrompt(p.userName);
          }
          var input := env.GetSecureInput(text);
          if input.Failure? {
            return Failure(PromptFailed(input.error));
          }
          p := p.(password := Trim(input.value));
        }
        params := p;
      }
      r := Success(());
    }

    method DoConnect() returns (r: Result<ConnectionStatus, ControllerError>)
      modifies this, env
      ensures P.Run(State(), r) == P.DoConnect(old(State()))
    {
      if params.serverName == "" || params.loginType == "" {
        return Failure(MissingParameters);
      }
      var acquired := AcquirePassword();
      if acquired.Failure? {
        return Failure(acquired.error);
      }
      var reply := env.SendReceive(TunnelServiceRequest.Connect(params), ConnectTimeoutSecs);
      match reply
      case Failed(reason) =>
        r := Failure(Transport(reason));
      case Delivered(Ok) =>
        r := DoStatus();
      case Delivered(Error(message)) =>
        r := Failure(Service(message));
      case Delivered(_) =>
        r := Failure(InvalidResponse);
    }

    method DoChallengeCode(code: string) returns (r: Result<ConnectionStatus, ControllerError>)
      modifies env
      ensures P.Run(State(), r) == P.DoChallengeCode(old(State()), code)
      decreases |env.replies|
    {
      var reply := env.SendReceive(ChallengeCode(code, params), ConnectTimeoutSecs);
      match reply
      case Failed(reason) =>
        r := Failure(Transport(reason));
      case Delivered(Ok) =>
        r := DoStatus();
      case Delivered(Error(message)) =>
        r := Failure(Service(message));
      case Delivered(_) =>
        r := Failure(InvalidResponse);
    }

    method DoDisconnect() returns (r: Result<ConnectionStatus, ControllerError>)
      modifies env
      ensures P.Run(State(), r) == P.DoDisconnect(old(State()))
    {
      var reply := env.SendReceive(TunnelServiceRequest.Disconnect, RecvTimeoutSecs);
      if reply.Failed? {
        return Failure(Transport(reply.reason));
      }
      r := DoStatus();
    }

    method FillPwdPrompts()
      modifies this, env
      ensures State() == P.FillPwdPrompts(old(State()))
    {
      var prompts := env.GetPwdPrompts(params);
      pwdPrompts := Some(if prompts.Success? then prompts.value else []);
    }

    method DoInfo() returns (r: Result<ConnectionStatus, ControllerError>)
      modifies env
      ensures P.Run(State(), r) == P.DoInfo(old(State()))
    {
      var info := env.GetServerInfo(params);
      r := if info.Pass? then Success(DefaultStatus) else Failure(InfoFailed(info.error));
    }
  }
}
