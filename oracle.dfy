/** The world outside the controller: the tunnel service behind the loopback socket,
    the OS keychain, the secure terminal prompt, the browser, the one-time-code
    listener and the server's login-option endpoint. Each answers from a script,
    one entry per call, and every call is recorded in a trace. A script that has run
    out answers with a failure. */
module Oracle {
  import opened Types

  /** What one request/response exchange over the loopback socket yields. */
  datatype Reply = Delivered(response: TunnelServiceResponse) | Failed(reason: string)

  datatype Event =
    | Sent(request: TunnelServiceRequest, timeoutSecs: nat)
    | KeychainRead(user: string)
    | KeychainStore(user: string, password: string)
    | Prompted(text: string)
    | UrlOpened(url: string)
    | OtpAwaited
    | PwdPromptsFetched(params: TunnelParams)
    | ServerInfoFetched(params: TunnelParams)

  const NoReply := "no reply before the timeout"
  const NoAnswer := "no answer"

  datatype Env = Env(
    replies: seq<Reply>,
    inputs: seq<Result<string, string>>,
    keychain: seq<Result<string, string>>,
    browser: seq<Outcome<string>>,
    otpCodes: seq<Result<string, string>>,
    pwdPrompts: seq<Result<seq<string>, string>>,
    serverInfo: seq<Outcome<string>>,
    trace: seq<Event>)

  /** `send_receive`: the request goes out, and the next scripted reply comes back. */
  function Exchange(e: Env, request: TunnelServiceRequest, timeoutSecs: nat): (Env, Reply) {
    var e1 := e.(trace := e.trace + [Sent(request, timeoutSecs)]);
    if e.replies == [] then (e1, Failed(NoReply)) else (e1.(replies := e.replies[1..]), e.replies[0])
  }

  /** `SecurePrompt::get_secure_input`. */
  function AskSecureInput(e: Env, text: string): (Env, Result<string, string>) {
    var e1 := e.(trace := e.trace + [Prompted(text)]);
    if e.inputs == [] then (e1, Failure(NoAnswer)) else (e1.(inputs := e.inputs[1..]), e.inputs[0])
  }

  /** `platform::acquire_password`. */
  function AskKeychain(e: Env, user: string): (Env, Result<string, string>) {
    var e1 := e.(trace := e.trace + [KeychainRead(user)]);
    if e.keychain == [] then (e1, Failure(NoAnswer)) else (e1.(keychain := e.keychain[1..]), e.keychain[0])
  }

  /** `platform::store_password`; the controller never looks at its outcome. */
  function SaveToKeychain(e: Env, user: string, password: string): Env {
    e.(trace := e.trace + [KeychainStore(user, password)])
  }

  /** `opener::open`. */
  function OpenInBrowser(e: Env, url: string): (Env, Outcome<string>) {
    var e1 := e.(trace := e.trace + [UrlOpened(url)]);
    if e.browser == [] then (e1, Fail(NoAnswer)) else (e1.(browser := e.browser[1..]), e.browser[0])
  }

  /** `run_otp_listener` under `OTP_TIMEOUT`; a timeout is one of the failures. */
  function AwaitOtp(e: Env): (Env, Result<string, string>) {
    var e1 := e.(trace := e.trace + [OtpAwaited]);
    if e.otpCodes == [] then (e1, Failure(NoAnswer)) else (e1.(otpCodes := e.otpCodes[1..]), e.otpCodes[0])
  }

  /** `server_info::get_pwd_prompts`. */
  function FetchPwdPrompts(e: Env, params: TunnelParams): (Env, Result<seq<string>, string>) {
    var e1 := e.(trace := e.trace + [PwdPromptsFetched(params)]);
    if e.pwdPrompts == [] then (e1, Failure(NoAnswer)) else (e1.(pwdPrompts := e.pwdPrompts[1..]), e.pwdPrompts[0])
  }

  /** `CccHttpClient::get_server_info`. */
  function FetchServerInfo(e: Env, params: TunnelParams): (Env, Outcome<string>) {
    var e1 := e.(trace := e.trace + [ServerInfoFetched(params)]);
    if e.serverInfo == [] then (e1, Fail(NoAnswer)) else (e1.(serverInfo := e.serverInfo[1..]), e.serverInfo[0])
  }
}
