/** Values exchanged between the command-line front end of the VPN client and its
    background tunnel service, and the errors the front end reports. */
module Types {

  datatype Option<T> = None | Some(value: T)

  datatype Result<T, E> = Success(value: T) | Failure(error: E)

  /** A fallible step that yields nothing on success. */
  datatype Outcome<E> = Pass | Fail(error: E)

  /** How a pending multi-factor challenge is answered: by typing a reply, or by
      single sign-on in a browser followed by a one-time code sent back locally. */
  datatype MfaType = UserInput | SamlSso

  /** For `UserInput` the prompt is the question to ask; for `SamlSso` it is the URL to open. */
  datatype MfaChallenge = MfaChallenge(mfaType: MfaType, prompt: string)

  /** `connectedSince` holds the time (seconds) the tunnel came up, once it is running. */
  datatype ConnectionStatus = ConnectionStatus(connectedSince: Option<int>, mfa: Option<MfaChallenge>)

  /** `ConnectionStatus::default()`: not connected, no challenge pending. */
  const DefaultStatus := ConnectionStatus(None, None)

  /** A status that does not wait for a challenge answer: the controller reports it as is. */
  predicate Settled(s: ConnectionStatus) {
    !(s.connectedSince.None? && s.mfa.Some?)
  }

  /** The fields of the tunnel configuration that the controller reads or writes. */
  datatype TunnelParams = TunnelParams(
    serverName: string,
    userName: string,
    password: string,
    loginType: string,
    clientCert: Option<string>,
    noKeychain: bool)

  datatype TunnelServiceRequest =
    | GetStatus
    | Connect(params: TunnelParams)
    | ChallengeCode(code: string, params: TunnelParams)
    | Disconnect

  datatype TunnelServiceResponse =
    | Ok
    | Error(message: string)
    | StatusReport(status: ConnectionStatus)

  /** Receive timeouts, in seconds: short for status polls and disconnects, long for
      requests that negotiate with the gateway. */
  const RecvTimeoutSecs: nat := 2
  const ConnectTimeoutSecs: nat := 120

  /** What a command can fail with. Transport failures are kept apart from the
      service's own `Error` replies. */
  datatype ControllerError =
    | Transport(reason: string)
    | Service(message: string)
    | InvalidResponse
    | MissingParameters
    | PromptFailed(reason: string)
    | BrowserFailed(reason: string)
    | OtpFailed(reason: string)
    | InfoFailed(reason: string)
    | InvalidCommand(text: string)

  /** The one-line text shown to the user for each failure. */
  function Message(e: ControllerError): string {
    match e
    case Transport(reason) => reason
    case Service(message) => message
    case InvalidResponse => "Invalid response!"
    case MissingParameters => "Missing required parameters in the config file: server name and/or login type"
    case PromptFailed(reason) => reason
    case BrowserFailed(reason) => reason
    case OtpFailed(reason) => reason
    case InfoFailed(reason) => reason
    case InvalidCommand(text) => "Invalid command: " + text
  }
}
