# snx-rs service controller, modelled in Dafny

This project models the client-side command state machine of the snx-rs VPN
client: the `ServiceController` that turns the commands `status`, `connect`,
`disconnect`, `reconnect` and `info` into request/response exchanges with the
background tunnel service. The exchanges are `GetStatus`, `Connect(params)`,
`ChallengeCode(code, params)` and `Disconnect`. Along the way the controller
answers multi-factor challenges, gets a password from the OS keychain or from the
user, and saves a password in the keychain once the tunnel is up.

Layout:

- `types.dfy` (module `Types`): the tunnel parameters, the connection status, MFA
  challenges, the requests and responses, the two receive timeouts (2 s and 120 s)
  and the controller's errors. The error messages are the source's own strings:
  "Invalid response!", "Missing required parameters in the config file: server
  name and/or login type" and "Invalid command: ...".
- `text.dfy` (module `Text`): ASCII lower-casing for command names, and `Trim`.
  `Trim` removes exactly the characters that Rust's `char::is_whitespace` accepts.
- `commands.dfy` (module `Commands`): `ServiceCommand` and its parser.
- `oracle.dfy` (module `Oracle`): the outside world.
  - Foreign calls are the tunnel service behind the loopback socket, the keychain,
    the secure prompt, the browser, the one-time-code listener and the server's
    login-option endpoints.
  - Each foreign call answers from a script, one entry per call, and is recorded in
    a trace of `Event`s.
  - A script that has run out answers with a failure. For the service this is a
    transport error, because no reply arrived before the timeout.
- `protocol.dfy` (module `Protocol`): each controller operation as a function from
  a `World` to the next `World` plus the operation's result. A `World` is the
  parameters, the password-prompt queue and the environment.
- `status_properties.dfy`, `connect_properties.dfy`, `command_properties.dfy`: the
  lemmas about those functions.
- `controller.dfy` (module `Controller`): the imperative form.
  - `ServiceController` is a class with the fields `params` and `pwdPrompts`, which
    its methods update in place.
  - `Environment` is a class holding the scripts and the trace.
  - Each method is proved to produce exactly the state and result of the
    `Protocol` function of the same name. The exception is `Command`, whose
    function is `Protocol.RunCommand`.

`do_status` and `do_challenge_code` call each other without any bound in the
source. Each of them consumes one scripted reply, so the number of remaining
replies is their termination measure. The proofs never assume that the service
stops sending challenges.

Three behaviours of the code are easy to miss:

- A failed keychain read is not a command failure. The password stays empty, no
  prompt is shown, and `Connect` is still sent (src/controller.rs:138-141).
- The `disconnect` command's `Disconnect` request fails only on a transport error.
  Whatever the service replies, the status is polled afterwards.
- When the password prompt fails, the front of the prompt queue has already been
  removed. Only the parameters stay as they were.

## Model

| member | source | states |
|---|---|---|
| `Commands.Parse` | src/controller.rs:31-40 | A string parses to command `c` exactly when its lower-cased form is `c`'s name. Every other string fails with `InvalidCommand` carrying the lower-cased text. |
| `Commands.ParseIgnoresCase` | src/controller.rs:31-32 | Two strings that differ only in letter case parse to the same result. |
| `Commands.ParseAcceptsAnyCase` | src/controller.rs:32-37 | Any letter-case spelling of one of the five names yields that command. |
| `Commands.ParseExamples` | src/controller.rs:31-38 | "STATUS" is `Status`, "ReConnect" is `Reconnect`, and "Stop" fails with "stop". |
| `Text.Trim` | src/controller.rs:148 | The result has no whitespace at either end. It is the part of the input between an all-whitespace prefix and an all-whitespace suffix. |
| `Text.TrimKeepsInnerText` | src/controller.rs:148 | An answer without surrounding whitespace is stored exactly as typed. |
| `Text.TrimIdempotent` | src/controller.rs:148 | Trimming a trimmed password changes nothing. |
| `Protocol.GetMfaInput` | src/controller.rs:118-126 | Answering a challenge leaves the parameters, the prompt queue and the service's replies untouched. It only adds to the trace. |
| `Protocol.DoStatus` | src/controller.rs:97-116 | A status check never changes the parameters or the prompt queue. Its first event is always `GetStatus` with the 2 s timeout. A successful result never has a pending challenge. |
| `Protocol.DoChallengeCode` | src/controller.rs:164-177 | Submitting a challenge code keeps the parameters and the prompt queue. Its first event is always `ChallengeCode(code, params)` with the 120 s timeout. A successful result is settled. |
| `Protocol.AcquirePassword` | src/controller.rs:137-151 | Getting a password consumes no service reply and only adds to the trace. |
| `Protocol.DoConnect` | src/controller.rs:128-162 | The trace only grows, and a successful connect reports a settled status. |
| `Protocol.DoDisconnect` | src/controller.rs:179-183 | A disconnect keeps the parameters and the prompt queue. Its first event is always `Disconnect` with the 2 s timeout. A successful result is settled. |
| `Protocol.FillPwdPrompts` | src/controller.rs:200-204 | Afterwards the prompt queue holds exactly the fetched prompts. If the fetch failed, the queue is empty. The parameters are kept. |
| `Protocol.DoInfo` | src/controller.rs:206-213 | `info` keeps the parameters and the prompt queue. |
| `Protocol.RunCommand` | src/controller.rs:76-95 | Every command only adds to the trace. |
| `StatusProperties.MfaInputEvents` | src/controller.rs:118-126 | A typed challenge prompts exactly once with its question and returns the typed answer. A sign-on challenge opens its URL, then waits for the one-time code only if opening worked. |
| `StatusProperties.StatusLoop` | src/controller.rs:98-115 | A status check starts with `GetStatus`. It sends only `GetStatus` and `ChallengeCode(_, params)` with the current parameters. It stores the current user and password in the keychain exactly once, as its last action, if and only if the result is connected, the password is non-empty and the keychain is in use; otherwise it stores nothing. |
| `StatusProperties.StatusLoopDirect` | src/controller.rs:99-113 | `StatusLoop` when the first reply carries no pending challenge. |
| `StatusProperties.StatusLoopChallenge` | src/controller.rs:101-104 | `StatusLoop` when the first reply carries a pending challenge. |
| `StatusProperties.ChallengeStep` | src/controller.rs:101-104 | After a status reply with a pending challenge, the check asks for the answer. A failure to get it ends the check with that error. Otherwise the check continues by submitting the answer. Up to that point the poll is the only request and nothing is stored. |
| `StatusProperties.ChallengeLoop` | src/controller.rs:164-177 | A challenge answer first sends `ChallengeCode(code, params)` with the 120 s timeout. Its request and store guarantees are those of `StatusLoop`. |
| `StatusProperties.StatusTransportFailure` | src/controller.rs:99-114 | A transport failure on the status poll fails with that transport error. Nothing follows the `GetStatus` request: no challenge handling and no store. |
| `StatusProperties.StatusRejectsOtherReplies` | src/controller.rs:113 | `Ok` or `Error` in reply to `GetStatus` fails with "Invalid response!". |
| `StatusProperties.StatusSettledReply` | src/controller.rs:105-111 | A status without a pending challenge is returned unchanged. At most a keychain store follows, under the store condition. |
| `StatusProperties.UserInputChallenge` | src/controller.rs:102-104 | A pending question is asked exactly once, and the next request is `ChallengeCode(answer, params)`. A failed prompt ends the check with no further request. |
| `StatusProperties.SsoChallenge` | src/controller.rs:121-124 | A pending sign-on opens the URL and waits for the code. The next request is `ChallengeCode(code, params)` with exactly that code. |
| `StatusProperties.ChallengeReplyHandling` | src/controller.rs:171-176 | After a challenge code, `Ok` leads to a new status check and `Error(msg)` fails with `msg`. Any other reply is "Invalid response!". |
| `ConnectProperties.ConnectRejectsMissingParameters` | src/controller.rs:131-135 | An empty server name or login type fails before anything is sent, asked or changed. |
| `ConnectProperties.AcquireSkipped` | src/controller.rs:137 | With a configured password or a client certificate, neither the keychain nor the user is asked, and nothing changes. |
| `ConnectProperties.KeychainAcquisition` | src/controller.rs:138-141 | With the keychain in use, the keychain is read once and nobody is prompted. The password becomes the keychain's, or stays empty, and acquisition succeeds either way. |
| `ConnectProperties.PromptAcquisition` | src/controller.rs:143-149 | Without the keychain, there is one prompt. Its text is the queue's front when the queue exists and is non-empty, and exactly that element is removed. Otherwise the text is "Enter password for {user}: " and the queue is unchanged. The password becomes the trimmed answer. |
| `ConnectProperties.AcquisitionFailureSendsNothing` | src/controller.rs:148 | A failed password prompt ends `do_connect` with that failure, and no request is sent. |
| `ConnectProperties.ConnectSendsAcquiredParams` | src/controller.rs:150-161 | `Connect` carries the acquired parameters with the 120 s timeout, and the controller keeps them. `Ok` leads to a new `GetStatus`, `Error(msg)` fails with `msg`, and any other reply is "Invalid response!". |
| `ConnectProperties.KeychainPathNeverPrompts` | src/controller.rs:137-155 | With the keychain in use and no password, `Connect` comes right after the keychain read. Its password is the keychain's, or empty when the keychain read fails. |
| `ConnectProperties.ConfiguredPasswordSentAsIs` | src/controller.rs:137-155 | A configured password or certificate goes out unchanged in the first request, `Connect`, and the parameters never change. |
| `CommandProperties.CommandsReportSettledStatus` | src/controller.rs:76-95 | No command succeeds with a status that still waits for a challenge answer. |
| `CommandProperties.ConfigurationKept` | src/controller.rs:76-95 | `status`, `disconnect` and `info` keep the parameters and the prompt queue. Every command keeps the parameters when a password or a certificate is configured. |
| `CommandProperties.CommandTransportFailure` | src/controller.rs:78-86 | If the first status poll cannot be delivered, `status`, `connect` and `disconnect` fail with that transport error. `connect` has only fetched prompts before it. |
| `CommandProperties.ConnectPromptText` | src/controller.rs:79-83 | `connect` fetches prompts, then sends `GetStatus`. Without a password or keychain, it then prompts with the server's first prompt, or else with the default text. |
| `CommandProperties.AliceIsAskedWithDefaultPrompt` | src/controller.rs:147 | User alice, with no password, no keychain and no server prompts, is asked "Enter password for alice: ". |
| `CommandProperties.DisconnectCommandOrder` | src/controller.rs:84-87 | `disconnect` sends `GetStatus`, then `Disconnect` (2 s), then `GetStatus` again whatever the service replied. Only a transport failure ends it early. |
| `CommandProperties.ReconnectIgnoresDisconnectFailure` | src/controller.rs:88-92 | Whatever `disconnect` yields, `reconnect` goes on: right after it, the prompts are fetched again and `Connect` is sent with the configured parameters. This covers a transport error, an invalid reply and a failed challenge. |
| `CommandProperties.ReconnectAfterInvalidResponse` | src/controller.rs:88-92 | An example: the status check after `Disconnect` gets `Ok`, so `disconnect` fails with an invalid response. `reconnect` still sends `Connect`. |
| `CommandProperties.InfoBypassesService` | src/controller.rs:93 | `info` sends no request to the service. It reports the default status when the server answers. |
| `Controller.ServiceController.WithParams` | src/controller.rs:50-56 | A new controller holds the given parameters and no prompt queue. |
| `Controller.ServiceController.Command` | src/controller.rs:76-95 | The new state and the result are exactly those of `Protocol.RunCommand`. |
| `Controller.ServiceController.DoStatus` | src/controller.rs:97-116 | The new state and the result are exactly those of `Protocol.DoStatus`. Only the environment is modified. |
| `Controller.ServiceController.GetMfaInput` | src/controller.rs:118-126 | Equals `Protocol.GetMfaInput`. Only the environment is modified. |
| `Controller.ServiceController.AcquirePassword` | src/controller.rs:137-151 | Equals `Protocol.AcquirePassword`. The parameters and the prompt queue are updated in place. |
| `Controller.ServiceController.DoConnect` | src/controller.rs:128-162 | Equals `Protocol.DoConnect`. |
| `Controller.ServiceController.DoChallengeCode` | src/controller.rs:164-177 | Equals `Protocol.DoChallengeCode`. Only the environment is modified. |
| `Controller.ServiceController.DoDisconnect` | src/controller.rs:179-183 | Equals `Protocol.DoDisconnect`. Only the environment is modified. |
| `Controller.ServiceController.FillPwdPrompts` | src/controller.rs:200-204 | Equals `Protocol.FillPwdPrompts`. |
| `Controller.ServiceController.DoInfo` | src/controller.rs:206-213 | Equals `Protocol.DoInfo`. Only the environment is modified. |
| `Controller.Environment.SendReceive` | src/controller.rs:185-198 | One exchange records the request and its timeout, then yields the next scripted reply. With no reply left, it yields a transport failure. |

## Left out

- src/tunnel/ipsec.rs is not part of this model. It races a stop channel against
  the keepalive future, sets an atomic flag, and spawns a cleanup thread on drop.
  All of that is concurrency and foreign async calls.
- `send_receive` internals: UDP socket binding and JSON encoding are not modelled.
  The model cannot state the JSON round-trip. An exchange is one scripted reply or
  a transport failure, and the timeout is only recorded (2 s or 120 s). Wall-clock
  behaviour is not modelled.
- `ServiceController::new`: finding the config file, `TunnelParams::load` and
  `decode_password` are file-system plumbing.
- `do_info`: the printing of login options is left out. The model keeps only the
  server query's success or failure.
- Foreign calls are uninterpreted scripted answers:
  - `store_password`, `acquire_password`
  - `SecurePrompt::get_secure_input`
  - `opener::open`
  - `run_otp_listener` under `OTP_TIMEOUT` (the timeout's value is not visible; a
    timeout is one of the listener's failures)
  - `server_info::get_pwd_prompts`
  - `CccHttpClient::get_server_info`
  The result of `store_password` is discarded by the source, so the model records
  only the call.
- Commands.Parse: lower-casing is ASCII only, while Rust's `to_lowercase` also maps
  non-ASCII letters. A non-ASCII string is still rejected, but the text in its
  error message may differ from the source's.
- `TunnelParams` fields that the controller never reads are not modelled, and the
  `connected_since` timestamp is an integer.
