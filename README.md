# MLAPI.Puncher in Dafny

MLAPI.Puncher does UDP NAT hole punching. It has two parts.

- **The rendezvous server (`PuncherServer`).** It keeps a registry of the listeners that have registered with it. The registry is keyed by the listener's public IPv4 address, as the server observes it.
  - A listener's Register frame adds or refreshes the listener's record.
  - A connector's Register frame names a public address. The server then sends a ConnectTo frame to the connector and one to the listener. Each frame carries the other side's observed endpoint and the connector's session token.
  - If no listener is registered at that address, the connector gets an Error frame carrying ClientNotFound instead.
- **The client (`PuncherClient`).** It plays one of two roles.
  - As a **listener** (`ListenForPunches`, `ListenForSinglePunch`, `RunListenerJob`), it registers with every server. It re-registers when the register interval has passed and when a server's response is overdue. When a server sends it a ConnectTo, it sends a burst of Punch frames to the connector's predicted ports. It answers any Punch by sending back a PunchSuccess.
  - As a **connector** (`TryPunch`), it registers a connect request carrying a 32-byte session token. It waits for the server's ConnectTo and optionally drops a peer at an unexpected address. Then it punches the peer's predicted ports and waits for the peer's PunchSuccess. While it waits, it punches back any Punch that arrives from a port outside the predicted window.

Every frame is 64 bytes long. Byte 0 is the message type:

| value | type |
|---|---|
| 0 | Register |
| 1 | Registered |
| 2 | ConnectTo |
| 3 | Error |
| 4 | Punch |
| 5 | PunchSuccess |

The project has one module per concern:

- `Wire` models the frame layouts, how each side writes and reads them, and the `Buffer.BlockCopy` and `Array.Clear` primitives.
- `Transport` models the datagram transport. It holds a supplied sequence of receive events, a trace of every `SendTo` call, a clock, and a fixed set of destinations for which a send fails.
- `Server` holds the registry as a map, the step function `ServerStep`, the left-fold `ServerRun` and the `PuncherServer` class.
- `ClientFrames` holds the client's settings, the frames it writes, the send loops and the token comparison.
- `ListenerLogic` models the listener as functions of the events it receives. `ConnectorLogic` does the same for the connector.
- `Client` holds the `PuncherClient` class. Each of its methods is proved against those functions.
- `EndToEnd` states how the server's answers and the two clients' answers fit together.

An exception the source throws is modelled as a value: `Outcome.Threw(e)`, or `Some(e)` in a `thrown` result. This covers `Buffer.BlockCopy` out of range, an index past an array, a port above 65535, a missing sender endpoint, a datagram too long for the 64-byte buffer, a short send and a missed register response. Each contract states when each exception happens, as the code is written.

## Model

| member | source | states |
|---|---|---|
| Wire.PortRoundTrip | MLAPI.Puncher.Server/PuncherServer.cs:116-118 | Reading a port back from its low and high bytes gives the same port. |
| Wire.FlagBits | MLAPI.Puncher.Server/PuncherServer.cs:56-58 | Bit 0 of the flag byte means connector and bit 1 means listener. The higher bits are ignored. |
| Wire.ListenerRegisterRoundTrip | MLAPI.Puncher.Client/PuncherClient.cs:204-239 | The server reads the listener's Register frame as a Register with only the listener flag set. |
| Wire.ConnectorRegisterRoundTrip | MLAPI.Puncher.Client/PuncherClient.cs:204-239 | The server reads back the connector's frame as a Register with only the connector flag set. It gets the target address, a token length of min(length, 32) and the token cut to that length. |
| Wire.ConnectToRoundTrip | MLAPI.Puncher.Server/PuncherServer.cs:108-137 | A client reads back from the server's ConnectTo the endpoint, the token length and the token that were written. The bytes after the token are left as they were. |
| Wire.PunchRoundTrip | MLAPI.Puncher.Client/PuncherClient.cs:257-263 | The receiver reads back from a Punch frame its type, the token length and the token. |
| Wire.BlockCopy | MLAPI.Puncher.Server/PuncherServer.cs:105 | The copy succeeds exactly when both ranges are in bounds. Then exactly the target range is overwritten. Otherwise nothing changes and the call counts as a throw. |
| Wire.Clear | MLAPI.Puncher.Client/PuncherClient.cs:395 | Exactly the given range becomes zero, and every other byte is kept. |
| Transport.AfterReceive | MLAPI.Puncher.Shared/SlimUDPTransport.cs:45-69 | A receive keeps the buffer's length. A 64-byte datagram leaves exactly that frame in the buffer. A shorter one overwrites only the buffer's front and keeps the rest. A timeout or a stop leaves the buffer unchanged. |
| Transport.UdpTransport.SendTo | MLAPI.Puncher.Shared/IUDPTransport.cs:19 | Every call is appended to the sent trace. The byte count is the frame's length, or -1 for a failing destination. |
| Transport.UdpTransport.ReceiveFrom | MLAPI.Puncher.Shared/SlimUDPTransport.cs:45-69 | Delivers the next event and advances the clock to the event's time. A datagram gives its clamped size and its sender. A datagram longer than the buffer also makes the call throw SocketException, the non-timeout error the transport rethrows. A timeout or a stop gives -1 and no sender, without throwing. |
| Transport.UdpTransport.Bind | MLAPI.Puncher.Shared/IUDPTransport.cs:34 | Records the bound endpoint. |
| ClientFrames.SendAll | MLAPI.Puncher.Client/PuncherClient.cs:241-250 | A send loop can only throw SocketSendException. |
| ClientFrames.SendAllDelivers | MLAPI.Puncher.Client/PuncherClient.cs:241-250 | When every target accepts, each target gets the frame exactly once, in order, and nothing throws. |
| ClientFrames.SendAllStopsAtFailure | MLAPI.Puncher.Client/PuncherClient.cs:241-250 | The first failing target ends the loop with SocketSendException. It and the targets before it were sent the frame, and no later target was. |
| ClientFrames.RegisterReachesEachServer | MLAPI.Puncher.Client/PuncherClient.cs:201-251 | Every server gets the Register frame once, in order. For a listener it has flags 2 and zeros after. For a connector it has flags 1, the target, min(length, 32) and the whole token. |
| ClientFrames.ValidPunchCount | MLAPI.Puncher.Client/PuncherClient.cs:265-274 | At most the requested number of predicted ports are punched, and none above 65535. |
| ClientFrames.PunchTargets | MLAPI.Puncher.Client/PuncherClient.cs:265-274 | Target i of the burst is the peer's address at port P+i. |
| ClientFrames.PunchBurst | MLAPI.Puncher.Client/PuncherClient.cs:265-274 | A burst ends normally, with SocketSendException, or with ArgumentOutOfRangeException. |
| ClientFrames.PunchBurstInOrder | MLAPI.Puncher.Client/PuncherClient.cs:265-274 | When every port exists and accepts, the burst sends exactly N frames, to ports P, P+1, … in order. |
| ClientFrames.PunchBurstOverflows | MLAPI.Puncher.Client/PuncherClient.cs:265-274 | A burst that runs past port 65535 sends to every port from P to 65535 in order, then throws ArgumentOutOfRangeException. |
| ClientFrames.CompareFromMeaning | MLAPI.Puncher.Client/PuncherClient.cs:462-469 | From any matching prefix on, the comparison loop gives false on a mismatch within the shorter length and true when all n bytes exist. Otherwise it throws IndexOutOfRange. |
| ClientFrames.CompareMeaning | MLAPI.Puncher.Client/PuncherClient.cs:519-526 | The token comparison is false on a mismatch within min(n, both lengths). Otherwise it is true when both sides hold n bytes, and it throws IndexOutOfRange when one side is shorter. |
| ClientFrames.ComparePrefixOnly | MLAPI.Puncher.Client/PuncherClient.cs:462-469 | The comparison depends only on the first n bytes of the token buffer. |
| ListenerLogic.ConnectToOnlyFromServers | MLAPI.Puncher.Client/PuncherClient.cs:378-389 | A ConnectTo from a non-server is ignored, and so is one declaring more than 58 token bytes. A ConnectTo leads to a punch burst if and only if it comes from a server and its token fits both the frame and the token buffer. |
| ListenerLogic.BurstCarriesDecodedPeer | MLAPI.Puncher.Client/PuncherClient.cs:378-400 | A server's well-formed ConnectTo makes the listener punch the endpoint and the token the frame carries. |
| ListenerLogic.EchoesEveryPunch | MLAPI.Puncher.Client/PuncherClient.cs:402-419 | Every Punch, from any sender, is answered, and no token is checked. |
| ListenerLogic.EchoChangesOnlyType | MLAPI.Puncher.Client/PuncherClient.cs:404-405 | The PunchSuccess answer is the received frame with only byte 0 changed. |
| ListenerLogic.InitialStatuses | MLAPI.Puncher.Client/PuncherClient.cs:294-304 | There is one status per server, in server order. None is waiting, and each is stamped with the start time. |
| ListenerLogic.IndexOfStatus | MLAPI.Puncher.Client/PuncherClient.cs:310-319 | Gives the first index whose endpoint matches, or -1 exactly when no endpoint matches. |
| ListenerLogic.Acknowledge | MLAPI.Puncher.Client/PuncherClient.cs:323-327 | A server's Registered clears that server's waiting flag and changes no other status. |
| ListenerLogic.Refresh | MLAPI.Puncher.Client/PuncherClient.cs:349-357 | A due status becomes waiting and is stamped now. Any other status is unchanged. |
| ListenerLogic.ResendPass | MLAPI.Puncher.Client/PuncherClient.cs:347-365 | The pass keeps the number of statuses. It throws only the broadcast's exception, or ServerNotReachable when timeout exceptions are asked for. |
| ListenerLogic.ResendPassRefreshes | MLAPI.Puncher.Client/PuncherClient.cs:347-365 | The pass keeps each status's server. When nothing throws, it has applied the resend rule to every status. |
| ListenerLogic.NothingDueNothingSent | MLAPI.Puncher.Client/PuncherClient.cs:347-357 | When no status is due, the pass sends nothing. |
| ListenerLogic.WaitingStatusNotResent | MLAPI.Puncher.Client/PuncherClient.cs:349-357 | A status waiting for a Registered frame is never due. A pass that does not throw leaves it exactly as it was. |
| ListenerLogic.ListenerFrameEffect | MLAPI.Puncher.Client/PuncherClient.cs:373-422 | A frame is reported as a successful punch only when its sender was sent exactly the PunchSuccess echo. Conversely, every Punch is echoed to its sender. The echo is handled and reports the sender exactly when the send succeeds, and throws SocketSendException when it fails. Frame handling never throws ServerNotReachable. |
| ListenerLogic.HandleListenerEvent | MLAPI.Puncher.Client/PuncherClient.cs:308-344 | The statuses still follow the servers. A success is only ever a full frame's sender after an echo to that sender. |
| ListenerLogic.ListenerIteration | MLAPI.Puncher.Client/PuncherClient.cs:306-366 | One pass of the loop exits only when asked to exit on success, and only after echoing to the endpoint it returns. It throws ServerNotReachable only when asked to, and reports only to a punch listener. |
| ListenerLogic.RunListenerEnds | MLAPI.Puncher.Client/PuncherClient.cs:288-370 | Every run of the listener loop ends in one of these ways. It returns an endpoint only when asked to exit on success, with a PunchSuccess just sent to it. It throws ServerNotReachable only when asked to. It reports only to a punch listener. Otherwise it ends only once the running flag is off. |
| ConnectorLogic.ConnectToCopy | MLAPI.Puncher.Client/PuncherClient.cs:457 | The wait loop never copies more bytes than the token buffer holds. |
| ConnectorLogic.ServerErrorRefuses | MLAPI.Puncher.Client/PuncherClient.cs:435-443 | A datagram longer than the buffer, from anyone, makes the receive throw SocketException. Any other frame from a non-server is skipped. A server's Error ends the wait with false. |
| ConnectorLogic.ConnectToVerdictMeaning | MLAPI.Puncher.Client/PuncherClient.cs:444-480 | A server's ConnectTo with declared length s is judged as follows. Above 58 it is skipped. It throws ArgumentException at 57, at 58, or when s exceeds the token buffer. Otherwise it is accepted when its first s bytes are the token's, skipped on a mismatch, and throws IndexOutOfRange when the token is shorter than s. |
| ConnectorLogic.ZeroLengthTokenAccepted | MLAPI.Puncher.Client/PuncherClient.cs:462-469 | A server's ConnectTo declaring no token bytes is accepted, whatever the session token. |
| ConnectorLogic.SessionTokenOverrun | MLAPI.Puncher.Client/PuncherClient.cs:462-469 | Suppose a ConnectTo declares more than 32 token bytes and its first 32 match the 32-byte session token. Then the comparison indexes past the token and throws IndexOutOfRange. |
| ConnectorLogic.ConnectorWait | MLAPI.Puncher.Client/PuncherClient.cs:428-493 | The wait keeps the buffer lengths. The events it leaves unread are a suffix of those it was given. |
| ConnectorLogic.WaitSkipsUntilLast | MLAPI.Puncher.Client/PuncherClient.cs:428-493 | The wait ends at the first event it does not skip: every event consumed before the last one was skipped. |
| ConnectorLogic.WaitAcceptsOnlyConnectTo | MLAPI.Puncher.Client/PuncherClient.cs:444-480 | A peer returned by the wait comes from the last event the wait consumed. That event is a server's ConnectTo whose verdict is Accepted for exactly that peer. |
| ConnectorLogic.WaitDeadlineFixed | MLAPI.Puncher.Client/PuncherClient.cs:482 | The deadline counts from the start of the wait and is never reset. The loop went on past an event only if that event arrived before start + timeout. |
| ConnectorLogic.PunchReplyVerdict | MLAPI.Puncher.Client/PuncherClient.cs:504-585 | A repunch goes only to the target's address. A success is the observed sender of a datagram at the target's address. |
| ConnectorLogic.ForeignAddressIgnored | MLAPI.Puncher.Client/PuncherClient.cs:504-507 | A datagram from any address other than the target's is ignored. The exception is one longer than the buffer, whose receive throws SocketException. |
| ConnectorLogic.SuccessReturnsObserved | MLAPI.Puncher.Client/PuncherClient.cs:557-582 | A PunchSuccess from the target's address completes the punch if and only if it declares the token's length and carries the token buffer's first bytes. The observed endpoint is returned. |
| ConnectorLogic.RepunchOutsideWindow | MLAPI.Puncher.Client/PuncherClient.cs:509-556 | A Punch carrying the token from a port outside [P, P+N) is punched back once at that port. One from inside the window sends nothing. |
| ConnectorLogic.PunchStaysWithTarget | MLAPI.Puncher.Client/PuncherClient.cs:496-589 | Everything the punch loop sends goes to the target's address, and so does the endpoint it returns. |
| ConnectorLogic.PunchEndsAtReply | MLAPI.Puncher.Client/PuncherClient.cs:496-589 | The punch loop leaves a suffix of its events unread. Every event it consumed before the last was ignored, or punched back to a destination that accepted. A returned endpoint is the sender of the last consumed event, a PunchSuccess the loop accepted. |
| ConnectorLogic.PunchedPeerWasAwaited | MLAPI.Puncher.Client/PuncherClient.cs:172-195 | Once the wait has ended, a punched endpoint has the address of the peer the wait returned. It clears the running flag, and when unknown addresses are dropped its address is the one asked for. |
| ConnectorLogic.NoPeerNoPunch | MLAPI.Puncher.Client/PuncherClient.cs:172-195 | A wait that returns false, or a peer dropped for its address, makes TryPunch return false without sending a Punch. Only the first clears the running flag. |
| ConnectorLogic.SessionWithoutPeerSendsNoPunch | MLAPI.Puncher.Client/PuncherClient.cs:168-195 | Suppose the Register broadcast goes out and the wait returns false, or a dropped peer. Then TryPunch returns false, and the only frames it sent are the Register frames. |
| ConnectorLogic.SessionReturnsAnnouncedPeer | MLAPI.Puncher.Client/PuncherClient.cs:147-196 | A successful TryPunch clears the running flag. It returns an endpoint at the address of a peer announced by an accepted server ConnectTo. When unknown addresses are dropped, that address is the one asked for. |
| Server.DropsNonRegister | MLAPI.Puncher.Server/PuncherServer.cs:40-53 | A datagram shorter than 64 bytes, or a 64-byte frame that is not a Register, changes nothing and is not answered. |
| Server.BothFlagsRunBothBranches | MLAPI.Puncher.Server/PuncherServer.cs:56-86 | With both flag bits set, the sender is registered at its observed endpoint and is also answered. |
| Server.ListenerUpsert | MLAPI.Puncher.Server/PuncherServer.cs:60-79 | A listener Register maps the sender's address to its observed endpoint, its flags and the receive time, and keeps every other record. |
| Server.SameAddressOverwrites | MLAPI.Puncher.Server/PuncherServer.cs:60-79 | Two listeners behind one public address: the later registration replaces the earlier one. |
| Server.StepKeepsOnlyListeners | MLAPI.Puncher.Server/PuncherServer.cs:13-17 | Every record in the registry is a listener record, and a step never removes one. A step without the listener bit leaves the registry unchanged. |
| Server.OversizedTokenDropped | MLAPI.Puncher.Server/PuncherServer.cs:95-102 | A connector request declaring more than 58 token bytes is dropped without a reply. The listener upsert from the same frame still holds. |
| Server.AdmittedTokenOverruns | MLAPI.Puncher.Server/PuncherServer.cs:95-149 | The guard admits 57 and 58. A declared 58 always throws ArgumentException and sends nothing. A declared 57 throws, sending nothing, exactly when the target is a registered listener; otherwise it is answered with the ClientNotFound Error frame. The listener upsert persists in every case. |
| Server.RelaysToBoth | MLAPI.Puncher.Server/PuncherServer.cs:108-137 | A request for a registered listener gets exactly two ConnectTo frames. The first goes to the connector and carries the listener's endpoint. The second goes to the listener and carries the connector's. Both carry the connector's declared token. |
| Server.NotFoundAnswersError | MLAPI.Puncher.Server/PuncherServer.cs:139-149 | A request for an address with no listener gets one frame, to the connector: Error, ClientNotFound, then zeros. |
| Server.OnlyConnectToOrError | MLAPI.Puncher.Server/PuncherServer.cs:38-151 | The server only sends 64-byte ConnectTo or Error frames. It never answers a Register without the connector bit. |
| Server.RunKeepsOnlyListeners | MLAPI.Puncher.Server/PuncherServer.cs:16-17 | Over any run, records are never removed and every record stays a listener record. |
| Server.RunStopsAtThrow | MLAPI.Puncher.Server/PuncherServer.cs:28-36 | Once a step throws, the run stops there. Later events change neither the registry nor the replies. |
| Server.OversizedEndsServer | MLAPI.Puncher.Server/PuncherServer.cs:38-40 | A datagram longer than 64 bytes makes the receive throw SocketException, which ends the server loop. The registry and the replies stay as they were before it. |
| Server.PuncherServer.constructor | MLAPI.Puncher.Server/PuncherServer.cs:13-17 | The server starts with an empty registry and three distinct buffers of 64, 64 and 4 bytes. |
| Server.PuncherServer.WritePeer | MLAPI.Puncher.Server/PuncherServer.cs:113-118 | Bytes 1 to 6 become the peer's address and its port, low byte first. No other byte changes. |
| Server.PuncherServer.WriteConnectTo | MLAPI.Puncher.Server/PuncherServer.cs:110-124 | The buffer becomes the ConnectTo frame for the listener, built in place over the received Register frame. |
| Server.PuncherServer.ProcessMessage | MLAPI.Puncher.Server/PuncherServer.cs:38-151 | The new registry, the frames sent and the exception are exactly ServerStep's for the delivered event. |
| Server.PuncherServer.HandleConnector | MLAPI.Puncher.Server/PuncherServer.cs:86-150 | The connector branch sends exactly the replies that Route gives for the registry and the received frame, and throws exactly its exception. |
| Server.PuncherServer.Relay | MLAPI.Puncher.Server/PuncherServer.cs:108-137 | Sends the two ConnectTo frames, the connector's first, both built in place on the received frame. |
| Server.PuncherServer.Start | MLAPI.Puncher.Server/PuncherServer.cs:28-36 | Binds to the endpoint, then consumes every event unless one throws. The registry, the sent trace and the exception equal ServerRun over the consumed events. |
| Client.PuncherClient.constructor | MLAPI.Puncher.Client/PuncherClient.cs:79-91 | A new client is not running, has reported nothing and owns two fresh, distinct buffers. |
| Client.PuncherClient.SendToAll | MLAPI.Puncher.Client/PuncherClient.cs:241-250 | The send loop sends and throws exactly as SendAll over the targets says. |
| Client.PuncherClient.SendRegisterRequest | MLAPI.Puncher.Client/PuncherClient.cs:201-251 | Writes the Register frame, or the partial frame left by a token copy that throws. It then sends and throws exactly as RegisterBroadcast says. |
| Client.PuncherClient.SendPunches | MLAPI.Puncher.Client/PuncherClient.cs:254-275 | Writes the Punch header over the front of the buffer, or throws ArgumentException when the token does not fit. It then bursts exactly as PunchBurst says. |
| Client.PuncherClient.PunchPredictedPorts | MLAPI.Puncher.Client/PuncherClient.cs:265-274 | The burst loop sends and throws exactly as PunchBurst says. |
| Client.PuncherClient.CompareBytes | MLAPI.Puncher.Client/PuncherClient.cs:519-526 | The byte loop gives the same result as Compare, whose meaning CompareMeaning states. |
| Client.PuncherClient.HasPingedPort | MLAPI.Puncher.Client/PuncherClient.cs:533-541 | True exactly when the observed port lies in [P, P+N). |
| Client.PuncherClient.FindStatus | MLAPI.Puncher.Client/PuncherClient.cs:310-319 | The search loop gives IndexOfStatus: the first match, or -1. |
| Client.PuncherClient.ResendRegistrations | MLAPI.Puncher.Client/PuncherClient.cs:347-365 | The statuses, the Registers sent and the exception are exactly ResendPass's. The buffer holds the listener's Register frame exactly when one was sent. |
| Client.PuncherClient.ResendNext | MLAPI.Puncher.Client/PuncherClient.cs:347-365 | One turn of the resend loop moves the pass over the remaining statuses on by one. On a throw, it gives the pass's final result. |
| Client.PuncherClient.ResendAt | MLAPI.Puncher.Client/PuncherClient.cs:349-364 | The turn for status i resends exactly when that status is due. It then refreshes the status, or throws on a failed send or an overdue response. Other statuses are unchanged. |
| Client.PuncherClient.ResendOne | MLAPI.Puncher.Client/PuncherClient.cs:349-364 | A due status triggers one Register broadcast and becomes waiting, stamped now. It counts as overdue when waiting past the response timeout with timeout exceptions asked for. |
| Client.PuncherClient.RunListenerJob | MLAPI.Puncher.Client/PuncherClient.cs:288-370 | The sent trace, the reported connectors, the result, the token buffer, the unread events, the clock and the running flag are exactly ListenerJob's. |
| Client.PuncherClient.ListenLoop | MLAPI.Puncher.Client/PuncherClient.cs:306-366 | The `while (_isRunning)` loop does exactly what RunListener says, over the statuses, the token buffer and the events. |
| Client.PuncherClient.InitialStatusArray | MLAPI.Puncher.Client/PuncherClient.cs:294-304 | The new array is InitialStatuses: one fresh status per server. |
| Client.PuncherClient.ListenerStep | MLAPI.Puncher.Client/PuncherClient.cs:306-366 | One pass consumes one event and does exactly what ListenerIteration says. The running flag is cleared exactly on a stop. |
| Client.PuncherClient.HandleReceived | MLAPI.Puncher.Client/PuncherClient.cs:321-344 | Frame handling does exactly what HandleListenerEvent says. A success either returns, when asked to exit, or is reported to a punch listener. |
| Client.PuncherClient.TryParseListenerPacket | MLAPI.Puncher.Client/PuncherClient.cs:373-422 | The buffers, the frames sent and the result are exactly ListenerFrameEffect's for the received frame and sender. |
| Client.PuncherClient.PunchConnector | MLAPI.Puncher.Client/PuncherClient.cs:378-400 | An oversized ConnectTo is ignored, and a token copy out of range throws ArgumentException. Otherwise the token is copied, and the connector is punched with a clean Punch frame. |
| Client.PuncherClient.AnswerPunch | MLAPI.Puncher.Client/PuncherClient.cs:402-419 | Sends the received frame back, retyped as PunchSuccess. It reports the sender when the send succeeds and throws SocketSendException when it fails. |
| Client.PuncherClient.ListenForPunches | MLAPI.Puncher.Client/PuncherClient.cs:111-121 | Binds, then runs the listener job without exiting on success. The running flag stays set only when the job throws. |
| Client.PuncherClient.ListenForSinglePunch | MLAPI.Puncher.Client/PuncherClient.cs:128-140 | Binds, then runs the listener job until the first answered punch and returns its endpoint. The running flag stays set only when the job throws. |
| Client.PuncherClient.TryPunch | MLAPI.Puncher.Client/PuncherClient.cs:147-196 | An IPv6 address throws ArgumentException and leaves both buffers, the clock, the send trace, the binding, the unread events and the running flag as they were. An IPv4 address binds to any port and then does exactly what ConnectorSession says. |
| Client.PuncherClient.WaitThenPunch | MLAPI.Puncher.Client/PuncherClient.cs:172-195 | Once registered, the wait-and-punch sequence does exactly what AwaitAndPunch says. |
| Client.PuncherClient.PunchAnswered | MLAPI.Puncher.Client/PuncherClient.cs:172-195 | No peer returns false and clears the running flag. A peer dropped for its address returns false with the flag left set. Otherwise the method does what PunchAfterWait says. |
| Client.PuncherClient.PunchPeer | MLAPI.Puncher.Client/PuncherClient.cs:182-195 | A burst that throws ends the session. Otherwise the punch loop follows, and the running flag is cleared unless it throws. |
| Client.PuncherClient.TryWaitForConnectorRegisterResponse | MLAPI.Puncher.Client/PuncherClient.cs:428-493 | The buffers, the unread events, the clock, the running flag and the result are exactly ConnectorWait's, with the start time fixed at entry. |
| Client.PuncherClient.WaitStep | MLAPI.Puncher.Client/PuncherClient.cs:435-480 | One receive of the wait loop is judged as ConnectToVerdict says, including the throw of a datagram too long for the buffer. The token buffer gets exactly the bytes ConnectToCopy gives. |
| Client.PuncherClient.JudgeRegisterResponse | MLAPI.Puncher.Client/PuncherClient.cs:435-480 | A received event is judged as ConnectToVerdict says, and the token buffer gets exactly the bytes ConnectToCopy gives. |
| Client.PuncherClient.TryCompleteConnectorPunch | MLAPI.Puncher.Client/PuncherClient.cs:496-589 | The buffer, the repunches sent, the unread events, the clock, the running flag and the result are exactly ConnectorPunch's, with the start time fixed at entry. |
| Client.PuncherClient.PunchStep | MLAPI.Puncher.Client/PuncherClient.cs:504-556 | One receive is judged as PunchReplyVerdict says, including the throw of a datagram too long for the buffer. Exactly a repunch sends the received frame back, and it fails exactly for a failing destination. |
| Client.PuncherClient.JudgePunchReply | MLAPI.Puncher.Client/PuncherClient.cs:507-582 | The received event is judged exactly as PunchReplyVerdict says. |
| EndToEnd.RendezvousRelay | MLAPI.Puncher.Server/PuncherServer.cs:86-137 | Take a connector's Register with the session token, for a registered listener. The connector's wait accepts the server's first reply as the listener's endpoint and copies the token. The server's second reply makes the listener punch the connector's observed endpoint with the same token. |
| EndToEnd.ListenerPunchSeenByConnector | MLAPI.Puncher.Client/PuncherClient.cs:509-556 | A listener's Punch reaching the connector from the peer's address is punched back only when it comes from outside the predicted window. |
| EndToEnd.ServerNeverAcknowledges | MLAPI.Puncher.Server/PuncherServer.cs:38-151 | No frame the server sends changes a listener's registration statuses when the listener receives it, because the server never sends Registered. |
| EndToEnd.EchoCompletesPunch | MLAPI.Puncher.Client/PuncherClient.cs:402-419 | The listener echoes the connector's Punch. If the connector's token buffer starts with the session token, the echo completes the punch at the endpoint it came from. |

The methods above are proved against these specification functions. Each models the cited lines:

- `Server.ServerStep`: one ProcessMessage call on a received event (MLAPI.Puncher.Server/PuncherServer.cs:38-151).
- `Server.Upsert`: the listener branch (MLAPI.Puncher.Server/PuncherServer.cs:60-79).
- `Server.Route`: the connector branch (MLAPI.Puncher.Server/PuncherServer.cs:86-150).
- `Server.ServerRun`: the `while (true)` loop of Start, one step per event (MLAPI.Puncher.Server/PuncherServer.cs:28-36).
- `ClientFrames.RegisterBroadcast`: SendRegisterRequest (MLAPI.Puncher.Client/PuncherClient.cs:201-251).
- `ClientFrames.Compare`: the token comparison loops (MLAPI.Puncher.Client/PuncherClient.cs:462-469 and 519-526).
- `ListenerLogic.ParseListenerFrame`: which branch TryParseListenerPacket takes (MLAPI.Puncher.Client/PuncherClient.cs:373-420).
- `ListenerLogic.RunListener`: the `while (_isRunning)` loop of RunListenerJob (MLAPI.Puncher.Client/PuncherClient.cs:306-366).
- `ListenerLogic.ListenerJob`: all of RunListenerJob (MLAPI.Puncher.Client/PuncherClient.cs:288-370).
- `ConnectorLogic.ConnectToVerdict`: how the wait judges one received event (MLAPI.Puncher.Client/PuncherClient.cs:435-480).
- `ConnectorLogic.ConnectorPunch`: the loop of TryCompleteConnectorPunch (MLAPI.Puncher.Client/PuncherClient.cs:496-589).
- `ConnectorLogic.ConnectorSession`: TryPunch after the bind (MLAPI.Puncher.Client/PuncherClient.cs:161-196).
- `ConnectorLogic.AwaitAndPunch`: TryPunch once registered (MLAPI.Puncher.Client/PuncherClient.cs:172-195).
- `ConnectorLogic.PunchAfterWait`: TryPunch once the wait has ended (MLAPI.Puncher.Client/PuncherClient.cs:172-195).
- `ConnectorLogic.PunchPeerSession`: the punch burst and the punch loop for a kept peer (MLAPI.Puncher.Client/PuncherClient.cs:181-190).

## Left out

- The DNS constructor (MLAPI.Puncher.Client/PuncherClient.cs:98-105) is left out because the host lookup is I/O. The model takes the server endpoints directly, as the other two constructors do.
- The random session token (MLAPI.Puncher.Client/PuncherClient.cs:161-163) is a parameter of TryPunch, of length 32, because randomness is outside the model.
- `DateTime.Now` is the timestamp of the latest received event, because a clock is outside the model. Durations are whole milliseconds, not `TotalMilliseconds` doubles.
- Socket timeouts, `SocketSendTimeout`/`SocketReceiveTimeout`, the socket options and the retrying send of SlimUDPTransport.cs are left out because they are I/O. A receive that times out is a `Timeout` event, and a failed send is a destination in the fixed `unreachable` set. A send never throws in the model: a failed send always returns -1, so the SocketException that SlimUDPTransport.cs:112-121 rethrows after its second failed attempt, which in the server would end Start and in the client would escape as SocketException rather than SocketSendException, is not modelled.
- `Dispose`/`Close` (MLAPI.Puncher.Client/PuncherClient.cs:602-615) are left out because they are called from another thread. That call is modelled as a `Stop` event: the receive returns nothing and the running flag becomes false. An exhausted event sequence also acts as a stop, so every loop terminates.
- The `OnConnectorPunchSuccessful` event handler is left out because it is foreign code. The model records the endpoints passed to it, in order, in `punchEvents`, and whether a handler is attached is a constructor flag.
- Server.PuncherServer.Start: the source loop never ends, because it is `while (true)`. The model's loop ends when the supplied events run out, or at the first exception, which in the source would escape Start.
- The server's registry records are values in a map, not shared `Client` objects. No aliasing is lost, because the server never hands a record out.
- The registry is never pruned because the source never prunes it; this is the TODO at MLAPI.Puncher.Server/PuncherServer.cs:16. StepKeepsOnlyListeners and RunKeepsOnlyListeners state this.
- Constants.cs is not part of this model, and the two exception classes appear only as names in `Exception`. The frame size is 64 bytes, as both sides allocate. The client's token buffer size is a constructor parameter.
- The two console programs are left out because they are demos over the core: they parse arguments and print.
- IPv6 is not modelled beyond TryPunch's refusal of it. An IPv6 `IPAddress` is a separate constructor that only carries its bytes.
- Transport.AfterReceive: after a receive that throws because the datagram is longer than the buffer, the buffer is taken to hold the datagram's first 64 bytes. The socket layer does not promise this. No caller reads the buffer after such a throw.
- Server.PuncherServer.ProcessMessage: does not state the three buffers or the clock after the call, because later steps never read them before overwriting them.
- Client.PuncherClient.RunListenerJob: does not state the frame buffer's final contents, because the next receive overwrites the front of the buffer and no caller reads it. The same holds for ListenLoop, ListenForPunches and ListenForSinglePunch.
- Client.PuncherClient.ListenLoop: does not state the final status array, which is local to the listener job and discarded at its end.
