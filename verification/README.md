# marshmallows, verified

A Dafny 4.11 model of the brokered-shell protocol of marshmallows: browsers type into shells on devices
that are attached to a broker, over encrypted control sessions, after enrolling with one-time tokens.
`dafny verify dfyconfig.toml` checks every file.

## What is modelled

**Broker, agents, browsers and shells as one transition system.** `Network.dfy` holds the state that the
goroutines of `internal/broker/broker.go` and `internal/agent/agent.go` share: `b.agents`, `b.sessions`,
the registry, one `a.shells` per agent, and two message queues per connection. Every handler, receive
loop and shell goroutine is a program counter (`Threads.dfy`) that names the next source line; a step runs
one of them up to its next lock boundary, channel operation, socket call or PTY call. Any number of
agents, browsers and shells take part, connections may be lost at any point, and which thread moves next
is arbitrary.

The safety proof goes by projection. `Lane.dfy` is the machine that a single session would be if it had
the network to itself, `LaneSafety.dfy` its invariant, `LaneControl.dfy` and `LaneStreams.dfy` the proof
that every move keeps it. `Multiplexing.dfy` proves that whatever the network does, each session makes
one move of its own machine or none, so the invariant holds of every session of every run. What follows
from it is in `Sessions.dfy` (tables, byte streams, ownership), `Framing.dfy` (the size of frames),
`Hangups.dfy` and `Causes.dfy` (who closes a browser, and why a session ends), `Attachments.dfy`,
`Reattachment.dfy` and `Registrations.dfy` (which connection a device is attached through, and under which
name), `Teardown.dfy` and `Quiescence.dfy` (everything ends, and what is left), `Welcome.dfy` and
`Interleavings.dfy` (what an agent is told first, and runs that surprise), `Delivery.dfy` (runs in which
everything works), `Enrollment.dfy` and `TokenReuse.dfy` (the network together with the token store).

**Objects.** The tables and loops that the source updates in place are classes as well. The contracts of
`Registry.dfy`, `Broker.dfy`, `Transport.dfy`, `SecureChannel.dfy`, `Store.dfy` and `AuthServer.dfy` tie the
fields to the functions that the transition systems use (`BrokerTables.dfy`, `Fifo.dfy`, `After` and
`SavedDisk` in `Store.dfy`, `Handle` in `AuthState.dfy`); those of `Agent.dfy` say outright what happens to
the table of shells, to each shell and to the wire.

**The secure session.** `Noise.dfy` is the Noise Protocol Framework (revision 34, sections 5.1 to 5.3 and
the IK pattern of section 7.5) over symbolic terms. `Handshakes.dfy` runs both ends of `secure.Handshake`
over a pipe in every interleaving; `Impostors.dfy` says what an accepted message proves, whoever sent it,
and what someone without the right private keys can make of everything on the wire. `SecureChannel.dfy` has
any number of writers that share a lock, a cipher state and a bounded, closable pipe. `Transport.dfy` is
that pipe with real arrays, where the copy in `WriteMsg` matters. On an open pipe an established session is
a queue of plaintexts; that is what `Network.dfy` takes a control connection to be. `Base64.dfy` and
`Identity.dfy` are the identity and authorized-keys files.

**Enrollment and login.** `Store.dfy` is the JSON-backed store with a file system on which a crash may
strike at any instant, inside the write of the temporary file too. `StoreRuns.dfy` has runs with crashes,
reopenings, failing saves and records edited in place. `AuthState.dfy` says what each HTTP handler makes
of the sessions and the store, `AuthServer.dfy` does it to objects, and `AuthRuns.dfy` proves who can be
authenticated in runs that start from any store. `AuthLives.dfy` says which requests succeed and what they
are good for, from a begin to a logout; `AuthTrust.dfy` where users, invites and device tokens come from,
`AuthInvites.dfy` how often an invite is spent, and `AuthTotp.dfy` what an accepted code says of the login
before it.

## What is assumed of the environment

- `newID` and `randomToken` return fresh values; session and connection identifiers are positions in the
  order of creation.
- The peer of the broker runs `agent.Run`.
- A failed write to a browser's websocket or to a PTY stays failed.
- Time does not go backwards.
- Each HTTP handler of the identity service is one atomic step.
- A rename replaces the file in one step and lasts; JSON loses nothing.
- Cryptography is perfect: different inputs give different terms, and a ciphertext opens only under the
  key, nonce and associated data it was sealed with.
- WebAuthn and TOTP checks answer as they like.

## Interleavings the code allows

The model has them, and nothing below contradicts them.

- `b.reg.Remove` (`internal/broker/broker.go:164`) is not guarded by identity, unlike the removal from
  `b.agents` four lines above. After overlapping attachments the registry can miss a device that
  `b.agents` has: `Reattachment.OverlappingAttachmentsDiffer` is such a run, and
  `Reattachment.RemovalIsUnguarded` says exactly when the two differ after a removal, and
  `Reattachment.TablesAgreeWhenStepsDo` over a whole run.
- A connection is published in `b.agents` (line 128) before `registered` is sent (line 134). An `open` can
  overtake it; the agent then leaves through `internal/agent/agent.go:71-72`.
  `Interleavings.OpenOvertakesRegistered` is such a run, and `Welcome.FirstFrameDecides` says exactly when
  it happens.
- When an agent disconnects, its entries in `b.sessions` stay. Each goes with its own browser handler or
  with a `close` frame. `Interleavings.EntriesOutliveConnections` is a run in which one remains, and
  `Quiescence.LostConnectionsAreCleanedUp` says exactly which do.

## What a reader may not expect

- An agent token is refused at the instant of its expiry (`time.Now().Before`), while an invite is still
  good at that instant (`time.Now().After`).
- A crash inside a method loses that method or nothing exactly as long as memory has nothing that the file
  lacks (`StoreRuns.EveryCrashIsBeforeOrAfter`). A failed save that changed memory breaks this, and so does an edit in place:
  the handlers edit records that `GetUser` gave them before they call `PutUser`.
  `StoreRuns.CrashIsBeforeOrAfter` says which step is the first to break it, and
  `StoreRuns.EditsInPlaceAreLost` is a run where it matters.
- `CheckAgentToken` ignores the outcome of its save, so a token can be accepted twice across a restart:
  exactly if the process that accepted it ended before any rename completed after that, and the file had
  the token (`StoreRuns.ReuseNeedsALostSave`, with the run in `StoreRuns.ForgottenTokensComeBack`). What this
  does to attachments is in `TokenReuse.OneTokenTwoAttachments`; the two theorems of `Enrollment.dfy` that
  count tokens are about runs in which it does not happen.
- An identity file reads back as the keypair it was written for exactly when neither key is empty.
- A registration that could not be saved keeps its ceremony, so that it can be finished by another call.
- A service that opens an empty store never does anything, because the first invite has to be minted by
  an authenticated session: it must come with the store (`AuthTrust.EmptyStoresStayEmpty`).
- The comment at `internal/auth/store.go:129` calls an invite single-use. `registerFinish` ignores the
  result of `ConsumeInvite`, so an invite is spent once for each session that carries it:
  `AuthInvites.OneInviteTwoRegistrations` is a run, and `AuthInvites.InvitesAreSpentOncePerCarrier` says exactly
  when an invite that was spent can be spent again.
- The comment at `internal/auth/server.go:196` presents TOTP as a step-up after a login. `totpVerify` asks for
  a session with a name and a code, and not for a finished login (`AuthTotp.CodeWithoutLogin`). Whether
  there was one since the last begin can be read off the session's ceremony
  (`AuthTotp.CeremonyTellsOfTheLogin`).

## Model

| member | source | states |
|---|---|---|
| Multiplexing.Projects | internal/agent/agent.go:75-154 | In any step of the network each session makes one move of its own machine or none, although all sessions of a connection share two channels, a receive loop and a table. |
| Multiplexing.KeepsOwned | internal/broker/broker.go:123-212 | Every step keeps: each message, table entry and program counter on a connection that names a session names one that was opened on that connection. |
| Multiplexing.Reachable | internal/broker/broker.go:95-222 | In every reachable state every session satisfies the whole invariant of its machine. |
| LaneControl.KeepsControl | internal/agent/agent.go:106-164 | Every move of a session keeps its control invariant: one `open`, at most one `close` each way, one holder of the shell, and a broker entry that is there exactly as long as no `close` has been served. |
| LaneStreams.KeepsStreams | internal/agent/agent.go:117-143 | Every move keeps the byte accounting: bytes delivered, in a thread's hands and on the channel together are the bytes sent. |
| Sessions.TablesAgree | internal/broker/broker.go:186-222 | For a serving agent on a live connection the broker's sessions minus the agent's shells are exactly those with an `open` or `close` under way, and the shells minus the sessions exactly those whose handler has dropped them while its `close` is under way. |
| Sessions.SettledTables | internal/agent/agent.go:106-154 | With empty channels and blocked threads the two tables hold the same sessions. |
| Sessions.StreamsAreFaithful | internal/agent/agent.go:117-143 | In every run a shell was fed a prefix of what its browser sent, and a browser was shown a prefix of what its shell produced. |
| Sessions.NothingIsLost | internal/broker/broker.go:198-209 | When nothing of a listed session is in flight and neither loop of its connection is working for it, whatever the other sessions of the connection do, and no write to it failed, every keystroke read has reached the shell and every byte read from the shell has reached the browser. |
| Sessions.ClosesDoNotEcho | internal/agent/agent.go:145-154 | Over a whole run a session carries at most one `close` in each direction. |
| Sessions.ShellsHaveOneOwner | internal/agent/agent.go:145-164 | A started shell is entering `a.shells`, in it, in the hands of `closeAll`, claimed by exactly one thread, or closed exactly once; after `Run` and its goroutine ended it was closed exactly once. |
| Sessions.SessionsKeepToTheirConnection | internal/broker/broker.go:187-206 | Whatever on a connection names a session, that session was opened on this connection. |
| Sessions.OnlyTheOwnerWrites | internal/broker/broker.go:146-153 | A step that writes to a browser is one of the handler of the connection that owns its session. |
| Sessions.OwnersAreForEver | internal/broker/broker.go:186-190 | A session belongs to the same connection for the rest of the run. |
| Hangups.FinishedHandlersCloseTheirBrowser | internal/broker/broker.go:192-221 | In every run, an accepted browser whose handler has ended, however it ended (also if `open` or a keystroke was refused), is closed, or the loop of its connection is about to close it. |
| Hangups.UnlistedBrowsersAreClosed | internal/broker/broker.go:214-222 | In every run, a browser whose handler is at work and whose session is not in `b.sessions` is closed, or about to be. |
| Hangups.OnlyUnlistedBrowsersAreHungUp | internal/broker/broker.go:214-222 | In every run, a step that closes a browser is its own leaving, or comes after its session was taken out of `b.sessions`. |
| Hangups.HandlersSayGoodbye | internal/broker/broker.go:206-211 | In every run, a handler that opened a session and left it had a step in which it wrote `close` to the agent, and the agent was told exactly if that write did not fail. |
| Hangups.OnLiveConnectionsTheyAreHeard | internal/broker/broker.go:210 | On a connection that is not lost it was told, once. |
| Causes.SessionsEndForACause | internal/agent/agent.go:117-133 | In every run, an opened session whose browser has not left, whose shell has neither exited nor failed to start, and whose connection is up goes on: it is listed, browser and shell are open, both loops run, and no `close` is under way. |
| Framing.FramesFitTheBuffer | internal/agent/agent.go:118-126 | In every run, each `out` frame on a channel carries between one byte and 4096. |
| Attachments.LastRegisteredIsAttached | internal/broker/broker.go:124-129 | `b.agents` holds the connection that registered last for a device, exactly until that connection's own removal; every other one for the device is closed or has left its loop. |
| Attachments.StaleHandlersDetachNothing | internal/broker/broker.go:159-163 | A handler's removal takes the device out of `b.agents` if its connection is the last registered, and changes nothing otherwise. |
| Attachments.CataloguedDevicesAreServed | internal/broker/broker.go:130-164 | A device in the registry has a handler between its `Add` and its `Remove`. |
| Attachments.GoneFromBothTables | internal/broker/broker.go:159-164 | Once all handlers of a device have ended, neither table has it. |
| Attachments.SameDevices | internal/broker/broker.go:123-133 | In runs where no device attaches while attached, `b.agents` and the registry have the same devices outside the registration and removal windows. |
| Reattachment.RemovalIsUnguarded | internal/broker/broker.go:164 | After a handler's `reg.Remove` the registry lacks the device, and `b.agents` has it exactly when a newer connection is attached. |
| Reattachment.RegistryFollowsLastStep | internal/broker/broker.go:130-164 | In every run the registry has a device exactly if the last of its handlers to touch the registry added it. |
| Reattachment.TablesAgreeWhenStepsDo | internal/broker/broker.go:123-164 | In every run the two tables agree on a device exactly if its last registry step was an addition just when the connection that registered last is still attached. |
| Reattachment.OverlappingAttachmentsDiffer | internal/broker/broker.go:159-164 | A run that ends with a device served and attached but not in the registry. |
| Reattachment.CanAttach | internal/broker/broker.go:107-134 | From any reachable state any device can register and be listed in both tables; the connection it displaces is closed and every other connection is as before. |
| Registrations.AttachedAsStarted | internal/broker/broker.go:107-130 | In every run, a handler that is past the token check works under the device and token with which its agent was started, and the device has a name. |
| Registrations.RegistrationsNameADevice | internal/broker/broker.go:107-116 | The first frame is taken for a registration exactly if it is one and names a device. |
| Registrations.RefusedAgentsAreTold | internal/broker/broker.go:117-121 | In every run, an agent whose token was refused finds exactly one frame on its channel, the refusal, and leaves; it is never placed. |
| Delivery.KeystrokesAndOutputArrive | internal/broker/broker.go:168-209 | For any registration, any frames and any output, of any length, there is a run in which a browser connects and sends the frames, exactly their bytes reach the shell, and all of the output reaches the browser, buffer by buffer. |
| Teardown.StepLowers | internal/agent/agent.go:90-91 | Every step that brings in no connection, browser, keystroke or output lowers a natural number. |
| Teardown.TeardownEnds | internal/broker/broker.go:154-155 | From any state at all, a run without such input makes at most that many steps. |
| Welcome.AlwaysWelcomed | internal/broker/broker.go:123-134 | An agent serves only if its connection has been placed in `b.agents`, and its handler has added the device to the registry and announced it. |
| Welcome.SilentUntilAsked | internal/broker/broker.go:123-134 | While the agent waits and the broker has not answered, the channel towards it is empty exactly if no session has sent its `open`. |
| Welcome.FirstFrameDecides | internal/agent/agent.go:60-73 | When the broker announces a connection it is decided what its waiting agent reads first, however the run goes on: `registered`, and it serves, exactly if no session of the connection had sent its `open`; otherwise it leaves. |
| Interleavings.OpenOvertakesRegistered | internal/agent/agent.go:71-72 | A run in which an `open` overtakes `registered`: the agent has left, the connection is up, attached and served. |
| Interleavings.EntriesOutliveConnections | internal/broker/broker.go:159-165 | A run in which a connection is lost, its agent and its handler have ended, no thread can move, and its session is still listed. |
| Quiescence.ComesToRest | internal/agent/agent.go:90-91 | From every reachable state the threads can go on to a state in which none can move. |
| Quiescence.QuietBrowser | internal/broker/broker.go:183-222 | When no thread can move, a session is listed exactly if its handler waits for its open browser, and the browser of every ended handler is closed. |
| Quiescence.LostConnectionsAreCleanedUp | internal/agent/agent.go:156-164 | When no thread can move, a lost connection has no agent, no handler and no shell left, and each of its shells was closed exactly once; its browser handlers ended with their browser closed, unless it is open and silent, and the entries left in `b.sessions` are exactly those of the silent ones. |
| Quiescence.LiveConnectionsAgree | internal/broker/broker.go:186-222 | When no thread can move, the broker and each agent serving on a live connection list the same sessions. |
| Enrollment.EveryAttachmentHadACheck | internal/broker/broker.go:226-242 | With an auth URL, in every run, whatever saves fail and whenever the service crashes, there is an injection from the connections placed in `b.agents` to the accepted checks, each of its own token. |
| Enrollment.ChecksDecide | internal/broker/broker.go:226-242 | A device is let in exactly if the service was reached, its answer came back, and the token was in the store before its expiry; the token is spent even if the answer is lost. |
| Enrollment.EveryAttachmentSpentAToken | internal/broker/broker.go:117-129 | With an auth URL, in every run in which the service forgets no deletion (whatever saves fail): connections placed in `b.agents` have pairwise different tokens, each minted, out of memory, and in the file only while its deletion waits for the next rename. |
| Enrollment.AttachmentsAreCounted | internal/auth/server.go:322-334 | In such runs attachments never outnumber minted tokens. |
| Enrollment.NothingIsForgotten | internal/auth/store.go:182-184 | The service forgets no deletion if no save fails, nor if it stays up with any saves failing. |
| Enrollment.SpentTokensAreGone | internal/auth/store.go:182-183 | If no save fails, the tokens of placed connections are gone from the file too. |
| TokenReuse.OneTokenTwoAttachments | internal/auth/store.go:182-184 | A run with a failed save and a restart of the service, in which one token, the only one ever minted, places two connections. |
| Registry.Registry.Add | internal/registry/registry.go:32-36 | The record of a device is set or replaced; other records stay. |
| Registry.Registry.Remove | internal/registry/registry.go:38-42 | The record of a device goes, whoever added it; other records stay. |
| Registry.Registry.Get | internal/registry/registry.go:44-49 | A record is returned exactly when the device is listed. |
| Broker.Broker.Attach | internal/broker/broker.go:124-129 | The device's entry becomes the new connection, the one it replaces is closed, and no other is. |
| Broker.Broker.Detach | internal/broker/broker.go:159-163 | The entry goes exactly if it is still this connection. |
| Broker.Broker.Lookup | internal/broker/broker.go:176-182 | The attached connection of a device, if it has one. |
| Broker.Broker.Insert | internal/broker/broker.go:188-190 | The session is listed with its browser and connection. |
| Broker.Broker.Output | internal/broker/broker.go:147-153 | One frame of output is appended to what the session's own browser was shown, or the write fails, and then so does every later one; the outcome is ignored. |
| Broker.Broker.CloseSession | internal/broker/broker.go:214-222 | The session is no longer listed, and its browser is closed if it was; that the handler and the loop come to this in every run is Hangups.FinishedHandlersCloseTheirBrowser. |
| Agent.Copy | internal/agent/agent.go:122-123 | A fresh array with the first `n` bytes of the buffer. |
| Agent.Round | internal/agent/agent.go:120-127 | One round adds one frame with the bytes read, or fails because the wire has no room; the frames of earlier rounds keep their bytes although the buffer is overwritten. |
| Agent.Pump | internal/agent/agent.go:117-131 | Although one buffer is reused, the frames added to the wire hold consecutive non-empty chunks of at most 4096 bytes that make up a prefix of the shell's output. The loop reports failure exactly if some output is missing, and then the wire had no room for another frame; with room for the output nothing is missing. |
| Agent.Agent.Insert | internal/agent/agent.go:112-114 | The shell is listed under its session. |
| Agent.Agent.Input | internal/agent/agent.go:136-143 | The bytes go to the session's shell and to no other. |
| Agent.Agent.CloseShell | internal/agent/agent.go:145-154 | Whoever finds the shell in the table takes it out, closes it once and sends one `close`; otherwise nothing happens. |
| Agent.Agent.CloseAll | internal/agent/agent.go:156-164 | The table is emptied and every shell that was in it is closed once. |
| Fifo.PipesAreFifo | internal/transport/transport.go:29-63 | Over any run of writes, reads and closes, messages read followed by those buffered are the messages accepted, and at most sixteen are buffered. |
| Transport.NewPipe | internal/transport/transport.go:31-38 | Two ends, each reading what the other writes, empty, with one shared closed state. |
| Transport.PipeConn.WriteMsg | internal/transport/transport.go:40-49 | A fresh copy is appended, or the pipe is closed and nothing changes; a write waits exactly when the open pipe is full. |
| Transport.PipeConn.ReadMsg | internal/transport/transport.go:51-58 | The oldest message is taken, or the pipe is closed and nothing changes; a read waits exactly when the open pipe is empty. |
| Transport.PipeConn.Close | internal/transport/transport.go:60-63 | Both ends are closed, however often it is called. |
| Transport.SendThenOverwrite | internal/transport/transport.go:41-42 | Overwriting the caller's array after the write does not change what is read. |
| Handshakes.Authorized | internal/secure/secure.go:275-285 | True exactly when the allow-list is empty or contains the peer's key. |
| Handshakes.HandshakeOutcome | internal/secure/secure.go:181-252 | When neither party can go on, both have a session exactly when the pin is the responder's key and the allow-list admits the initiator's; then the initiator sends under the first key of the split and the responder under the second, each send key is the other's receive key, and each peer key is right. Otherwise neither has one: an initiator that is not allowed is cut off, one that pinned another key waits, one without a pin does not begin. |
| Handshakes.OnlyMatchingParties | internal/secure/secure.go:218-239 | At every instant, a responder with a session matches the initiator, and an initiator never has a session alone. |
| Handshakes.HandshakesEnd | internal/secure/secure.go:197-239 | A handshake takes at most six steps. |
| Impostors.FirstMessageProves | internal/secure/secure.go:218-226 | Whoever sent it: the responder accepts a first message as that of a key exactly if its payload is sealed under the secret of that key and the responder's, mixed with the one of the ephemeral key, for this transcript. |
| Impostors.FirstMessageNamesAKey | internal/secure/secure.go:226-231 | Every accepted first message proves the key that the allow-list is then asked about. |
| Impostors.SecondMessageProves | internal/secure/secure.go:210-216 | Whoever sent it: the initiator accepts a second message exactly if it is sealed under a key that needs the pinned static key, the initiator's static and ephemeral keys, and the sender's ephemeral one. |
| Impostors.NobodyPassesForAnInitiator | internal/secure/secure.go:199-231 | From any private keys but the claimed and the responder's, and anything handshakes put on the wire, no first message can be made that is accepted as the claimed key's, unless its payload is one that was on the wire. |
| Impostors.NobodyPassesForAResponder | internal/secure/secure.go:199-216 | The same of the second message, for who has neither the pinned key nor the initiator's ephemeral one. |
| Impostors.RepeatersGetNoKeys | internal/secure/secure.go:232-238 | Who repeats a first message, without the claimed private key and the responder's ephemeral one, cannot make either key of the session that the responder begins. |
| Impostors.OwnersPass | internal/secure/secure.go:199-226 | With the claimed private key the message can be made. |
| SecureChannel.Session.Write | internal/secure/secure.go:255-261 | The message is sealed under the current nonce, which is spent even if the connection refuses the message. |
| SecureChannel.Session.Read | internal/secure/secure.go:264-270 | The oldest message is taken and opened under the current nonce, which advances only if it opens; nothing changes if the connection gives no message. |
| SecureChannel.NoncesStayInStep | internal/broker/broker.go:42-50 | For any number of writers on an open pipe, the sender's nonce is the reader's plus the messages in flight, and the next message opens to the plaintext sealed next. |
| SecureChannel.AcceptedInOrder | internal/agent/agent.go:96-104 | Over a whole run ciphertexts enter the wire in nonce order, closed pipe or not, and each is what was sealed under its nonce. |
| SecureChannel.ReadsArePrefix | internal/secure/secure.go:255-270 | Plaintexts returned are a prefix of plaintexts given to Encrypt, also when a closed pipe takes some messages and refuses others. |
| SecureChannel.SessionsAreFifo | internal/secure/secure.go:254-270 | On an open pipe, plaintexts read, then those in the pipe, then the one about to be sent, are the plaintexts sealed. |
| SecureChannel.AnyDeliveryIsAPrefix | internal/secure/secure.go:264-270 | Even if messages are lost, repeated, reordered or sealed under other keys, the reader returns the next plaintexts in order. |
| SecureChannel.OrderMatters | internal/broker/broker.go:47-49 | A series of messages opens completely exactly when its nonces are consecutive from the reader's, which is why the lock covers both Encrypt and WriteMsg. |
| Base64.RoundTrip | internal/secure/secure.go:68-72 | Decoding undoes encoding for all byte strings. |
| Base64.DecodesExactly | internal/secure/secure.go:71-72 | A string decodes exactly if, line breaks aside, it is whole quanta of the alphabet with at most two characters of padding at the end. |
| Base64.LineBreaksAreSkipped | internal/secure/secure.go:71-72 | A line break anywhere in a string does not change what it decodes to. |
| Base64.SymbolsAreTheAlphabet | internal/secure/secure.go:68-69 | The symbols are those of table 1 of RFC 4648. |
| Base64.TestVectors | internal/secure/secure.go:68-69 | The encodings of section 10 of RFC 4648. |
| Identity.IdentityRoundTrip | internal/secure/secure.go:80-104 | The identity file written for a keypair reads back as that keypair exactly when neither key is empty, and as malformed otherwise. |
| Identity.LoadOrCreateIdentity | internal/secure/secure.go:78-109 | An existing file is read and left alone, a missing one is written for the new keypair, and an unreadable one is an error. |
| Identity.LoadTwice | internal/secure/secure.go:74-77 | The second load returns the first identity and leaves the file as it was. |
| Identity.LoadAuthorizedKeys | internal/secure/secure.go:125-146 | The loop returns the keys of the lines, or the error of opening the file, of the first line that does not decode, or of the scanner. |
| Identity.BrokenLinesStopTheScan | internal/secure/secure.go:139-142 | The lines are an error exactly if one of them, wherever it stands, is neither blank nor a comment and has a first word that does not decode. |
| Identity.StrangeKeysAreBroken | internal/secure/secure.go:139-142 | A key with a character that base64 does not have is such a line. |
| Identity.KeysAreRead | internal/secure/secure.go:121-146 | Whatever comments, blank lines, indents and labels an operator writes, exactly the keys are read, in order. |
| Store.RandomToken | internal/auth/store.go:195-204 | The loop returns the hexadecimal form of the random bytes. |
| Store.HexIsInjective | internal/auth/store.go:195-204 | Different random bytes give different tokens. |
| Store.HexReadsBack | internal/auth/store.go:195-204 | A token has two digits for each byte, in order, the higher one first, and they read back as the byte. |
| Store.FileSystem.WriteTmp | internal/auth/store.go:91-93 | Only the temporary file changes, at every instant of the write. |
| Store.Store.constructor | internal/auth/store.go:56-76 | The store opens with the data that the file recovers to, or empty if it has no path. |
| Store.OpenStore | internal/auth/store.go:56-76 | Opening fails exactly if there is a file that cannot be read or is broken; otherwise the store has the data of the file, or none. |
| Store.Store.Save | internal/auth/store.go:79-95 | At every instant the store file is the old one or holds the data in memory; the save succeeds exactly if no system call fails. |
| Store.Store.CreateUser | internal/auth/store.go:109-118 | A user is made and saved exactly if the name is free, with an error if the save fails. |
| Store.Store.PutUser | internal/auth/store.go:122-127 | The record replaces the one of its name, in memory even if the save fails. |
| Store.Store.CreateInvite | internal/auth/store.go:130-136 | The invite is in memory with its user and expiry, and saved. |
| Store.Store.PeekInvite | internal/auth/store.go:140-148 | The user of an invite that is there and not past its expiry; nothing changes. |
| Store.Store.ConsumeInvite | internal/auth/store.go:151-162 | The invite goes, valid or not; its user is returned exactly if it was valid. |
| Store.Store.CreateAgentToken | internal/auth/store.go:165-171 | The token is in memory with its expiry, and saved. |
| Store.Store.CheckAgentToken | internal/auth/store.go:175-185 | True exactly if the token was there and its expiry is still to come; it is gone afterwards, whatever the save did. |
| StoreRuns.RecoversLastRename | internal/auth/store.go:79-95 | After any run with crashes anywhere, OpenStore recovers exactly the data in memory at the last completed rename. |
| StoreRuns.CrashIsBeforeOrAfter | internal/auth/store.go:56-95 | In terms of the run: as long as no edit in place and no failed save has changed memory since the last rename or reopening, every crash at every point of every method recovers the state before it or after it; the first step that does makes some crash recover neither. |
| StoreRuns.CrashBeforeTheRename | internal/auth/store.go:88-94 | In any run, a crash after the rename recovers the state after the method; one before it recovers the state before or after exactly if the file had all that memory had, or already had what the method would have left. |
| StoreRuns.EveryCrashIsBeforeOrAfter | internal/auth/store.go:56-95 | In any run, every crash at every point of every method recovers the state before it or after it exactly if memory has nothing that the file lacks. |
| StoreRuns.SmoothRunsAreCrashSafe | internal/auth/store.go:79-95 | If no save returned an error and no record was edited in place, every crash recovers the state before the interrupted method or after it. |
| StoreRuns.EditsInPlaceAreLost | internal/auth/store.go:98-106 | A record edited in place and not yet saved is lost by a crash in PutUser, which recovers neither the state before nor the state after. |
| StoreRuns.SingleUse | internal/auth/store.go:165-185 | Over any run of mints, checks, failing saves, crashes and reopenings in which no process ends before the deletion of a token it accepted has reached the file, each token is accepted at most once; the file still has it exactly if the running process accepted it, the file had it then, and no rename was completed since. |
| StoreRuns.PendingMeans | internal/auth/store.go:182-184 | What "still waiting for its deletion" says of the events of a run. |
| StoreRuns.ForgetsMeans | internal/auth/store.go:182-184 | What "a process ended before" says of the events of a run. |
| StoreRuns.MineAreOutOfMemory | internal/auth/store.go:175-185 | In any run at all, a token accepted by the running process is out of memory, and in the file exactly if it was there at that time and no rename was completed since. |
| StoreRuns.FaultlessForgetsNothing | internal/auth/store.go:79-95 | If no save fails, no such token ever waits. |
| StoreRuns.AcceptedBeforeExpiry | internal/auth/store.go:184 | In any run, whatever saves failed, a token is accepted only strictly before the expiry it was minted with. |
| StoreRuns.ReuseNeedsALostSave | internal/auth/store.go:182-183 | In any run, when the process that accepted a token ends, the next one accepts it again before its expiry exactly if its deletion had not reached the file by then. |
| StoreRuns.ForgottenTokensComeBack | internal/auth/store.go:182-184 | The run behind it: after any run that leaves such a token, a stop, a reopening and a check accept it twice. |
| StoreRuns.OneProcessSpendsOnce | internal/auth/store.go:175-185 | After any run, a running process accepts no token twice, even if saves fail. |
| AuthServer.Sessions.Get | internal/auth/session.go:34-46 | The shared record of the cookie, exactly if it is in the table and not past its expiry. |
| AuthServer.Sessions.GetOrCreate | internal/auth/session.go:48-62 | That record, or a fresh one under the new identifier with twelve hours to live; no two identifiers share a record. |
| AuthServer.Sessions.Destroy | internal/auth/session.go:64-71 | The cookie's session goes and no other. |
| AuthServer.CountSignature | internal/auth/server.go:187-193 | The first credential with the identifier gets the new counter; every other credential stays. |
| AuthServer.Server.RequireAuth | internal/auth/server.go:338-350 | The record and the stored user, exactly if the session is authenticated and its user is known. |
| AuthServer.Server.StartCeremony | internal/auth/server.go:109-113 | The session takes the name and a new ceremony and is no longer authenticated; other sessions stay. |
| AuthServer.Server.RegisterBegin | internal/auth/server.go:81-115 | Objects and reply change as the handler on values says, in all branches: bad invite, name taken, save failed, ceremony refused, done. |
| AuthServer.Server.RegisterFinish | internal/auth/server.go:117-143 | The same for finishing: the credential is appended and the invite consumed before the session is authenticated, and a failed save leaves the session as it was. |
| AuthServer.Server.LoginBegin | internal/auth/server.go:147-169 | The same for beginning a login. |
| AuthServer.Server.LoginFinish | internal/auth/server.go:171-203 | The same for finishing a login: the counter is stored, the ceremony used up, a user without TOTP is authenticated and one with TOTP is not yet. |
| AuthServer.Server.TotpVerify | internal/auth/server.go:207-226 | The session is authenticated exactly if its user has TOTP and the code is valid. |
| AuthServer.Server.TotpEnroll | internal/auth/server.go:228-240 | The new secret waits in the session. |
| AuthServer.Server.TotpConfirm | internal/auth/server.go:242-264 | A valid code moves the waiting secret into the stored user. |
| AuthServer.Server.CreateInvite | internal/auth/server.go:268-288 | Only an authenticated session mints an invite, and not for an empty name. |
| AuthServer.Server.CreateAgentToken | internal/auth/server.go:290-300 | Only an authenticated session mints a device token. |
| AuthServer.Server.SessionInfo | internal/auth/server.go:304-313 | Answers the user and whether there is a second factor, exactly to an authenticated session, and changes nothing. |
| AuthServer.Server.Logout | internal/auth/server.go:315-318 | The cookie's session goes, and the answer is always the same. |
| AuthServer.Server.AgentCheck | internal/auth/server.go:322-334 | The answer is `ok` exactly if the store accepts the token, which is gone afterwards. |
| AuthRuns.AuthenticatedMeansProved | internal/auth/server.go:81-226 | In every run an authenticated session names a stored user and, since its last begin, had a finished registration, or a finished login of a user then without TOTP, or an accepted code of a user with TOTP. |
| AuthRuns.OnlyProofsAuthenticate | internal/auth/server.go:109-142 | No other request makes a session authenticated, and a begin never does. |
| AuthRuns.CeremoniesAreAcceptedOnce | internal/auth/server.go:139 | Each ceremony set by a begin is accepted by at most one finish. |
| AuthRuns.UnsavedRegistrationKeepsItsCeremony | internal/auth/server.go:134-139 | A registration keeps its ceremony exactly if the user could not be saved. |
| AuthRuns.GoneForEver | internal/auth/session.go:34-71 | An identifier that has expired or was destroyed is never good again. |
| AuthLives.LoginsAuthenticate | internal/auth/server.go:147-203 | After any run, a begin and a good finish authenticate a stored user without TOTP, who is then let into every route; one with TOTP is told so and held back. |
| AuthLives.CodesRelease | internal/auth/server.go:207-226 | Who is held back is let in by an accepted code, and by a refused one not. |
| AuthLives.LoginsStoreTheCounter | internal/auth/server.go:187-194 | A finished login changes nothing in the store but the counter of the first credential with the identifier. |
| AuthLives.RegistrationsAddACredential | internal/auth/server.go:133-142 | A finished registration appends its credential to those of the user, spends the invite and authenticates the session; everything else in the store stays. |
| AuthLives.SecondFactorsAreStored | internal/auth/server.go:228-264 | An enrolled secret waits in the session; an accepted code moves it to the user, once, and a refused one changes nothing. |
| AuthLives.InvitesWorkUntilTheyExpire | internal/auth/server.go:81-115 | After any run: an invite minted by an authenticated session lets its name begin a registration up to its expiry, that instant included, whatever requests come in between that neither mint nor spend it; afterwards it is refused. |
| AuthLives.InviteStays | internal/auth/store.go:130-162 | Over any such requests the invite stays as it was minted. |
| AuthLives.SessionsLastTwelveHours | internal/auth/session.go:48-62 | A session made by a begin is good for twelve hours, the last instant included, and not authenticated. |
| AuthLives.LogoutEndsTheSession | internal/auth/server.go:315-318 | After a logout the session is refused at any time, and the others and the store are as before. |
| AuthLives.BeginsTakeTheSessionOver | internal/auth/server.go:89-113 | A begin works on the good session of the cookie or on a new one, gives it the name and a ceremony of its own and takes its authentication; the store gains the newcomer that an invite names, and nothing else. |
| AuthLives.BeginsSucceedExactly | internal/auth/server.go:89-167 | When a begin succeeds. |
| AuthLives.BeginsAreRefusedExactly | internal/auth/server.go:89-163 | With which status it is refused otherwise. |
| AuthLives.FinishesSucceedExactly | internal/auth/server.go:117-185 | A finish succeeds exactly on a good session of a stored user with a ceremony under way and a good answer, and for a registration if the user could be saved. |
| AuthLives.CodesSucceedExactly | internal/auth/server.go:207-226 | A code is accepted exactly if it is valid and the session names a stored user with TOTP. |
| AuthLives.SecondFactorsSucceedExactly | internal/auth/server.go:228-264 | When an enrollment and its confirmation succeed. |
| AuthLives.MintsSucceedExactly | internal/auth/server.go:268-300 | When an invite or a device token is handed out. |
| AuthLives.SessionInfoAnswers | internal/auth/server.go:304-313 | Whom the session is told to belong to, and when. |
| AuthLives.RejectedRequestsChangeNothing | internal/auth/server.go:81-350 | A request answered with 400, 401 or 403 changes neither sessions nor store. |
| AuthLives.FailedSavesKeepSessions | internal/auth/server.go:94-288 | One answered with 409 or 500 leaves the sessions as they were, but for the secret that a confirmation took; what could not be saved stays in memory. |
| AuthTrust.TokensComeFromProvedSessions | internal/auth/server.go:268-300 | Every invite and device token in the store was there when it was opened, or was minted at a request whose session had been proved since its last begin. |
| AuthTrust.UsersComeFromInvites | internal/auth/server.go:89-103 | Every user in the store was there when it was opened, or began a registration with an invite for that name which was good at that time. |
| AuthTrust.OthersAreUntouched | internal/auth/session.go:34-62 | A request changes no session but the one of its cookie or the one it creates. |
| AuthTrust.EmptyStoresStayEmpty | internal/auth/server.go:89-93 | From an empty store no run of requests changes anything. |
| AuthTrust.InvitedUsersRegister | internal/auth/server.go:81-143 | With a good invite for a new name there is a run after which the user is stored with the credential, the invite is gone and the session is authenticated. |
| AuthTrust.TokensWorkOnce | internal/auth/server.go:290-334 | A token minted by an authenticated session passes its first check before its expiry and fails every later one until it is minted again, whatever other requests come in between. |
| AuthTrust.TokenStays | internal/auth/server.go:290-334 | Over any requests, nothing but its own minting and checking touches a device token. |
| AuthInvites.InvitesAreSpentOncePerCarrier | internal/auth/server.go:117-143 | Once a finished registration has spent an invite, some continuation that does not mint it again spends it again exactly if, at that finish, another session that had not expired carried it. |
| AuthInvites.SecondSpendingHasARival | internal/auth/server.go:138-140 | Whoever spends an invite again carried it at the first finish, in another session. |
| AuthInvites.RivalFinishes | internal/auth/server.go:117-143 | Such a session of a known user, with a ceremony under way, spends it in the next request. |
| AuthInvites.OneInviteTwoRegistrations | internal/auth/server.go:81-143 | The run behind it: two begins and two finishes with one invite succeed, both sessions are authenticated, and the invite was gone before the last request. |
| AuthTotp.CeremonyTellsOfTheLogin | internal/auth/server.go:195-202 | In every run a session has no ceremony under way exactly if a login or registration on it has been finished since the last begin. |
| AuthTotp.CodeWithoutLogin | internal/auth/server.go:207-226 | A run in which a login is begun and not finished, and a TOTP code alone authenticates the session. |

## Left out

- HTTP routing, CORS, cookies on the wire, JSON, flags and logging: plumbing. A request with a malformed
  body is answered with 400 before anything happens and is not in the model.
- `checkUser` (`internal/broker/broker.go:247-266`): a browser that is refused never becomes a session.
- WebAuthn and TOTP checking, Curve25519, ChaCha20-Poly1305 and BLAKE2b: foreign libraries. A static
  keypair whose public key does not belong to its private key is not modelled.
- `internal/shell`: a shell is a source and a sink of bytes. The websocket transports: a control
  connection is a pair of queues that can be lost. Fairness of `select` and of the scheduler: safety and
  termination hold for every schedule, and no theorem needs fairness.
- Decryption errors inside `Network.dfy`: a lost connection may drop any message and fail any read, which
  covers them; that a live one has none is SecureChannel.NoncesStayInStep.
- The `resize` frame, which the code declares and never sends, `Registry.Graph`, `Registry.List`,
  `LoadKeypair`, `ResolveIdentity`: they would only add easy members.
- A crash while the identity file is written. The device name and system in `register` reach the registry
  record and nothing else.
- Restarts of the identity service within AuthRuns and AuthTrust: the session table is lost with the process, and
  StoreRuns covers what the store keeps.
- Users are values. That handlers share the record that `GetUser` returns is in StoreRuns, as edits in
  place.
- `web/` and `_legacy/`: the user interface and the superseded prototype.
- StoreRuns has a store with a path and starts without a file; a store without a path saves nothing and
  survives no crash. A file edited by hand is not modelled.
- Attachments.SameDevices: is about runs without overlapping attachments of a device; Reattachment.TablesAgreeWhenStepsDo has the exact condition for all runs.
