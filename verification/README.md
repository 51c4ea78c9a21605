# Verified model of the Silo node's stateful cores

This project models the parts of the node that keep state across calls and promise something about
whole runs, and proves those promises for every input and every interleaving.

- **Pairing and trust.** The transcript hash and key schedule (`Crypto.dfy`), the two-step responder
  (`Handshake.dfy`), the trust-on-first-use pin store (`PinStore.dfy`), a connection with its router
  and inference gate (`LanSession.dfy`), all of them interleaved over any number of connections,
  operator actions, failed saves and restarts (`PairingMachine.dfy`), where a session key comes from
  over the whole run (`PairingHistory.dfy`), which key each frame is sealed under (`SealingKeys.dfy`),
  that the interleaved steps are the router's methods (`Handlers.dfy`), runs event by event
  (`PairingRuns.dfy`), and the frames of a turn (`Turn.dfy`).
- **Key rotation and registration.** The key store and its backing array (`KeyStore.dfy`), the
  mint / publish / commit protocol against a control plane that may refuse, accept and lose the
  reply, answer 422, or take a request long after it was given up on (`Rotation.dfy`), the manager
  and its client (`Registration.dfy`), that the two agree (`Publishing.dfy`), and the loop with its
  one-slot wake-up channel (`Wakeup.dfy`).
- **Logs.** Ring buffer and lossy subscriptions (`Recorder.dfy`), the event framing and its
  incremental reader (`Sse.dfy`), the subscribe-then-backlog handoff (`LogStream.dfy`).
- **Signing-key cache.** Single-flight refresh with three critical sections (`Jwks.dfy`).
- **Memory.** Tables and transactions (`MemoryStore.dfy`), interleaved Remember, Forget and Recall
  (`MemoryMachine.dfy`), vector storage (`VectorCodec.dfy`), score fusion (`Fusion.dfy`), cosine
  similarity (`Cosine.dfy`), the match-expression printer (`FtsQuery.dfy`).
- **Line scanners** over chunked process output (`LineScanner.dfy`).

How it is built. Objects the program updates in place are classes whose methods are proved against
pure functions on the value of the object (`Observed`, `Greet`, `Stored`, `Written`, ...). A run is
any sequence of events (`Play`) of a state machine (`Step`) with one step per critical section,
statement or request; an event that cannot happen in a state leaves it as it is. Most machines step
by the functions the methods are proved against, and where a method spans several steps, a theorem
says that the steps run without interference are the method: `Handlers.UninterruptedConfirm`,
`Handlers.UninterruptedEnvelope` and `Handlers.UninterruptedVerify` for pairing,
`Jwks.UninterruptedKeys`, `Jwks.UninterruptedKid` and `Jwks.JoinedAnswer` for the key cache,
`Publishing.UninterruptedPublish` and `Wakeup.UninterruptedTurn` for registration, and, under any
interference, `TurnFrames.InterleavedTurnSendsAsAlone`. Outcomes of the outside world - a write that
fails, a reply that is lost, a fetch that errors - are parameters or part of the event. Random draws
are parameters too; the ids and secrets of minted API keys and the ids of memories must be fresh, the
keys and nonces of a handshake may be anything. Hashes, MACs and key derivation are symbolic and
injective, Diffie-Hellman is symbolic and commutative, sealed data opens only under what sealed it.

Where comments in the program promise more than the code does, the model follows the code, and a
lemma gives a run from the start: `Rotation.FallbackExample`, `LogStream.NoticeHidesNextRecord`,
`PairingRuns.ChangedKeyRun`, `PairingRuns.StalePendingRun`, `PairingRuns.FailedVerificationRun`,
`Wakeup.LostPushRun`, `Jwks.OverlappingCallersBreakTheLimit`,
`SealingKeys.EarlierTurnKeepsTheFileKey`, `Rotation.LateLandingExample`, `TurnFrames.MetadataLostExample`,
`LineScanner.LongMatchLost`. The pairing runs are for any two apps that can pair with the node;
`PairingRuns.DemoAppsPair` gives such a node and such apps.

## Model

| member | source | states |
|---|---|---|
| `Pins.PinKeyInjective` | internal/pairing/pinstore.go:68 | The joined map key determines account and app key, for app keys without NUL (base64 text has none) |
| `Pins.PinStore.Load` | internal/pairing/pinstore.go:45-66 | A store starts from exactly the pins in its file |
| `Pins.PinStore.SaveLocked` | internal/pairing/pinstore.go:157-167 | A save writes a list that loads back as the map, or changes nothing |
| `Pins.SaveLoadRoundTrip` | internal/pairing/pinstore.go:45-66 | Whatever order the map was walked in, the saved list loads as the same map |
| `Pins.PinStore.HasOtherVerified` | internal/pairing/pinstore.go:107-111 | Finds a verified pin of the same account with another key, if and only if there is one |
| `Pins.PinStore.EvictStale` | internal/pairing/pinstore.go:112-119 | Exactly the account's pins are taken out, every other account's stay |
| `Pins.PinStore.Observe` | internal/pairing/pinstore.go:95-129 | Status, new pins and file for every case: known, changed key, first contact, failed save |
| `Pins.PinStore.Verify` | internal/pairing/pinstore.go:135-147 | Marks exactly a known pin; memory changes even if the save fails |
| `Pins.PinStore.IsVerified` | internal/pairing/pinstore.go:150-155 | Reads whether this very key is trusted now |
| `Pins.ObservedKeeps` | internal/pairing/pinstore.go:95-129 | Observe keeps one pin an account, evicts or replaces no verified pin, trusts nothing new |
| `Pins.VerifiedKeeps` | internal/pairing/pinstore.go:135-147 | Verify keeps the same, and a key becomes trusted if and only if it was pinned |
| `Pins.OneTrustedKey` | internal/pairing/pinstore.go:95-155 | An account never has two trusted app keys |
| `Pins.TrustedKeyIsFinal` | internal/pairing/pinstore.go:88-111 | Once a key is trusted a different one is refused, not recorded, and cannot be verified |
| `Crypto.HashTranscript` | internal/pairing/crypto.go:77-90 | The incremental hash is the hash of the seven length-prefixed fields |
| `Crypto.SerializedInjective` | internal/pairing/crypto.go:77-90 | Length-prefixed serialisation is injective for fields under 2^32 bytes |
| `Crypto.TranscriptHashInjective` | internal/pairing/crypto.go:77-90 | Equal transcript hashes mean equal transcripts |
| `Crypto.SessionKeyFixesInputs` | internal/pairing/crypto.go:95-105 | Equal session keys mean equal shared secrets and equal transcript hash, and the converse |
| `Crypto.KeysAgreeIffSecretsAndTranscriptsDo` | internal/pairing/crypto.go:77-105 | Two sides hold one key if and only if both pairs of secrets and the whole transcripts agree |
| `Crypto.LabelsNeverCoincide` | internal/pairing/crypto.go:109-123 | App and node tags never coincide, for any keys and hashes |
| `Crypto.CodesAgreeIffKeysDo` | internal/pairing/crypto.go:128-139 | Two sides read one security code if and only if they hold one key |
| `Crypto.AppTagFixesInputs` | internal/pairing/crypto.go:109-119 | Two app tags are equal if and only if key and transcript are |
| `Handshake.Responder.Hello` | internal/pairing/handshake.go:104-195 | Every refusal in the order of the code, and the state and answer of an accepted Hello |
| `Handshake.Responder.Confirm` | internal/pairing/handshake.go:200-224 | Out-of-order, repeated, undecodable and wrong tags are refused without change; the right one finishes |
| `Handshake.HelloAcceptedIff` | internal/pairing/handshake.go:104-180 | A Hello is accepted if and only if it is the first, its keys are points, its nonce has 16 bytes, its assertion is verified for this very app key, and the node could draw what it needs |
| `Handshake.HelloRefusalsMean` | internal/pairing/handshake.go:104-180 | Every refusal of a Hello says what is wrong with it |
| `Handshake.ConfirmRefusalsMean` | internal/pairing/handshake.go:200-224 | A Confirm is refused before a Hello, after an accepted one, for an undecodable text and for a wrong tag, and for nothing else |
| `Handshake.AckCompletesHandshake` | internal/pairing/handshake.go:104-223 | From the acknowledgement alone the app finds the node's identity and a right node tag, derives the node's key, and its own tag is then accepted, with one key and one code on both sides, for the verified account |
| `Handshake.AcceptedTagFixesKeyAndTranscript` | internal/pairing/handshake.go:104-223 | A tag is accepted if and only if it was made with the node's key over the node's transcript |
| `Handshake.ConfirmAcceptsIffViewsAgree` | internal/pairing/handshake.go:104-223 | An app following the protocol is accepted if and only if all seven fields agree, and then both hold one key |
| `Handshake.ReflectedTagRejected` | internal/pairing/crypto.go:109-123 | The tag that a node sent in its acknowledgement never completes a handshake, on any responder |
| `Handshake.AcceptedHelloIsFinal` | internal/pairing/handshake.go:104-223 | After an accepted Hello no sequence of calls changes key, account or app key |
| `LanSession.Pairer.RecordPending` | internal/lanserve/pairing.go:58-63 | Adds or replaces the one entry of this account and key |
| `LanSession.Pairer.Verify` | internal/lanserve/pairing.go:88-100 | A verification clears its entry only if the pin was known and the save went through |
| `LanSession.Connection.CancelGeneration` | internal/lanserve/router.go:96-104 | Cancels the newest generation, once |
| `LanSession.Router.HandleHello` | internal/lanserve/pairing.go:107-133 | Latches before the responder runs, also for a refused Hello, but not for a malformed frame |
| `LanSession.Router.HandleConfirm` | internal/lanserve/pairing.go:139-196 | Session, pins, pending entries and reply for every outcome of tag and pin |
| `LanSession.Router.PinAndActivate` | internal/lanserve/pairing.go:165-196 | A session gets its key only after its pin was accepted and saved |
| `LanSession.ReplyTellsTheState` | internal/lanserve/pairing.go:165-196 | The reply to a right tag says how things stand: refused, verified exactly if inference is open, or held with the code that the operator gets to compare |
| `LanSession.Router.SessionInferenceAllowed` | internal/lanserve/pairing.go:203-222 | The gate re-reads the pins and remembers a success |
| `LanSession.GateIs` | internal/lanserve/pairing.go:203-222 | Inference is open before any handshake, once found verified, or with a key trusted now; without a registry no key is |
| `LanSession.Router.HandleEnvelope` | internal/lanserve/router.go:137-189 | Opens with the session key, else nothing once latched, else the file key; every refusal and effect |
| `LanSession.Router.RouteInner` | internal/lanserve/router.go:213-270 | What each inner message does; inference only past the gate, with the key the envelope was opened with |
| `LanSession.EnvelopeIsAnswered` | internal/lanserve/router.go:137-270 | Every envelope gets one answer unless it stops or starts a generation: a plain error, or a frame under its own key |
| `LanSession.RefusalCodeMeans` | internal/lanserve/router.go:155-186 | Why an envelope was not opened: nothing to open it with, not base64, or sealed under another key |
| `PairingMachine.PlayKeeps` | internal/lanserve/pairing.go:107-222 | The invariant holds in every reachable state of every interleaving |
| `PairingMachine.InferenceUnderOneKey` | internal/lanserve/pairing.go:139-222 | With verification required, all handshake inference of one account runs under one app key |
| `PairingMachine.InferenceUnderOneKeyAcrossRestarts` | internal/pairing/pinstore.go:95-155 | The same across restarts as long as none of them loses a trusted key, whichever saves fail |
| `PairingMachine.ForgotIffARestartForgets` | internal/pairing/pinstore.go:45-66 | What that condition says of the run: no restart finds the file without a key that was trusted |
| `PairingRuns.LosingATrustedKeyLetsTwoRun` | internal/pairing/pinstore.go:135-147 | The converse: when a restart would lose a trusted key a session can present, the run can go on so that two keys infer |
| `PairingMachine.SessionsThatMayInferAgree` | internal/lanserve/pairing.go:203-222 | Any two sessions of an account that may infer now carry one app key |
| `PairingMachine.NoDowngradeAndKeyConstancy` | internal/lanserve/router.go:137-188 | Once latched nothing is opened with the file key; a session key once set never changes |
| `PairingMachine.StopCancelsTheNewest` | internal/lanserve/router.go:83-104 | Over every run a stop cancels the newest turn of its connection and no other |
| `PairingHistory.SessionKeyWasConfirmed` | internal/lanserve/pairing.go:139-196 | Over every run a session key, account and app key come from the only Hello the connection accepted, by a later Confirm with the right tag whose pin was not refused and, on first contact, written |
| `SealingKeys.FileKeyIffReceivedBeforeLatch` | internal/lanserve/router.go:137-259 | Over every run, every frame ever sealed answers a message; it is under the file key if and only if that message was received before the Hello that latched the connection, and otherwise under the session key the connection still has |
| `SealingKeys.FileKeyTurnsAreTheFirst` | internal/lanserve/router.go:252-259 | However the run goes on, the turns of a latched connection under the file key are exactly those it had been asked for when it latched; every later one is under its session key |
| `SealingKeys.OneMessageOneLatch` | internal/lanserve/pairing.go:107-133 | Over every run a turn has one message and a connection latches at most once |
| `SealingKeys.EarlierTurnKeepsTheFileKey` | internal/lanserve/router.go:252-259 | The run in which a latched connection sends a frame under the file key |
| `Handlers.UninterruptedConfirm` | internal/lanserve/pairing.go:139-196 | The machine's three steps of a pair_confirm leave session, pins, file and pending entries as `HandleConfirm` does, for every tag and pin |
| `Handlers.UninterruptedEnvelope` | internal/lanserve/router.go:137-270 | Its two steps of an envelope leave the session, and send the sealed replies, of `HandleEnvelope` |
| `Handlers.UninterruptedVerify` | internal/lanserve/pairing.go:88-100 | Its two steps of a verification are `Pairer.Verify` |
| `PairingMachine.PendingVerifiableIff` | internal/lanserve/pairing.go:58-100 | A pending entry can be verified if and only if no other key of its account is pinned |
| `PairingMachine.EvictionLeavesPendingEntry` | internal/pairing/pinstore.go:115-119 | Evicting a pin leaves its entry, which can then be neither verified nor cleared |
| `PairingRuns.StalePendingRun` | internal/lanserve/pairing.go:58-69 | The run from an empty store that ends there |
| `PairingMachine.FailedSaveIsTrustedUntilRestart` | internal/pairing/pinstore.go:135-147 | A failed verification save still trusts the key, until a restart forgets it |
| `PairingRuns.FailedVerificationRun` | internal/pairing/pinstore.go:143-146 | The run from an empty store in which two app keys of an account infer, one before and one after the restart |
| `PairingRuns.ChangedKeyRun` | internal/pairing/pinstore.go:88-111 | The run in which a verified account's new key pairs, is refused, and cannot be verified |
| `PairingRuns.DemoAppsPair` | internal/pairing/handshake.go:104-223 | A node and two apps for which these runs exist |
| `TurnFrames.Generate` | internal/lanserve/router.go:274-348 | The frames sent are the script of the turn cut at the first checked failure |
| `TurnFrames.Stream` | internal/lanserve/router.go:298-348 | Deltas, metadata and completion from the token loop, for any tokens and failures |
| `TurnFrames.TurnKeepsGrammarIff` | internal/lanserve/router.go:274-348 | A turn's frames keep the grammar if and only if not exactly the unchecked metadata write is lost |
| `TurnFrames.MetadataLostExample` | internal/lanserve/router.go:340-347 | One failed write and a turn is completed without metadata |
| `TurnFrames.StreamedSpeaks` | internal/lanserve/router.go:304-327 | The deltas are the non-empty texts of the stream, in order |
| `TurnFrames.TurnEnds` | internal/lanserve/router.go:274-348 | How every turn ends: refused, failed exactly if the stream does not open or breaks, else described by its number of deltas and the last prompt count, and completed |
| `TurnFrames.LogSplitsByTurn` | internal/lanserve/router.go:71-84 | In any interleaving a connection's frames of one turn are what that turn sent |
| `TurnFrames.EachTurnKeepsGrammar` | internal/lanserve/router.go:252-348 | Concurrent turns each keep the grammar, but for lost metadata |
| `TurnFrames.InterleavedTurnSendsAsAlone` | internal/lanserve/router.go:252-348 | In any interleaving a finished turn has sent exactly what it sends alone, for its own write outcomes |
| `Keys.KeyStore.Load` | internal/openaiapi/keys.go:73-86 | A store starts from exactly the keys in its file |
| `Keys.KeyStore.Persist` | internal/openaiapi/keys.go:192-201 | The file becomes the list or stays |
| `Keys.KeyStore.Append` | internal/openaiapi/keys.go:119-125 | Appending, in place or to a grown array, adds one key and disturbs none |
| `Keys.KeyStore.Mint` | internal/openaiapi/keys.go:97-127 | Memory equals disk afterwards; a failed persist truncates back to the old list |
| `Keys.KeyStore.Revoke` | internal/openaiapi/keys.go:130-150 | Removes exactly that key from memory and disk, or changes neither |
| `Keys.KeyStore.Verify` | internal/openaiapi/keys.go:173-190 | True if and only if some stored hash is the presented key's and the prefix is right |
| `Keys.KeyStore.SupersededIds` | internal/openaiapi/keys.go:234-249 | Exactly the ids of the control plane's keys, in order |
| `Keys.KeyStore.RevokeAll` | internal/openaiapi/keys.go:252-260 | Every id is tried, missing ones are no failure, later ones are tried after a failure |
| `Keys.WithoutMembers` | internal/openaiapi/keys.go:130-150 | Removing an id removes that key and no other |
| `Keys.WithoutScopedKeepsUnscoped` | internal/openaiapi/keys.go:252-260 | Removing a control-plane key leaves the list of people's keys as it was |
| `Keys.InferenceKeyProvider.Mint` | internal/node/inference_key.go:39-63 | A key to publish and the ids to retire, or no change |
| `Keys.InferenceKeyProvider.Commit` | internal/node/inference_key.go:50-61 | Retires the captured ids |
| `Rotation.AcceptedKeyStillWorks` | internal/controlplane/heartbeat.go:236-292 | Over every run the key the control plane last accepted still authenticates, but for an operator's revoke of it, a stripped success, or a request that was given up on and landed after a later registration |
| `Rotation.AcceptedKeyWorksIff` | internal/controlplane/heartbeat.go:236-292 | It authenticates if and only if neither the operator nor a commit has taken its key away, and a commit takes it only in those cases |
| `Rotation.LateLandingBreaksKey` | internal/controlplane/client.go:56 | After a commit without a failed write, an earlier request that still lands leaves the control plane with a key that is gone |
| `Rotation.NothingElseLands` | internal/controlplane/client.go:56 | A refused request never lands, and one that lands does so once |
| `Rotation.LateLandingExample` | internal/controlplane/client.go:56 | The run from the start that ends there |
| `Rotation.CleanCommitLeavesOneScopedKey` | internal/node/inference_key.go:39-63 | A commit without a failed write leaves one control-plane key |
| `Rotation.UnscopedKeysUntouched` | internal/openaiapi/keys.go:234-260 | Rotation never touches a person's key |
| `Rotation.PersonsKeyWorks` | internal/openaiapi/keys.go:97-150 | A key minted for a person authenticates until the operator revokes it, whatever rotates meanwhile |
| `Rotation.OperatorRevokeIsFinal` | internal/openaiapi/keys.go:130-150 | A key that the operator revokes, anyone's, never authenticates again |
| `Rotation.IdsStayDistinct` | internal/openaiapi/keys.go:97-150 | Ids stay distinct over every run of mints and revocations |
| `Rotation.RevokedAllMember` | internal/openaiapi/keys.go:252-260 | A key survives a batch of revocations if and only if no successful one names it |
| `Rotation.BatchFailsIff` | internal/openaiapi/keys.go:252-260 | A batch reports a failure if and only if a write failed that was to remove a key still there |
| `Rotation.FallbackBreaksKeyIff` | internal/controlplane/heartbeat.go:267-268 | After a stripped success the control plane's key goes on working if and only if no retiring write of it succeeds |
| `Rotation.FallbackExample` | internal/controlplane/client.go:103-112 | A run in which the key the control plane holds is revoked |
| `Registration.ClientRegister` | internal/controlplane/client.go:100-118 | Requests sent and answer returned, with the one 422 retry without status and key |
| `Registration.RegistrationGoesOut` | internal/controlplane/client.go:100-118 | What goes out, field by field: the request, and after a 422 the same for URL and device without the two newer fields |
| `Registration.HeartbeatLandsOnce` | internal/controlplane/client.go:128-137 | A heartbeat that succeeds landed exactly once, one that fails at most once and only for a lost reply; it is repeated, bare, exactly after a 422 |
| `Registration.Manager.SetTunnelUrl` | internal/controlplane/heartbeat.go:123-132 | Stores the URL and kicks only on a change |
| `Registration.Manager.Kick` | internal/controlplane/heartbeat.go:143-148 | Fills the slot, dropping a second kick |
| `Registration.Manager.NotifyTokenUpdated` | internal/controlplane/heartbeat.go:135-140 | Unblocks and kicks |
| `Registration.Manager.Deregister` | internal/controlplane/heartbeat.go:365-384 | Deletes the registration there was, and forgets it |
| `Registration.Manager.Publish` | internal/controlplane/heartbeat.go:236-268 | Requests, answer and the key store after minting and committing |
| `Registration.Manager.Settle` | internal/controlplane/heartbeat.go:266-319 | Fields and waiting time for every answer |
| `Registration.Manager.RegisterOnce` | internal/controlplane/heartbeat.go:224-320 | A whole attempt as one function of the old fields and keys |
| `Registration.AttemptIs` | internal/controlplane/heartbeat.go:224-320 | A whole attempt case by case: what is sent, what each answer makes of the fields, and how many seconds the loop waits |
| `Registration.Manager.Heartbeat` | internal/controlplane/heartbeat.go:322-360 | Fields and waiting time for every answer |
| `Registration.BeatIs` | internal/controlplane/heartbeat.go:322-360 | A heartbeat case by case: what each answer makes of the fields, and how many seconds the loop waits |
| `Registration.Manager.Step` | internal/controlplane/heartbeat.go:194-222 | Idle, withdraw, beat or register; keeps the agreement of the fields |
| `Publishing.UninterruptedPublish` | internal/controlplane/heartbeat.go:236-268 | The steps of the rotation protocol, run without interference, leave the node's keys and the control plane's key as the method and its client do, lost replies included |
| `Wakeup.NoLostWakeup` | internal/controlplane/heartbeat.go:123-191 | A loop parked on an old URL has a kick pending or on its way |
| `Wakeup.OldUrlIsReread` | internal/controlplane/heartbeat.go:179-191 | And that wake-up makes the loop read the new URL, without its timer |
| `Wakeup.QuietMeansCurrent` | internal/controlplane/heartbeat.go:179-222 | Quiet after a success means the current URL is registered |
| `Wakeup.ParkedOnSuccessIff` | internal/controlplane/heartbeat.go:264-360 | The loop parks on a success exactly after an answer that was one |
| `Wakeup.FieldsAgree` | internal/controlplane/heartbeat.go:224-397 | Registered if and only if a URL is recorded; blocked by subscription excludes registered |
| `Wakeup.UninterruptedTurn` | internal/controlplane/heartbeat.go:194-360 | Without interference the interleaved steps leave the fields the method leaves, the device id of a failed registration included |
| `Wakeup.AfterABeat` | internal/controlplane/heartbeat.go:322-360 | What a heartbeat's answer leads to at the next read, whatever comes between: 404 and 402 to a registration, 401 to nothing until a push and then a registration, success and other failures to another heartbeat while the URL stays |
| `Wakeup.AfterARegistration` | internal/controlplane/heartbeat.go:264-320 | What a registration's answer leads to: success to heartbeats under the id given, 401 to nothing until a push, other failures to another registration |
| `Wakeup.NoUrlWithdraws` | internal/controlplane/heartbeat.go:208-213 | A loop that finds no URL or nothing to offer while registered has withdrawn by its next read |
| `Wakeup.BlockComesIffRefused` | internal/controlplane/heartbeat.go:269-272 | Over any stretch without a push the loop comes to be blocked if and only if it was already, or some request is refused |
| `Wakeup.PushIsLostAtNextReadIff` | internal/controlplane/heartbeat.go:135-140 | A pushed token is lost at the next read if and only if the loop was at blocking already, or the attempt under way is refused |
| `Wakeup.BlockedSendsNothing` | internal/controlplane/heartbeat.go:194-222 | While blocked and not pushed nothing is sent, however often woken |
| `Wakeup.PushDuringFailingRequestIsLost` | internal/controlplane/heartbeat.go:269-272 | A push while a request fails with 401 is overwritten and its kick spent for nothing |
| `Wakeup.LostPushRun` | internal/controlplane/heartbeat.go:135-140 | The run from the start that ends there |
| `LogRecorder.Subscriber.Send` | internal/logging/recorder.go:99-123 | Notice first, then the record, else one more dropped; never blocks |
| `LogRecorder.Subscriber.Receive` | internal/logging/recorder.go:150-173 | Takes the oldest queued item |
| `LogRecorder.Recorder.Store` | internal/logging/recorder.go:82-90 | The ring holds the newest records, in place |
| `LogRecorder.Recorder.FanOut` | internal/logging/recorder.go:91-93 | Every live subscription is offered the record, once |
| `LogRecorder.Recorder.Write` | internal/logging/recorder.go:73-95 | Trims newlines, skips empty lines, numbers, stores and offers |
| `LogRecorder.TrimmedOfNewlines` | internal/logging/recorder.go:73-80 | What is recorded is the text less the newlines at its end, and nothing less |
| `LogRecorder.Recorder.Backlog` | internal/logging/recorder.go:126-142 | The retained tail of the log, oldest first |
| `LogRecorder.Recorder.Subscribe` | internal/logging/recorder.go:150-173 | A fresh empty queue, 256 long by default |
| `LogRecorder.Recorder.Cancel` | internal/logging/recorder.go:165-172 | Only that subscription ends |
| `LogRecorder.OfferOk` | internal/logging/recorder.go:99-123 | One offer keeps the accounting of drops |
| `LogRecorder.DropsConserved` | internal/logging/recorder.go:73-123 | Records enqueued plus announced plus still counted equals records written |
| `LogRecorder.RecordsKeepTheirPlaces` | internal/logging/recorder.go:99-123 | Enqueued records are a subsequence of the log in order, at the places the notices say |
| `Sse.WriteEvent` | internal/adminapi/logs.go:121-132 | The whole event, or a beginning of it if a write fails |
| `Sse.ReadStream` | internal/adminui/static/app.js:869-887 | The reader loop computes the value the lemmas are about |
| `Sse.ChunksDoNotMatter` | internal/adminui/static/app.js:871-887 | The reader ends the same however the text is cut |
| `Sse.StreamRoundTrip` | internal/adminapi/logs.go:104-132 | Any records and keepalives, cut anyhow, decode to each record as shown, in order, nothing left over |
| `Sse.ShownAsIsIff` | internal/adminui/static/app.js:879-884 | A record is shown unchanged if and only if none of its lines is indented |
| `Sse.RecordsArriveExactlyIff` | internal/adminapi/logs.go:121-132 | The records arrive exactly, in order, if and only if none is empty or has an indented line |
| `LogStream.Serve` | internal/adminapi/logs.go:71-109 | Everything the handler means to send, or a beginning of it |
| `LogStream.SendRecord` | internal/adminapi/logs.go:90-99 | One record goes out whole before what follows it |
| `LogStream.SendBacklog` | internal/adminapi/logs.go:71-77 | The backlog, and the last number in it |
| `LogStream.SendLive` | internal/adminapi/logs.go:80-109 | Newer records once each, older ones skipped, keepalives between |
| `LogStream.EmittedIncreases` | internal/adminapi/logs.go:86-93 | Whatever arrives, the numbers sent strictly increase |
| `LogStream.HandoffIsGapFree` | internal/adminapi/logs.go:51-100 | Retained tail, then every later record once, as long as the queue never filled |
| `LogStream.SentIdsIncrease` | internal/adminapi/logs.go:51-100 | Numbers sent strictly increase in every run, drops or not |
| `LogStream.SentUnlessBehindNotice` | internal/logging/recorder.go:101-111 | A received newer record is sent if and only if no notice came just before it |
| `LogStream.NoticeHidesNextRecord` | internal/adminapi/logs.go:90-93 | The run in which a received record is skipped because a notice took its number |
| `LogStream.NeverShown` | internal/logging/recorder.go:99-123 | Live records never shown are exactly those announced, and one more for each notice its own record followed |
| `LogStream.ConsoleShowsWhatWasEmittedIff` | internal/adminui/static/app.js:869-887 | Handler and reader together show backlog and emitted records line for line if and only if none is empty or indented |
| `Jwks.HttpKeySource.Enter` | internal/pairing/jwks.go:117-132 | Joins the call in flight or becomes the leader and stamps the attempt |
| `Jwks.HttpKeySource.Store` | internal/pairing/jwks.go:134-141 | Only a successful fetch replaces the cache; the call ends either way |
| `Jwks.HttpKeySource.Refresh` | internal/pairing/jwks.go:117-146 | Leader's own result, or the shared one, or the caller's cancellation |
| `Jwks.HttpKeySource.Keys` | internal/pairing/jwks.go:70-87 | Fresh cache, else refresh, else the stale cache; fails only without any |
| `Jwks.HttpKeySource.KeysForKid` | internal/pairing/jwks.go:92-111 | Known kid or rate limit answer from the cache, else refresh |
| `Jwks.UninterruptedKeys` | internal/pairing/jwks.go:70-146 | One caller's steps of Keys leave the answer and the cache of the method, from any state with no call under way or a fresh cache |
| `Jwks.UninterruptedKid` | internal/pairing/jwks.go:92-146 | The same for KeysForKid, the known kid and the rate limit included |
| `Jwks.JoinedAnswer` | internal/pairing/jwks.go:117-132 | A caller that joins gets the method's answer for the published result or its own cancellation, whatever the others do, and touches no cache |
| `Jwks.SingleFlight` | internal/pairing/jwks.go:117-146 | At most one fetch executes in any interleaving, and the cache is the last successful one |
| `Jwks.AnswersComeFromTheLeader` | internal/pairing/jwks.go:117-146 | Every answer after a refresh is the leader's result or follows from the caller's cancellation |
| `Jwks.AnswersAre` | internal/pairing/jwks.go:70-146 | What each answer is: the fetched keys, or after a failure the last success known when Keys was called, an error for a key id |
| `Jwks.CachedAnswerIsYoung` | internal/pairing/jwks.go:70-87 | In every reachable state Keys answers at once, with the last success, if and only if that was stored less than 600 s ago |
| `Jwks.KidAnswerIsKnownOrRateLimited` | internal/pairing/jwks.go:92-111 | A key id is answered at once if and only if the last success has it or the last attempt was less than 30 s ago |
| `Jwks.KeysNeverFailsAfterASuccess` | internal/pairing/jwks.go:70-87 | Keys fails only if no fetch had ever succeeded before the call |
| `Jwks.NoWaiterStranded` | internal/pairing/jwks.go:117-146 | A waiter's call is published or some caller is on its way to publish it |
| `Jwks.KidRefreshSpacedIffNotOvertaken` | internal/pairing/jwks.go:101-130 | An attempt started soon after its check keeps the 30 s distance if and only if no other was made in between |
| `Jwks.OverlappingCallersBreakTheLimit` | internal/pairing/jwks.go:101-130 | Two overlapping callers fetch twice in one second |
| `LineScanner.LineScanWriter.Write` | internal/tunnel/cloudflared.go:291-321 | One write, for any kept text: state, report and a buffer of at most 64 KiB; the loop ends |
| `LineScanner.Signals.Offer` | internal/tunnel/managed.go:331-334 | Sends if there is room, never blocks |
| `LineScanner.SplitDoesNotMatter` | internal/tunnel/cloudflared.go:291-321 | With no over-long line before it, the first complete matching line is reported, once, whatever the split |
| `LineScanner.FittingMatchReported` | internal/tunnel/cloudflared.go:291-321 | For a pattern that is searched for, a first matching line that fits the buffer is reported, once, under every split, whatever other lines measure; without a match nothing is |
| `LineScanner.FirstMatchReportedIffFits` | internal/tunnel/managed.go:314-344 | In any output, the first matching line is reported under every split if and only if it fits the buffer, unless later output would be reported as the same |
| `LineScanner.LongMatchLost` | internal/tunnel/cloudflared.go:316-319 | An over-long first match has a split after which the report is that of the output behind it |
| `LineScanner.MatchingLineReportedIffShort` | internal/tunnel/managed.go:314-344 | A line alone, however it is matched, is reported under every split if and only if it fits the buffer |
| `LineScanner.LongLineLost` | internal/tunnel/cloudflared.go:316-319 | A longer line that arrives before its newline does is dropped |
| `LineScanner.NoReportLost` | internal/tunnel/cloudflared.go:224-229 | Two writers on a channel of two never lose a report |
| `LineScanner.ReportsAreFirstMatches` | internal/tunnel/managed.go:253-255 | However both outputs interleave, what is received is the first matching line of one of them |
| `LineScanner.FittingReportsAreFirstMatches` | internal/tunnel/cloudflared.go:224-229 | The same for a pattern that is searched for, as long as the first matching line of each output fits, whatever other lines measure |
| `Fusion.FuseScores` | internal/memory/recall.go:113-147 | Every id with a score once, with its normalised sum, by falling score and rising id |
| `Fusion.TopScore` | internal/memory/recall.go:116-121 | The highest positive score, or zero |
| `Fusion.AddList` | internal/memory/recall.go:115-134 | One list adds exactly its normalised scores, uniform ones if none is positive |
| `Fusion.FusionUnique` | internal/memory/recall.go:135-146 | The result does not depend on the order of the map |
| `Fusion.ShareIsScoreOverBest` | internal/memory/recall.go:113-134 | In a list with a positive score each id's share is to one as its score is to the best, and nothing without a positive score |
| `Fusion.ShareIsUniform` | internal/memory/recall.go:122-129 | In a list without one all shares are equal and add up to one |
| `Fusion.OneListKeepsItsOrder` | internal/memory/recall.go:113-147 | A list fused alone keeps the order of its positive scores and loses none |
| `Fusion.SliceStableSorts` | internal/memory/recall.go:105-146 | The stable sort orders its input and permutes it |
| `Fusion.TruncationBound` | internal/memory/recall.go:113-147 | Cutting the lists lowers an id's fused score by at most the normalised cut-off scores of the lists that held it, and raises it only by what lists without a positive score give to what they keep |
| `Fusion.MissedIdIsWeak` | internal/memory/recall.go:36-55 | An id in no fetched list has at most that score |
| `Fusion.ClearLeadSurvives` | internal/memory/recall.go:36-55 | A lead larger than the other's cut-offs and its own raises is a lead in the full ranking |
| `Fusion.CutOnlyLowersIff` | internal/memory/recall.go:122-129 | Cutting a list only lowers, and by no more than the cut-off, if and only if it has a positive score, is not cut, or is cut wholly |
| `Fusion.UniformCut` | internal/memory/recall.go:122-129 | What cutting a list without a positive score gives to each id it keeps, exactly |
| `Fusion.RankForRecall` | internal/memory/recall.go:36-55 | Over-fetch, fuse and cut, with the default limit |
| `Fusion.RecallFetchesFourTimes` | internal/memory/recall.go:31-55 | Recall fuses four times what it shows from each search, and shows ten unless told otherwise |
| `Fusion.HiddenIsAtMostCutOffsBetter` | internal/memory/recall.go:31-55 | An id not shown beats one shown by at most its cut-off scores and the other's raises |
| `Cosine.CauchySchwarz` | internal/memory/recall.go:152-163 | The accumulated sums satisfy the Cauchy-Schwarz inequality |
| `Cosine.SimilarityBounds` | internal/memory/recall.go:149-170 | Similarity is in [0,1], and exists if and only if the vectors are non-zero and of one length |
| `Cosine.Cosine` | internal/memory/recall.go:152-170 | The loop computes it |
| `Cosine.SimilarityIsExact` | internal/memory/recall.go:152-170 | Its square times both squared norms is the squared product, and it is zero for vectors that point apart |
| `Cosine.SameDirectionIsOne` | internal/memory/recall.go:152-170 | Vectors of one direction have similarity 1 |
| `Cosine.VectorSearch` | internal/memory/recall.go:85-109 | Embeddings scored, sorted and cut |
| `Cosine.FoundIsRanked` | internal/memory/recall.go:97-109 | Hits in falling order, each an embedding's similarity in [0,1] |
| `Cosine.FoundIsBest` | internal/memory/recall.go:105-108 | Nothing cut is more similar than anything kept |
| `Cosine.VectorListRankable` | internal/memory/recall.go:97-109 | The uncut vector list is one the fusion bound speaks of, and has a positive score if and only if some stored embedding has a positive product with the query |
| `FtsQuery.MatchExpr` | internal/memory/store.go:264-272 | The printed expression, what it reads back as, and when it is empty |
| `FtsQuery.ParsesBack` | internal/memory/store.go:264-272 | Read by the FTS5 string syntax it is exactly the fields joined by OR, for every query |
| `FtsQuery.ExprInjective` | internal/memory/store.go:264-272 | Equal expressions come from equal fields |
| `FtsQuery.FieldsKeepText` | internal/memory/store.go:265 | Fields are non-empty, free of white space, and keep everything else in order |
| `FtsQuery.FieldsAreRuns` | internal/memory/store.go:265 | The fields are the maximal runs of the query without white space |
| `FtsQuery.RunsAreUnique` | internal/memory/store.go:265 | And nothing else is |
| `FtsQuery.EmptyIffBlank` | internal/memory/store.go:235-238 | No expression if and only if the query is blank |
| `VectorCodec.EncodeVector` | internal/memory/store.go:321-327 | Fills the buffer with the little-endian words |
| `VectorCodec.DecodeVector` | internal/memory/store.go:329-338 | Reads them back, or refuses a blob of another length |
| `VectorCodec.VectorRoundTrip` | internal/memory/store.go:321-338 | A vector reads back under its own dimension and under no other |
| `VectorCodec.BlobRoundTrip` | internal/memory/store.go:329-338 | Every blob that decodes is the encoding of what it decodes to |
| `MemoryStore.Store.Insert` | internal/memory/store.go:94-118 | Row and index entry together, or nothing |
| `MemoryStore.Store.Get` | internal/memory/store.go:121-134 | The row of this id in this silo, if any |
| `MemoryStore.OpensInItsSiloOnly` | internal/memory/cipher_aead.go:49-71 | What is sealed for a silo opens there and in no other |
| `MemoryStore.Store.Delete` | internal/memory/store.go:173-199 | Row, index entry and embeddings together, or nothing; never across silos |
| `MemoryStore.Store.PutEmbedding` | internal/memory/store.go:275-280 | Adds or replaces one embedding and touches nothing else |
| `MemoryStore.Store.EmbeddingsBySilo` | internal/memory/store.go:289-317 | Exactly the decoded embeddings whose memory is in the silo, each id once |
| `MemoryMachine.StoreRefinesMap` | internal/memory/capability.go:144-197 | After any interleaving the rows are the entries of a plain map from silo and id to content |
| `MemoryMachine.IndexAgreesWithTable` | internal/memory/store.go:94-199 | Index and table hold the same rowids in every reachable state |
| `MemoryMachine.KeywordSearchIsExact` | internal/memory/store.go:234-259 | A keyword search finds exactly the live memories of the silo whose content matches |
| `MemoryMachine.VisibleEmbeddingsAreCurrent` | internal/memory/store.go:289-317 | An embedding is shown for a silo if and only if its memory lives there and was embedded under that model; it was computed from the content the memory has now |
| `MemoryMachine.ForgetErasesItsEmbeddings` | internal/memory/store.go:173-199 | A forgotten memory takes all its embeddings with it and changes no other |
| `MemoryMachine.RememberEmbedsOnce` | internal/memory/capability.go:144-178 | A Remember embeds once |
| `MemoryMachine.RecallReturnsWhatWasRemembered` | internal/memory/recall.go:57-79 | Every result carries what was remembered under that id in that silo, and opening never fails |
| `MemoryMachine.SearchesFillRecall` | internal/memory/recall.go:36-55 | Whatever live and matching or embedded memories the two searches name is what a recall goes on to fetch |
| `MemoryMachine.NoOtherHits` | internal/memory/recall.go:36-55 | And nothing that a search does not find |
| `MemoryMachine.FetchAddsLiveHit` | internal/memory/recall.go:57-79 | Fetching a hit adds exactly its result while the memory lives, and nothing once it is gone |
| `MemoryMachine.ForgetBeforeEmbedLeavesOrphan` | internal/memory/capability.go:168-178 | A memory forgotten before it is embedded leaves an orphan row that no search shows |

## Left out

- Real cryptography: P-256, HKDF, HMAC and AES-GCM are symbolic, so errors that cannot occur for well-formed inputs (a failing HKDF read, a rejected shared secret) are not modelled; the digits of the security code are not either.
- The assertion verifier (internal/pairing/verify.go) is an outcome: the claims it returns, or an error.
- JSON, base64 and UTF-8: a frame arrives decoded, or as malformed; lengths that the code counts in bytes are counted in characters.
- The dispatch of a raw frame on its JSON shape, and the plain health check and unknown plain frames, which change no state.
- HTTP, clocks, signals, processes, timers and SQLite's own machinery: outcomes, an integer clock, and atomic transactions.
- File formats and permissions: a file is the value last written to it, and writing is all-or-nothing.
- Floating point: scores, norms and vectors are real numbers, and the square root is a parameter that squares back; stored 32-bit patterns are kept as words.
- BM25: a keyword search is the set of rows whose indexed text matches, and its scores are parameters of the fusion.
- `LineScanner.LineScanWriter.Write`: one generic class for both scanners, since their bodies differ only in the pattern; the two regular expressions are the parameter.
- `FtsQuery.MatchExpr`: a NUL character in a query, which a C string would end at, is an ordinary character here.
- `LogRecorder.Recorder.Subscribe`: the channel that a cancelled or absent recorder hands out and closes is not modelled, and sequence numbers do not wrap at 2^64.
- `Keys.KeyStore.Mint`: the trimming of the display name; listing and counting keys.
- `MemoryMachine.VisibleEmbeddingsAreCurrent`: the embedding model is a fixed function of model name and text; an embedder that is off or fails is an event that does not happen.
- `MemoryStore.Store.Insert`: metadata and time stamps; List's order by RFC3339Nano text, which is text order and not time order within a second.
- `Registration.Manager.Step`: the reading and saving of the device id file and the probing of capabilities are parameters.
- `Jwks.HttpKeySource.Refresh`: the parsing of the key set document is part of the fetch's outcome.
- `Rotation.AcceptedKeyStillWorks`: excludes the three cases in which the code does take the accepted key away or lets it be taken; `Rotation.AcceptedKeyWorksIff` is exact, `Rotation.FallbackBreaksKeyIff` says when the stripped success does, and `Rotation.LateLandingBreaksKey` when the late request does.
- Starting and stopping the memory capability, the tunnel's process supervision and back-off, the OAuth and gateway plumbing, the rest of the admin pages, configuration and installers: not part of this model; they add no shared state to the protocols above.
