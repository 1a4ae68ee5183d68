# Verified models of the BUSY Bar client library

This project models the small machines inside the Go client library for the
BUSY Bar: the MQTT subscription reconciler, the animation encoder, the remote
request multiplexer and status streams, the API version single-flight, the
frame, GIF and Telnet parsers, and the HTTP retry loop. Each model follows the
branches, limits and constants of the Go code.

| file | models |
|---|---|
| `Registry.dfy`, `Reconciler.dfy` | the MQTT subscription registry, and the reconcile loop as a step system over all interleavings |
| `Transport.dfy`, `PassRun.dfy` | the transport object with its lock sections and reconcile pass, and that pass as a run of the steps |
| `Settling.dfy`, `Serving.dfy`, `Membership.dfy` | convergence of the reconcile loop, what a successful Subscribe means, and which subscriptions belong to the registry |
| `Delivery.dfy`, `Refusals.dfy` | routing of received messages to the registered subscribers and their bounded buffers, and why a subscription ends |
| `Bytes.dfy`, `AnimationFormat.dfy`, `AnimationLayout.dfy`, `AnimationEncoder.dfy` | the bicycle0 format with a decoder, its layout byte by byte, and the two-pass encoder that writes it in place |
| `RemoteHttp.dfy`, `RemoteResults.dfy`, `RemoteClosing.dfy` | the HTTP-over-MQTT round tripper: lock sections in place, every interleaving with its receivers and with close, what each round trip receives, and progress of close |
| `StreamState.dfy`, `StreamLifecycle.dfy`, `StreamMessages.dfy`, `StreamEnding.dfy`, `StreamResult.dfy` | the shared stream state, the goroutines of either client around it, which messages they pass on, progress of their ending, and what Stop and Wait report |
| `RemoteStreams.dfy`, `StatusStream.dfy` | what the streams of one remote client publish, as a step system, and one stream's own loops |
| `VersionFlight.dfy` | the cached API version and its shared refresh |
| `Retry.dfy` | the retry loop, with the nested version request running through the same loop |
| `Frame.dfy`, `Gif.dfy`, `Telnet.dfy` | the run-length decoder and RGBA conversion, the GIF block walker, the Telnet filter and the prompt checks, each against a grammar and a printer |
| `Totals.dfy`, `Wrappers.dfy` | sums over maps, for measures; values that may be absent |

Run `dafny verify dfyconfig.toml` to check everything.

## How concurrency and the environment are modelled

A protocol is a state, a datatype of steps, a guard `Enabled` and an effect
`After`. One step is one lock section, one channel operation or one broker
command. Go map iteration is an arbitrary choice, a timer is a step that may
happen at any time, and a run is any sequence of enabled steps. Where the code
works in place, a class does the same. The lock sections of the round tripper,
the version cache, the registry and a subscription are proved equal to the
functions that the steps use. The loops are proved to be runs of the steps: an
undisturbed reconcile pass (`PassRun.PassIsRun`), a status publication
(`StreamState.PublicationIsRun`) and a whole status stream
(`StatusStream.TraceIsClientTrace`).

The reconciler assumes of its environment that

- a broker command that returns an error had no effect on the session;
- the connection-down error is returned only while the connection is down;
- a new connection starts an empty session and posts the reconnect token
  before anything is done on it;
- the broker records the requested QoS, and a repeated filter replaces the old
  subscription (MQTT 5.0, section 3.8.4).

Paho is assumed to deliver messages from one goroutine. In the request
multiplexer correlation ids are distinct, as 16 random bytes are meant to be.

## Where the code does less than expected

- A quiet transport does not always leave exactly the registered topics on the
  broker. The loop may serve an operation on a new connection before it takes
  the reconnect token of that connection; clearing the cache then forgets what
  was granted on the new session (pahotransport/transport.go:190-196).
  `Reconciler.QuietSessionMayKeepUnwantedTopic` is such a run. What always
  holds is that every registered topic is subscribed at the highest requested
  QoS. `Reconciler.QuietSessionServesRegistry` proves this, and that the session
  is exact if and only if no topic was granted before a clearing and left
  unnamed by every later command. `Reconciler.PromptRunsAreExact` proves
  exactness for runs whose reconnect tokens are taken before the first grant.
- docs/getting-started.md:69 says that the retry after a version mismatch
  happens when the method is safe to repeat. The code repeats any method whose
  body can be opened again (request.go:316-336), as docs/reference/client.md:136
  says. `Retry.UnsafeMethodMaySendTwice` gives the exact condition on the
  request: some network makes the client send an unsafe method twice if and only
  if the call negotiates its version and its body can be opened again.
- A Subscribe can return success although the session no longer holds its topic:
  a new connection may begin between the end of the pass and the delivery of its
  result (pahotransport/transport.go:190-213).
  `Serving.SubscribeSuccessMayMissNewSession` is such a run. Without a waiting
  reconnect token the topic is held (`Serving.SubscribeSuccessMeansHeld`), and
  with one the loop is about to run again.
- The streaming prompt check of the USB session keeps two raw bytes. With
  Telnet commands in the stream it can miss a prompt
  (`Telnet.TailCheckCanMiss`) and see one that is none
  (`Telnet.TailCheckCanInvent`), which ends the stream as a success.
  `Telnet.TailSufficesExactly` gives the condition on the bytes read so far: the
  check is right for every next chunk if and only if the last two bytes, filtered
  on their own, leave the filter in the same mode and with the same number of
  prompt bytes matched as all the bytes do. Without commands it is always right.

## Model

The first rows are the main results, the following ones the steps and loops
they rest on, and the last ones single lock sections.

| member | source | states |
|---|---|---|
| `Reconciler.QuietSessionServesRegistry` | pahotransport/transport.go:150-215 | In every reachable quiet state the session holds every registered topic at the maximum requested QoS, and holds nothing else if and only if no topic is forgotten |
| `Reconciler.QuietSessionMayKeepUnwantedTopic` | pahotransport/transport.go:194-200 | For any subscription there is a run to a quiet state with an empty registry whose session still holds that topic |
| `Reconciler.PromptRunsAreExact` | pahotransport/transport.go:150-215 | If reconnect tokens are taken before the first command is acknowledged on their session, every quiet state has session and registry in exact agreement |
| `Membership.RegistryIsExact` | pahotransport/transport.go:286-323 | In every run, when no call is outstanding, the registry holds exactly the subscriptions that were created and that no failed Subscribe, ended context, failed topic or removal has dropped |
| `Membership.FailedSubscribeLeavesNothing` | pahotransport/transport.go:317-321 | Once the loop answers a Subscribe with an error, every run to a state without outstanding calls has its subscription out of the registry |
| `Settling.EveryScheduleSettles` | pahotransport/transport.go:150-215 | From every reachable state, once callers start nothing new, the connection stays up and no unsubscribe is refused, every schedule ends in a quiet state whose session serves the registry; contexts of waiting callers may end and subscribes may be refused all along |
| `Serving.SubscribeSuccessMeansHeld` | pahotransport/transport.go:286-323 | In every run, when the loop answers a Subscribe with success, its object is still registered and no reconnect token is waiting, the session holds its topic at no less than the requested QoS |
| `Transport.Transport.ReconcileBroker` | pahotransport/transport.go:376-417 | A completed pass makes the cache equal to the snapshot with each needed command issued exactly once, subscribes first; a refused pass has applied exactly the acknowledged commands and reports the first refusal. One reason code below 0x80 acknowledges a command, and 0x11 an unsubscribe; only new or changed topics with a subscriber are subscribed, at the maximum QoS |
| `PassRun.PassIsRun` | pahotransport/transport.go:376-417 | An undisturbed pass meeting the method's contract is a run of the loop's steps, ending with the same acknowledged commands, cache, retry timer and failed topic |
| `Delivery.NoSilentLoss` | pahotransport/transport.go:217-254 | In every run, what the router took up for a subscription, with the message on its way to it, is exactly what was published on its topic while it was registered, in order; what Receive returned followed by the buffer is a prefix of that; a shortfall or a departure from the registry has a recorded error or a call that is about to record it; at most 16 messages are buffered, so payload is at most 16 times the limit |
| `Delivery.HealthyHasEverything` | pahotransport/transport.go:217-254 | With the router waiting, a subscription without an error that nobody is failing has got every message published on its topic since it registered |
| `Delivery.OthersDoNotInterfere` | pahotransport/transport.go:232-252 | Whatever happens to other subscriptions, and however many messages are routed, this one keeps its messages and its registration, and a message on its way to it stays on its way until its visit |
| `Delivery.RouterNeverBlocks` | pahotransport/transport.go:539-553 | While the router has a message, one of its own steps is enabled and brings it closer to the end, whatever the subscribers do |
| `Refusals.ErrorsAreJustified` | pahotransport/transport.go:217-254 | In every run a recorded error has a step that justifies it: a routed message above the limit, a message that found 16 buffered, a close, or a failed topic or Subscribe |
| `Refusals.EndedSubscriptionLeaves` | pahotransport/transport.go:217-254 | In every run a subscription with an error is out of the registry, or its Close or the router is about to take it out |
| `AnimationEncoder.EncodeRGB888` | convert/animation/animation.go:96-111 | Encoding succeeds exactly for sides and rates of 1 to 255, frames of three bytes a pixel and at most 65535 bytes, and durations that some list of records shows within the 32-bit counts and the limit; the decoded records show exactly the frames, a zero duration once, in as few records as possible; a zero rate becomes 30; and every byte of the file is where the format has it |
| `AnimationEncoder.EncodeFrames` | convert/animation/animation.go:113-180 | With independent loaders for the two passes: success exactly when both deliver and their record counts agree, the decoded file, and "frames changed" only if the passes loaded different frames |
| `AnimationEncoder.AnalyzeFrames` | convert/animation/animation.go:182-218 | The first pass accepts exactly the inputs whose final totals fit, and returns the record and display counts of the encoding |
| `AnimationEncoder.WriteFrames` | convert/animation/animation.go:220-261 | With any loader the second pass stays in bounds, and succeeds exactly when the serialized encoding fills the buffer, which it then holds |
| `AnimationFormat.EncodeIsFaithful` | convert/animation/animation.go:230-255 | The records show exactly the input frames for their effective durations, and within a run of equal images all but the last have duration 255 |
| `AnimationFormat.EncodeIsMinimal` | convert/animation/animation.go:231-251 | No list of records with durations 1 to 255 showing the same frames is shorter |
| `RemoteHttp.NoOrphanWaiters` | remote/http.go:128-172 | In every reachable state nothing is pending without a current subscription, pending requests belong to a live receiver, and a waiting round trip is pending or its result is on the way |
| `RemoteHttp.AtMostOneOwnResult` | remote/http.go:174-199 | Each result channel is sent to at most once and is empty when a sender holds it; a received response has the correlation id that its request generated |
| `RemoteResults.ReceivedIsDecided` | remote/http.go:174-237 | In every run what a round trip received was decided by one step: a delivery of its own correlation, as a response within the limit or as the size error above it, or a failed subscription or close, as a failure; no other step decided anything for it |
| `RemoteResults.ResponseReachesCaller` | remote/http.go:191-195 | Whatever follows the delivery of a response within the limit, its round trip receives that response and nothing else, and while it waits the response is claimed for it or in its channel |
| `RemoteResults.OpenServes` | remote/http.go:55-107 | From every reachable open state with nothing on its way, a new round trip can begin, share the current subscription or install the transport's, publish once and receive its response |
| `RemoteHttp.NothingAfterClose` | remote/http.go:244-252 | After closing, no run publishes, registers, starts a request or raises the in-flight count |
| `RemoteHttp.CloseWaitsForAll` | remote/http.go:263-264 | Close has returned only if every started round trip has |
| `RemoteClosing.EveryScheduleCloses` | remote/http.go:239-265 | After the closing section every schedule that does not idle reaches the return of Close, within a bounded number of steps, with every started round trip returned |
| `StreamLifecycle.LifecycleIsSafe` | internal/statusstream/stream.go:85-198 | In every run of either client, with any number of Start, Stop and Wait calls: nothing is sent on a closed channel, finish is called at most once, at most one goroutine runs the stream and none but the one finishing is left when done closes, no watcher outlives it, completed waits return the one final error, and accepted messages are read in order |
| `StreamLifecycle.NothingAcceptedAfterClose` | internal/streamstate/state.go:91-123 | No run accepts a message after the message channel is closed, so draining it ends with the last accepted one |
| `StreamMessages.ReceivedIsPassedOn` | internal/streamstate/state.go:89-100 | In every run the messages that were received and not refused are exactly those the consumer took, those in the channel and the one about to be sent, in order |
| `StreamMessages.StreamServes` | internal/statusstream/stream.go:163-203 | A stream of either client, started once, can pass on messages of one connection after another |
| `StreamEnding.EveryScheduleEnds` | internal/statusstream/stream.go:122-203 | Once Stop is called or the context ends, every schedule that neither idles nor starts new calls reaches, within a bounded number of steps, a completed stream in which every Start, Stop and Wait call and the reading goroutine have returned |
| `StreamEnding.EndingRunIsBounded` | internal/statusstream/stream.go:122-203 | From then on every run, whatever it does, has at most the work left plus nine steps for each new call, received message or status change |
| `StreamResult.StoppedStreamEndsClean` | internal/statusstream/stream.go:163-203 | Whatever the connection does after a reading or reconnecting stream is stopped, the final error is none or one that cleanup returned; a local stream ends Stopped and every Stop and Wait returns no error |
| `StreamResult.FailureIsReported` | internal/statusstream/stream.go:163-203 | A stream that ends for an error reports it alone or joined with one that cleanup returned, to every Stop and Wait and in a Failed status |
| `StreamState.StatusesCoalesce` | internal/streamstate/state.go:79-155 | Outside a publication the status channel is empty or holds the latest status; draining to closure ends with Stopped, or Failed and the final error; nothing is sent on it once closed; completed waits return one value |
| `StreamState.NoStatusIsInvented` | internal/streamstate/state.go:27-42 | In every run a reader sees only the idle status, statuses that were set, and the terminal one |
| `StreamState.TerminalIsForever` | internal/streamstate/state.go:102-124 | A finished stream never changes status or final error |
| `RemoteStreams.PublicationsFollowProtocol` | remote/stream.go:81-176 | In every run of a client the publications are a concatenation of per-stream traces, each starts and renewals then at most one stop; a stop was published exactly by activated streams past that point, and precedes every publication of later streams |
| `RemoteStreams.SuccessorWaits` | remote/client.go:91-112 | When a stream publishes, the stop attempt of every earlier stream has returned |
| `StatusStream.TraceIsClientTrace` | remote/stream.go:81-176 | Whatever its loops have published, a valid stream's publications are those of a stream in some run of the client's step system that is activated and finished exactly as it is |
| `StatusStream.Stream.Run` | remote/stream.go:136-176 | The loop only extends a well-formed trace, and finishes exactly at the first round that ends the stream, with one stop |
| `VersionFlight.NeverCancelledUnderAWaiter` | version.go:22-93 | In every run an installed refresh counts exactly its waiting callers, at least one, and is neither done nor cancelled; no caller waits on a cancelled unfinished refresh |
| `VersionFlight.AbandonedNeverWrites` | version.go:52-67 | A refresh that no caller waits for any more never changes the cached version |
| `VersionFlight.CachedVersionStays` | version.go:26-31 | Once cached, the version stays non-empty, and no call starts a refresh or a fetch |
| `VersionFlight.CancelledUnlessInstalled` | version.go:52-93 | In every run the refreshes told to stop are exactly those that are not installed, so no abandoned fetch goes on |
| `VersionFlight.AnswersAreFetched` | version.go:22-80 | In every run the cached version and every version that a call returned were fetched in it, and a finished refresh holds what its own fetch returned |
| `VersionFlight.EveryCallCanLeave` | version.go:69-80 | A waiting call can give up at any time and return as soon as its refresh is done, and until then its fetch is running |
| `Retry.Client.ExecutePrepared` | request.go:289-355 | The loop terminates; its attempts are a run on the given network, its outcome follows from the last attempt, and a refresh ran its nested request as a whole run. On a network that never answers, GET, HEAD and OPTIONS with a repeatable body are sent as often as the policy says and anything else once; other methods are sent twice only after a 405; a first answer of 400 or more, other than 405, is the error, and an accepted one below is delivered |
| `Retry.RunIsBounded` | request.go:289-355 | A call makes at most the permitted attempts, plus one after a repaired mismatch; a body that opens once is sent once |
| `Retry.BoundIsReached` | request.go:289-355 | Under every policy some call, with its nested request answered on a network, makes one attempt more than the policy permits |
| `Retry.UnsafeMethodMaySendTwice` | request.go:289-336 | For every policy, version and request but GET, HEAD and OPTIONS: some network, with the nested request answered on one, makes the client send the request twice if and only if its body is repeatable, the client negotiates versions and the path is not that of the version request |
| `Retry.NetworkDecidesRun` | request.go:289-355 | Two runs that meet the same rounds and refresh results make the same attempts with the same headers and outcome |
| `Frame.DecodeRLE` | frame/frame.go:235-272 | Succeeds with r exactly when the source prints valid blocks that expand to r of the expected size; on an error no such r exists |
| `Frame.DecodesIffParses` | frame/frame.go:235-272 | The block grammar is unambiguous, so the decoded result is unique |
| `Frame.AlignedIsEncodable` | frame/frame.go:235-272 | Every block-aligned byte string has a run-length form that decodes back to it, at most one byte per 127 blocks longer |
| `Frame.EveryPictureHasRunLengthFrame` | frame/frame.go:152-184 | Every picture of a supported display has a run-length frame within the payload limit |
| `Frame.RGBA` | frame/frame.go:106-150 | Every pixel of a decodable frame is painted opaque: red, green and blue from the third, second and first byte of its three, a grey byte three times, or seventeen times its nibble, the low one first; an undecodable frame is an error |
| `Gif.PrintedFileCounts` | convert/image.go:170-219 | A printed block list with a trailer counts as its images, capped at two |
| `Gif.CountedIsWellFormed` | convert/image.go:170-219 | Any counted input is a printed header and block list before a trailer with that many images, or, for two, before the second image separator |
| `Gif.BrokenOffFileFails` | convert/image.go:170-219 | A well-formed file with at most one image that stops without a trailer is an unexpected end, and one that goes on with a byte that begins no block is an invalid image |
| `Telnet.StripPrinted` | usb/protocol.go:68-102 | A well-formed stream, whatever follows it, is filtered to exactly its data |
| `Telnet.StripIsExact` | usb/protocol.go:68-102 | Any input is a well-formed stream and an element cut short; the result is the data and the last byte of an open subnegotiation, if any |
| `Telnet.TailSufficesExactly` | usb/session.go:94-118 | For every history: two bytes of it decide like all of it for every next chunk if and only if both leave the filter in the same mode with the same prompt progress |
| `Telnet.TailCheckIsExact` | usb/session.go:104-117 | Without IAC bytes, however the stream is chunked, every round decides like the whole history |
| `Telnet.TailCheckCanMiss` | usb/session.go:104-117 | A no-operation inside the prompt makes the check miss it |
| `Telnet.TailCheckCanInvent` | usb/session.go:104-117 | A negotiation option equal to the prompt's first byte makes the check see a prompt that is none |
| `Reconciler.HeldIsTrackedOrForgotten` | pahotransport/transport.go:195-198 | For every history of a session, a topic is held if and only if the cache tracks it or it was forgotten, never both, and with the tracked QoS |
| `Reconciler.StepKeepsInv` | pahotransport/transport.go:150-215 | Every step of callers, loop, broker and connection keeps the invariant, including that no wake-up is lost |
| `Reconciler.RunKeepsInv` | pahotransport/transport.go:150-215 | The invariant holds along every run |
| `Reconciler.PassKeepsNoLostWakeup` | pahotransport/transport.go:172-184 | After any step of a pass, a difference between registry and cache still has a token, operation, timer or call that will bring the loop back |
| `Reconciler.FinishedPassAgrees` | pahotransport/transport.go:390-416 | A pass that finishes amid interference has made the cache equal to its snapshot |
| `Reconciler.CallerKeepsInv` | pahotransport/transport.go:286-323 | Registration, cancellation, removal and posting by callers lose no wake-up |
| `Registry.HighestIsMaximum` | pahotransport/transport.go:382-388 | The QoS asked for a topic is requested by some subscriber and exceeded by none |
| `Registry.HighestUnique` | pahotransport/transport.go:382-388 | Only the maximum has both properties |
| `Registry.EditsKeepWellFormed` | pahotransport/transport.go:312-315 | Edits keep topics non-empty and items under their own topic; a removed item is gone and an added one present |
| `Transport.Transport.TakeSnapshot` | pahotransport/transport.go:380-389 | The nested map loops compute the maximum QoS of every registered topic and no other topic |
| `Transport.Transport.SubscribeMissing` | pahotransport/transport.go:390-402 | Only missing or changed topics are subscribed, once each, until one is refused; completing leaves every desired topic in the cache at its QoS |
| `Transport.Transport.UnsubscribeStale` | pahotransport/transport.go:403-416 | Only stale topics are unsubscribed, once each; completing leaves the cache equal to the snapshot |
| `Transport.IssueOne` | pahotransport/transport.go:394-401 | Recording one acknowledged command keeps the issued commands needed, distinct, and exactly those the cache reflects |
| `Transport.Transport.RegisterItem` | pahotransport/transport.go:286-316 | Registration happens exactly for an open transport, an exact topic, a QoS of at most 2 and a positive limit, and adds exactly the item |
| `Transport.Transport.RemoveItem` | pahotransport/transport.go:460-469 | Exactly the item leaves, an emptied topic is deleted, and a token is posted unless closed |
| `Transport.Transport.FailTopic` | pahotransport/transport.go:486-495 | All subscribers of the topic and no others are failed and removed, and a token is posted |
| `Transport.Transport.HandleResult` | pahotransport/transport.go:172-184 | The retry timer is armed exactly after a refused unsubscribe with the connection up; a topic is failed exactly after a refused subscribe with the connection up |
| `Transport.Transport.RequestReconcile` | pahotransport/transport.go:120-133 | A token is waiting afterwards unless the transport is closed, and tokens coalesce |
| `Transport.Transport.RequestReconnect` | pahotransport/transport.go:135-148 | The same for the reconnect token |
| `Delivery.StepKeepsInv` | pahotransport/transport.go:460-562 | Every registration, removal, failure, receive and router step keeps registry, prefix, due and error invariants |
| `Delivery.Subscription.Receive` | pahotransport/transport.go:512-526 | With anything happening between the two selects: a recorded failure is returned alone; otherwise the oldest buffered message, the recorded failure or the cancellation, and it blocks only if there is none |
| `Delivery.Subscription.Deliver` | pahotransport/transport.go:539-553 | With anything happening between the two selects: the message is queued exactly if the enqueue case was ready and taken, and false is returned exactly for a full buffer without an error |
| `Delivery.SnapshotIsExact` | pahotransport/transport.go:222-228 | The router's snapshot holds exactly the subscriptions registered on the topic |
| `Refusals.FirstErrorStays` | pahotransport/transport.go:555-562 | The first error of a subscription is never replaced |
| `Refusals.RoomMeansDelivered` | pahotransport/transport.go:539-553 | With room in the buffer and no error, the router's only step delivers the message |
| `Refusals.CallsFinish` | pahotransport/transport.go:460-526 | What calls still have to do to close, fail and remove subscriptions is always possible and is done once |
| `Delivery.Subscription.TakeUp` | pahotransport/transport.go:232-252 | One round of the routing loop is the step system's first look, the other goroutines' turn, and one ready case of the offer; undisturbed, a message within the limit is buffered if fewer than 16 are and fails the subscription as slow otherwise, one above the limit fails it as too large, and an ended subscription is left alone |
| `AnimationEncoder.WriteFrame` | convert/animation/animation.go:230-251 | One frame updates the stored records in place like run merging does, and fails exactly when the records do not fit |
| `AnimationEncoder.CalculateLayout` | convert/animation/animation.go:263-291 | In 64-bit arithmetic nothing wraps, and the checks accept exactly the totals that fit their fields and the limit |
| `AnimationEncoder.FitsIsMonotone` | convert/animation/animation.go:212-215 | Totals that fit never passed through totals that did not, so checking after each frame loses nothing |
| `AnimationEncoder.FileDecodes` | convert/animation/animation.go:145-170 | Header, section, frame chunk and the copied first duration decode to the metadata and the records |
| `AnimationLayout.ShownIsDisplay` | convert/animation/animation.go:309-314 | A frame of duration d is shown d times, and one of duration zero once |
| `AnimationLayout.HeaderIsLead` | convert/animation/animation.go:145-168 | The header and section written by the encoder are, byte by byte, the signature, sizes, rate, counts, offset and name of the format, with zero padding |
| `AnimationLayout.ChunkLays` | convert/animation/animation.go:239-249 | Record k starts at byte 57 plus k times the record length, with its encoding, duration, length and pixels |
| `AnimationEncoder.MergedFitFirst` | convert/animation/animation.go:263-291 | The merged records fit the limits if any records that show the frames do |
| `AnimationEncoder.MergeDuration` | convert/animation/animation.go:195-207 | The counting loop adds a record exactly when the duration overflows the last one, and keeps the last duration |
| `AnimationFormat.SaturatedIsShortest` | convert/animation/animation.go:231-251 | A saturated list is no longer than any list that shows it after some extra images |
| `AnimationFormat.PushExpands` | convert/animation/animation.go:231-251 | Merging one frame appends exactly its repetitions to what is shown |
| `AnimationFormat.ParseSerialized` | convert/animation/animation.go:243-249 | Decoding the frame chunk returns the records that were written |
| `AnimationFormat.ParseFile` | convert/animation/animation.go:145-170 | A file with these header, section and chunk bytes decodes to their values |
| `RemoteHttp.RunKeepsInv` | remote/http.go:42-107 | The invariant holds along every run of requests, deliveries, failures and close |
| `RemoteResults.DecisionReaches` | remote/http.go:174-265 | Whatever a step decides for a round trip, result or failure, is what it receives |
| `RemoteResults.NothingWithheld` | remote/http.go:182-199 | Close waits only when it has sent every failure, and a receiver in its loop holds at most one result |
| `StreamState.State.PublishStatusLocked` | internal/streamstate/state.go:141-155 | However a reader interleaves, the channel then holds exactly the latest status |
| `StreamState.State.SetStatus` | internal/streamstate/state.go:79-87 | A finished stream ignores changes; otherwise the change is applied and published |
| `StreamState.State.Finish` | internal/streamstate/state.go:104-124 | The first call joins terminal and cleanup errors, publishes Stopped without an error and Failed with one, and closes the channels; later calls change nothing |
| `StreamState.PublicationIsRun` | internal/streamstate/state.go:141-155 | The three channel operations with a reader in between are a run of the publisher that leaves exactly the latest status |
| `StreamState.SetStatusIsSeen` | internal/streamstate/state.go:79-87 | A status set on an unfinished stream is the last one a reader sees when its publication is over |
| `StreamState.State.Deliver` | internal/streamstate/state.go:91-100 | The message is queued or the context had ended or the channel was full with the context alive; nothing else changes |
| `StreamState.State.StopBeforeStart` | internal/streamstate/state.go:55-63 | Stop claims the stream exactly if it was not started |
| `StreamState.State.Begin` | internal/streamstate/state.go:44-52 | Start claims the stream exactly if it was not started |
| `RemoteStreams.OrderedLogSplits` | remote/client.go:91-112 | A log ordered by stream is the concatenation of its per-stream traces |
| `RemoteStreams.TraceIsWellFormed` | remote/stream.go:347-380 | A stream's trace begins with a start and has nothing after its stop |
| `RemoteStreams.StepKeepsInv` | remote/stream.go:81-176 | Every step of every stream keeps the ordering and stop invariants |
| `RemoteStreams.NothingOpensAfterClose` | remote/client.go:91-140 | A client can be closed at any time and opens no stream afterwards |
| `StatusStream.Stream.Start` | remote/stream.go:81-115 | A first Start succeeds and activates exactly if an attempt connects; otherwise the stream finishes without a stop |
| `StatusStream.Stream.ConnectWithRetry` | remote/stream.go:281-328 | Publishes only starts, at most one per permitted attempt, and connects exactly if every attempt before a successful one may be retried |
| `StatusStream.Stream.ReadSubscription` | remote/stream.go:199-279 | Publishes exactly the renewals due up to the first event that ends the subscription, and ends with that event |
| `StatusStream.ReadEndsAtFirst` | remote/stream.go:226-277 | Reading ends at the first refused renewal, failure or end of the context, for good exactly at a terminal failure, with one renewal published for each due |
| `StatusStream.ReadExhausts` | remote/stream.go:226-277 | Accepted renewals and ignored events never end it |
| `StatusStream.Stream.Finish` | remote/stream.go:362-431 | The stop is published once, exactly if the stream was activated |
| `StatusStream.Stream.StopBeforeStart` | remote/stream.go:117-130 | Stop claims exactly an idle stream and finishes it without publishing |
| `Retry.Client.Do` | request.go:200-236 | A negotiated call never sends an empty version; it fails before sending only if no version is cached and none is found; afterwards the cache holds the version last sent |
| `Retry.UnsafeMethodIsResentOnlyAfterMismatch` | request.go:316-336 | Any method but GET, HEAD and OPTIONS is sent at most twice, and twice exactly when the first got a readable 405, the body is repeatable and the refresh found the version that the second carries |
| `Retry.UnsafeMethodCanBeResent` | request.go:316-336 | Every unsafe, repeatable, negotiating request is sent twice and then delivered on a network whose first answer is a readable 405, under every policy |
| `Retry.VersionRequestIsPlain` | request.go:470-479 | The version request never negotiates and never refreshes |
| `Retry.AnswersEndTheCall` | request.go:316-353 | No answer is discarded except the one repaired mismatch |
| `Retry.AnswerDecides` | request.go:316-353 | A call that got an answer ends as it says: unreadable or API error from 400 on, a mismatch that could not be repaired for 405, delivered or rejected below |
| `Retry.FailingNetworkExhausts` | request.go:289-314 | On a network that never answers, the policy, the method and the body alone decide how often a request is sent |
| `Retry.VersionRequestIsRetried` | version.go:109-130 | The version request is sent as often as the policy permits on a failing network, and then finds nothing |
| `Retry.VersionRequestFinds` | version.go:109-134 | Its first answer below 400 ends it, with the version it carries, if any |
| `Retry.TransportErrorMeansExhausted` | request.go:302-314 | A transport error is reported only after every permitted attempt |
| `Retry.Client.APISemVer` | version.go:22-50 | For a lone caller: a cached version is returned without sending, otherwise a found version is cached |
| `Retry.Client.RefreshAPISemVer` | version.go:97-107 | The nested request is a whole run; a found version replaces the cache and a failure leaves it |
| `Frame.ParsePrinted` | frame/frame.go:237-266 | Parsing a printed block list returns it |
| `Frame.PrintParsed` | frame/frame.go:237-266 | Printing a parsed source returns the source |
| `Frame.RunsDecode` | frame/frame.go:237-266 | An opcode above 128 takes over that many blocks, and one from 1 to 127 repeats the next block byte for byte that many times; nothing else decodes from them |
| `Frame.Pixels` | frame/frame.go:152-184 | Returns exactly the pixels a frame stands for: 3, 1 or half a byte each of 72 by 16 or 160 by 80, within 16384 bytes; otherwise the first applicable error |
| `Frame.PixelsUnique` | frame/frame.go:152-184 | A frame stands for at most one pixel string |
| `Frame.SupportedFrames` | frame/frame.go:186-233 | A valid frame has a pixel size exactly unless it is 24-bit on the back display or of an unknown format, and the size is block-aligned |
| `Frame.GreyRoundTrip` | frame/frame.go:132-145 | Packed four-bit grey can be read back from the painted pair |
| `Frame.FromHTTP` | frame/frame.go:39-75 | Accepts exactly the two display sizes, and the frame stands for the payload |
| `Gif.GifFrameCount` | convert/image.go:170-219 | The index loop stays in bounds and computes the frame count on suffixes; fewer than 13 bytes and other signatures are refused |
| `Gif.SkipGIFSubBlocks` | convert/image.go:221-234 | Returns the index after the sub-block list exactly if the list is complete |
| `Gif.TableSizes` | convert/image.go:174-176 | A packed field below 128 announces no table, and above it three bytes for each of 2 to 256 colours |
| `Gif.SkipPrinted` | convert/image.go:221-234 | Skipping a printed sub-block list returns what follows it |
| `Gif.SkippedIsPrinted` | convert/image.go:221-234 | Skipping succeeds only over a printed sub-block list |
| `Telnet.StripIAC` | usb/protocol.go:68-102 | The index loops stay in bounds and compute the filter on suffixes |
| `Telnet.RulesOfTheFilter` | usb/protocol.go:68-102 | In numbers: bytes but 255 are data, 255 255 is the byte 255, 255 with 251 to 254 takes one more byte away and 255 with a byte below 250 only itself; what is cut short vanishes |
| `Telnet.RuleOfSubnegotiation` | usb/protocol.go:86-93 | 255 250 vanishes up to the first 255 240, and leaves its last byte if there is none |
| `Telnet.PromptInBytes` | usb/protocol.go:49-51 | The prompt is found exactly if the filtered data end in the bytes 62, 58, 32 |
| `Telnet.PromptIsPayloadSuffix` | usb/protocol.go:49-51 | On a well-formed stream the prompt check asks whether its data ends in the prompt |
| `Telnet.ReadUntilPrompt` | usb/protocol.go:29-47 | Returns everything read up to the first reason to stop, and the reason: prompt within the limit, limit exceeded, or a read error without either |
| `Telnet.TrailingBytes` | usb/protocol.go:104-112 | Returns the last bytes of the data, or all of a shorter one |
| `Telnet.StreamLine` | usb/session.go:94-128 | The writer got exactly what was read in the rounds before the last and what it took of the last chunk, all of it when the command completes; it stops in the first round whose check on two bytes of history and the chunk, or whose error, ends it |
| `Telnet.StreamRound` | usb/session.go:97-127 | One round: its end follows from cancellation, a failed or short write, the check and the read error, in that order; going on keeps the last two bytes of the whole history |
| `Telnet.TailDecides` | usb/session.go:104-117 | Two plain bytes before a chunk decide like the whole history, whatever commands the chunk holds |
| `Telnet.ParserDecides` | usb/protocol.go:49-51 | For every input the prompt check is the answer of a byte-at-a-time parser of the stream |
| `Telnet.IndistinctIsSame` | usb/protocol.go:68-102 | Two states of that parser give the same answers on every further input if and only if mode and progress agree |
| `Telnet.TailCheckAgrees` | usb/session.go:104-117 | In a round whose history meets the condition, the check is right |
| `PassRun.ReconcileAsRun` | pahotransport/transport.go:190-213 | The pass and the handling of its result, run in place, leave the cache and the retry timer that the run of steps ends with |
| `Settling.SettlingStepFalls` | pahotransport/transport.go:150-215 | Each remaining step, a refused subscribe and an ended context included, lowers a lexicographic measure of the topics that can still be refused, wake-ups, stage and topics still to visit |
| `Settling.CanSettle` | pahotransport/transport.go:186-213 | A reachable state with the connection up that is not quiet has such a step |
| `Serving.StepKeepsServing` | pahotransport/transport.go:172-213 | Every step keeps that the snapshot, and the cache after a completed pass, cover the Subscribe being served |
| `Membership.AbandonedSubscribeLeavesNothing` | pahotransport/transport.go:317-321 | A Subscribe whose context ends leaves nothing in the registry |
| `Membership.StepKeepsBelongs` | pahotransport/transport.go:286-323 | Every step keeps, for every subscription, whether it is registered, being removed or gone |
| `Serving.SubscribeSuccessMayMissNewSession` | pahotransport/transport.go:190-213 | For every subscription there is a run in which Subscribe succeeds while the session, begun in the meantime, holds nothing |
| `StreamLifecycle.NoStatusAfterFinish` | internal/streamstate/state.go:79-87 | No goroutine of a stream ever tries to set a status after it finished |
| `StreamLifecycle.RunKeepsInv` | remote/stream.go:81-176 | The invariant on owner, once, watcher and channels holds along every run |
| `StreamResult.CompletedRunReports` | internal/streamstate/state.go:102-139 | The final error of a completed run is the cause it ended for, joined with at most one error of cleanup, and its status is Stopped or Failed accordingly |
| `StreamEnding.EndingStepFalls` | internal/statusstream/stream.go:122-203 | After the end of the context every step lowers the work left, and an input raises it by at most eight |
| `StreamEnding.EndingCanStep` | internal/streamstate/state.go:102-139 | While a call or goroutine is left, some step other than an input is enabled |
| `StreamEnding.CancelledRunIsEnding` | internal/statusstream/stream.go:122-137 | A started stream has a goroutine running it until finish has run, so no Wait is left behind |
| `RemoteClosing.ClosingStepFalls` | remote/http.go:244-265 | Each step but a delivery lowers the work left, and a delivery finds nothing pending |
| `RemoteClosing.ClosingCanStep` | remote/http.go:93-107 | Until Close returns some step is enabled, without any cancellation or answer |
| `RemoteHttp.RoundTripper.BeginRoundTrip` | remote/http.go:109-117 | The in-flight count rises exactly when the tripper is open |
| `RemoteHttp.RoundTripper.EnsureSubscription` | remote/http.go:128-151 | An open tripper keeps its subscription or installs the new one; a closed one installs nothing |
| `RemoteHttp.RoundTripper.RegisterRequest` | remote/http.go:153-164 | A request is pending afterwards exactly if the tripper is open and the subscription is still the current one |
| `RemoteHttp.RoundTripper.SubscriptionFailed` | remote/http.go:219-237 | Only the current subscription hands over the pending requests, and it hands over all of them |
| `RemoteHttp.RoundTripper.BeginClose` | remote/http.go:244-251 | Closing hands over all pending requests and drops the subscription |
| `StatusStream.Gate.NewStatusStream` | remote/client.go:91-112 | A stream is created exactly if the client is open and has no active stream |
| `StatusStream.Gate.Release` | remote/client.go:100-106 | Only the active stream's own release frees the gate |
| `VersionFlight.VersionCache.JoinRefresh` | version.go:22-50 | The lock section joins the cache, the installed refresh or a new one |
| `VersionFlight.CallJoinsFlight` | version.go:32-49 | A call without a cached version waits for the installed refresh, which it installs and fetches if there is none |
| `VersionFlight.CallsEndWithAnswers` | version.go:22-80 | A call ends with the cached version, with what its refresh holds, or with an error if it gave up |
| `VersionFlight.VersionCache.CompleteRefresh` | version.go:52-67 | Only an installed refresh writes the cache and uninstalls itself |
| `VersionFlight.VersionCache.ReleaseWaiter` | version.go:82-93 | The last waiter of an installed refresh cancels and uninstalls it |

## Left out

- Transport Close and the loop's exit on it: a Subscribe can register between the failing of all subscriptions and the cancellation, so no claim is made about subscriptions of a closed transport. The classes model the closed flag only where posting depends on it.
- Persistent MQTT sessions: a new connection starts an empty session.
- Packet contents beyond topic and payload, and the Paho connection manager: environment.
- Transport.Transport.ReconcileBroker: runs one pass without interference from callers, who are in the step system; `PassRun.PassIsRun` connects the two.
- Durations of retry delays, leases and stale intervals: timers are steps that may happen at any time.
- The local stream's WebSocket dial, its version retry and its snapshot request: a connection attempt succeeds or fails.
- StreamLifecycle.LifecycleIsSafe: the fields of a status other than its lifecycle and error are one value, and an attempt, a read or a delivery may always fail, whether its context has ended or not.
- Settling.EveryScheduleSettles: says nothing of schedules in which the connection drops, callers keep starting calls or the broker keeps refusing unsubscribes, which need not settle.
- StreamEnding.EveryScheduleEnds: says nothing of a schedule that keeps receiving messages, setting statuses or starting calls for ever; EndingRunIsBounded says how long finitely many of these can delay the end.
- RemoteStreams.PublicationsFollowProtocol: models publications, activation and release; status fields, decoding of messages and error joining are not part of it.
- Retry.Client.APISemVer: a lone caller's view; the sharing of one fetch among callers is in the version model.
- Response bodies, headers other than the version, and size limits of the HTTP client appear only as whether a body was readable and accepted.
- HTTP, WebSocket, TCP, ffmpeg, ZIP, PNG and JPEG decoding, and protobuf: opaque values or environment.
- Loading of PNG, ZIP and GIF sources in the animation encoder: a loader is a function from index to frame.
- Image resizing and bilinear scaling: they rest on floating-point rounding.
- Telnet.StripIsExact: states what happens to an open subnegotiation as the code has it; RFC 855 gives such input no meaning.
- Cleaning of command output, ANSI sequences and command quoting of the USB client.
- The snapshot store, service wrappers, option validation, error text and request-id generation.
