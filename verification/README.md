# Verified core of Pluribus

Pluribus is an event-sourced agent host. Requests, results, gate decisions and
health changes are events of one append-only log per agent; dispatch,
admission, authority and recovery are computed from that log, so that a
restarted host carries on. This project models the parts of the host that are
hard to get right and proves what they promise.

`dafny verify dfyconfig.toml` covers all files.

| file | what it models |
|---|---|
| `Events.dfy`, `Decimal.dfy` | the log: gapless sequences, one event per deduplication key, paged reads |
| `Polling.dfy` | what an instance receives, read by index or sequentially |
| `Projection.dfy` | the incremental view of results, jobs and observations |
| `Admission.dfy` | claims of any number of hosts; effects happen at most once |
| `Dispatch.dfy`, `DispatchLoss.dfy` | the authority gate and the delivery pass over shared cursors; exactly when they lose a request |
| `Sessions.dfy` | failing the sessions a trapped interpreter has lost |
| `Health.dfy`, `Deferral.dfy` | component health, backoff and deferral of input that exhausts a component |
| `Authority.dfy`, `Origins.dfy`, `Confinement.dfy` | issuing authority, resolving it along causation, routing under it |
| `DerivedKeys.dfy`, `Retry.dfy` | derived keys and crashes during a delivery |
| `Runner.dfy` | the rendezvous between host and source task |
| `Rebuild.dfy`, `Lifecycle.dfy` | replaying an instance's own events before activation, and an instance's whole life around it |
| `Pager.dfy` | the guest's paged query |
| `Requirements.dfy` | the manifest's cross-references and the cycle search |
| `Blobs.dfy` | the in-memory and the file blob store |
| `Sse.dfy` | the server-sent-events parser |
| `StreamBudget.dfy` | the byte budget reads and writes share |

Code that computes values is modelled by functions, code that updates fields
or loops by classes and methods proved against those functions, and concurrent
code by steps of a state machine that may interleave in any order.

## Findings

- An authorized request can be lost when two hosts share one log: a scan that
  has passed a request nobody has decided yet goes on to a later one and moves
  the cursor past both. At the moment a request is authorized, some continuation
  loses it exactly if nobody has attempted it and a scan for its provider, whose
  checkpoint is still the stored cursor, has gone past it
  (`DispatchLoss.AuthorizationLoses`). `DispatchLoss.TwoHostsLose` gives the
  run. One host, with any number of workers in flight, loses nothing.
  `docs/operations.md` leaves coordination of hosts to the operator.
- The rebuild marker moves only during rebuilds, so a rebuild replays on top of
  a projection that already holds what the instance emitted while it was
  active. The projection is, or by finishing the rebuild becomes, that of a
  replay from zero in every state of every life exactly if replaying again the
  last events a reached projection holds, or any stretch of them that replays at
  all, changes nothing (`Lifecycle.StandsIffAbsorbing`). Operation receipts,
  as the memory plugin keeps them, are enough. A handler that counts its events
  is not restored (`Lifecycle.CounterIsNotRestored`).
- A delivery left in the inbox of a source task that has ended is never
  answered. `Runner.StuckIff` shows that nothing else can leave a caller waiting
  with no step possible.
- The two blob stores answer alike except for one family of reads: a
  well-formed reference that matches nothing stored, read past the end it
  claims. The memory store then reports the missing or mismatching content, the
  file store an invalid offset.
- A frame of server-sent events survives printing and parsing exactly if its
  data is not empty and does not start with a line feed, its name holds no line
  feed, and neither its name nor any data line ends in a carriage return.
- A failed delivery that the host does not live to record is not counted, so the
  bound of three failures holds beyond those. They have no bound:
  `Deferral.UnrecordedFailuresUnbounded` gives a run for every number.
- The interface description in `wit/host.wit` says a page's next sequence is
  absent once the page reached the end. The code returns it whenever the store
  returned anything; the model follows the code.
- An unreadable cognition event, or an unreadable health event, ends a refresh
  with an error but has already been passed. The next refresh goes on behind it.

## Assumptions

- Admission claims are unique: process, time and counter never repeat together.
- SHA-256 is injective; digests of content are a constructor of the content.
- JSON is a datatype without floating-point numbers. Text that does not parse
  and payloads kept in blobs are separate cases.
- Storage calls do not fail, and the clock is an input of each step.
- An event identifier is the decimal rendering of its sequence. Only its
  uniqueness is used, by `Events.IdsUnique`.
- The keys the host derives with the prefixes `policy:`, `denied:`, `expired:`
  and `attempt:` are used by the host alone, and only the gate writes decisions.
- Only the host writes deferrals, `cognition.resource-exhausted`, and keys with
  the prefix `cognition-resource-exhausted:`.
- Component identifiers hold no line feed, so a health key is a component, or a
  component and an event.
- Registered components do not change during a run.

## Model

| member | source | states |
|---|---|---|
| Events.Append | crates/pluribus-core/src/event.rs:187-192 | keeps sequences gapless and keys unique; adds one event, or returns the original for a stored key |
| Events.PageSplits | crates/pluribus-core/src/event.rs:209-226 | a page is exactly the matching part of the stretch it covers and the rest lies beyond its last event |
| Events.PageGap | crates/pluribus-core/src/event.rs:209-226 | nothing that matches lies between neighbours of a page |
| Events.FieldMeans | crates/pluribus-cognition/src/dispatch.rs:116-122 | a field is the string member of that name of an object payload, and nothing else is one |
| Polling.Poll | crates/pluribus-cognition/src/dispatch.rs:284-343 | both branches return exactly the first `limit` events after the checkpoint that the instance receives, each of which it is entitled to; fails only for an unknown instance |
| Polling.PollPages | crates/pluribus-cognition/src/dispatch.rs:308-342 | the page loop terminates and a wider query filtered again gives the page of the narrow one |
| Polling.QueryCovers | crates/pluribus-cognition/src/dispatch.rs:296-307 | the queried types cover everything the subscriptions accept |
| Polling.LiteralPattern | crates/pluribus-core/src/registry.rs:218-228 | a pattern without an asterisk matches only itself |
| Polling.WildcardPattern | crates/pluribus-core/src/registry.rs:218-228 | `prefix.*` matches exactly the names one segment below the prefix or deeper |
| Polling.ReceivesMeans | crates/pluribus-cognition/src/dispatch.rs:256-282 | an event is received iff a pattern, a capability or a model of the subscription takes it and, for a fired timer, the log holds the timer that instance set |
| Projection.DispatchProjection.Refresh | crates/pluribus-cognition/src/dispatch.rs:1068-1126 | for every page size the incremental view stays equal to the fold of the log up to its position; it fails exactly at an unreadable cognition event |
| Projection.DispatchProjection.ResultFor | crates/pluribus-cognition/src/dispatch.rs:978-993 | returns the earliest terminal event naming the request by causation or payload |
| Projection.StaysCurrent | crates/pluribus-cognition/src/dispatch.rs:1068-1126 | appending to the log keeps a projection current up to its position, so refreshes may come at any time |
| Projection.FoldResults | crates/pluribus-cognition/src/dispatch.rs:1107-1125 | the recorded result is the earliest answer, and exists iff there is one |
| Projection.ResultStable | crates/pluribus-cognition/src/dispatch.rs:978-993 | once set, a result does not change when the log grows |
| Projection.FoldPending | crates/pluribus-cognition/src/dispatch.rs:1128-1171 | an observation is pending iff the last association of its component says so |
| Projection.FoldJobs | crates/pluribus-cognition/src/dispatch.rs:1128-1171 | a job's revision and status are those of its component's last update |
| Admission.StepKeeps | crates/pluribus-cognition/src/dispatch.rs:826-896 | every step of every host keeps that admitted calls and past handles hold pairwise different claims, each stored under the request's attempt key |
| Admission.AtMostOnce | crates/pluribus-cognition/src/agent.rs:1256-1291 | in every interleaving of hosts, crashes and retries a request is handled at most once, unless the declarations of a call for it map its capability to "inherent" |
| Admission.RepeatRuns | crates/pluribus-cognition/src/dispatch.rs:826-872 | in every run a call for a request the log has attempted never claims, and goes by what its declarations say about the capability |
| Admission.RepeatRunEnds | crates/pluribus-cognition/src/dispatch.rs:856-872 | unless its host ends it, such a call runs an inherent request again; for any other request it stores the attempt as unknown and the request as failed, by the right type, and does not run it |
| Admission.HandledWasRecorded | crates/pluribus-cognition/src/dispatch.rs:826-896 | whatever was handled has its attempt in the log |
| Dispatch.OffersIsAccepted | crates/pluribus-cognition/src/dispatch.rs:89-108 | for a provider subscribed only through its capabilities, polling accepts exactly the requests it offers |
| Dispatch.StepKeeps | crates/pluribus-cognition/src/agent.rs:979-1293 | every step of every run keeps that gating covers a prefix of the requests, cursors stand at decided requests, checkpoints never run ahead of them, and what is selected was authorized and open |
| Dispatch.HandledWasAuthorized | crates/pluribus-cognition/src/agent.rs:1136-1293 | a handled request is authorized for that provider, was so when chosen, had neither denial nor other result then, and has its attempt in the log |
| Dispatch.RefusedIsDenied | crates/pluribus-cognition/src/agent.rs:979-1065 | over every run, once a runner takes up a request that is refused or that nothing provides, it stands at denying it until the request has a result |
| Dispatch.HandledOnce | crates/pluribus-cognition/src/agent.rs:1256-1291 | over every run, of two calls of `handle` for one request at least one repeats an inherently idempotent request |
| Dispatch.AuthorizedIsOffered | crates/pluribus-cognition/src/dispatch.rs:940-970 | a request authorized for a provider is one that provider offers |
| DispatchLoss.StepGuards | crates/pluribus-cognition/src/agent.rs:1070-1293 | once authorized and with no live pass beyond it, no step of any runner exposes a request |
| DispatchLoss.LosableIff | crates/pluribus-cognition/src/agent.rs:979-1293 | in every reachable state some continuation loses an authorized request iff it is open and the cursor, or a pass whose checkpoint is the stored cursor, is beyond it |
| DispatchLoss.AuthorizationLoses | crates/pluribus-cognition/src/agent.rs:979-1065 | at the step that first authorizes a request, some continuation loses it iff nobody attempted it and a live scan for its provider has gone past it |
| DispatchLoss.NoneLost | crates/pluribus-cognition/src/agent.rs:1070-1293 | in every run that authorizes nothing behind a live scan no cursor passes an authorized request that has neither a result nor an attempt |
| DispatchLoss.OneHostLosesNothing | crates/pluribus-cognition/src/agent.rs:516-557 | a run in which one host gates and scans, with any workers in flight, crashes and restarts, loses nothing |
| DispatchLoss.TwoHostsLose | crates/pluribus-cognition/src/agent.rs:979-1293 | a reachable state of two hosts in which an authorized request is lost |
| Sessions.OpenSessions | crates/pluribus-cognition/src/dispatch.rs:757-793 | finds exactly the sessions whose last yield by the provider has no later completion or failure |
| Sessions.LostSessions | crates/pluribus-cognition/src/dispatch.rs:757-804 | the sessions to fail and the event to blame: the batch's last start, else the open yield |
| Sessions.Router.FailSessions | crates/pluribus-cognition/src/dispatch.rs:751-823 | adds the report of each lost and unreported session and nothing else |
| Sessions.ReportedOnce | crates/pluribus-cognition/src/dispatch.rs:805-822 | each lost session's source is reported by exactly one event; unless one was stored before, it is a `code.failed` that names source and session, says the outcome is unknown and carries the resource error |
| Sessions.ReportsTouchOnlyLost | crates/pluribus-cognition/src/dispatch.rs:805-822 | no report ends a session that was not lost, and none opens one |
| Sessions.SecondCallIdle | crates/pluribus-cognition/src/dispatch.rs:751-823 | a second identical call leaves the log unchanged |
| Sessions.NoneLeftOpen | crates/pluribus-cognition/src/agent.rs:647-684 | after a restart without a batch the provider has no open session left |
| Health.Tracker.Refresh | crates/pluribus-cognition/src/agent.rs:685-774 | for every page size memory becomes the fold of the health events read; it fails at the first unreadable one, and only there |
| Health.FoldEntry | crates/pluribus-cognition/src/agent.rs:685-774 | catching up leaves an entry as it was or makes it that of a replay from the start |
| Health.AbsorbMeans | crates/pluribus-cognition/src/agent.rs:707-770 | health events of anyone but the agent's node and operator change nothing; a recovery without a list clears the whole component, a failure withdraws it |
| Deferral.DelayBounds | crates/pluribus-cognition/src/agent.rs:838-839 | every delay lies in 1000..60000 ms and is nondecreasing in the failure count |
| Deferral.DelayDoubles | crates/pluribus-cognition/src/agent.rs:838-839 | the first delay is 1000 ms and each further failure doubles it up to 60000 ms |
| Deferral.RetryStored | crates/pluribus-cognition/src/agent.rs:838-852 | a failure that is not the last is counted up to its cap, and stored in memory and log with a retry time 1000 to 60000 ms after now |
| Deferral.Agent.DeferDelivery | crates/pluribus-cognition/src/agent.rs:776-853 | the new log, cursors and health of a failed delivery, in all branches |
| Deferral.BackoffLogged | crates/pluribus-cognition/src/agent.rs:838-852 | replaying a backoff event decides its own key only and gives what the host keeps in memory |
| Deferral.RecoveryClears | crates/pluribus-cognition/src/agent.rs:914-942 | replaying a recovery event clears exactly what the host clears in memory |
| Deferral.DeferKeeps | crates/pluribus-cognition/src/agent.rs:797-835 | the third failure stores the deferral and moves the cursor in one step and keeps the invariant |
| Deferral.StepKeeps | crates/pluribus-cognition/src/agent.rs:776-942 | failures, crashes, restarts, successes, resets and refreshes keep that a head still to be delivered has no more recorded failures than memory and log show |
| Deferral.PoisonCannotBlock | crates/pluribus-cognition/src/agent.rs:776-891 | over every run a head fails at most three times beyond unrecorded failures; at the third the cursor is past it and an event deferring it is stored; no deferral is stored without the cursor |
| Deferral.DeferredAtThird | crates/pluribus-cognition/src/agent.rs:776-836 | nothing is deferred early: in every run, when a failure stores a deferral the log already holds the first and then the second failure on that input |
| Deferral.UnrecordedFailuresUnbounded | crates/pluribus-cognition/src/agent.rs:776-853 | for every n a run in which one input fails n times, the host crashing before it records any, and the cursor is not past it |
| Authority.Decide | crates/pluribus-core/src/authority.rs:134-185 | allows by the first permitting grant; otherwise expiry, depth, the last policy error, a mismatch or a missing grant |
| Authority.DecisionUnique | crates/pluribus-core/src/authority.rs:134-185 | that meaning determines the decision |
| Authority.AllowedIff | crates/pluribus-core/src/authority.rs:134-185 | a request is allowed iff the authority has not expired, its depth is within bounds and a grant for any or this provider is accepted by the policy |
| Authority.IssueMeans | crates/pluribus-cognition/src/authority.rs:94-176 | an observation issues an authority iff it names provider, conversation and sender; if its field "trusted" is present and not true, without any grant or audience; otherwise with the standing grants and its replies confined to the conversation |
| Authority.BuildGrants | crates/pluribus-cognition/src/authority.rs:122-144 | standing grants with every reply capability replaced by its confined grant; nothing for an untrusted observation |
| Origins.Resolve | crates/pluribus-cognition/src/authority.rs:37-92 | the bounded loop computes the resolution function, errors included |
| Origins.ResolveMeaning | crates/pluribus-cognition/src/authority.rs:37-92 | succeeds with an authority iff a causation chain of at most 4096 events with falling sequences reaches a root observation that issues it, said on the payloads alone |
| Origins.CarriesRoot | crates/pluribus-cognition/src/authority.rs:52-85 | every observation on the chain carries the root's provider, sender, conversation and trust |
| Origins.ResolveStable | crates/pluribus-cognition/src/authority.rs:37-92 | extending the log does not change a resolved authority |
| Confinement.Assemble | crates/pluribus-cognition/src/dispatch.rs:154-172 | the selector is the joined texts of the parts in order: prefix and string or decimal number found at the location, nothing for a missing optional part; any other value, a missing part or no parts refuses |
| Confinement.SelectorMeans | crates/pluribus-cognition/src/dispatch.rs:154-172 | a request has a selector iff it presents such a text, and the selector is that text |
| Confinement.Project | crates/pluribus-cognition/src/dispatch.rs:136-180 | refuses iff some binding blocks the request; otherwise the selectors of the constrained bindings |
| Confinement.CheckGrant | crates/pluribus-cognition/src/authority.rs:178-204 | accepts iff no binding blocks and every constraint lists the selector of its name |
| Confinement.AllowsMeans | crates/pluribus-cognition/src/dispatch.rs:136-180 | a grant lets a request through iff its constraints are an object of lists, each containing the text presented for the binding of its name, and none that is required is left out |
| Confinement.RouteRequest | crates/pluribus-cognition/src/dispatch.rs:353-415 | delivers only to a sole candidate that the authority allows; otherwise no provider or the denial's reason |
| Confinement.DeliversIff | crates/pluribus-cognition/src/dispatch.rs:353-415 | with a sole provider a request is delivered, and to it, iff the authority empowers it: it has not expired, its depth is within bounds and one of its grants lets the request through |
| Confinement.ReplyConfined | crates/pluribus-cognition/src/authority.rs:122-144 | an observation's authority empowers a reply iff the payload does not say it is untrusted, the provider is the reply component and the arguments present its conversation |
| Confinement.StandingGrants | crates/pluribus-cognition/src/authority.rs:122-127 | it empowers any other capability iff the payload does not say it is untrusted and a standing grant lets the request through |
| Confinement.UntrustedRunsNothing | crates/pluribus-cognition/src/authority.rs:122-144 | no request whose chain ends in an observation that says it is untrusted is ever delivered |
| Confinement.ReplyEndToEnd | crates/pluribus-cognition/src/dispatch.rs:353-415 | a delivered request traces back along causation to a root observation that does not say it is untrusted, and a delivered reply to one of the same conversation |
| DerivedKeys.DerivedKeyInjective | crates/pluribus-runtime-wasm/src/lib.rs:590-598 | derived keys differ whenever phase, instance, checkpoint or ordinal differ, for every instance text |
| Retry.FinishLands | crates/pluribus-runtime-wasm/src/lib.rs:971-1009 | a commit after any crashes lands where the crash-free delivery lands |
| Retry.CrashRetryEquivalence | crates/pluribus-runtime-wasm/src/lib.rs:971-1009 | after its k-th commit a run with any crashes has the log, state and cursor of the crash-free run |
| Retry.FinishSettles | crates/pluribus-runtime-wasm/src/lib.rs:971-1009 | over every run, a commit moves the cursor to the delivered event if the handler advances and else leaves it, and each state key holds what the last mutation naming it says |
| Retry.AdvancedNeverAgain | crates/pluribus-runtime-wasm/src/lib.rs:971-1009 | after a commit that advances, every later delivery of the run is of a later event |
| Retry.ProposedOnce | crates/pluribus-runtime-wasm/src/lib.rs:1419-1600 | over every run with crashes, each proposal of each committed delivery, eager or final, is in the log exactly once, and as stamped unless its key was taken before |
| Retry.StoresOwn | crates/pluribus-runtime-wasm/src/lib.rs:1419-1600 | over every run, whatever it stores carries the guest's own component as actor, a cause and a key |
| Retry.StampedMeans | crates/pluribus-runtime-wasm/src/lib.rs:1419-1600 | a proposal keeps type, payload, activity and correlation; actor is the component, and the delivered event is the cause unless it names one |
| Runner.StepKeeps | crates/pluribus-runtime-wasm/src/runner.rs:256-489 | every step keeps the gate, flight, reply and history invariants and never moves the cursor back |
| Runner.CheckpointIsCursor | crates/pluribus-runtime-wasm/src/runner.rs:274-343 | whenever the gate is free the shared checkpoint is the stored cursor |
| Runner.BatchesDisjoint | crates/pluribus-runtime-wasm/src/runner.rs:419-489 | committed batches overlap neither each other nor anything skipped |
| Runner.OneReply | crates/pluribus-runtime-wasm/src/runner.rs:378-417 | a delivery gets at most one outcome, and none while it is in flight |
| Runner.ReplyMeans | crates/pluribus-runtime-wasm/src/runner.rs:378-417 | over every run a reply carries a checkpoint iff the history holds that delivery's advance to it; any other reply is an error |
| Runner.AnsweredIffLanded | crates/pluribus-runtime-wasm/src/runner.rs:191-223 | a delivery has an outcome exactly when it has left the inbox and the guest |
| Runner.CommitGoesThrough | crates/pluribus-runtime-wasm/src/runner.rs:419-489 | a validated commit never meets a conflict or a regression |
| Runner.SkipMoves | crates/pluribus-runtime-wasm/src/runner.rs:274-343 | a skip that holds the gate moves the cursor to its checkpoint, and never back |
| Runner.StuckIff | crates/pluribus-runtime-wasm/src/runner.rs:256-271 | no step is possible iff the source task ended with a delivery in its inbox |
| Runner.HandleAfterEnd | crates/pluribus-runtime-wasm/src/runner.rs:256-271 | a run that ends so |
| Rebuild.Instance.HighWater | crates/pluribus-runtime-wasm/src/lib.rs:759-767 | the scan ends at the last matching event |
| Rebuild.Instance.ReplayPage | crates/pluribus-runtime-wasm/src/lib.rs:767-829 | replays the own events of the next page on the projection and commits it with the marker; a failure changes nothing and names own events that come next and do not replay |
| Rebuild.Instance.Run | crates/pluribus-runtime-wasm/src/lib.rs:739-832 | whatever the projection holds, the batches replayed on it are the own events between old and new marker, in order; a finished run has replayed all of them |
| Rebuild.OwnMeans | crates/pluribus-runtime-wasm/src/lib.rs:767-829 | what is replayed is of a declared type and was appended by the instance's own component |
| Lifecycle.BatchesDoNotMatter | crates/pluribus-runtime-wasm/src/lib.rs:767-829 | for a replay that does not depend on batch boundaries, any way of cutting the batches is one replay |
| Lifecycle.RebuildsConcatenate | crates/pluribus-runtime-wasm/src/lib.rs:739-832 | over every life of crashes, rebuilds and active phases, the batches of all rebuilds concatenate to exactly the own events up to the marker |
| Lifecycle.FirstRebuildRestores | crates/pluribus-runtime-wasm/src/lib.rs:739-832 | a namespace that was never active is rebuilt to the replay from zero, wherever its rebuild resumes |
| Lifecycle.StandsIffAbsorbing | crates/pluribus-runtime-wasm/src/lib.rs:739-832 | in every state of every life, with crashes, active phases and own events delivered back, the projection is, or by finishing the rebuild becomes, the replay from zero iff replaying again what a reached projection holds changes nothing |
| Lifecycle.ReceiptsAbsorb | plugins/memory/contract.md:187-191 | a handler that keeps receipts meets that condition, whatever its effects are |
| Lifecycle.CounterIsNotRestored | crates/pluribus-runtime-wasm/src/lib.rs:739-832 | a counting handler does not, and some life of it is not restored |
| Pager.MatchingMeaning | crates/pluribus-core/src/event.rs:139-179 | a query matches exactly the events within its bounds that meet its conditions |
| Pager.Query | crates/pluribus-runtime-wasm/src/lib.rs:1619-1718 | in both branches a page is the shown part of a nonempty stretch of the matches and names its last sequence; it shows no incoming request of which the instance is neither listener nor consumer and nothing outside the conversation; empty only at the end, for limit 0, or refused for long text |
| Pager.ShownMeans | crates/pluribus-runtime-wasm/src/lib.rs:1674-1718 | an event is shown iff it is no such request and its payload, or else its arguments, name the conversation asked for |
| Pager.Utf8Counts | crates/pluribus-runtime-wasm/src/lib.rs:1624-1628 | the length the text is refused by counts the bytes of its UTF-8 encoding |
| Pager.ResumeMatches | crates/pluribus-runtime-wasm/src/lib.rs:1619-1718 | in both directions a continued filter matches exactly what came after |
| Pager.PagesCover | crates/pluribus-runtime-wasm/src/lib.rs:1619-1718 | reading to the end yields exactly the shown matches in order, no gap or repeat, in at most one page more than there are matches |
| Requirements.Search.Visit | crates/pluribus-plugin-package/src/lib.rs:195-213 | terminates; finished components stay closed under requirements at every step; a failure exhibits a cycle |
| Requirements.CheckRequirements | crates/pluribus-plugin-package/src/lib.rs:236-239 | accepts iff the requirement relation is acyclic |
| Requirements.ValidateReferences | crates/pluribus-plugin-package/src/lib.rs:194-259 | accepts iff paths, capabilities and credentials are distinct, references exist and requirements are acyclic; an error names a fault the manifest has |
| Blobs.MemoryStore.Write | crates/pluribus-core/src/blob.rs:229-273 | appends at the end, accepts a repeat of the last write, refuses conflicts and excess |
| Blobs.MemoryStore.Read | crates/pluribus-core/src/blob.rs:311-340 | a slice of matching content with its end mark, or the first error that applies |
| Blobs.RefusedMeans | crates/pluribus-core/src/blob.rs:120-155 | a read is refused as invalid iff algorithm, digest text or media type is malformed, or the offset lies past the stored end |
| Blobs.FileStore.Write | crates/pluribus-store-fs/src/lib.rs:269-316 | the same as the memory store, comparing length and digest instead of bytes |
| Blobs.FileStore.FinishPut | crates/pluribus-store-fs/src/lib.rs:155-217 | the same as the memory store; a file already there is verified, and the cache keeps matching stored bytes |
| Blobs.FileStore.VerifyFile | crates/pluribus-store-fs/src/lib.rs:318-339 | reports missing or mismatching content whether or not the reference is cached |
| Blobs.HashFile | crates/pluribus-store-fs/src/lib.rs:341-359 | hashing through a fixed buffer is the digest of the file |
| Blobs.ReadsDiffer | crates/pluribus-store-fs/src/lib.rs:239-266 | the stores' reads differ iff an unknown reference is read past its claimed end, and then only in the error |
| Blobs.ReadsDifferSomewhere | crates/pluribus-store-fs/src/lib.rs:239-266 | such a read exists: a reference to nothing stored, one byte past its claimed end |
| Blobs.Agree | crates/pluribus-store-fs/src/lib.rs:95-266 | for every sequence of operations both stores answer alike but for those reads |
| Blobs.PutStores | crates/pluribus-core/src/blob.rs:197-300 | from begin to finish the content is the concatenation of the accepted writes that repeat none, within both limits, and the reference names it |
| Blobs.StoredStays | crates/pluribus-core/src/blob.rs:275-300 | a stored reference keeps its content under every further operation |
| Blobs.PublishedReadsBack | crates/pluribus-core/src/blob.rs:311-340 | reading a finished reference in chunks of any sizes returns what was written |
| Sse.ParseSse | crates/pluribus-host-http/src/lib.rs:580-646 | the loop sends the frames and ends with the error of the line-by-line reading |
| Sse.FieldAtFirstColon | crates/pluribus-host-http/src/lib.rs:657-664 | looking for the first colon finds the same field |
| Sse.ClassifyMeans | crates/pluribus-host-http/src/lib.rs:608-664 | a line is blank, names the event or adds data exactly as it reads `name: value` or `name:value` |
| Sse.OthersIgnored | crates/pluribus-host-http/src/lib.rs:615-628 | any other line, comments included, changes nothing |
| Sse.RoundTrip | crates/pluribus-host-http/src/lib.rs:580-664 | printed frames within the grant read back as the same frames iff every frame is printable |
| Sse.BareIsMessage | crates/pluribus-host-http/src/lib.rs:600-614 | a frame without a name is a "message", also right after a named one, and the end of the stream closes it as a blank line does |
| Sse.OverLimit | crates/pluribus-host-http/src/lib.rs:596-604 | a body within the grant is never refused for its size; a larger one always ends in an error |
| StreamBudget.Stream.TakeReadBudget | crates/pluribus-host-stream/src/lib.rs:268-277 | caps a read at the remainder and fails iff nothing may be read |
| StreamBudget.Stream.FinishRead | crates/pluribus-host-stream/src/lib.rs:280-299 | delivers and charges a read that fits; otherwise gives up the remainder |
| StreamBudget.Stream.Charge | crates/pluribus-host-stream/src/lib.rs:203-210 | charges a send in full or not at all |
| StreamBudget.NeverOverspends | crates/pluribus-host-stream/src/lib.rs:197-299 | in every interleaving delivered, charged, forfeited and remaining bytes add up to the grant, so reads and sends never exceed it |
| StreamBudget.OverrunIsFinal | crates/pluribus-host-stream/src/lib.rs:280-299 | after a refused read nothing more is delivered or charged |
| StreamBudget.CeilingHolds | crates/pluribus-host-stream/src/lib.rs:97-114 | open connections never exceed the ceiling |

## Left out

- DispatchLoss.NoneLost: covers capability requests of providers subscribed through their capabilities; model and code requests need no decision and pass the gate untouched.
- Dispatch.StepKeeps: authority, expiry and job revision enter as the outcome of a step, since each outcome leaves a result or an attempt behind; worker limits and the wait for observations only delay steps.
- Dispatch.DecideKeeps: the gate's second queried type, `cognition.cancel-requested`, is not modelled.
- Deferral.PoisonCannotBlock: counts failures since the head last succeeded or its component was reset, of one host at a time; a wait until the retry time is allowed but not required.
- Deferral.StepKeeps: reset by a restarted session and by an operator are one step; withdrawing a trapped component is not modelled.
- Retry.CrashRetryEquivalence: deliveries of one event each; a batch of several would be retried with other batch boundaries.
- Rebuild.Instance.Run: the inactive instance appends no event of its own meanwhile, as the host arranges; the guest's replay is a function of the projection and the batch.
- Lifecycle.StandsIffAbsorbing: a handler's state change is the replay of the events it emits, as the plugin contract asks, and an own event delivered back is handled as it is replayed.
- Runner.StepKeeps: each batch handed over lies beyond the checkpoint and its caller waits, as the agent does; stopping is the end of the source task.
- Runner.CheckpointIsCursor: one process moves the cursor; a second host on the same cursor, as in `Dispatch.dfy`, can leave the shared checkpoint behind it.
- Runner.CommitGoesThrough: for the same reason; with a second host the commit meets a conflict and is refused.
- Sessions.Router.FailSessions: reports lost sessions in any order, the host by session name.
- Pager.Query: text matching is a function of the store, and positions are unbounded, while the SQLite store returns nothing for positions beyond 63 bits.
- Blobs.Agree: operations take effect one at a time and files change only through the store, so on-disk corruption and I/O errors do not occur; identifiers are the issued numbers without the store's name.
- Sse.ParseSse: transport errors and a receiver that goes away are not modelled, and UTF-8 validity is an arbitrary predicate.
- StreamBudget.NeverOverspends: bytes taken off the socket by a refused read are not delivered and not bounded.
- Admission.AtMostOnce: a quarantine is a call that never delivers; its claim may still name any instance as the provider.
- Admission.RepeatRunEnds: stored events keep the payload fields that some code of the model reads; provider, attempt number and message texts are left away, and one name stands for the host as actor.
- Subscriptions to model requests are part of polling only.
- Wasmtime, WASI, TLS, sockets, SMTP, real clocks, the SQLite schema, configuration, installation, the command line and the guest plugins are not modelled.
- Error texts, deferred-input compaction, blob visibility of guests and public-address tables would only add case-by-case definitions.
