# Registry, scheduler and evidence: a verified model

This project models the deterministic cores of an agent control plane and proves what they keep over every
input and every run.

* **The registry store** keeps role leases, durable requests and a backlog ledger in one SQLite database. The
  ledger is a pure state machine (`Ledger`); the store runs it inside transactions and writes only the
  difference (`Store`). The tables are maps keyed by primary key, a transaction is work that commits or rolls
  every row back, and time, fresh identifiers, the hash and the detector of credential-shaped text are
  parameters. `Registry` says what each operation does as one atomic step, the methods of
  `Store.RegistryStore` are proved to take exactly those steps, and `Steps`, `Runs`, `Fencing` and `Policies`
  prove what every run of such steps keeps. What each call does and when it succeeds is told on the tables before
  and after it, apart from the step functions: `Effects` and `Guards` for calls on requests and leases, `Joining`
  and `Dedupe` for which ingested work is the same, `Settling` for snapshots, and `Terms` for what the calls of a run
  make of a lease. `Readability` and `SnapshotTimes` say which calls keep a project readable. `Histories` shows two
  short runs.
* **The workflow scheduler** grants token reservations to agents (`Scheduler`) and runs each agent's attempts
  inside its grant (`Retries`).
* **Execution evidence** decides which lines of a log still count (`Evidence`, `Snapshots`).
* **Smaller cores**: the literal-word lexer and masker (`Lexer`), reload continuations (`Reload`), listing pages
  (`Listing`), backlog wakes (`Wake`), session leases (`Sessions`), snapshot decoding (`Decoding`), requirement
  chunks (`Chunks`) and when a request can be queued (`Enqueueing`), and runtime identities (`RuntimeIdentity`).

`dafny verify dfyconfig.toml` checks everything.

## How the registry part is built

`Tables` holds the rows and `Represents`: a ledger in memory holds exactly one project's rows, in any row order,
so nothing depends on an ORDER BY. `Invariants.Sound` is what every reachable state keeps: one lease row per
seat and per identifier, every row the reader checks, an unbroken path of allowed edges for every item, as many
terminal evidence rows as a closed item lists with each listed one present and none otherwise, stored evidence
for every reference an item in work shows and for every recorded start, and one open item per project and
dedupe digest.
`Refinement` shows that the row deltas and the in-memory ledger stay one. `Evolution` says how rows may change
from one step to the next. Identifiers of evidence and requirements are modelled down to their characters, and
their injectivity is proved, whatever colons the parts contain. No result needs the
hash to be injective: which sources are different work is told as far as it tells their texts apart
(`Joining.SameWorkJoins`).

## Where the code does less than one would expect

* The reader rejects a project when an item was last touched before its creation, and the operations that write an
  item do not compare their time with its creation. Which calls harm a readable project can be told beforehand: of all
  but snapshots exactly those that claim, advance, complete, fail or cancel a request, have something to write to the
  item behind it, and carry a time before that item's creation (`Readability.CallLoadsIff`); queueing requests, taking
  messages in and everything about leases never do. A snapshot does exactly when a group has an event for the item its
  sources name, in the state it found it in, and that item was created after the snapshot was observed
  (`SnapshotTimes.SnapshotLoadsIff`). A reachable state is readable exactly when no step ever recorded is stamped
  before its item's creation (`Runs.EveryStateLoadsIff`). `Histories.EarlyCancelLocksTheProject` is a run of two
  calls, a request and its cancellation two milliseconds earlier, after which the project does not load, and it never
  loads again unless it is cleared (`Runs.LockedStaysLocked`).
* Reconciling a snapshot twice is not always the same as once. `Examples` gives two branch-todo snapshots the
  decoder admits: a block reason with a leading space is blocked again every time, and a completed item whose identifier
  is another's up to a colon closes that other item. `ReconcileAgain.SecondRunChangesNothingIff` says exactly
  when the second run changes nothing, for todos of several pages too.
* The ledger allows evidence kinds of 256 characters, the reader 128. Every kind the store itself writes is
  short enough (`Soundness.PlanIsLegal` with `Soundness.ShortKinds`), so stored projects stay readable.
* The threat model (`pi/extensions/agent-registry/THREAT-MODEL.md:63`) says a lease is valid only for its policy
  digest. The code compares digests on heartbeats and when it resumes a paused lease, nowhere else: a lease is suspended
  exactly when a heartbeat since its grant carried another digest (`Policies.SuspendedIff`), so nothing is done under a
  lease after such a heartbeat (`Policies.NothingActsAfterAnotherPolicy`), and together with owner, expiry and pauses
  that is all that decides whether it may be used (`Policies.CurrentIff`); before such a heartbeat everything is done,
  whatever the policy is by then (`Policies.PolicyIsComparedOnHeartbeatsOnly`, `Histories.WorkIsClaimedUnderAnOldPolicy`).

## Model

| member | source | states |
|---|---|---|
| Ledger.EvidenceIdInjective | pi/extensions/agent-registry/backlog.ts:571-624 | two evidence identifiers agree only if item, revision, phase and index agree, whatever colons an item identifier contains |
| Ledger.RequirementIdInjective | pi/extensions/agent-registry/backlog.ts:522-533 | two requirement identifiers agree only if source kind, source identifier and index agree |
| Reingest.ReingestChangesNothing | pi/extensions/agent-registry/backlog.ts:436-458 | handing the ledger the same source again, in whatever dedupe mode, changes nothing and returns the same item |
| Joining.JoinInjective | pi/extensions/agent-registry/backlog.ts:435-435 | joined requirements determine the requirements, which are free of the separator |
| Joining.NormalizedIff | pi/extensions/agent-registry/backlog.ts:430-434 | requirements normalize to the same texts exactly when they say the same, word for word |
| Joining.IngestedItem | pi/extensions/agent-registry/backlog.ts:460-506 | a new source joins an item of its project that is its work already - open with the digest of its scope and requirements, of its own identity or of its canonical key, open with a source of the same requirements, or named outright - making it urgent if either is and never moving its time back; if it is nobody's work it starts an item that is told field by field |
| Joining.SameWorkJoins | pi/extensions/agent-registry/backlog.ts:471-496 | a source recognised by its exact content joins an open item that an earlier such source of the project started or joined, if scope and requirements are the same; if they are not, and the hash tells these very texts apart, it gets another item |
| Joining.IngestedRequirementsTell | pi/extensions/agent-registry/backlog.ts:513-534 | a new source is stored with kind, identifier, authority, time and content digest, and its requirements in order, each with its words joined by one space and its digest |
| Refinement.AdvanceRefines | pi/extensions/agent-registry/sqlite-store.ts:1485-1537 | after one UPDATE, one transition row and the new evidence rows, the reader would load exactly the advanced ledger |
| Refinement.IngestRefines | pi/extensions/agent-registry/sqlite-store.ts:1371-1452 | after the rows of an ingestion are written, the reader would load exactly the ingested ledger |
| Invariants.RecordsAreFresh | pi/extensions/agent-registry/sqlite-store.ts:1518-1536 | evidence recorded at the next revision never collides with a stored evidence row |
| Invariants.AdvanceKeepsLedgerSound | pi/extensions/agent-registry/backlog.ts:751-800 | every legal step of an item keeps all ledger invariants: safe rows, terminal evidence counted and listed, connected paths, recorded starts, one open item per digest |
| Invariants.AdvanceKeepsReferences | pi/extensions/agent-registry/backlog.ts:571-624 | every implementation, review and publication reference an item in work shows stays stored as evidence of its phase |
| Invariants.IngestKeepsLedgerSound | pi/extensions/agent-registry/backlog.ts:403-549 | ingesting a new source keeps all ledger invariants |
| Soundness.PlanIsLegal | pi/extensions/agent-registry/backlog.ts:571-749 | whatever the ledger plans for an item the reader accepts follows an allowed edge, stays acceptable to the reader and records exactly its evidence, if the event's evidence kinds have at most 128 characters |
| Soundness.PlanKeepsReferences | pi/extensions/agent-registry/backlog.ts:626-749 | moving on keeps the holder and every earlier reference, and a new reference is the one recorded for its phase |
| Soundness.RebindIsLegal | pi/extensions/agent-registry/sqlite-store.ts:1609-1644 | moving a held item to the replacement lease of the same session is a legal step |
| Soundness.AppendIsLegal | pi/extensions/agent-registry/sqlite-store.ts:1694-1738 | appending a completed request's missing evidence to a closed item is a legal step and keeps the outcome |
| Soundness.AfterRequestKeepsSound | pi/extensions/agent-registry/sqlite-store.ts:1539-1765 | whatever ledger step follows a request's new status keeps the ledger sound and moves only that project on, at the request's time |
| Loader.ReloadGivesTheSame | pi/extensions/agent-registry/sqlite-store.ts:1279-1349 | two ledgers that represent the same rows hold the same records, in whatever order |
| Loader.LoaderAcceptsIff | pi/extensions/agent-registry/sqlite-store.ts:1166-1347 | in a sound state the reader accepts a project exactly when no item of it was last updated before its creation |
| Reader.EveryProjectIsRepresented | pi/extensions/agent-registry/sqlite-store.ts:1279-1349 | every project of every sound state has a ledger that represents it |
| Reader.RevisionsRise | pi/extensions/agent-registry/backlog.ts:751-800 | the recorded steps of one item have strictly rising revisions |
| Evolution.AdvanceEvolves | pi/extensions/agent-registry/backlog.ts:751-800 | a legal step only extends the ledger: nothing recorded changes, one item moves on, a closed item keeps its outcome and evidence |
| Frames.ClearKeepsSound | pi/extensions/agent-registry/sqlite-store.ts:3396-3513 | clearing all but the kept projects leaves the rest sound: paths, evidence and starts of kept items survive whole |
| Steps.StepKeepsSound | pi/extensions/agent-registry/sqlite-store.ts:2705-3722 | every operation, successful or failed, keeps the tables sound |
| Steps.StepMovesOn | pi/extensions/agent-registry/sqlite-store.ts:1539-1765 | every operation but clearing only extends the ledger, changes items of one project only, stamps them with its own time, and changes none if that project does not load |
| Runs.EveryStateIsSound | pi/extensions/agent-registry/sqlite-store.ts:2705-3722 | every state of every run from empty tables is sound |
| Runs.LedgerOnlyGrows | pi/extensions/agent-registry/backlog.ts:631-634 | between any two states of a run without a clearing, items keep identity and digest, closed items never reopen or change outcome, and every source keeps naming the same item |
| Runs.StepLoadsIff | pi/extensions/agent-registry/sqlite-store.ts:1166-1173 | over any step but clearing a readable project stays readable exactly when every transition the step recorded there is stamped no earlier than its item's creation |
| Readability.RequestLoadsIff | pi/extensions/agent-registry/sqlite-store.ts:1539-1845 | after a successful claim, advance, completion, failure or cancellation the project loads exactly when the item behind the request had nothing to be written - not ready or to be rebound, phase already reached, evidence all listed, closed - or was created no later than the call says |
| Readability.IngestingKeepsReadable | pi/extensions/agent-registry/sqlite-store.ts:1371-1452 | queueing a request or taking a message in leaves every readable project readable, whatever time it carries |
| Readability.CallLoadsIff | pi/extensions/agent-registry/sqlite-store.ts:2705-3722 | any successful call but a snapshot or clearing leaves a readable project readable exactly when it does not write the item behind a request of that project with a time before the item's creation, which its caller can tell beforehand |
| SnapshotTimes.SnapshotLoadsIff | pi/extensions/agent-registry/sqlite-store.ts:2473-2694 | after a decoded snapshot a readable project loads exactly when every item that the last source of a group names, and that the group had an event for in the state the snapshot found it in, was created no later than the snapshot was observed |
| Runs.EveryStateLoadsIff | pi/extensions/agent-registry/sqlite-store.ts:1166-1173 | whatever times the operations carry, the reader accepts a project in a reachable state exactly when no recorded step of one of its items is stamped before that item's creation |
| Runs.EveryStateLoads | pi/extensions/agent-registry/sqlite-store.ts:1166-1173 | if no operation on the ledger is stamped before the creation of an item of its project, the reader accepts every project in every reachable state |
| Runs.ClockedIsPunctual | pi/extensions/agent-registry/sqlite-store.ts:1166-1173 | on a clock that never runs backwards no operation is stamped before the creation of an item |
| Runs.CancelLoadsIff | pi/extensions/agent-registry/sqlite-store.ts:3350-3394 | an open request of a readable project can be cancelled by its requester at any time, and the project stays readable exactly when the item was closed or was created no later than the cancellation says |
| Histories.EarlyCancelLocksTheProject | pi/extensions/agent-registry/sqlite-store.ts:3350-3394 | a run from empty tables, a request queued at 5 and cancelled at 3, ends with the project unreadable |
| Runs.LockedStaysLocked | pi/extensions/agent-registry/sqlite-store.ts:1279-1349 | a project that does not load never loads again in a run without a clearing |
| Runs.CompletionWasEarned | pi/extensions/agent-registry/backlog.ts:626-749 | an item completed out of work, not by appending, has an earlier assignment and an earlier start whose implementation reference is stored |
| Effects.CompletingCompletes | pi/extensions/agent-registry/sqlite-store.ts:1655-1742 | completing a request closes the item behind it as completed, listing the outcome and the summary of the request; if it was open, exactly one completion was recorded for it, out of work in hand, with a start before it if it was only assigned, and if it was completed already, exactly the entries it lacked were added; the evidence rows are exactly these and, for a start, its reference; the request says who completed it, when and with which summary |
| Effects.FailingDoes | pi/extensions/agent-registry/sqlite-store.ts:1752-1765 | failing a request records who failed it and how; the open item behind it is cancelled with the request as its evidence if the failure is a cancellation, and blocked with the reason spelled from the failure otherwise, in one recorded step; a closed item is left alone |
| Effects.CancellingCancels | pi/extensions/agent-registry/sqlite-store.ts:1744-1751 | cancelling a request withdraws it and cancels the open item behind it with the request as its evidence, in one recorded step; a closed item is left alone |
| Effects.ClaimingDoes | pi/extensions/agent-registry/sqlite-store.ts:1586-1653 | claiming a request names the caller in it; ready work is assigned to the caller, work the same session holds under another lease is handed over in its phase with its references, and other work is left alone |
| Effects.AdvancingDoes | pi/extensions/agent-registry/sqlite-store.ts:1767-1845 | advancing a request moves its item from the phase before into the named one with the trimmed reference, keeping holder and earlier references, in one step recorded for the caller with the reference as the phase's evidence, or finds it there with that reference and changes nothing |
| Guards.ClaimSucceedsIff | pi/extensions/agent-registry/sqlite-store.ts:3515-3572 | a claim succeeds exactly when the caller's lease of the request's seat is in force, the request is queued or the lease of its claim is gone or expired, the project loads, and - to assign ready work - the caller's name is an identifier |
| Guards.CompletionSucceedsIff | pi/extensions/agent-registry/sqlite-store.ts:3612-3669 | a completion succeeds exactly when the caller owns the claim under a lease in force, the summary may be kept, the project loads, and the item is assigned, in work or completed |
| Guards.FailureSucceedsIff | pi/extensions/agent-registry/sqlite-store.ts:3671-3722 | a failure can be recorded exactly when the caller owns the claim under a lease in force, the diagnostic may be kept and the project loads, whatever the item's state |
| Guards.CancellationSucceedsIff | pi/extensions/agent-registry/sqlite-store.ts:3350-3394 | a cancellation succeeds exactly for the requester of an open request whose project loads |
| Guards.AdvanceSucceedsIff | pi/extensions/agent-registry/sqlite-store.ts:1767-1845 | advancing succeeds exactly when the caller owns the claim, the project loads, the reference is safe text, and the item is held by the caller's lease in the phase before the named one, or in that one with the same reference |
| Guards.ReceivingDoes | pi/extensions/agent-registry/sqlite-store.ts:3253-3309 | receiving succeeds exactly for a queued request under the caller's lease of its seat in force, and stores its receipt; the same receipt again changes nothing |
| Guards.AcknowledgingDoes | pi/extensions/agent-registry/sqlite-store.ts:3311-3348 | acknowledging succeeds exactly for the requester of a closed request, and stores when |
| Guards.ClearingDoes | pi/extensions/agent-registry/sqlite-store.ts:3396-3513 | clearing keeps exactly the rows of the preserved projects, as they are |
| Fencing.StepKeepsDead | pi/extensions/agent-registry/sqlite-store.ts:2931-3184 | a lease that at some time is gone, expired or suspended stays so through any later operation that does not present it with an earlier time |
| Fencing.ActingNeedsALivingLease | pi/extensions/agent-registry/sqlite-store.ts:2374-2389 | pausing, resuming, receiving, claiming, advancing, completing or failing succeeds only under a lease that has its row, is unexpired and not suspended |
| Fencing.DeadLeaseNeverActs | pi/extensions/agent-registry/sqlite-store.ts:2374-2389 | once a lease is gone, expired or suspended at some time, nothing succeeds under it at that time or later, whatever times other operations carry |
| Fencing.StepMovesRequests | pi/extensions/agent-registry/sqlite-store.ts:3186-3722 | every operation but clearing moves every request along an edge of its life or leaves its status alone: claimed from the queue or from an unheld claim, closed by its claimant, withdrawn by its requester |
| Fencing.CarrierMadeTheLastClaim | pi/extensions/agent-registry/sqlite-store.ts:3515-3722 | whoever a claimed, completed or failed request names made the last successful claim of it |
| Fencing.ClosedRequestStaysClosed | pi/extensions/agent-registry/sqlite-store.ts:3350-3394 | a closed request keeps its status for ever, until cleared |
| Fencing.TakenOverOnlyWhenExpired | pi/extensions/agent-registry/sqlite-store.ts:3539-3552 | a claim passes to another lease only over a claiming step at whose time the first lease had no unexpired row |
| Fencing.TakenOverLeaseNeverActs | pi/extensions/agent-registry/sqlite-store.ts:3515-3722 | once a claim passed to another lease, the first lease does nothing more, if it is presented with no time before that claim |
| Policies.SuspendedIff | pi/extensions/agent-registry/sqlite-store.ts:3014-3078 | in every reachable state a lease is suspended exactly when a heartbeat since its grant carried another policy digest than the one it was granted under |
| Policies.NothingActsAfterAnotherPolicy | pi/extensions/agent-registry/sqlite-store.ts:2374-2389 | whatever succeeds under a lease, no heartbeat since its grant carried another policy digest |
| Policies.CurrentIff | pi/extensions/agent-registry/sqlite-store.ts:2374-2389 | in every reachable state a lease passes the check operations make exactly when it has its row, its owner presents it, it is unexpired and not paused, and no heartbeat since its grant carried another policy digest |
| Terms.EveryRowIsTold | pi/extensions/agent-registry/sqlite-store.ts:2931-3160 | in every reachable state a lease row says who claimed it, with what and when, as the call that granted it; it was last renewed by the last successful grant, heartbeat or resumption naming it and expires at that call's time plus the time it asked for; and it is paused exactly when it is not suspended and its last pause came after the grant and every resumption |
| Terms.HeldIff | pi/extensions/agent-registry/sqlite-store.ts:2931-3184 | in every reachable state a lease has its row exactly when it was granted - by a claim of a seat without an unexpired lease - and since then neither released, nor cleared with its project, nor swept away by a claim after it expired |
| Terms.UnexpiredIff | pi/extensions/agent-registry/sqlite-store.ts:3041-3046 | a lease is unexpired at a time exactly when it has its row and the time of its grant or its last heartbeat or resumption, plus the time that call asked for, is later |
| Terms.InForceIff | pi/extensions/agent-registry/sqlite-store.ts:2374-2389 | a lease is in force for a caller exactly when it has its row, the caller claimed it, its last renewal still lasts, it was not paused since the grant and the last resumption, and no heartbeat since the grant carried another policy digest |
| Guards.RenewalSucceedsIff | pi/extensions/agent-registry/sqlite-store.ts:3014-3184 | a heartbeat succeeds exactly on an unexpired lease of the caller's, even a suspended one; a pause needs one that is not suspended, a resumption a paused one granted under the presented policy, a release any; with valid times and policies |
| Guards.LeaseIsClaimedIff | pi/extensions/agent-registry/sqlite-store.ts:2931-3012 | a claim of a seat succeeds exactly with valid arguments, if the seat is taken or there is room for one more unexpired lease under a new identifier that ends in time |
| Policies.PolicyIsComparedOnHeartbeatsOnly | pi/extensions/agent-registry/sqlite-store.ts:3014-3078 | a lease in force stays in force under any other policy until the heartbeat that names it, which ends it at the same time |
| Histories.WorkIsClaimedUnderAnOldPolicy | pi/extensions/agent-registry/sqlite-store.ts:3515-3572 | a run from empty tables claims work under an old policy; after a heartbeat under the new one the same claim is refused |
| Store.RegistryStore.LoadBacklog | pi/extensions/agent-registry/sqlite-store.ts:1279-1349 | returns a ledger that represents the project's rows, or corruption exactly when some item was updated before its creation |
| Store.RegistryStore.InsertEvidence | pi/extensions/agent-registry/sqlite-store.ts:1518-1536 | the loop inserts exactly the records the prior ledger does not hold and never meets a taken key |
| Store.RegistryStore.PersistTransition | pi/extensions/agent-registry/sqlite-store.ts:1485-1537 | the rows afterwards are exactly the row step of the transition |
| Store.RegistryStore.PersistIngestion | pi/extensions/agent-registry/sqlite-store.ts:1371-1452 | the rows afterwards are exactly the row step of the ingestion, nothing for a known source, an error for a taken key |
| Store.RegistryStore.MoveItem | pi/extensions/agent-registry/sqlite-store.ts:1561-1585 | one transition in the held ledger and in the rows: they still represent each other, or the ledger's own error |
| Store.RegistryStore.FollowClaim | pi/extensions/agent-registry/sqlite-store.ts:1587-1653 | an item follows a claimed request: nothing for its own claim, a verified rebind within one session, an assignment of ready work |
| Store.RegistryStore.AppendEvidence | pi/extensions/agent-registry/sqlite-store.ts:1669-1738 | a closed item takes exactly the completion evidence it does not list yet |
| Store.RegistryStore.FollowCompletion | pi/extensions/agent-registry/sqlite-store.ts:1655-1742 | an item follows a completed request: started if only assigned, completed if open, extended if completed, refused if cancelled |
| Store.RegistryStore.TransitionRequestBacklog | pi/extensions/agent-registry/sqlite-store.ts:1539-1765 | the ledger step a request's status calls for, exactly |
| Store.RegistryStore.Claim | pi/extensions/agent-registry/sqlite-store.ts:2931-3012 | prunes expired leases, then returns the seat's lease or grants a new one within capacity |
| Store.RegistryStore.Heartbeat | pi/extensions/agent-registry/sqlite-store.ts:3014-3078 | extends an unexpired lease and suspends it, for good, under another policy digest |
| Store.RegistryStore.Pause | pi/extensions/agent-registry/sqlite-store.ts:3080-3106 | pauses an unexpired, unsuspended lease of the caller |
| Store.RegistryStore.Resume | pi/extensions/agent-registry/sqlite-store.ts:3108-3160 | resumes a paused, unexpired lease under the same policy digest |
| Store.RegistryStore.Release | pi/extensions/agent-registry/sqlite-store.ts:3162-3184 | deletes the caller's lease |
| Store.RegistryStore.Enqueue | pi/extensions/agent-registry/sqlite-store.ts:3186-3251 | stores a validated request and ingests its chunks, together or not at all |
| Store.RegistryStore.IngestMessage | pi/extensions/agent-registry/sqlite-store.ts:2448-2471 | ingests a message as unreconciled work |
| Store.RegistryStore.ReceiveRequest | pi/extensions/agent-registry/sqlite-store.ts:3253-3309 | a queued request takes one receipt per lease and agent |
| Store.RegistryStore.AcknowledgeRequest | pi/extensions/agent-registry/sqlite-store.ts:3311-3348 | only the requester acknowledges, and only a closed request |
| Store.RegistryStore.CancelRequest | pi/extensions/agent-registry/sqlite-store.ts:3350-3394 | only the requester cancels, and only an open request; its item follows |
| Store.RegistryStore.ClaimRequest | pi/extensions/agent-registry/sqlite-store.ts:3515-3572 | a current lease of the seat claims a queued request or one whose claim has no unexpired lease |
| Store.RegistryStore.AdvanceRequest | pi/extensions/agent-registry/sqlite-store.ts:1767-1845 | the claimant moves the item to the next phase, or finds it there with the same reference |
| Store.RegistryStore.CompleteRequest | pi/extensions/agent-registry/sqlite-store.ts:3612-3669 | the claimant completes the request and its item follows |
| Store.RegistryStore.FailRequest | pi/extensions/agent-registry/sqlite-store.ts:3671-3722 | the claimant fails the request and its item is blocked or cancelled |
| Store.RegistryStore.IngestRecords | pi/extensions/agent-registry/sqlite-store.ts:2508-2531 | a group's records are ingested one after the other, each into the item of the one before |
| Store.RegistryStore.ReconcileGroup | pi/extensions/agent-registry/sqlite-store.ts:2489-2586 | one group is ingested and its item brought to the group's status, exactly |
| Store.RegistryStore.ReconcileFeed | pi/extensions/agent-registry/sqlite-store.ts:2473-2589 | all groups in order over the held ledger, or the first error |
| Store.RegistryStore.ReconcileBranchTodos | pi/extensions/agent-registry/sqlite-store.ts:2591-2694 | the same for a branch's todos |
| Store.RegistryStore.ClearExceptProject | pi/extensions/agent-registry/sqlite-store.ts:3396-3513 | deletes requests, leases and items outside the kept projects with all rows of those items |
| Store.RegistryStore.Transact | pi/extensions/agent-registry/sqlite-store.ts:163-194 | an operation takes its step exactly, or fails with that step's error and leaves every row as it was; the tables stay sound |
| Reconcile.GroupsKeepInStep | pi/extensions/agent-registry/sqlite-store.ts:2473-2589 | however many groups were reconciled, the tables are sound, the held ledger is what the reader would load, and only the snapshot's project moved on |
| Reconcile.RegroupDistinct | pi/extensions/agent-registry/sqlite-store.ts:2479-2487 | distinct identifiers give one group per record, in order |
| ReconcileAgain.GroupOutcome | pi/extensions/agent-registry/sqlite-store.ts:2489-2586 | a group of any number of records is left out without a trace, or all its sources are stored with its content and its item is closed or where the group wants it |
| Settling.GroupSettles | pi/extensions/agent-registry/sqlite-store.ts:2648-2681 | a group that is not left out leaves the item its last source names in the state it asks for - closed with the report as evidence, blocked for its trimmed reason, open and no longer blocked, or closed before and as it was - and every other item as it was found, new ones ready |
| Settling.SnapshotSettles | pi/extensions/agent-registry/sqlite-store.ts:2473-2694 | a reconciled snapshot leaves every item in the state its groups ask of it one after the other, from the state it was found in, and an item that none of its sources names as it was |
| Settling.CanonicalSettles | pi/extensions/agent-registry/sqlite-store.ts:2473-2589 | after a tracker or document snapshot, an item that one reported record alone names is in the state this record asks of it, with the source kind's status entry and the scoped identifier as evidence, and every recorded step is the adapter's |
| Settling.BranchSettles | pi/extensions/agent-registry/sqlite-store.ts:2591-2694 | after a branch snapshot, an item that one todo alone names is in the state this todo asks of it, with the branch-todo status entry and the todo's identifier as evidence, and every recorded step is the adapter's |
| Settling.LeftOutIff | pi/extensions/agent-registry/sqlite-store.ts:2620-2625 | a group is left out exactly when it reports completed or cancelled work and no source of its project has its prefix |
| Settling.RecordJoins | pi/extensions/agent-registry/sqlite-store.ts:2628-2647 | a record whose source is new joins the item in hand if there is one, else an open item with its canonical key or its requirements, else it starts a ready one; its source is stored as reported |
| Settling.GroupSharesAnItem | pi/extensions/agent-registry/sqlite-store.ts:2612-2647 | all new sources of a group name one item: the one an earlier source with the group's prefix names, or whichever the first of them joined |
| ReconcileAgain.GroupsAreDone | pi/extensions/agent-registry/sqlite-store.ts:2473-2589 | after a run every stored group's item is closed or where some group of that item wants it, and every other group was closed from the start |
| ReconcileAgain.SecondRunChangesNothingIff | pi/extensions/agent-registry/sqlite-store.ts:2473-2589 | reconciling the same decoded snapshot again, in any row order and with any fresh identifiers, changes nothing exactly when the project still loads, no left-out group's prefix is taken, open items' block reasons are trimmed and groups sharing an open item ask for the same |
| Decoding.AcceptedIsDecoded | packages/work-core/src/canonical-backlog.ts:122-141 | every canonical snapshot its decoder accepts is decoded in the sense of the reconciliation results |
| Decoding.BranchTodos | pi/extensions/shared/backlog-events.ts:104-165 | the decoder's loops accept exactly the todos with distinct sources under their identifiers whose pages are complete, distinct and agree |
| Decoding.AdmittedIsDecoded | pi/extensions/shared/backlog-events.ts:104-165 | every branch-todo snapshot its decoder accepts, paged or not, is decoded in the sense of the reconciliation results |
| Decoding.RegroupedStaysApart | pi/extensions/agent-registry/sqlite-store.ts:2597-2606 | grouping records of distinct sources by identifier keeps the groups' sources apart |
| Examples.UntrimmedReasonIsBlockedAgain | pi/extensions/agent-registry/sqlite-store.ts:2656-2669 | a concrete snapshot its decoder accepts, with an untrimmed block reason: the whole reconciliation, done again on what it stored, blocks the item once more with one more transition |
| Examples.PrefixClashClosesAnotherItem | pi/extensions/agent-registry/sqlite-store.ts:2612-2619 | a concrete snapshot its decoder accepts, with a completed item whose identifier is another's up to a colon: the first reconciliation leaves the other item ready, the second closes it |
| Decoding.CanonicalItems | packages/work-core/src/canonical-backlog.ts:122-141 | the loop accepts exactly the lists of canonical items without a repeated identifier or source |
| Enqueueing.AcceptedTextPasses | pi/extensions/agent-registry/sqlite-store.ts:1351-1369 | every text the store accepts for a request splits into at most three chunks, all of which pass as requirements and which the canonical source would make of it as well |
| Enqueueing.EnqueuedIff | pi/extensions/agent-registry/sqlite-store.ts:3186-3251 | with fresh identifiers a request is queued exactly when there is room, its arguments are valid and its project loads; the ingestion of its own chunks is never refused |
| Dedupe.EnqueueingDoes | pi/extensions/agent-registry/sqlite-store.ts:3186-3251 | queueing stores the request as given, and its work under it: with the open item of the project that has the digest of its role and text, or with a new ready item if there is none |
| Dedupe.MessageDoes | pi/extensions/agent-registry/sqlite-store.ts:2448-2471 | a new message joins the open item of the project that has the digest of its text, or starts an item that is not reconciled; a known message changes nothing |
| Dedupe.EveryRequestIsTold | pi/extensions/agent-registry/sqlite-store.ts:1461-1483 | in every reachable state the item behind a request has the digest of that request's role and text |
| Dedupe.SameWorkSharesAnItem | pi/extensions/agent-registry/backlog.ts:471-496 | in every run a queued request shares the open item behind an earlier request of its project, if role and text are the same, word for word; if they are not, and the hash tells these texts apart, it gets another item |
| Dedupe.OtherWorkGetsAnItem | pi/extensions/agent-registry/backlog.ts:485-506 | in every run a request whose role and text no open item of its project has gets an item of its own: new, ready, with the request's priority and time |
| Chunks.RequestRequirements | pi/extensions/agent-registry/sqlite-store.ts:1351-1369 | the loop terminates with the chunks of the text |
| Chunks.ChunksPartition | pi/extensions/agent-registry/sqlite-store.ts:1351-1369 | for every text the chunks concatenate to it, have 1 to 4,000 units each and split no surrogate pair |
| Chunks.ChunksAreFull | pi/extensions/agent-registry/sqlite-store.ts:1351-1369 | every chunk but the last has 4,000 units, or 3,999 where the next one starts with a high surrogate |
| Chunks.BacklogRequirementsFromText | packages/work-core/src/canonical-backlog.ts:27-51 | the non-blank chunks of control-free text, or nothing when there are more than the maximum |
| RuntimeIdentity.ParsePrinted | pi/extensions/agent-registry/runtime-identity.ts:8-24 | parsing a printed identifier gives session and process back, exactly for non-empty sessions and representable positive process numbers |
| RuntimeIdentity.PrintParsed | pi/extensions/agent-registry/runtime-identity.ts:13-24 | only printed identifiers parse |
| RuntimeIdentity.SameSessionOnPrinted | pi/extensions/agent-registry/runtime-identity.ts:26-35 | two printed identifiers are of one session exactly when their sessions are equal |
| Sessions.ReconcileSessionLease | pi/extensions/agent-registry/registry.ts:315-338 | for a canonical role name, afterwards the seat is held by another agent, or by this one under the policy it asked for and not suspended |
| Links.EveryRequestIsLinked | pi/extensions/agent-registry/sqlite-store.ts:3186-3251 | in every reachable state every request has its source row and, behind it, an item of the request's project, so the missing-link branches of the store are never taken |
| Projection.ProjectionIgnoresOrder | pi/extensions/agent-registry/backlog.ts:802-827 | the counts do not depend on the order of the items |
| Projection.StepMovesOneCount | pi/extensions/agent-registry/backlog.ts:751-827 | a step of one open item moves exactly that item from count to count, and out of the total when it closes |
| Scheduler.FlushIsSafe | pi/extensions/classified-workflows/core.ts:1115-1154 | a flush grants at least 4,000 tokens each and never beyond the budget, refuses only when nothing is reserved and less than 4,000 is left, and leaves agents waiting only behind outstanding grants |
| Scheduler.FlushMovesTheQueue | pi/extensions/classified-workflows/core.ts:1115-1154 | with nothing outstanding a flush grants the first waiting agent, or refuses everyone exactly when less than 4,000 tokens are left |
| Scheduler.WaveIsFair | pi/extensions/classified-workflows/core.ts:1115-1154 | one flush of a first wave of k agents grants them all, each at least the per-agent floor, any two within one token, together the budget less 4,000 for every agent that may still come |
| Scheduler.WaveIsShared | pi/extensions/classified-workflows/core.ts:1115-1154 | whatever was used and is reserved and however many agents the phase has had: if what is left beyond 4,000 for every agent that may still come is a per-agent floor for each of the k who wait, one flush grants them all, the i-th an equal share, the last ones one token more, exactly all of it together |
| Scheduler.ShortageIsServed | pi/extensions/classified-workflows/core.ts:1115-1154 | if it is not, the first get floors while what is left at all lasts and the rest waits; with nothing outstanding and less than a floor left, the first gets what is left if that is 4,000, and otherwise everyone is refused |
| Scheduler.ServedFromHead | pi/extensions/classified-workflows/core.ts:1115-1154 | serving a queue by the grants computed for all of it is looking at its head again and again: it waits, everyone is refused, or it is granted its offer |
| Scheduler.TokenScheduler.Flush | pi/extensions/classified-workflows/core.ts:1115-1154 | the loop serves the queue exactly; told from the queue before it, everyone waiting is granted an equal share of what is left beyond 4,000 for every agent that may still come, if that is a floor for each, or the first get floors while what is left lasts, or with nothing outstanding what is left, or everyone is refused; used and reserved tokens stay within the budget if anything was granted, and whoever still waits waits behind a grant |
| Scheduler.TokenScheduler.Reserve | pi/extensions/classified-workflows/core.ts:1349-1356 | a reservation joins the end of the queue and a flush is scheduled |
| Scheduler.TokenScheduler.Settle | pi/extensions/classified-workflows/core.ts:1461-1466 | a returning agent's usage is counted and its grant freed; reserved tokens stay the sum of outstanding grants, the excess over the budget stays within the total overshoot, and a waiting queue gets a flush |
| Scheduler.TokenScheduler.StartPhase | pi/extensions/classified-workflows/core.ts:1489-1511 | a phase starts exactly when its title is not blank and has at most 80 characters, nothing waits, runs, is reserved, refused or being probed, and fewer than 16 phases were used |
| Retries.RunAttempts | pi/extensions/classified-workflows/core.ts:1361-1405 | at most retries + 1 attempts, each limited to what is left of the grant and never below 4,000 tokens; only runs that neither complete, nor report being blocked, nor run out of budget are tried again, and only the end of retries or tokens stops them; the status is that of the last run, failed for want of tokens, timed out or failed for a run that threw; the waits are the back-offs of the unsettled attempts, and with attempts that keep a time limit they fit the retry envelope of that limit |
| Retries.CallAgent | pi/extensions/classified-workflows/core.ts:1361-1460 | after the attempts a repair runs exactly for completed structured output that does not validate with 4,000 tokens left, limited to what is left; the plain result is returned exactly for unstructured or blocked calls, with the status the attempts ended with, failed beyond the grant; structured output exactly if it validates within the grant |
| Retries.AttemptsKeepTheGrant | pi/extensions/classified-workflows/core.ts:1368-1383 | if every attempt keeps its limit, all together keep the grant |
| Retries.AttemptsFitTheEnvelope | pi/extensions/classified-workflows/core.ts:1609-1616 | whatever time limit every attempt keeps, attempts and back-offs together fit the retry envelope of that limit |
| Retries.EnvelopeIsReached | pi/extensions/classified-workflows/core.ts:1609-1616 | no smaller envelope would do: attempts that all use up their time and fail need exactly this much |
| Retries.WaitsAreCapped | pi/extensions/classified-workflows/core.ts:1578-1585 | the waits add up to half a second, doubled each time up to five seconds |
| Retries.AttemptsFitTheWorkflow | pi/extensions/classified-workflows/core.ts:1618-1662 | under validated limits the attempts and waits of a call whose attempts keep their time limit fit the workflow's time limit |
| Evidence.CoveringRunsASuperset | pi/extensions/classified-workflows/execution-evidence.ts:717-763 | a covering verification makes every check the covered one makes, whatever the targets and filters mean |
| Evidence.NotCoveringMissesACheck | pi/extensions/classified-workflows/execution-evidence.ts:717-763 | and only a covering one does: where covering says no, targets and filters may be such that the covered run makes a check the other one misses, if the covered one names a package at all |
| Evidence.SupersededIffMadeGood | pi/extensions/classified-workflows/execution-evidence.ts:1312-1346 | a failure no longer counts exactly when a later success, whose scope and nothing in an unknown place was changed from it on, was given the same input in the same scope or makes every check of the failed run |
| Evidence.SupersededFailures | pi/extensions/classified-workflows/execution-evidence.ts:1312-1346 | the backward scan marks exactly the failures that some later success, not followed by a change in its scope, repeats or covers |
| Evidence.NarrowerFailuresAreClearedToo | pi/extensions/classified-workflows/execution-evidence.ts:1333-1343 | a success that clears a failure, by the same input or by covering it, also clears every failure before it that the cleared one covers |
| Snapshots.SupersededSnapshots | pi/extensions/classified-workflows/execution-evidence.ts:1444-1484 | the map-based pass marks exactly the in-scope snapshots replaced by a later one of their kind and anchor, claims and phases of a request closed anywhere in the log, and projections followed by a full status |
| Snapshots.CurrentIff | pi/extensions/classified-workflows/execution-evidence.ts:1444-1484 | a snapshot counts exactly when none of its kind and anchor follows in its scope, its request - if it claims or advances one - is nowhere completed or terminated there, and no full status follows an unanchored projection |
| Lexer.LiteralWords | pi/extensions/classified-workflows/non-path-arguments.ts:8-61 | the scanning loops return the literal words of a command or nothing |
| Lexer.WordsArePlaced | pi/extensions/classified-workflows/non-path-arguments.ts:8-61 | the words stand in order at places that spell them, with nothing but spaces and tabs outside |
| Lexer.LexPrinted | pi/extensions/classified-workflows/non-path-arguments.ts:8-61 | lexing the space-joined raw words gives the same words back |
| Lexer.MaskLiteralNonPathArguments | pi/extensions/classified-workflows/non-path-arguments.ts:115-129 | the argument scans and the masking map compute the masked view |
| Lexer.MaskChangesOnlyLiterals | pi/extensions/classified-workflows/non-path-arguments.ts:63-129 | the masked command has the same number of words and differs only at literal arguments, never at the executable |
| Lexer.MaskIsIdempotent | pi/extensions/classified-workflows/non-path-arguments.ts:63-129 | masking twice is masking once |
| Lexer.DiskLiteralsAre | pi/extensions/classified-workflows/non-path-arguments.ts:63-96 | the literal arguments of a du command are exactly the words after a -I that is not literal itself, and every other word with a dash in front is a known flag |
| Lexer.IssueLiteralsAre | pi/extensions/classified-workflows/non-path-arguments.ts:98-113 | a new issue's arguments are masked exactly if there are only known options with arguments, and then exactly those of its body and title |
| Reload.HasHumanInputAfterLastContinuation | pi/extensions/auto-reload/core.ts:218-247 | the backward search answers whether a human spoke since the last recorded delivery |
| Reload.LatestResumeMarker | pi/extensions/auto-reload/core.ts:291-311 | the backward search finds the latest resume marker |
| Reload.ManagedReloadDelivery | pi/extensions/auto-reload/core.ts:315-329 | the decision as a function of the log and the session |
| Reload.DeliveryIff | pi/extensions/auto-reload/core.ts:218-329 | a waiting marker resumes the session or, with a question open, is consumed on display; a follow-up goes out exactly when no question is open, no marker and no message waits, the session is not paused, there is work, and a human spoke after every recorded continuation |
| Reload.FollowUpNeedsHumanInput | pi/extensions/auto-reload/index.ts:368-382 | in every run, between any recorded delivery and a later follow-up a human spoke |
| Reload.EachMarkerIsConsumedOnce | pi/extensions/auto-reload/index.ts:857-863 | in every run, two consumed records answer two different pending markers, each made before its own record and after the earlier one |
| Listing.OneRequestOrder | pi/extensions/agent-registry/listing.ts:137-154 | however rows arrive and are sorted, requests with distinct identifiers are listed in one order |
| Listing.RequestOrder | pi/extensions/agent-registry/listing.ts:145-154 | the request order is total and only equal identifiers tie |
| Listing.SortedListing | pi/extensions/agent-registry/listing.ts:145-154 | in a sorted listing urgent requests come first, then older ones, then lesser identifiers |
| Listing.TextLeIff | pi/extensions/agent-registry/listing.ts:137-144 | texts are ordered by the first unit in which they differ, a shorter one before what it starts |
| Listing.PageIsRefusedIff | pi/extensions/agent-registry/listing.ts:167-203 | a page is refused exactly for a limit outside of 1 to 20, a negative offset, or one beyond every section |
| Listing.PagesCoverTheListing | pi/extensions/agent-registry/listing.ts:167-203 | following the offsets from 0 is never refused, ends, and gathers every section exactly once in order |
| Listing.BoundedLine | pi/extensions/agent-registry/listing.ts:228-240 | at most 512 bytes: the line itself, or its longest prefix of 509 bytes and three dots |
| Wake.ScanEntries | pi/extensions/agent-registry/backlog-wake.ts:127-176 | only the latest pause and the latest circuit entry decide, the later objection first |
| Wake.DigestsByItem | pi/extensions/agent-registry/backlog-wake.ts:207-212 | one pass gathers every item's requirement digests in order |
| Sorting.SortSorts | pi/extensions/agent-registry/backlog-wake.ts:213-236 | sorting by a total order gives a permutation in order |
| Wake.WakeContent | pi/extensions/agent-registry/backlog-wake.ts:186-236 | filtering, sorting and gathering yield exactly the actionable items by identifier, their distinct digests in order and the least external source of each of the first five |
| Wake.OperationalBacklogWake | pi/extensions/agent-registry/backlog-wake.ts:116-253 | the whole decision: silent for an inactive session, an objection, no lease, no work or the last fingerprint; corrupt entries refused; else a plan of the composed content |
| Wake.WakesIff | pi/extensions/agent-registry/backlog-wake.ts:116-253 | a wake is planned only for an active session with its tools and room for a message, whose last pause was lifted and last circuit closed, with an operational lease in force and outside work that is ready or held under such a lease; and then it is planned unless its fingerprint is the last one |
| Wake.PlanIgnoresRowOrder | pi/extensions/agent-registry/backlog-wake.ts:186-253 | permuting items, sources and requirements changes neither the decision nor the plan, its fingerprint, count and references |
| Wake.ReloadingGivesTheSamePlan | pi/extensions/agent-registry/backlog-wake.ts:116-253 | two readings of the same tables, in whatever row order, give the same decision |
| Wake.WakeController.Reconcile | pi/extensions/agent-registry/backlog-wake.ts:78-113 | a wake is sent only in the running session it was begun in, and never with the fingerprint that session heard last |

## Left out

- SQLite: transactions are taken as atomic and primary keys and the lease-identifier constraint as enforced; journaling, schema migration, backfill, connection handling and file permissions are not part of this model.
- Row encoding: JSON columns, row decoding and the length limits of identifier columns; rows are typed values, and the reader's checks on texts, revisions, times and evidence are kept.
- ORDER BY: rows are read in any order, so every result holds for the orders the queries ask for.
- Project paths: a project is its canonical path; canonicalization is not modelled, and "within the preserved project" is a predicate on projects.
- Agent presence: the agents table, its heartbeats, token usage, runtime versions and the migration of legacy runtime identities.
- Optional request labels and the requester's directory.
- The hash and the detector of credential-shaped text are arbitrary functions; no claim needs the hash to be injective, and those about different work name the texts it has to tell apart.
- Fresh identifiers are parameters; one fresh identifier per record is drawn by its source identifier in a reconciliation.
- Store.RegistryStore.Transact: does not return the operation's value, which the operation's own method states.
- Dedupe.SameWorkSharesAnItem: assumes, as Dedupe.OtherWorkGetsAnItem does, that messages and snapshots carry their own source kinds, which the types of these inputs demand (`pi/extensions/shared/backlog-events.ts:182`, `packages/work-core/src/canonical-backlog.ts:53`).
- Fencing.DeadLeaseNeverActs: assumes a lease identifier is not drawn a second time.
- The ledger's limit of 32 evidence entries is not an invariant: appending to a closed item may exceed it, in the code as here.
- Retries.RunAttempts: does not model the workflow being aborted, which only ends the loop earlier; queue waits and the repair run are outside the time envelope, as they are in the limits the code validates.
- Scheduler.TokenScheduler: each event-loop turn is one method; concurrency limits and the phase agent limit are not claimed, because the code checks them before it waits.
- Log lines are taken as parsed; the regular expressions, digests and text rendering are not modelled. That two lines of one input and scope name the same check, as they are written, is an assumption of Evidence.NarrowerFailuresAreClearedToo.
- A session has one waiting reload continuation; the host-migration path records deliveries the same way and is not modelled apart. Paused state, pending questions and open work are inputs of the decision.
- Wake.OperationalBacklogWake: locale comparison is any total preorder on texts, which for the results about row order tells identifiers apart, and the hash is any function; parsing of the session's entries and of the receipt's availability is an input.
- The classifier and the executor, which see the unmasked command, are not part of this model.
- Request details, presentation, the collector and the ingest tool: input validation and rendering without a deep property.
