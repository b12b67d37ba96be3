# Verified models of the runtime controller's protocols

This project models the parts of the runtime controller whose correctness depends on every
interleaving, every crash point or every input, and proves what they keep. It covers the controller's
checkout-writer fence, the repository cache, continuity source selection, crash-safe checkout
publication, image mount admission, the worker session supervisor with its ancestry test, the
Kubernetes identity protocols, and the event-stream reader. `dafny verify dfyconfig.toml` checks all of it.

Where the source changes state, the model is a class whose methods follow the source's functions, proved
against a specification function or a step system; the laws are then lemmas about that specification.
`{:induction false}` marks lemmas whose proofs are their bodies.

## The models

**Checkout fence** (`CheckoutJournal`, `CheckoutController`, `CheckoutFence`). The journal's four
transitions are a class over a map of grants. The critical sections under `checkoutMu` are methods of
`Controller`, each tied to a function on the view of one attempt, and the same functions are the steps of
a transition system with concurrent recoveries and stops, crashes and restarts between any two steps,
kubelet evidence, and a log of writes, syncs and acknowledgements. `Fenced` says that every write precedes
a sync that precedes the acknowledgement. The fence rests on one observation: the container that
`ControllerProcess` reports must be the one the controller runs in. `ReservationSafeIffSelfObserved` shows
that this is exactly the condition: with any other identity in a reservation some continuation writes
after the acknowledgement.

**Repository cache** (`Counting`, `RepoCache`, `RepoCacheInvariant`, `RepoCacheSteps`, `RepoCacheRuns`,
`RepoCacheHonesty`, `RepoCacheDamage`, `RepoCacheManager`). Each critical section under the manager's lock
or an entry's lock is one step; `Inv` holds after every step of every run, and the class `Manager` runs the
source's methods as sequences of those steps with any steps of others in between. Runs start over whatever
directories persisted, half written and half removed ones included. A removal may fail halfway, and what a
live entry calls verified is not verified again: `HonestIffUntainted` names the steps after which something
trusted is not whole, exactly, and `ServableIffDishonest` shows that exactly then a snapshot can come to
show it. `DamagedDirectoryIsServed` is such a run.

**Continuity** (`Indexing`, `ContinuityRecords`, `ContinuityEvidence`, `ContinuityOrder`,
`ContinuitySelection`). The decisions are functions of sets and maps; the loops are methods proved to
compute them for every listing order and every map iteration order, the map that is deleted from while it
is ranged over included.

**Publication** (`CheckoutFiles`, `CheckoutTree`, `CheckoutReader`, `Publication`, `CheckoutPublisher`).
Copying emits a program of file operations; a run is any prefix of it, with other actors' changes in
between, and the reader may look at any moment. Two things follow from the code rather than its comments:
a suitable source that itself carries `.git/multica-checkout-pending` is never published, and its name
stays refused (`CompletesIffUnmarked`); and what makes a partial copy unacceptable is the marker together
with the exclusive creation of `.git`, which others must not write into.

**Image mounts** (`ImagePaths`, `ImageMounts`). The resolver is a loop proved equal to a recursive walk
that ends by links left and components pending. Acceptance is non-interference for installed paths. For
the mount targets themselves the check is not enough: the trace does not hold the first absent name of a
target, so another mount may decide what lies behind it. `MountTargetStableIff` gives the exact condition
and `AcceptedYetUnstable` an accepted configuration that violates it.

**Worker** (`SessionLog`, `WorkerSession`, `ProcessTree`, `Ancestry`, `Shutdown`). The supervisor's methods
append to a ghost log, and the laws are about that log for all poll responses, deadlines and interleavings
of the two halves of cleanup. The ancestry test reads a history of process trees at separate moments, and
its answer is a function of that history and those moments. Within one round of reads it is exact even when
PIDs are reused; between rounds nothing ties the next PID to the process just verified. `TraceExact` gives
the exact condition: a definite answer is true if and only if an even number of takeovers between rounds
change membership. `ReuseBetweenRoundsMisleads` is a trace that answers wrongly. Nor is an enumeration a
snapshot: a process outside the resident tree that is reaped in the middle of it can leave a child behind
(`ReapedParentHidesChild`); when that does not happen, whatever was missed descends from something listed,
and the answers for what was listed decide for all processes (`CertifiedExact`). An accepted turn receipt
refers to such a census, begun after the turn had run (`ReceiptProvesStop`). At final shutdown everything
is frozen before the last scan, which makes it exact (`FrozenScanExact`; `UnfrozenScanMisses` shows what
freezing is for), so that a receipt for stopped writers is signed when no process is left (`ServeSession`).

**Kubernetes** (`ProvisionRuns`, `SessionProvision`, `PodLifecycle`, `Termination`, `Ordering`,
`PodFingerprint`, `FingerprintExact`). Create requests whose replies are lost stay in flight and may
commit later, also after the session's objects have been removed; the model does not forbid that. At most
one Pod and one Secret are ever made as long as every removal finds no request in flight, and removing an
object is safe in every continuation exactly then (`ReleaseSafeIffSettled`, `DeleteSafeIffSettled`,
`InvariantIffSettled`). `LateCommitMakesSecondPod` and `LateCommitMakesSecondSecret` are runs in which a
second object appears.

**Event stream** (`EventStreamReference`, `EventStreamReader`). The reference parse follows sections 9.2.5
and 9.2.6 of the WHATWG HTML Living Standard; the reader is the scanner loop with its split function.

## Model

| member | source | states |
|---|---|---|
| `CheckoutJournal.ClosedForever` | src/internal/workspace/checkout.go:34-54 | after CloseCheckouts no sequence of transactions reopens the grant, reserves a writer that was not reserved, or makes a discharged flush owed again |
| `CheckoutJournal.Store.BeginCheckout` | src/internal/workspace/checkout.go:5-20 | accepted exactly for an open, running, prepared grant without a recorded process; then the process is recorded and a flush is owed; otherwise nothing changes |
| `CheckoutJournal.Store.CompleteCheckout` | src/internal/workspace/checkout.go:22-32 | accepted exactly when the recorded process is the given one, and clears only that |
| `CheckoutJournal.Store.CloseCheckouts` | src/internal/workspace/checkout.go:34-44 | always closes a known grant, and revokes execution when it belongs to a worker session |
| `CheckoutJournal.Store.CheckoutsFlushed` | src/internal/workspace/checkout.go:46-54 | accepted exactly for a closed grant without a recorded process |
| `ContainerEvidence.EvidenceSound` | src/internal/kubernetes/preparation.go:37-65 | positive evidence from a truthful kubelet, by either termination record or by replacement, means that the recorded container no longer runs |
| `CheckoutController.Controller.BeginCheckout` | src/internal/controller/checkout.go:59-88 | registers at most one operation per attempt, and only while the controller is open and the grant may start; no other attempt is touched |
| `CheckoutController.Controller.ReserveWriter` | src/internal/controller/checkout.go:153-160 | the operation takes the process exactly when the journal recorded it, both in one section |
| `CheckoutController.Controller.FinishCheckout` | src/internal/controller/checkout.go:90-102 | the operation goes; the reservation is completed only if its writers are proven and the journal could record it |
| `CheckoutController.Controller.CloseWriters` | src/internal/controller/checkout.go:285-296 | the durable fence is set before the operation to wait for is read, and that operation is cancelled |
| `CheckoutController.Controller.CompleteRecovered` | src/internal/controller/checkout.go:322-325 | completion needs the same process value that was read |
| `CheckoutController.Controller.RecoverCheckoutWriter` | src/internal/controller/checkout.go:306-325 | success means that no writer was recorded, an operation was running, or the recorded container was proven stopped and its reservation cleared; with any other sections in between, proven termination leaves a closed attempt without a recorded writer |
| `CheckoutController.Controller.CloseCheckouts` | src/internal/controller/checkout.go:116-124 | nothing begins any more, every registered operation is cancelled and waited for, and grants change only by what those operations reserve and complete |
| `CheckoutFence.StepKeepsInv` | src/internal/controller/checkout.go:59-325 | every step of every actor keeps the fence invariant: one writer, named by the journal, in a live container; an unsynced write implies an owed flush; an acknowledgement implies a closed, drained and flushed record |
| `CheckoutFence.RunKeepsInv` | src/internal/controller/checkout.go:271-325 | the invariant holds at every state of every run, crashes and restarts included |
| `CheckoutFence.AcknowledgedStopHolds` | src/internal/controller/checkout.go:239-283 | once checkout-stop or the session fence is acknowledged, in every later state no writer exists, none is registered or reserved, no write happens, and each earlier write precedes a sync that precedes the acknowledgement |
| `CheckoutFence.OneWriterNamedByJournal` | src/internal/controller/checkout.go:59-102 | at every reachable state at most one writer exists, it runs in a live container, and CheckoutProcess names that container |
| `CheckoutFence.RecoveryReadsTheWriter` | src/internal/controller/checkout.go:307-325 | what a recovery reads with no operation registered decides: no recorded process means no writer, and otherwise only the recorded container can hold one, so its proven end is the end of all writers |
| `CheckoutFence.RecoveryNeverCompletesNewer` | src/internal/controller/checkout.go:307-325 | a completing recovery, however late, clears a reservation without live writers that no operation in progress holds |
| `CheckoutFence.StaleReservationBreaksFence` | src/internal/controller/checkout.go:153-160 | a reservation under another container's identity has a continuation that writes after an acknowledgement |
| `CheckoutFence.ReservationSafeIffSelfObserved` | src/internal/kubernetes/preparation.go:16-35 | a reservation is safe in every continuation if and only if the observed container is the controller's own |
| `ImagePaths.WithinTextIsPrefix` | src/internal/runtimeimage/mounts.go:65-67 | on clean paths the text test of withinImagePath is exactly the prefix relation on components |
| `ImageMounts.TraceImagePath` | src/internal/runtimeimage/mounts.go:126-173 | the loop ends and gives the walk's target, names consulted, first absent name and errors |
| `ImageMounts.ResolvedIsFixed` | src/internal/runtimeimage/mounts.go:111-124 | a resolved path exists, goes through directories only and through no link, and resolves to itself, so the type looked up is that of the resolved object |
| `ImageMounts.ResolveImagePath` | src/internal/runtimeimage/mounts.go:111-124 | the names consulted and the object of the declared type, or an error exactly when the walk fails or the type differs |
| `ImageMounts.WalkAgrees` | src/internal/runtimeimage/mounts.go:107-173 | resolution depends on nothing but the recorded names: two file systems that agree on them resolve alike |
| `ImageMounts.ConsultedNameMatters` | src/internal/runtimeimage/mounts.go:126-173 | no recorded name is superfluous: without it the resolution fails |
| `ImageMounts.ResolveMounts` | src/internal/runtimeimage/mounts.go:69-105 | accepts exactly when every mount is canonical and resolves and no other mount or mount target strictly hides a name of its trace, and returns the only possible targets |
| `ImageMounts.CheckImageMounts` | src/internal/runtimeimage/mounts.go:15-63 | accepts exactly the admitted configurations: every name of every installed path's resolution is immutable and clear of all declared and resolved mounts |
| `ImageMounts.AdmissionIsNonInterference` | src/internal/runtimeimage/mounts.go:12-46 | in any view that agrees outside the admitted mounts every installed path resolves through the same names to the same object, with the whole subtree for directories |
| `ImageMounts.MountTargetStableIff` | src/internal/runtimeimage/mounts.go:85-105 | an accepted mount target is independent of what other mounts contain exactly when the first absent name of its resolution is not inside another mount |
| `ImageMounts.AcceptedYetUnstable` | src/internal/runtimeimage/mounts.go:85-105 | an accepted configuration whose target is not stable, through a link with .. after an absent name |
| `EventStreamReader.SplitReleasesNextLine` | src/internal/daemonapi/mcp.go:363-380 | a released token is the next line of the reference parse whatever bytes follow, so no byte after a CR is needed |
| `EventStreamReader.BlockedHoldsNoLine` | src/internal/daemonapi/mcp.go:363-380 | when more bytes are asked for, no terminated line is held back |
| `EventStreamReader.ConsumedStep` | src/internal/daemonapi/mcp.go:366-380 | the lines released so far and the skip flag account for the consumed bytes under every continuation |
| `EventStreamReader.MarkIsInFirstLine` | src/internal/daemonapi/mcp.go:382-388 | stripping the byte order mark from the first line finds the same first matching event as stripping it from the stream |
| `EventStreamReader.Scanner.Fill` | src/internal/daemonapi/mcp.go:361-366 | reading a chunk or the end keeps what was released and consumed |
| `EventStreamReader.Scanner.Take` | src/internal/daemonapi/mcp.go:366-380 | the line taken extends the lines of the reference parse by one |
| `EventStreamReader.Scanner.Scan` | src/internal/daemonapi/mcp.go:366-384 | the next line, with no chunk read beyond the one that ends it, or none once all is read |
| `EventStreamReader.ReadResponse` | src/internal/daemonapi/mcp.go:352-409 | for every chunking the answer is the first matching event of the reference parse of what was read, reading stops at the earliest chunk that holds one, and an answer beyond the budget is refused |
| `EventStreamReader.AnswerIsStable` | src/internal/daemonapi/mcp.go:352-409 | an answer found in a prefix is the answer of every longer stream, so it depends on the bytes and not on how reads divide them |
| `PodFingerprint.ContainerDefaults` | src/internal/kubernetes/fingerprint.go:70-124 | the in-place loops give each container's normal form, for every iteration order of the limits |
| `PodFingerprint.TolerationDefaults` | src/internal/kubernetes/fingerprint.go:49-64 | both admission tolerations are added unless tolerated, and operators defaulted |
| `PodFingerprint.VolumeDefaults` | src/internal/kubernetes/fingerprint.go:125-136 | default modes of the three volume sources |
| `PodFingerprint.SpecFingerprint` | src/internal/kubernetes/fingerprint.go:28-139 | what is digested is the normal form of the specification |
| `PodFingerprint.ContainerStepAbsorbed` | src/internal/kubernetes/fingerprint.go:70-122 | each API-server default of a container leaves its normal form alone |
| `PodFingerprint.StepAbsorbed` | src/internal/kubernetes/fingerprint.go:28-139 | each defaulting, admission toleration, node assignment or toleration reordering leaves the normal form alone |
| `PodFingerprint.StepsAbsorbed` | src/internal/kubernetes/fingerprint.go:28-139 | any number of them in any order is invisible |
| `FingerprintExact.NormalReached` | src/internal/kubernetes/fingerprint.go:28-139 | normalisation is itself a sequence of such steps |
| `FingerprintExact.NormalIdempotent` | src/internal/kubernetes/fingerprint.go:28-139 | normalising twice is normalising once |
| `FingerprintExact.FingerprintForgetsExactlySteps` | src/internal/kubernetes/fingerprint.go:28-139 | two specifications have one normal form if and only if such steps can make them equal: nothing else is forgotten |
| `Ordering.SortCanonical` | src/internal/kubernetes/fingerprint.go:65-69 | sorting by an injective text gives one list exactly for reorderings of each other |
| `PodLifecycle.HistorySound` | src/internal/kubernetes/termination.go:18-24 | unbound Pods run nothing, and without restarts a started worker implies a successful init |
| `PodLifecycle.DeadStaysDead` | src/internal/kubernetes/termination.go:32-46 | deletion before binding, and the end of a container that may not restart, are final |
| `PodLifecycle.FailedInitNeverSucceeded` | src/internal/kubernetes/termination.go:54-59 | a failed init that may not restart never succeeded before |
| `Termination.StoppedStaysStopped` | src/internal/kubernetes/termination.go:24-69 | whenever Stopped is reported from truthful status, no later step of any run lets a container holding the task tree run |
| `Termination.NeverStartedNeverRan` | src/internal/kubernetes/termination.go:32-69 | NeverStarted implies that at no moment, past or future, the worker ran or the task tree was in use |
| `Termination.ExactOnFullReport` | src/internal/kubernetes/termination.go:24-98 | on a complete report Stopped is given exactly for a deleted unbound Pod, a finished worker, or a failed init without the task volume, and NeverStarted exactly when of these the worker has not started |
| `Indexing.IndexedPermuted` | src/internal/controller/continuity_selection.go:176-187 | filling a map by identity succeeds or fails, and holds the same, in every order |
| `ContinuityEvidence.IndexStorages` | src/internal/controller/continuity_selection.go:176-181 | succeeds exactly without repeated or malformed storage IDs |
| `ContinuityEvidence.IndexGrants` | src/internal/controller/continuity_selection.go:182-187 | succeeds exactly without repeated or malformed attempt IDs |
| `ContinuityEvidence.ScopeHistory` | src/internal/controller/continuity_selection.go:188-202 | succeeds exactly on usable rows, and keeps those in scope in order and by ID |
| `ContinuityEvidence.TallyWitnesses` | src/internal/controller/continuity_selection.go:203-222 | the last qualifying grant of each task, and the tasks with several |
| `ContinuityEvidence.PassStep` | src/internal/controller/continuity_selection.go:226-230 | one iteration of the deleting loop, for any next key, decides as the untouched map would have |
| `ContinuityEvidence.DropUnsourced` | src/internal/controller/continuity_selection.go:226-230 | deleting while ranging leaves exactly the surviving grants, in every order |
| `ContinuityEvidence.CollectWitnesses` | src/internal/controller/continuity_selection.go:203-230 | the witnesses are exactly the surviving qualifying grants, in every order |
| `ContinuityEvidence.WitnessExactly` | src/internal/controller/continuity_selection.go:203-230 | a task has a witness if and only if one and only one grant for it qualifies and, if that failed, the session source it cites is a surviving completed witness |
| `ContinuityEvidence.ObserveContinuityFacts` | src/internal/controller/continuity_selection.go:173-232 | the facts of the evidence, or none exactly when it is unusable |
| `ContinuityEvidence.ObservationUnordered` | src/internal/controller/continuity_selection.go:173-232 | reordering grants, storages and history changes nothing but the order of the facts' history |
| `ContinuityOrder.LatestBy` | src/internal/controller/continuity_selection.go:445-464 | over any asymmetric comparison, cyclic ones included, one pass and a check find the row ahead of all others, or that there is none |
| `ContinuityOrder.Latest` | src/internal/controller/continuity_selection.go:445-464 | the same for compare, with the reason of a failure |
| `ContinuityOrder.ChampionIs` | src/internal/controller/continuity_selection.go:445-464 | a row ahead of all others is the only one |
| `ContinuityOrder.ChampionMeaning` | src/internal/controller/continuity_selection.go:423-464 | latest gives a row if and only if that row strictly beats every other under compare |
| `ContinuityOrder.CompareMayCycle` | src/internal/controller/continuity_selection.go:420-443 | compare is not transitive: turn order and timestamps can form a cycle |
| `ContinuitySelection.FindIssueSource` | src/internal/controller/continuity_selection.go:297-324 | the issue source as a decision on the set of rows, or its reason |
| `ContinuitySelection.FindChatSources` | src/internal/controller/continuity_selection.go:326-394 | the chat's session and workspace sources as a decision on the set of rows; a refusal names one of the reasons that apply |
| `ContinuitySelection.FirstBlock` | src/internal/controller/continuity_selection.go:364-393 | a blocking row is found if and only if there is one, and its reason is one that applies |
| `ContinuitySelection.SelectConversationSource` | src/internal/controller/continuity_selection.go:38-142 | every denial, selection and digested evidence as a function of the unordered evidence, up to which applying reason a denial names |
| `ContinuitySelection.SelectionUnordered` | src/internal/controller/continuity_selection.go:38-142 | reordering history, grants or storages never changes whether a source is selected, which producers are, or the digested evidence |
| `ContinuitySelection.ChosenIsWitnessed` | src/internal/controller/continuity_selection.go:111-131 | a selection rests on a witness for the claimed directory and, when resuming, on one for that session on the same storage |
| `ContinuitySelection.ChosenWasAccepted` | src/internal/controller/continuity_selection.go:36-62 | the same from raw evidence: backend hints alone select nothing |
| `CheckoutFiles.RunFrame` | src/internal/checkout/publish.go:113-192 | operations below a directory change nothing outside it |
| `CheckoutTree.CopyEffect` | src/internal/checkout/publish.go:113-192 | copying succeeds exactly on plain trees into vacant places, and then adds exactly the source's nodes |
| `CheckoutTree.CopiedClosed` | src/internal/checkout/publish.go:113-192 | a copy holds every directory on the way to what it holds |
| `CheckoutTree.PlainUnlessSpecial` | src/internal/checkout/publish.go:187-188 | only special files make a tree uncopyable |
| `Publication.MarkerHeld` | src/internal/checkout/publish.go:68-99 | from its creation to the last operation the marker is there |
| `Publication.OwnEnd` | src/internal/checkout/publish.go:48-99 | the operations end exactly on publishable sources, with exactly the published tree |
| `Publication.StepKeepsInv` | src/internal/checkout/publish.go:45-99 | own steps and tolerated steps of others keep that own nodes are in place and .git holds nothing foreign |
| `Publication.PartialNeverAccepted` | src/internal/checkout/prepare.go:27-66 | at any moment of any run, others included, acceptance means that every operation is done and every source node is in place |
| `Publication.NothingOverwritten` | src/internal/checkout/publish.go:113-192 | no operation changes or removes a node the publication did not create |
| `Publication.OutcomeByPosition` | src/internal/checkout/prepare.go:27-66 | without interference the reader reports absent before, refuses during, and accepts after, with exactly the source's tree |
| `Publication.CompletesIffUnmarked` | src/internal/checkout/publish.go:68-76 | a suitable source is published to the end if and only if it does not carry the marker itself |
| `Publication.StageWorkTolerated` | src/internal/checkout/publish.go:100-111 | preparing and removing the stage, as far as either gets, never disturbs the publication |
| `Publication.RenamePublishes` | src/internal/checkout/publish.go:14-31 | publishing by rename: absent at every prefix of the preparation, then exactly the staged tree and nothing else changed |
| `CheckoutPublisher.Workdir.CopyFile` | src/internal/checkout/publish.go:160-178 | exclusive creation and appends in order, or a prefix of them |
| `CheckoutPublisher.Workdir.CopyEntry` | src/internal/checkout/publish.go:122-190 | one entry's operations in order, or a prefix of them |
| `CheckoutPublisher.Workdir.CopyCheckoutTree` | src/internal/checkout/publish.go:113-192 | the tree's operations in listing order, or a prefix of them |
| `CheckoutPublisher.Workdir.ReserveName` | src/internal/checkout/publish.go:52-75 | name, .git and marker, in this order |
| `CheckoutPublisher.Workdir.CopyCheckout` | src/internal/checkout/publish.go:48-99 | performs the program or a prefix of it; whenever the marker goes, also when a later identity check fails, it was removed from a tree that had verified |
| `CheckoutPublisher.Workdir.RemoveCheckoutTree` | src/internal/checkout/publish.go:194-223 | removes children before parents, or a prefix of that |
| `ProvisionRuns.PodStep` | src/internal/kubernetes/client.go:192-243 | any step keeps that at most one Pod was made and nothing is in flight once it is gone, if and only if it is not a release of the Pod with a create request in flight |
| `ProvisionRuns.SecretStep` | src/internal/kubernetes/client.go:160-187 | the same for deleting the Secret |
| `ProvisionRuns.BaseInv` | src/internal/controller/session_provision.go:186-291 | in every run, requests settled or not: no object without a journaled intent, every journaled UID is that of an object made, before closing at most one of each and it is still there, and closing needs evidence |
| `ProvisionRuns.RunInv` | src/internal/controller/session_provision.go:186-291 | both hold at every state of every run whose removals found no request in flight |
| `ProvisionRuns.InvariantIffSettled` | src/internal/controller/session_provision.go:186-291 | a run keeps both throughout if and only if every removal found no create request of the object in flight |
| `ProvisionRuns.CreatedOnce` | src/internal/controller/session_provision.go:186-291 | in such runs at most one Pod and one Secret ever exist for a session, and a journaled UID is that object's |
| `ProvisionRuns.ReleaseSafeIffSettled` | src/internal/kubernetes/client.go:371-392 | after a release of the Pod no continuation ever has a second one if and only if no create request was in flight |
| `ProvisionRuns.DeleteSafeIffSettled` | src/internal/kubernetes/client.go:350-362 | the same for the Secret |
| `ProvisionRuns.JournalRemembers` | src/internal/workspace/stop.go:202-225 | intents, UIDs, the bytes of an issued Pod request and closing are never taken back, and a stop admits no new intent |
| `ProvisionRuns.UidsArePermanent` | src/internal/workspace/session_control.go:191-223 | in every run a journaled UID stays, and is that of an object this session made; in settled runs there is no other |
| `ProvisionRuns.NoWorkerIsFinal` | src/internal/workspace/stop.go:206-212 | in every run a stop that finds no Pod request issued means no Pod before or after it |
| `ProvisionRuns.ClosesOnlyOver` | src/internal/controller/session_reconcile.go:125-195 | in every run, when a session closes every worker its requests ever made is over |
| `ProvisionRuns.NothingAfterCleanup` | src/internal/kubernetes/client.go:300-369 | in settled runs, once a closed session's object is gone it stays gone and no other is made |
| `ProvisionRuns.GoneForGoodIff` | src/internal/kubernetes/client.go:300-369 | a closed session's object that is gone stays gone in every continuation if and only if none of its create requests is in flight |
| `ProvisionRuns.LateCommitMakesSecondPod` | src/internal/controller/session_provision.go:273-279 | a run in which a repeated create commits after the release, and a second Pod exists |
| `ProvisionRuns.LateCommitMakesSecondSecret` | src/internal/controller/session_provision.go:241-258 | the same for the Secret |
| `SessionProvision.World.SaveResources` | src/internal/workspace/session_control.go:175-189 | a record is stored only if it takes nothing back; a refused one changes nothing |
| `SessionProvision.World.CreateSecret` | src/internal/kubernetes/client.go:169-182 | created, taken, or a lost reply with the request still in flight |
| `SessionProvision.World.CreatePod` | src/internal/kubernetes/client.go:226-236 | the same for the Pod |
| `SessionProvision.World.EnsureSecret` | src/internal/kubernetes/client.go:160-187 | a UID it reports is that of a Secret this session's requests made |
| `SessionProvision.World.EnsurePod` | src/internal/kubernetes/client.go:192-243 | a UID it reports is that of a Pod this session's requests made, recovered ones included |
| `SessionProvision.World.BindSessionPod` | src/internal/workspace/session_control.go:191-223 | the bound UID is set once |
| `SessionProvision.World.ResolveSecret` | src/internal/controller/session_provision.go:241-260 | intent before create, UID after; halts on a stop only with every issued request resolved |
| `SessionProvision.World.ResolvePod` | src/internal/controller/session_provision.go:261-290 | on success every issued request has become a journaled object |
| `SessionProvision.World.OpenRecord` | src/internal/controller/session_provision.go:198-237 | a new or journaled record, consistent with the bound UID |
| `SessionProvision.World.EnsureSessionResources` | src/internal/controller/session_provision.go:186-291 | on success for an open session every request ever issued is resolved |
| `SessionProvision.World.ReleaseFinalizer` | src/internal/kubernetes/client.go:371-392 | of this session's Pods none goes but the named one, and that only when the request succeeded |
| `SessionProvision.World.CleanupPod` | src/internal/kubernetes/client.go:300-338 | on success no Pod of this session is present |
| `SessionProvision.World.Cleanup` | src/internal/kubernetes/client.go:300-369 | on success no Secret of this session is present, and no Pod either if removals found nothing in flight |
| `SessionProvision.World.CloseSession` | src/internal/controller/session_reconcile.go:101-195 | a session closes only after issued requests were resolved, and then every worker it ever had is over |
| `SessionProvision.World.ObserveEnd` | src/internal/controller/session_reconcile.go:125-158 | evidence is recorded only for a session without any Pod or whose Pod was truthfully reported stopped |
| `SessionProvision.World.ReconcileSessionStop` | src/internal/controller/session_reconcile.go:97-219 | a session is marked cleaned only closed and with nothing of it left, the Pod subject to settled requests |
| `SessionLog.TurnOrderExecutes` | src/internal/worker/session_linux.go:174-181 | executing a turn above all earlier ones, right after their receipts and settlement were seen, keeps turns strictly increasing, run at most once, and concluded before the next |
| `SessionLog.TurnOrderQuiet` | src/internal/worker/session_linux.go:125-196 | no other event disturbs that order |
| `SessionLog.ReceiptFenced` | src/internal/worker/session_linux.go:247-268 | an accepted turn receipt follows its turn's drain, fence, stopped processes and cleared state, and the census of processes began after the turn had run |
| `WorkerSession.SessionSupervisor.StartRequest` | src/internal/worker/relay.go:114-124 | a handler starts exactly while the relay accepts |
| `WorkerSession.SessionSupervisor.StopRequests` | src/internal/worker/relay.go:152-169 | success means that no handler runs and none starts from then on |
| `WorkerSession.SessionSupervisor.RememberStop` | src/internal/worker/session_linux.go:289-301 | accepted exactly for a valid command with the remembered binding; the binding never changes and the fence flag is monotone |
| `WorkerSession.SessionSupervisor.SessionFence` | src/internal/worker/session_linux.go:325-364 | success means admitted, and a remembered stop that covers every accepted turn with controller writers stopped |
| `WorkerSession.SessionSupervisor.AwaitFence` | src/internal/worker/session_linux.go:345-363 | success means a stop under the remembered binding that covers every accepted turn, with controller writers stopped |
| `WorkerSession.SessionSupervisor.CheckoutStop` | src/internal/worker/shutdown_linux.go:201-207 | success means that the gateway acknowledged; what that guarantees is CheckoutFence.AcknowledgedStopHolds |
| `WorkerSession.SessionSupervisor.StopRequestsStep` | src/internal/worker/shutdown_linux.go:194-210 | the relay drains before the fence is asked for |
| `WorkerSession.SessionSupervisor.StopWriters` | src/internal/worker/shutdown_linux.go:211-221 | at the end of a turn success means a certified census of processes begun during this cleanup, to which the logged event refers; at final shutdown it means that no process is left |
| `WorkerSession.SessionSupervisor.StopBoth` | src/internal/worker/shutdown_linux.go:194-222 | in every interleaving of the two halves: drained, then fenced; processes stopped; nothing of the relay runs afterwards |
| `WorkerSession.SessionSupervisor.ClearState` | src/internal/worker/shutdown_linux.go:228-238 | private state is cleared only after both halves, and flushed only at the end of the session after that |
| `WorkerSession.SessionSupervisor.Cleanup` | src/internal/worker/shutdown_linux.go:166-245 | writers stopped means drained, then fenced, and processes stopped, all during this cleanup, and no process left; private state cleared means cleared after those, with the turn's census begun during this cleanup; flush OK means flushed after that |
| `WorkerSession.SessionSupervisor.RunProvider` | src/internal/worker/session_linux.go:233-237 | a turn executes only above all receipted turns and right after their settlement was seen, and its event holds the moment by which the provider had returned |
| `WorkerSession.SessionSupervisor.ReportTurn` | src/internal/worker/session_linux.go:247-268 | a receipt is accepted only for an undisturbed turn whose fence is complete, with a census begun after the turn had run |
| `WorkerSession.SessionSupervisor.SettleTurn` | src/internal/worker/session_linux.go:241-281 | a turn counts as completed only with its receipt accepted and the relay closed and empty |
| `WorkerSession.SessionSupervisor.Execute` | src/internal/worker/session_linux.go:198-282 | a turn is consumed before anything is logged and stays consumed on failure; it completes above the last completed one or ends the incarnation |
| `WorkerSession.SessionSupervisor.HandleResponse` | src/internal/worker/session_linux.go:150-195 | any response keeps turn order and the stop binding; serving goes on only between concluded turns |
| `WorkerSession.SessionSupervisor.HandleState` | src/internal/worker/session_linux.go:160-190 | replays, unsettled predecessors and responses without an assignment execute nothing and change neither the log nor the accepted turn |
| `WorkerSession.SessionSupervisor.Run` | src/internal/worker/session_linux.go:125-196 | for every sequence of responses, failures and watchdog stops, turns are strictly increasing, run at most once and each after the earlier one's accepted receipt and settlement |
| `WorkerSession.SessionSupervisor.FinalStop` | src/internal/worker/session_linux.go:309-380 | a signed receipt carries the remembered binding; nothing executes during shutdown; writers stopped implies a fence covering every accepted turn, drained, fenced and processes stopped during this shutdown, and no process left when it is signed; flush OK implies cleared and then flushed after those and before signing |
| `WorkerSession.SessionSupervisor.ReceiptProvesStop` | src/internal/worker/session_linux.go:247-268 | an accepted turn receipt implies an enumeration, begun when the turn had already run, every process of which was traced to the resident root; if it was calm and no PID was reused until the last answer, nothing outside the resident tree existed at its end |
| `WorkerSession.SessionSupervisor.ServeSession` | src/internal/worker/session_linux.go:57-85 | for the whole life of a supervisor: a receipt for stopped writers follows a drain, a fence and a stop that all come after every executed turn, and is signed when no process is left |
| `ProcessTree.StepKeepsBeneath` | src/internal/worker/processes_linux.go:110-122 | no fork, exit, reparenting, reaping or new subreaper changes whether a surviving process is beneath the resident root |
| `ProcessTree.StartIdentifies` | src/internal/worker/processes_linux.go:18-22 | PID and start time identify a process over a whole history |
| `ProcessTree.ParentFixed` | src/internal/worker/processes_linux.go:150-153 | the same parent PID at two moments means the same parent process all the time between |
| `Ancestry.RoundExact` | src/internal/worker/processes_linux.go:125-154 | a passing round of three reads moves to the true parent, even under PID reuse |
| `Ancestry.CarryOver` | src/internal/worker/processes_linux.go:125-154 | the same start time in the next round means the same process and the same membership |
| `Ancestry.TraceExact` | src/internal/worker/processes_linux.go:124-159 | a definite answer is the truth at the first read if and only if an even number of takeovers between rounds change membership |
| `Ancestry.FewTakeovers` | src/internal/worker/processes_linux.go:124-159 | without takeovers, which comparing start times over rounds would show, the answer is exact; with one it is exact if and only if the new holder has the same membership |
| `Ancestry.ReuseBetweenRoundsMisleads` | src/internal/worker/processes_linux.go:153-154 | a history and read moments for which the trace of an outsider answers that it is resident |
| `Ancestry.Observer.TraceAncestry` | src/internal/worker/processes_linux.go:124-159 | the answer is the trace of the history at the moments of its reads, in turn and within the hop limit |
| `Ancestry.Observer.OneRound` | src/internal/worker/processes_linux.go:125-154 | one round ends the trace with its answer or names the parent that it passed to |
| `Ancestry.Observer.IsBeneath` | src/internal/worker/processes_linux.go:110-122 | the same for the last of up to three traces |
| `Ancestry.Observer.ReadDirectory` | src/internal/worker/processes_linux.go:161-167 | ascending lookups find each PID as it was at some moment of the enumeration |
| `Ancestry.Observer.ListProcesses` | src/internal/worker/processes_linux.go:161-198 | an accepted batch is all that the enumeration found, which looked every PID up at a moment of its own, each process as it was read afterwards |
| `Ancestry.Observer.Sweep` | src/internal/worker/processes_linux.go:266-294 | a sweep without outsiders or doubts certifies a resident answer for every process listed |
| `Ancestry.CertifiedExact` | src/internal/worker/processes_linux.go:266-294 | what was listed was resident at the end of the enumeration if and only if an even number of takeovers of its PID's trace changed membership; after a calm enumeration that decides whether any outsider existed |
| `Ancestry.NothingMissed` | src/internal/worker/processes_linux.go:171-198 | if no outsider was reaped and PID 1 forked nothing during an enumeration, a process it missed is resident whenever everything it listed is |
| `Ancestry.ReapedParentHidesChild` | src/internal/worker/processes_linux.go:171-198 | a history without PID reuse in which everything listed is truly resident and an outsider exists all the same, because its parent was reaped during the enumeration |
| `Ancestry.Observer.StopTaskProcesses` | src/internal/worker/processes_linux.go:244-316 | success means such a certificate for an enumeration during the call; if that was calm and no PID was reused until the last answer, nothing outside the resident tree existed at its end |
| `Ancestry.NoOutsiderWithoutInit` | src/internal/worker/processes_linux.go:244-316 | from then on an outsider can only come from a fork by PID 1 |
| `Shutdown.FrozenScanExact` | src/internal/worker/supervisor_linux.go:414-440 | over frozen processes a scan that finds nothing, PID by PID, leaves nothing |
| `Shutdown.UnfrozenScanMisses` | src/internal/worker/supervisor_linux.go:394-416 | without freezing such a scan can find nothing while a process exists |
| `Shutdown.Namespace.WriterCount` | src/internal/worker/supervisor_linux.go:442-455 | a count of zero over frozen processes means that none exists |
| `Shutdown.Namespace.StopWriters` | src/internal/worker/supervisor_linux.go:357-440 | success means that no process besides PID 1 exists, whatever they do meanwhile |
| `RepoCacheInvariant.EvictKeeps` | src/internal/repocache/storage.go:215-244 | removing an idle entry, completely or halfway, keeps the invariant |
| `RepoCacheInvariant.PruneKeeps` | src/internal/repocache/checkout.go:184-203 | pruning keeps it: nothing behind an open or chosen snapshot goes |
| `RepoCacheInvariant.DiscardKeeps` | src/internal/repocache/checkout.go:110-121 | rebuilding over an unverified directory keeps it |
| `RepoCacheInvariant.AbandonKeeps` | src/internal/repocache/checkout.go:125-165 | a checkout that fails at any point keeps it |
| `RepoCacheInvariant.PinKeeps` | src/internal/repocache/checkout.go:174-180 | pinning the chosen directory keeps both counts |
| `RepoCacheInvariant.CloseKeeps` | src/internal/repocache/manager.go:39-56 | closing keeps both counts |
| `RepoCacheInvariant.LeaveKeeps` | src/internal/repocache/manager.go:312-317 | the last waiter cancels the refresh |
| `RepoCacheInvariant.EndRefreshKeeps` | src/internal/repocache/manager.go:351-356 | a refresh ends its own flight and gives up its use of the entry |
| `RepoCacheSteps.StepKeepsInv` | src/internal/repocache/manager.go:39-375 | every critical section keeps: active is callers plus running refresh plus open snapshots, pins is open snapshots, entries in use are live, flights and waiters agree, directories behind open snapshots stay |
| `RepoCacheSteps.StepHolds` | src/internal/repocache/manager.go:248-265 | whoever an entry's lock names is there, in the section that holds it |
| `RepoCacheRuns.RunInv` | src/internal/repocache/manager.go:39-375 | at every moment of every run from a recovered cache over any persisted directories |
| `RepoCacheRuns.OpenSnapshotKeepsDirectory` | src/internal/repocache/checkout.go:117-203 | while a snapshot is open the very directory it was opened on stays in place through prunes, rebuilds, reclaims and late closers |
| `RepoCacheHonesty.HonestIffUntainted` | src/internal/repocache/checkout.go:94-203 | from a state in which all that live entries trust is whole, a step leads to such a state again if and only if it is not a prune or reclaim failing halfway on a verified directory, nor a failed checkout leaving a broken one under a record still verified |
| `RepoCacheDamage.HonestRunIffUntainted` | src/internal/repocache/checkout.go:94-203 | everything trusted is whole at all moments of a run if and only if no step of it is of that kind |
| `RepoCacheDamage.OpenSnapshotIsWhole` | src/internal/repocache/checkout.go:94-115 | as long as no step is, every open snapshot shows a whole directory, whatever persisted from before |
| `RepoCacheDamage.ServableIffDishonest` | src/internal/repocache/checkout.go:94-109 | a snapshot can come to show a directory that is not whole, without anything more going wrong, if and only if something trusted is not whole now |
| `RepoCacheRuns.OneRefreshPerEntry` | src/internal/repocache/manager.go:267-320 | at most one unfinished refresh per entry, the entry is not evicted, and an uncancelled refresh has a waiter |
| `RepoCacheRuns.SuccessJoinedRunningRefresh` | src/internal/repocache/manager.go:267-358 | every caller past waiting joined, during this very call, a refresh while it ran, and that refresh succeeded |
| `RepoCacheDamage.DamagedDirectoryIsServed` | src/internal/repocache/checkout.go:94-109 | such a run: a reclaim fails halfway and a later snapshot opens what it left |
| `RepoCacheManager.OthersKeep` | src/internal/repocache/manager.go:248-265 | others never change an actor's own progress or the lock it holds |
| `RepoCacheManager.Manager.PruneCheckouts` | src/internal/repocache/checkout.go:184-203 | removes only unpinned, not current checkouts of a live entry: a closer holding an evicted entry removes nothing of its successor |
| `RepoCacheManager.Manager.AwaitRefresh` | src/internal/repocache/manager.go:267-320 | success means a refresh that this call joined while it ran and that then succeeded; a cancelled one is waited out |
| `RepoCacheManager.Manager.FinishWaiting` | src/internal/repocache/manager.go:303-318 | success means that the refresh waited for ended successfully; otherwise the caller leaves |
| `RepoCacheManager.Manager.LockEntry` | src/internal/repocache/manager.go:248-265 | the caller holds the entry's lock, or nothing changed for it |
| `RepoCacheManager.Manager.PinChosen` | src/internal/repocache/checkout.go:174-182 | an open snapshot of the chosen revision |
| `RepoCacheManager.Manager.Rebuild` | src/internal/repocache/checkout.go:125-171 | a published directory is pinned before the lock is left, or nothing is handed out and nothing stays pinned |
| `RepoCacheManager.Manager.Checkout` | src/internal/repocache/checkout.go:32-172 | a result is an open snapshot of the requested revision on this entry, and the only one this call has open |
| `RepoCacheManager.Manager.Deliver` | src/internal/repocache/manager.go:225-245 | a result is handed over open or, if that fails, closed again |
| `RepoCacheManager.Manager.IdleByUse` | src/internal/repocache/storage.go:222-228 | exactly the idle entries, each once, by last use |
| `RepoCacheManager.Manager.ReclaimSpaceLocked` | src/internal/repocache/storage.go:215-244 | only idle entries go, the least recently used first; entries in use keep their directories |
| `RepoCacheManager.Manager.EnterKey` | src/internal/repocache/manager.go:195-213 | with space reclaimed, the caller is counted on the live entry that the key names |
| `RepoCacheManager.Manager.Snapshot` | src/internal/repocache/manager.go:172-246 | the caller's use ends in every case, a result is an open snapshot of the requested revision on an entry of the requested key, and no other snapshot pinned by the call is left open |
| `RepoCacheManager.Manager.CloseSnapshot` | src/internal/repocache/manager.go:39-56 | the first thing to happen is exactly the release of the pin |
| `RepoCacheManager.Manager.PruneIfFree` | src/internal/repocache/manager.go:49-52 | with the entry's lock taken nothing happens |
| `RepoCacheManager.Manager.Refresh` | src/internal/repocache/manager.go:322-358 | the flight ends in every case |

## Left out

- `CheckoutFence.AcknowledgedStopHolds`: one attempt at a time, with every reservation naming the controller's own container; `CheckoutFence.ReservationSafeIffSelfObserved` is the exact role of that condition.
- `ProcessTree.StartIdentifies`: a reused PID starts at a later clock tick than its previous holder.
- `Ancestry.Observer.StopTaskProcesses`: promises residency itself only for a calm enumeration and without PID reuse until the last answer; `Ancestry.CertifiedExact` is the exact condition on reuse, and `Ancestry.ReapedParentHidesChild` why calm is needed.
- `ProvisionRuns.CreatedOnce`: holds for runs whose removals find no create request in flight; `ProvisionRuns.InvariantIffSettled` and `ProvisionRuns.ReleaseSafeIffSettled` are the exact conditions.
- `ProvisionRuns.RunInv`: the same runs.
- `ProvisionRuns.NothingAfterCleanup`: the same runs; `ProvisionRuns.GoneForGoodIff` is the exact condition.
- `SessionProvision.World.Cleanup`: that the Pod is still absent at the end needs settled requests, by `ProvisionRuns.GoneForGoodIff`.
- `RepoCacheDamage.OpenSnapshotIsWhole`: holds until a removal fails halfway on something trusted; `RepoCacheDamage.ServableIffDishonest` is the exact condition.
- `Publication.PartialNeverAccepted`: the reader sees one state of the workdir rather than walking it while it changes, and others leave the reserved .git directory and the publication's own nodes alone.
- `CheckoutPublisher.Workdir.CopyCheckout`: the identity checks of directory and marker are arbitrary outcomes, since paths and not inodes are modelled.
- `EventStreamReader.ReadResponse`: trimming the returned data and bodies that are not event streams are not modelled, nor the scanner's limit on reads that return nothing; whether a frame answers the call is a parameter that rejects the empty frame.
- `PodFingerprint.StepsAbsorbed`: a defaulted ServiceAccountName is not among the steps, because the normalisation does not fill it in; the text by which tolerations are sorted is a parameter assumed injective.
- `ContinuitySelection.SelectionUnordered`: which of several applying reasons a denial names may differ; timestamps, UUIDs and claims come parsed, the canonical form of a task root is a field of the storage, and rows omit their branch name and attribution.
- `ImageMounts.AdmissionIsNonInterference`: the installed paths come as a list; reading the descriptor and I/O errors other than absence are not modelled.
- `WorkerSession.SessionSupervisor.Run`: deadlines, contact loss and retries are arbitrary outcomes of each step; the watchdog remembers a stop between polls rather than also during a turn, where nothing reads it.
- `WorkerSession.SessionSupervisor.SettleTurn`: reporting the result runs beside cleanup and appears as an arbitrary error.
- `WorkerSession.SessionSupervisor.CheckoutStop`: the gateway's answer is an arbitrary outcome; the controller's side is the checkout fence.
- `WorkerSession.SessionSupervisor.StopWriters`: a turn that fails before the resident desktop exists stops everything too; no receipt follows it.
- `Shutdown.Namespace.StopWriters`: PID 1 itself starts nothing while it stops the others, and delivering SIGSTOP to all of them is one step.
- The rest of the workspace store (reservations, terminals, delivery): its transitions appear only as amendments that keep the modelled journal fields.
- Signatures, digests and JSON are abstract values; a receipt stands for its signed message.
- Git, network authorisation, syncfs, directory checksums and free-space probes are arbitrary outcomes.
- Umask and directory modes, and how links inside a checkout and Git configurations resolve: parameters or left out.
- Deletion of the bootstrap Secret by others, and force-removal of a Pod that still carries the controller's finalizer.
- Waiting for processes to be reaped, signals, pidfds and threads: a signal can only make a process exit, which the process model allows at any time.
- Polling loops run an arbitrary number of rounds; that they end is a matter of deadlines, not modelled.
- Terminal delivery, brief building, option parsing, image descriptors and the GitHub token cache: easy members only.
