# K8s Buddy: a verified model of its control loops

This project models, in Dafny, the parts of K8s Buddy that decide and write: the
plant-operator's reconcile pass and its status, the caBundle patch every operator
process performs at startup, the rolling window and mood ladder behind `/status`, and
the chaos loop. `dafny verify dfyconfig.toml` checks all of it.

| file | models |
|---|---|
| `Objects.dfy`, `Resources.dfy` | Kubernetes objects, Plants, and the desired-state builders |
| `ApiServer.dfy` | what the API server is assumed to do: defaulting, validation, versions, status subresource |
| `Containers.dfy`, `Mutation.dfy` | mergeContainers, mergeLabels, owner references, the mutate functions |
| `Children.dfy`, `Readers.dfy`, `OwnershipRuns.dfy` | applyChild and assertOwnership; the label-filtered reader; two Plants; interleaved workers and outside writers |
| `Mood.dfy`, `Status.dfy`, `StatusWrites.dfy`, `Generations.dfy` | score, moods, conditions, events, the retried status write among user edits, and when it leaves observedGeneration ahead |
| `MonitorProbe.dfy` | the throttled ServiceMonitor CRD check |
| `ReconcilePass.dfy`, `PassSuccess.dfy`, `UserEdits.dfy` | a whole pass as a function of the world; exactly when it succeeds, how far it gets when it does not, and the name guard; user edits over a pass |
| `Reports.dfy`, `Workload.dfy` | what a pass leaves stored and emitted, told from the stored objects alone: the status and the events are true, and the children fit together into one workload |
| `Silence.dfy`, `Stuck.dfy` | when passes fall silent; Plants stuck on a conflict |
| `WorldRuns.dfy`, `Announcements.dfy`, `Commute.dfy` | runs of whole passes among edits, outside changes and restarts: observedGeneration, and what the events say; two Plants' whole passes in either order |
| `Operator.dfy` | the reconciler as a class over an API server object, each method equal to its counterpart above |
| `CABundle.dfy`, `CATruncation.dfy` | the merge, chains of merges, and exactly when truncating early loses a certificate |
| `CAProtocol.dfy`, `CAPatch.dfy`, `CARefinement.dfy` | processes racing on one object; one process's retry loop, exactly when it succeeds, and that every process of a run is such a loop |
| `WorkWindow.dfy`, `Counting.dfy` | the ring buffer and its statistics; counting in a sequence |
| `Chaos.dfy` | decisions, Execute, the polling loop and its counters |

## Assumptions about the outside

- Create fails if the key exists. Update and the status update fail unless the version is
  the stored one; every accepted write, of anyone, takes a version never used before.
- Defaulting fills unset fields only, and is idempotent (proved of the model's defaulting).
  A Service's cluster IP is a function of its key.
- A Plant's name, like that of any custom resource, is a DNS subdomain, which is enough for
  the other children's names and the characters of label values. A Service's name must be a
  DNS label of RFC 1035, section 2.3.1. Label values have at most 63 characters, an object
  has at most one controller, container names are unique, a Deployment's selector matches
  its template. A PodDisruptionBudget cannot have both minAvailable and maxUnavailable, nor
  an immutable ConfigMap other data. A Deployment's and a PodDisruptionBudget's selector
  cannot change; `plant_controller.go` says the same of both, although only the first is
  certain of current API servers. A real server validates more than this; what it refuses
  beyond is not part of this model.
- A spec change raises the generation; metadata and status changes do not. UIDs are not
  reused.
- `SetControllerReference` refuses to displace a controller of another group, kind or name
  and otherwise replaces or appends its reference. `SetStatusCondition` replaces the first
  condition of the type or appends, and moves the transition time only with the status.
- `sort.Slice` promises order by NotBefore and nothing about ties; `slices.Sort` sorts.

## What turned out not to hold as hoped

- A pass that succeeds is not always the last to write. If a remembered negative answer
  hid a ServiceMonitor CRD that is installed, a later pass writes. `Silence.SilentAfterSuccessIff`
  gives the exact condition.
- A stored observedGeneration can exceed the Plant's generation: exactly when the edits that
  land before the accepted write delete and recreate the Plant and then change its spec too
  seldom (`Generations.AheadIffRecreatedBelow`). Over all interleavings it is safe exactly for
  a decided value of at most 1 (`Generations.NeverAheadIff`), and a run is never ahead exactly
  if no pass is overtaken in that way (`WorldRuns.RunIsNeverAheadIff`).
- Truncating a bundle at every merge can lose a certificate that one merge at the end would
  keep. Over all chains that offer a pool it never does exactly if each certificate with three
  later ones has three that expire no sooner (`CATruncation.NeverLosesIff`); if nothing expired
  is ever offered there is one more way to be safe (`CATruncation.NeverLosesLiveIff`). All CAs
  the operator mints live equally long, which is enough.
- The name guard is about label values only. A Plant called `my.fern` passes it, and its
  Service is refused on every pass without a condition or an event. `PassSuccess.NameGuardIsExactIff`
  says for which names the guard decides rightly. The same silence meets a ConfigMap someone
  made immutable with other data, or a PodDisruptionBudget someone turned to maxUnavailable:
  `PassSuccess.RefusedForever` says what passes do from then on.
- Events can say what is not stored: they are emitted before the write. They always agree with
  the stored Degraded flag exactly if no step slips (`Announcements.RunAgreesIff`), and
  `Announcements.RepeatedDegradedIff` says when PlantDegraded is announced twice running.
- Two Plants' passes do not always commute: they share the deadline of the CRD probe.
  `Commute.WholePassesCommuteIff` gives the exact condition.
- `mood.go` says an unready component stays out of anything better than lost-a-leaf
  territory. The code is stricter: its ceiling of 35 leaves only the two moods below
  lost-a-leaf (`Mood.UnreadyIsNeverHealthy`).

## Model

| member | source | states |
|---|---|---|
| CABundle.MergeCABundle | cmd/plant-operator/webhookcerts.go:243-301 | the result lists, newest first and without repetition, the at most three most recently issued unexpired certificates of both bundles, however ties are ordered |
| CABundle.MergedMeans | cmd/plant-operator/webhookcerts.go:243-301 | block by block: at most three, all unexpired certificates of the two bundles, no two the same, each issued no earlier than the next; an unexpired one is left out only if three issued no earlier are in |
| CABundle.KeepValid | cmd/plant-operator/webhookcerts.go:252-277 | the entries become exactly the old ones and every parsable, unexpired certificate block, each once |
| CABundle.CommonValidityOrdersExpiry | cmd/plant-operator/webhookcerts.go:102-107 | certificates of one lifetime expire in the order they were issued |
| CABundle.MergeExtendsNewest | cmd/plant-operator/webhookcerts.go:282-294 | merging one more certificate, later, into the newest of a pool gives the newest live certificates of the enlarged pool |
| CABundle.ChainKeepsNewest | cmd/plant-operator/webhookcerts.go:207-294 | after any merges at nondecreasing times the bundle is the newest live certificates among everything ever offered, ties included, if expiry follows issue or no time passes |
| CABundle.NewestIsUnique | cmd/plant-operator/webhookcerts.go:289-294 | with distinct issue times there is only one such bundle |
| CABundle.ChainsAgree | cmd/plant-operator/webhookcerts.go:243-301 | chains that were offered the same certificates and end at the same time hold the same bundle, whatever the order |
| CABundle.ChainMatchesOneShot | cmd/plant-operator/webhookcerts.go:243-301 | merging one at a time ends where one merge of everything at the end would |
| CABundle.MergeIsIdempotent | cmd/plant-operator/webhookcerts.go:270-273 | merging a certificate again at once changes nothing, whatever the lifetimes |
| CATruncation.NeverLosesIff | cmd/plant-operator/webhookcerts.go:207-294 | over all in-order chains from an empty bundle that offer exactly a pool of distinct issue times, the end is always what one merge of the pool keeps, if and only if each member with three later ones has three that expire no sooner |
| CATruncation.NeverLosesLiveIff | cmd/plant-operator/webhookcerts.go:207-294 | the same over chains that offer only live certificates: if and only if at any time at which a member with three later ones is live in company, three later ones are live too |
| CATruncation.OneLifetimeNeverLoses | cmd/plant-operator/webhookcerts.go:102-107 | with expiry following issue nothing is ever lost |
| CATruncation.FewLaterIsKept | cmd/plant-operator/webhookcerts.go:287-294 | a live member with fewer than three later ones is in the last bundle of every chain, whatever the lifetimes |
| CATruncation.UnequalLifetimesLoseACertificate | cmd/plant-operator/webhookcerts.go:287-294 | an example in which every offer is live: an older certificate is pushed out by three that expire before it and is missing at the end, where one merge would keep it |
| CABundle.CertificateIsRetained | cmd/plant-operator/webhookcerts.go:220-242 | a merged certificate stays until a merge at or after its own finds it expired or finds three live ones issued no earlier in its place |
| CAProtocol.RunsKeepInv | cmd/plant-operator/webhookcerts.go:362-396 | over every interleaving of processes, a merge still based on the stored version is a merge into the stored bundles made no earlier than the last accepted one |
| CAProtocol.RunsAreSequentialChains | cmd/plant-operator/webhookcerts.go:362-396 | concurrent patches evolve each webhook entry as a sequential chain of the accepted merges |
| CAProtocol.PatchedCAStays | cmd/plant-operator/webhookcerts.go:220-242 | once a process's patch succeeded its CA is in every webhook entry until a merge from its own patch on finds it expired or displaced by three live ones issued no earlier |
| CAProtocol.DoneStaysDone | cmd/plant-operator/webhookcerts.go:394-394 | success is permanent, so the previous row speaks of every later state |
| CAProtocol.RunsKeepNewest | cmd/plant-operator/webhookcerts.go:362-396 | with one lifetime each entry holds the newest live certificates among the initial ones and those of all successful processes |
| CAProtocol.ConflictsNeverExhaust | cmd/plant-operator/webhookcerts.go:384-391 | each conflict is another process's success, so with as many attempts as processes no process ever gives up because of conflicts |
| CAPatch.PatchOneWebhookCABundle | cmd/plant-operator/webhookcerts.go:362-406 | for every script of outside writes and faults the loop ends as the function Patch says; success is one write that merged the CA into every entry of the very object it replaced, anything else no write |
| CAPatch.PatchedIff | cmd/plant-operator/webhookcerts.go:362-406 | it succeeds if and only if some attempt within the steps finds the object, nothing lands before its Update, and every request up to there was free of faults and every earlier attempt retriable |
| CAPatch.GaveUpIff | cmd/plant-operator/webhookcerts.go:384-406 | it gives up if and only if every attempt it was allowed met NotFound on the Get or Conflict on the Update; any other error ends it at once |
| CARefinement.RunsAreLoops | cmd/plant-operator/webhookcerts.go:362-396 | in every run of the concurrent protocol each process is where its retry loop is on the script of what it saw of the others: done only if the loop succeeds, failed only if it does not |
| CAPatch.WebhookServer.Get | cmd/plant-operator/webhookcerts.go:366-369 | the reply is a function of the object as the script's next turn leaves it |
| CAPatch.WebhookServer.Update | cmd/plant-operator/webhookcerts.go:382-391 | whatever the scripted turn wrote, the update is accepted exactly for the version then stored, and reply, object and record of replacements are functions of the state before |
| WorkWindow.Window.Observe | internal/api/window.go:52-61 | the ring keeps describing the whole history with the new observation appended |
| WorkWindow.Window.Stats | internal/api/window.go:84-117 | zeros for an empty window; otherwise the number, failure ratio and nearest-rank 95th percentile of the last min(N, 100) observations, wherever the ring starts |
| WorkWindow.RecentByIndex | internal/api/window.go:63-83 | those are the last hundred or all observations by index: the failures are the number of indices at which one failed, and the percentile is the least duration at which, counted by index, 95% are at or below it |
| WorkWindow.P95IsUnique | internal/api/window.go:74-76 | at most one number is the 95th percentile of a sample, so the row above fixes the result |
| WorkWindow.RingHoldsRecent | internal/api/window.go:80-83 | the first count slots hold exactly the last min(N, 100) observations |
| WorkWindow.RankIsInRange | internal/api/window.go:108-114 | for n >= 1 the rank is in range, so neither clamp is ever taken |
| WorkWindow.NearestRankIsP95 | internal/api/window.go:74-76 | the element at the rank of a sorted sample is the least one with at least 95% at or below it |
| WorkWindow.CountByMultiset | internal/api/window.go:80-83 | counting does not depend on the order in the buffer |
| WorkWindow.EvictedNeverMatter | internal/api/window.go:50-51 | after a hundred more observations what came before never matters again |
| Mood.Score | internal/mood/mood.go:134-173 | the score is within 0 and 100, and at most 35 when not ready |
| Mood.WorseSignalsNeverHelp | internal/mood/mood.go:134-194 | more errors, latency or restarts, or lost readiness, never raise the score nor make the mood healthier |
| Mood.ScoreIsWhatIsLeft | internal/mood/mood.go:114-173 | for signals in range the score is a hundred less the points lost, 50 in proportion to errors, 30 in proportion to latency up to the budget, 2 per restart up to 10, 20 if unready; not below 0, and at most 35 if unready |
| Mood.MoodIsLossLadder | internal/mood/mood.go:175-194 | so a ready component goes down a rung beyond 5, 20, 40, 60 and 80 points lost, and an unready one is not-too-hot up to 80 and wilting beyond |
| Mood.UnreadyIsNeverHealthy | internal/mood/mood.go:34-38 | an unready component is not-too-hot or wilting |
| Mood.MoodIsReadinessLadder | internal/controller/status.go:179-194 | for ready, desired >= 1 the mood compares the ratio with nine tenths, three fifths and one fifth |
| Mood.MoodAtTheEdges | internal/controller/status.go:148-182 | nothing ready of something desired is wilting; an idle Plant is not-too-hot |
| Mood.MoodImprovesWithReadiness | internal/controller/status.go:179-194 | more ready replicas never worsen the mood |
| Mood.HealthPercentIsNearest | internal/controller/status.go:130-139 | the percentage is within one half of the exact one |
| Mood.HealthPercentIsPercent | internal/controller/status.go:130-139 | 0 when none are desired, and otherwise the nearest whole percentage, the larger of two equally near, stated in integers without division |
| ApiServer.DefaultBodyTwice | internal/controller/resources.go:313-327 | completing a complete object changes nothing |
| Containers.MergeContainers | internal/controller/plant_controller.go:829-863 | the loops compute the merge the following rows describe |
| Containers.MergePutsDesiredFirst | internal/controller/plant_controller.go:837-854 | desired containers come first, in order, with every owned field; a known container keeps every field no builder sets |
| Containers.MergeKeepsForeign | internal/controller/plant_controller.go:856-860 | every other container survives unchanged and in order, and nothing else follows the desired ones |
| Containers.MergeIsIdempotent | internal/controller/plant_controller.go:829-863 | merging again changes nothing, for all container lists and uniquely named desired ones |
| Containers.MergeSettlesIffSpelledOut | internal/controller/resources.go:313-327 | once stored and defaulted, a merge is left alone by the next one exactly if the builder spells out every owned field the server would default |
| Mutation.BuilderIsSpelledOut | internal/controller/resources.go:313-374 | the container builder spells out every such field |
| Mutation.MergeLabels | internal/controller/plant_controller.go:740-749 | owned keys win, all others stay |
| Mutation.MutateDeployment | internal/controller/plant_controller.go:784-811 | the field assignments do what the following rows say of a mutation |
| Mutation.Mutate | internal/controller/plant_controller.go:872-1006 | the same for the other kinds |
| Mutation.SetControllerSettles | internal/controller/plant_controller.go:787-789 | a set reference makes the Plant the controller, replacing a stale UID, and setting it again changes nothing |
| Mutation.UpsertKeepsOthers | internal/controller/plant_controller.go:787-789 | references to other owners stay |
| Mutation.MutationConforms | internal/controller/plant_controller.go:784-1006 | after a mutation the Plant controls the object, the six labels are set and every owned field is the builder's, the selector too if none was set, and the one that was set otherwise |
| Mutation.StoredMutationConforms | internal/controller/plant_controller.go:784-1006 | the same of what the server completes and stores |
| Mutation.MutationKeepsForeign | internal/controller/plant_controller.go:731-811 | foreign labels, owners, containers, unowned fields, status and a set selector are unchanged |
| Mutation.StoredMutationSettles | internal/controller/plant_controller.go:424-435 | however the server completes and numbers a mutated object, mutating it again changes nothing |
| Children.OwnedIff | internal/controller/plant_controller.go:696-720 | the guard passes an object whose first controller reference has the Plant's UID, whatever its labels, and of all others exactly those whose managed-by label has the value plant-operator |
| Children.VisibleIff | internal/controller/cache.go:58-81 | through the cache only ServiceMonitors and objects whose managed-by label has that value are seen |
| Children.ConflictIff | internal/controller/plant_controller.go:595-720 | an apply is refused with a conflict if and only if there is an object the reader sees whose first controller, if any, has another UID and whose label is missing or has another value; the error names the child and that controller |
| Children.ControllersAreNotDisplaced | internal/controller/plant_controller.go:787-789 | past the guard an apply is refused if and only if the first controller is of another group, kind or name than the Plant |
| Children.ApplyChildFrame | internal/controller/plant_controller.go:595-645 | only the child's own key can change, and nothing on an error |
| Children.AtRestIsQuiet | internal/controller/plant_controller.go:638-640 | a child the mutation would not change costs no request, through either reader |
| Children.ApplyChildConverges | internal/controller/plant_controller.go:595-645 | a successful apply leaves the child at rest and as the builders describe given what was there before, selector included, with everything foreign as it was |
| Children.ApplyChildSucceedsIff | internal/controller/plant_controller.go:595-645 | an apply succeeds if and only if the child is absent and the name one it may have, or it is visible, owned, without another controller, and its mutation is none or one the server accepts |
| Children.ApplyAllSucceedsIff | internal/controller/plant_controller.go:466-505 | a children pass succeeds if and only if every child can be applied to the store it starts from |
| Children.ApplyAllFrame | internal/controller/plant_controller.go:451-485 | a pass writes no key but the Plant's own children's |
| Children.ApplyAllConverges | internal/controller/plant_controller.go:466-505 | a children pass without error leaves every listed child conforming and at rest |
| Children.ApplyAllReturnsDeployment | internal/controller/plant_controller.go:416-422 | the Deployment handed to the status computation is the stored one |
| Children.SummaryIsReal | internal/controller/plant_controller.go:439-449 | a children pass reports a creation or an update exactly if a child is there that was not, or is not as it was |
| Resources.ChildKeysAreDisjoint | internal/controller/plant_controller.go:451-456 | two Plants have no child key in common, "-pdb" names included |
| Readers.ReadersAgreeIffVisible | internal/controller/cache.go:58-81 | the filtered and the direct reader give the same result exactly when the child, if it exists, is visible through the filter |
| Readers.FilteredReaderNeverRecovers | internal/controller/plant_controller.go:575-588 | for a child without the label the filtered reader fails with AlreadyExists on every pass and no object ever changes |
| Readers.DirectReaderRestoresLabel | internal/controller/plant_controller.go:584-588 | the direct reader restores a stripped label in one pass, and changes nothing else |
| Readers.ApplyChildIsLocal | internal/controller/plant_controller.go:595-645 | one apply depends on, and determines, only the content under its own key |
| Readers.PassSparesOtherPlants | internal/controller/plant_controller.go:451-485 | a pass for one Plant leaves another Plant's children as they were |
| Readers.PassesCommute | internal/controller/plant_controller.go:451-485 | two Plants' children passes in either order give the same results and, up to versions, the same objects everywhere |
| Commute.SameEffectIff | internal/controller/plant_controller.go:487-505 | from two worlds that look alike to a Plant its whole pass comes to the same outcome, events, status and children if and only if the probe deadlines do not make it treat an unsettled ServiceMonitor differently |
| Commute.WholePassesCommuteIff | internal/controller/plant_controller.go:288-362 | with no user editing, two Plants' whole passes commute, statuses and events included, if and only if neither is affected by the deadline the other leaves |
| Commute.SimultaneousPassesCommute | internal/controller/plant_controller.go:536-559 | passes at one instant that find the same always commute |
| OwnershipRuns.RunsKeepInv | internal/controller/plant_controller.go:607-644 | over every interleaving of workers and outside writers, a version still stored is still the object that passed the guard |
| OwnershipRuns.OverwritesAreOwned | internal/controller/plant_controller.go:623-644 | over every interleaving, every object version the operator overwrote had the Plant's UID in its first controller reference or the value plant-operator in its managed-by label |
| OwnershipRuns.UnownedIsNeverModified | internal/controller/plant_controller.go:647-720 | an object with neither that reference nor that value is never changed or removed by the operator, even if it appears between the read and the write |
| Status.SetConditionLookup | internal/controller/status.go:92-101 | setting a condition keeps its transition time exactly if its status is unchanged, and touches no other type |
| Status.StatusSettles | internal/controller/status.go:261-284 | a second pass over the same Plant and Deployment, at any time, writes no status |
| Status.BlockSettles | internal/controller/plant_controller.go:382-389 | a Plant blocked again for the same reason writes no status |
| Status.PassMovesHonestly | internal/controller/status.go:92-104 | a pass moves a transition time to its own clock exactly when it moves the condition's status |
| Status.TransitionTimesAreHonest | internal/controller/plant_controller.go:390-414 | over any run each transition time is the clock of the last pass that moved that condition's status |
| Status.ConditionTypesStayUnique | internal/controller/status.go:98-102 | condition types stay unique over any run |
| Status.EventsAreEdges | internal/controller/plant_controller.go:1087-1101 | PlantDegraded and PlantRecovered are exactly the rises and falls of the stored flag that reconcileStatus makes; markDegraded's rises are PlantBlocked |
| Status.EventsAlternate | internal/controller/plant_controller.go:1091-1101 | a PlantRecovered between two PlantDegraded; a PlantDegraded or PlantBlocked between two PlantRecovered |
| WorldRuns.PassIsSaid | internal/controller/plant_controller.go:288-362 | to a Plant a whole pass is nothing, one judged status or one block, made on the store its children stage left |
| WorldRuns.SaidEffect | internal/controller/plant_controller.go:390-414 | for every script: what it stores if accepted, what users leave if not, and its events in either case |
| Announcements.RunIsPasses | internal/controller/plant_controller.go:390-414 | in a run of whole passes, edits, outside changes and restarts in which every write lands, the stored status and the status events are those of the sequence of status passes the rows above speak of |
| Announcements.RunTimesAreHonest | internal/controller/status.go:92-104 | so over such a run stored transition times are honest and condition types unique |
| Announcements.RunAgreesIff | internal/controller/plant_controller.go:390-414 | over every run and any scripts the last word of the events is the stored flag in every state, if and only if it is to begin with and no step slips: no flagged Plant is done away with, and nothing announced is kept from being stored |
| Announcements.AgreedAnnouncementsAlternate | internal/controller/plant_controller.go:1087-1101 | while they agree, PlantDegraded follows only a last word that was not degraded, and PlantRecovered only one that was |
| Announcements.RepeatedDegradedIff | internal/controller/plant_controller.go:1028-1085 | after a pass that announced PlantDegraded the next one to judge the Plant degraded announces it again, no recovery between, if and only if the first was kept from being stored or the Plant done away with since |
| StatusWrites.UserEditsSurvive | internal/controller/plant_controller.go:350-353 | but for status and version the Plant ends as if only the users had acted |
| StatusWrites.FailureTellsWhy | internal/controller/plant_controller.go:1059-1084 | a write that fails says NotFound exactly if the Plant is gone and otherwise that the last attempt met a conflict |
| UserEdits.BlockKeepsUserEdits | internal/controller/plant_controller.go:390-414 | the same of markDegraded's single write, which stores the decided status if it succeeds |
| UserEdits.PassKeepsUserEdits | internal/controller/plant_controller.go:288-362 | the same of any whole pass under any script |
| StatusWrites.DecidedStatusIsStored | internal/controller/plant_controller.go:1038-1080 | a successful write stores exactly the status decided before the first attempt |
| StatusWrites.ObservedGenerationNeverAhead | internal/controller/plant_controller.go:1028-1080 | even from a stale read, the Plant that was read, told by its UID, never gets an observedGeneration ahead of its generation |
| Generations.WriteFollowsLife | internal/controller/plant_controller.go:1060-1080 | for every script of edits, deletions and recreations the write is accepted exactly when the users' side of the script says so, and stores the decided status on the Plant of that side |
| Generations.AheadIffRecreatedBelow | internal/controller/plant_controller.go:1028-1080 | for every script the write leaves observedGeneration ahead if and only if the edits landing before it delete and recreate the Plant and then change its spec too seldom, computed from Plant and script alone |
| Generations.NeverAheadIff | internal/controller/plant_controller.go:1028-1080 | no script at all puts a decided value ahead if and only if the value is at most 1; the same with scripts that never reuse the UID |
| WorldRuns.RunIsNeverAheadIff | internal/controller/plant_controller.go:288-414 | over every run of whole passes, user edits, outside changes and restarts observedGeneration is ahead in no state if and only if it is not to begin with and no pass that judges the Plant is overtaken by such a recreation; blocking passes never put it ahead |
| StatusWrites.RecreationPutsObservedGenerationAhead | internal/controller/plant_controller.go:1066-1075 | an example: a Plant of generation 5 deleted and recreated before the update |
| StatusWrites.WriteSucceedsIffSomeAttemptIsClear | internal/controller/plant_controller.go:1060-1080 | while users only edit, the write succeeds exactly if nothing lands between the read and the update of one of its attempts |
| StatusWrites.FiveAttempts | internal/controller/plant_controller.go:1059-1084 | so reconcileStatus's write succeeds exactly if one of its first five attempts is such |
| MonitorProbe.AnswersAreFresh | internal/controller/plant_controller.go:525-559 | false means a real probe failed less than 30 seconds ago, or just now; true means this very call found the CRD |
| MonitorProbe.FailedProbesAreSpaced | internal/controller/plant_controller.go:536-559 | any two failing probes are at least 30 seconds apart |
| MonitorProbe.FailedProbesInWindow | internal/controller/plant_controller.go:204-210 | a window of L seconds has at most L / 30 + 1 failing probes |
| ReconcilePass.PassConverges | internal/controller/plant_controller.go:288-362 | from any store, a pass that requeues leaves the child of every kind present, controlled by the Plant and as the builders describe, selectors included unless one was set, with everything foreign kept; the ServiceMonitor exactly if its CRD is found and no remembered answer is in force, and otherwise as it was |
| Workload.PassBuildsWorkload | internal/controller/resources.go:101-330 | after every such pass the stored children carry the six labels and the Plant as controller, the Deployment runs the spec's image, size and replicas (3 if unset) with its probes, hardening and settings, and Service, policy, budget, ConfigMap, account and ServiceMonitor refer to its port, pods and name |
| Workload.PassKeepsWhatIsNotOwned | internal/controller/plant_controller.go:731-811 | labels under any other key stay as they were, and a selector that was set stays |
| Workload.ServicesReachOwnPodsOnly | internal/controller/resources.go:133-152 | of two Plants whose workloads stand, the Service of one selects the pods of the other if and only if they have the same name |
| Reports.StoredStatusIsTrue | internal/controller/status.go:60-284 | after every pass that judges the Plant and whose write, if any, is accepted, under any script of user edits: counts, generation, mood, percentage and the three conditions of the stored status are those of the stored Deployment's status and the spec, whether the write was made or skipped; lastWatered moves exactly if anything else did |
| Reports.ChildFailureIsTold | internal/controller/plant_controller.go:330-414 | a pass that ends on a conflict leaves the Plant degraded with the child and its controller, and nothing else of the status changed; one that fails on a child otherwise changes no Plant and emits nothing |
| Reports.LongNameIsTold | internal/controller/plant_controller.go:317-327 | a Plant with more than 63 characters in its name is marked with that length, and nothing else changes |
| Reports.EventsTellWhatHappened | internal/controller/plant_controller.go:344-362 | the events of a pass that requeues are PlantCreated if a child is there that was not, else PlantUpdated if one is not as it was, and then PlantDegraded or PlantRecovered exactly if the stored Degraded flag differs so from the one read |
| PassSuccess.PassSucceedsIff | internal/controller/plant_controller.go:288-362 | for every script of user edits a pass requeues if and only if the Plant is live, its name short enough, every child it applies can be applied to the store it starts from, and its status needs no writing or the script lets an attempt through |
| PassSuccess.PassSucceedsAloneIff | internal/controller/plant_controller.go:288-362 | the same while no user edits, when the last condition always holds |
| PassSuccess.FailedStageIsPrefix | internal/controller/plant_controller.go:466-505 | a children stage that fails got to the first kind, in the order of the table and the ServiceMonitor last, whose child cannot be applied: those before it converged, it and those after are untouched |
| ReconcilePass.QuietForever | internal/controller/plant_controller.go:424-435 | in a quiet world passes at any times change neither the store nor the events |
| Silence.SuccessfulPassIsQuiet | internal/controller/plant_controller.go:627-644 | a successful pass leaves a quiet world, a stale negative CRD answer excepted |
| Silence.FinishedPassIsQuiet | internal/controller/plant_controller.go:297-327 | so do passes over missing, deleting and misnamed Plants |
| Silence.StaleNegativeBreaksSilence | internal/controller/plant_controller.go:487-503 | if the negative cache hid an installed CRD and the ServiceMonitor needs work, the pass at the deadline makes a request |
| Silence.SilentAfterSuccessIff | internal/controller/plant_controller.go:288-362 | with nobody else acting, a successful pass is the last to request anything, at any later times, if and only if no stale negative answer hid a ServiceMonitor that needs work |
| Stuck.ConflictRecurs | internal/controller/plant_controller.go:479-485 | children that ended on a conflict end on the same one again without a request |
| Stuck.ConflictIsReportedOnce | internal/controller/plant_controller.go:330-342 | after the pass that met it an unchanged conflict causes no request and no event |
| Stuck.StuckPlantIsWrittenOnce | internal/controller/plant_controller.go:382-414 | over that pass and all retries together there is at most one status write and one PlantBlocked |
| PassSuccess.NewChildrenAcceptableIff | internal/controller/plant_controller.go:75-89 | new children of all kinds are acceptable if and only if the name has at most 63 characters and is a DNS label; a longer name makes every one of them unacceptable |
| PassSuccess.NameGuardIsExactIff | internal/controller/plant_controller.go:317-327 | the guard decides rightly if and only if the name is too long or a DNS label |
| PassSuccess.GuardPassesAnUnusableName | internal/controller/plant_controller.go:317-327 | `my.fern` passes the guard, its Service is unacceptable and its other children are not |
| PassSuccess.UnusableNameNeverSucceeds | internal/controller/plant_controller.go:317-349 | no pass over such a Plant ever succeeds, whatever is stored and whatever users do |
| PassSuccess.FirstRefusedPass | internal/controller/plant_controller.go:330-349 | if the server refuses one of the six children, the first pass that can apply those before it brings them to rest and fails there without touching the Plant or its events |
| PassSuccess.RefusedForever | internal/controller/plant_controller.go:330-349 | every later pass makes one refused request and changes nothing else, no status and no event |
| PassSuccess.UnusableNameIsRefused | internal/controller/plant_controller.go:317-327 | a Service that cannot have the Plant's name is such a child |
| PassSuccess.LockedConfigMapIsRefused | internal/controller/plant_controller.go:892-903 | so is an immutable ConfigMap with other data |
| PassSuccess.TurnedBudgetIsRefused | internal/controller/plant_controller.go:909-924 | so is a PodDisruptionBudget with maxUnavailable in place of minAvailable |
| Operator.PlantReconciler.ServiceMonitorCRDAvailable | internal/controller/plant_controller.go:536-559 | answers and remembers as the throttle model says |
| Operator.PlantReconciler.AssertOwnership | internal/controller/plant_controller.go:696-720 | refuses exactly the objects whose first controller reference has another UID, or is missing, and whose managed-by label is missing or not plant-operator |
| Operator.PlantReconciler.ApplyChild | internal/controller/plant_controller.go:595-645 | reads, checks, mutates and writes exactly as the children model says |
| Operator.PlantReconciler.ReconcileChildren | internal/controller/plant_controller.go:436-506 | the loop over the table and the optional seventh child match the pass model |
| Operator.PlantReconciler.MarkDegraded | internal/controller/plant_controller.go:390-414 | writes and reports exactly when the status changes |
| Operator.PlantReconciler.WriteStatus | internal/controller/plant_controller.go:1059-1084 | the retry loop is the retried write of the model, for every script of user edits |
| Operator.PlantReconciler.ReconcileStatus | internal/controller/plant_controller.go:1025-1085 | decides once, then retries only the write |
| Operator.PlantReconciler.Reconcile | internal/controller/plant_controller.go:288-362 | the whole pass is the pass model, outcome, store and events; when it requeues, the stored status is true of the stored Deployment and the workload stands |
| Chaos.Execute | internal/chaos/kube.go:310-349 | dry-run only narrates; otherwise one destructive call, then an event whose failure never changes the outcome; an error is returned exactly if either failed |
| Chaos.RunIteration | cmd/chaos-buddy/main.go:212-249 | one iteration makes exactly the modelled calls and counts its outcome; the gauge is what the switch permits |
| Chaos.RunLoop | cmd/chaos-buddy/main.go:192-206 | a run is its iterations in order, whatever the outside answers |
| Chaos.Metrics.RecordAction | cmd/chaos-buddy/main.go:306-312 | exactly one counter goes up by one |
| Chaos.IterationMakesExactly | internal/chaos/engine.go:201-256 | an iteration calls exactly the two reads and then, if the switch was read on without error and a pod of the target namespace was drawn in a supported mode, outside dry-run the one call the mode names on that pod, and last one event about it |
| Chaos.RunsMakeExactly | internal/chaos/engine.go:218-256 | over every run the destructive calls are exactly those: a pod is deleted only in pod-kill mode and made unready only in readiness-flap mode, and only if it was drawn from the list, in the target namespace |
| Chaos.PermittedIterationActs | internal/chaos/engine.go:201-256 | an iteration makes one destructive call if it is so entitled and dry-run is off, and none otherwise |
| Chaos.IterationCount | internal/chaos/kube.go:325-348 | an iteration makes at most one destructive call, and makes it exactly when its outcome is counted as a success or a failure |
| Chaos.CountersMatchCalls | internal/chaos/kube.go:325-348 | over every run destructive calls equal successes plus failures and never outnumber the iterations |
| Chaos.CountersCountOutcomes | internal/chaos/kube.go:325-348 | over every run each counter is the number of its iterations: failures those that were entitled, outside dry-run, and whose call failed, successes those whose call did not, dry runs those entitled in dry-run |

## Left out

- Floating point: ratios, scores and ceil(0.95 n) are exact; a float64 result next to a threshold may differ. The truncation of the percentage to 32 bits is not modelled.
- Clocks: one reading per reconcile pass and per merge of an object's entries, where the program reads the clock several times; times are integers, so the truncation of stored timestamps to seconds is not visible.
- API faults: reads and writes of children fail only for the reasons the model gives. Workers that stop at any point are part of OwnershipRuns.
- Stale reads of a Plant from the cache appear only as user edits that land before the first status update, not as a pass working from an old spec.
- Wording: conditions, reasons and events carry one constructor per sentence the program writes, with what it fills in, instead of the text.
- A no-op Update gets a new version here; a real server keeps the version.
- Deletion of children and of Plants by the garbage collector, and rewrites of a webhook configuration by anyone but operator processes, except as outside steps of OwnershipRuns and of CAPatch.
- The number of patch attempts is a parameter: the library's backoff cap may end the loop before its ten steps.
- Window locking: observe and stats are atomic. Publishing of health gauges is not modelled, and no agreement between them is claimed.
- FlapReadiness's two requests and the hold between them are one call of the chaos client; it does not restore readiness if cancelled during the hold, and nothing here says it does.
- PEM decoding and encoding, certificate generation and the expiry health check: the bundle is its block list, and parsing is a parameter.
- ServiceMonitor, NetworkPolicy, ConfigMap, PodDisruptionBudget and ServiceAccount have no defaulted fields in the model.
- Requeue intervals, admission webhooks, HTTP handlers, environment parsing, log lines, manifests and charts: no state or branching beyond single comparisons.
