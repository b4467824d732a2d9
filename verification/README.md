# outboxd in Dafny

A model of the parts of outboxd that are hard to get right, with proofs of what they promise. Each module
follows one component of the program: code that changes state step by step is a class or a method with
loops, code that computes is a function, and interleaved threads are a state machine over their steps.
`dafny verify dfyconfig.toml` checks everything.

- **Durability.** `CrashDisk` is the contract of the disk: a live state and the set of states that a power
  cut at this instant may leave; an effect adds outcomes, a sync removes those that disagree, and a rename
  is link and unlink. On it stand `Tls` (generation of the certificate pair), `SpoolAdd` (acceptance of a
  message into the spool), `Lifecycle` (metadata revisions, burial, revival, and the link between a message
  and its delivery status notification, DSN, under power cuts) and `Faults` (the same life under I/O errors too).
- **Scheduling.** `Heaps` and `Schedule` are the schedule as it is built, `Plans` is what it stands for, and
  `Fairness` is about runs of it. `Ranks` orders messages and owners. `Transitions` decides which envelope
  of an ID may be scheduled.
- **Delivery.** `Limits`, `Grouping`, `Parking`, `Admission`, `OnePlace` and `NotLost` are the deliverer's slots,
  groups and parked envelopes over every interleaving; `Recipients` and `Codes` what host replies do to recipients;
  `MxOrder` the order of mail exchangers.
- **Accounts.** `AuthLimiter`, `RateLimiter`, `Capacity` and `Spool` are the limiters and quotas; `Sums`
  holds totals over maps, and `Runs` sequences of requests.
- **Messages.** `Normalize` and `Headers` are line ends and header fields, `Variants` the bodies of a message
  for different recipients, and `Bodies` how the stored ones are verified and read; `Octets` holds searching in
  octet strings.

Clocks, random choices, I/O errors and power cuts are parameters or arbitrary choices of a method. Digests
are a function parameter, taken to be injective where that is needed. Integers are unbounded except where a
width is named (`Spool.MAX_INT64`, `Capacity.MAX_INT`); floating point in the token bucket is `real`. Message
IDs and owners of the schedule stand for their ranks in string order.

Where the obvious statement fails, the exact condition and a failing case are proved:

- A reservation of the authentication limiter that evicts the only identity of the very IP it reserves for
  loses that IP's record (`EvictionKeepsIff`; `AuthLimiter.Limiter.Reserve` says in which tables a call is exposed to
  it, and `BreakingRun` reaches it on a limiter of any size).
- A DSN that was delivered can be published a second time after a power cut exactly when its publication
  reported an error after the rename (`RepublishedIff`). A second AddDSN call in the same process, which
  makes a DSN with a new incarnation, does not publish the stage that an earlier call left behind, although
  the comment at internal/queue/dsn.go:343-344 keeps it for such a retry (`Post`: only the call that staged it, or
  recovery, can publish it).
- The DSNs of one generation can be the work of two AddDSN calls when a revival fails to remove the metadata it
  staged: the next start puts that metadata, which knows of no DSN, into place again. Without such a leftover
  they never are, whatever I/O errors and power cuts happen (`Faults.Store.AnyRun`, `ReportTwice`, `TwoReports`).
- The requeue after a storage error can put a message on the schedule that another attempt has already taken
  up, so that two attempts work on it at once (`LateRequeueIff`, `TwoAttempts`). When its copy is of an earlier
  version than the one on the schedule, it takes that one off and puts nothing in its place: the message is
  forgotten until the next start (`ForgottenIff`, `ForgottenRun`).
- A permanent refusal of MAIL marks recipients as failed that an earlier host has taken (`SentFinalIff`).
- Forgetting an idle user of the token bucket is visible, and breaks the hourly bound, unless the recipients'
  burst is at most half its rate and either the messages' burst is too or the recipients' rate is at most the
  messages' rate (`PruneInvisibleIff`, `WindowIff`).
- Splitting header and body is the inverse of printing only for at least one field (`SplitIff`).

## Model

| member | source | states |
|---|---|---|
| CrashDisk.Disk.Move | internal/disk/disk.go:438-477 | a rename that is not synced may survive a power cut in full, not at all, or with both names, never with neither |
| CrashDisk.Disk.Sync | internal/disk/disk.go:438-477 | a sync that succeeded leaves only outcomes that agree with the live state on what was synced |
| Tls.Keeper.Generate | internal/certs/generate.go:28-111 | cut off anywhere it leaves a recoverable store; completed it leaves the pair and neither stage nor marker |
| Tls.Keeper.DiscardStages | internal/certs/generate.go:234-245 | drops both stages and then the marker, recoverable throughout |
| Tls.Keeper.FinishTarget | internal/certs/generate.go:125-232 | a final file is kept and its stage removed, a lone stage is installed, and a cut leaves one of three named states |
| Tls.Keeper.RecoverGeneration | internal/certs/generate.go:125-232 | from every recoverable state it ends complete or empty, never replaces a final file and never reports an error |
| Tls.Keeper.EnsureFiles | internal/certs/certs.go:48-106 | from every recoverable state an undisturbed start ends with the complete pair |
| Tls.Keeper.AnyCrashSchedule | internal/certs/certs.go:48-106 | for any number of starts cut off anywhere, one later start installs one pair with no stage and no marker, and no start ever replaced a final file |
| SpoolAdd.Spool.Stage | internal/queue/add.go:206-284 | after success the staged entry is whole in every outcome, and it is accepted in none |
| SpoolAdd.Spool.MoveToReady | internal/queue/add.go:286-289 | after success the entry is in ready/ in every outcome; after an error it is still not accepted in any |
| SpoolAdd.Spool.WriteMarker | internal/queue/add.go:451-462 | the in-place rewrite can stop anywhere, and after success the marker reads as asked |
| SpoolAdd.Spool.RollBack | internal/queue/add.go:428-449 | after success no outcome is accepted |
| SpoolAdd.Spool.Accept | internal/queue/add.go:393-426 | committed means accepted with body and metadata in every outcome, refused means accepted in none, and unsure needs an error in the step and another in its roll-back |
| SpoolAdd.Spool.AbortReady | internal/queue/add.go:291-341 | without errors it reports a definite error, with the entry in quarantine and ready/ free in every outcome; an error is reported only if no outcome has the entry accepted in ready/; unknown only if acceptance was in doubt, the quarantine failed, and the entry may still be in ready/ or cannot be looked for, and exactly then the ID is blocked |
| SpoolAdd.Spool.Add | internal/queue/add.go:23-386 | what is reported holds in every state a power cut can leave, earlier reports included; without trouble it succeeds exactly when the ID is neither blocked, accounted nor occupied; a call cancelled before acceptance is never unknown, and without errors its entry is withdrawn; unknown needs errors in the step, the roll-back and the clean-up |
| SpoolAdd.Spool.RecoverTmp | internal/queue/recovery.go:14-46 | moves what tmp/ holds to quarantine without touching ready/; a failure, and nothing else, blocks the ID |
| SpoolAdd.Spool.LoadReady | internal/queue/recovery.go:366-433 | schedules an entry only if it is accepted and whole; without trouble exactly then, and any other goes to quarantine |
| SpoolAdd.Spool.Recover | internal/queue/recovery.go:366-520 | never schedules an entry whose call reported failure; undisturbed it schedules the accepted one |
| SpoolAdd.Spool.AnyRun | internal/queue/add.go:23-386 | over any run of calls, deaths, power cuts and recoveries with I/O errors anywhere, an accepted message is scheduled by the final undisturbed recovery and no recovery ever schedules a failed one |
| Lifecycle.Store.StoreReady | internal/queue/storage.go:24-93 | the metadata changes only if the copy matches the stored version, and then to that copy one revision on, under any I/O error |
| Lifecycle.Store.AnyUpdates | internal/queue/storage.go:24-206 | over any sequence of updates with arbitrary copies, every version is one revision above the one it was checked against, no two commits share a base, content never changes and a link is never taken back |
| Lifecycle.Store.Post | internal/queue/dsn.go:397-461 | a DSN enters ready/ only when the source's metadata links exactly its generation and revision in every outcome, and only the accepted stage of the given call, and without I/O errors always then; without them it fails exactly when stage, link or what is already published do not fit the call |
| Lifecycle.Store.Retry | internal/queue/delivery.go:159-284 | fails exactly for a copy that differs from the stored version in more than recipients' status, and otherwise stores it one revision on; a cut leaves the old or the new version |
| Lifecycle.Store.Bury | internal/queue/dead.go:16-187 | ends in dead/ with the copy one revision on, or succeeds when the copy's version is there already, and fails exactly for any other copy that does not match; a cut leaves the message in place with the old or the new version |
| Lifecycle.Store.Revive | internal/queue/dead.go:258-451 | fails exactly when the message is not dead or its DSN is around; ends in ready/ with revision and generation one higher, no link, the same message, every failed recipient pending and the others as they were, no DSN anywhere, and none that could be generated while its recipients stand so |
| Lifecycle.ReopenedCounts | internal/queue/dead.go:337-344 | after a revival nobody is failed, and as many more are pending as were failed |
| Lifecycle.NotReportable | internal/queue/dead.go:337-344 | no DSN can be generated for a message revived with a failed recipient until an attempt has changed a recipient |
| Lifecycle.Store.Finish | internal/queue/delivery.go:289-357 | removes a message that matches the copy, succeeds when it is gone already, and fails exactly when another version is there |
| Lifecycle.Store.Stage | internal/queue/dsn.go:290-331 | a stage is pending, then accepted, and a cut leaves something that recovery settles |
| Lifecycle.Store.AddDsn | internal/queue/dsn.go:14-395 | stages, links and publishes in this order, for a copy with a failed and no pending recipient; fails exactly when the copy does not allow a report or another call has published one, and a cut leaves the source in place with the old or the linked version |
| Lifecycle.Store.RecoverStage | internal/queue/recovery.go:175-262 | the stage of a linked source ends up published under its own identity, any other is dropped or quarantined, and the source stays as a cut left it |
| Lifecycle.Store.RecoverDsn | internal/queue/recovery.go:127-265 | leaves no stage behind, completes every linked one, and keeps the record of what was published |
| Lifecycle.Store.LoadReady | internal/queue/recovery.go:435-490 | completes a revival and resolves entries that are in ready/ and dead/ at once, keeping the message |
| Lifecycle.Store.Recover | internal/queue/open.go:217-243 | from everything a power cut can leave it restores a running queue's invariant with one of the two versions, and completes a linked stage |
| Lifecycle.Store.CutInBury | internal/queue/dead.go:163-187 | any number of cuts during burial and recovery: exactly one of ready/ and dead/, wholly old or wholly new metadata |
| Lifecycle.Store.CutInRevive | internal/queue/dead.go:337-418 | the same for revival: the old metadata, or the next generation with every failed recipient pending; and a revived message has no DSN in dsn/, ready/ or dead/ |
| Lifecycle.Store.AnyRun | internal/queue/dsn.go:14-395 | over any run of operations with power cuts anywhere, a linked generation has got exactly one DSN, no generation gets a second one, a handled DSN never returns, and every DSN belongs to the current generation |
| Lifecycle.Store.RepublishedIff | internal/queue/dsn.go:455-460 | a DSN that was published under I/O errors and delivered can be published again after a power cut if and only if its publication reported an error after the rename |
| Faults.Store.FinishDsn | internal/queue/delivery.go:289-357 | a delivered DSN of which no outcome holds a stage or a dead copy is gone from every outcome for good |
| Faults.Store.Revive | internal/queue/dead.go:258-451 | with I/O errors and the roll-back at each step it keeps what is on record; without errors it ends in ready/ with the next generation, every failed recipient pending and nothing to report; with three errors its staged metadata stays beside the message |
| Faults.Store.Post | internal/queue/dsn.go:397-461 | under I/O errors a published DSN is always of the call on record for its generation, unless staged metadata of a revival was left behind; success means that the stage is now the entry in ready/ |
| Faults.Store.AddDsn | internal/queue/dsn.go:14-395 | the same with staging, the replacement of a stage that was never linked, and the clean-up after errors; success on a message without a link means that it links exactly the DSN of this call, which is in ready/ |
| Faults.Store.Restart | internal/queue/open.go:217-243 | recovery after a cut or without one, with errors anywhere, keeps what is on record and completes a revival |
| Faults.Store.AnyRun | internal/queue/dsn.go:14-395 | over any run of operations and restarts with I/O errors and power cuts anywhere, up to a publication beside metadata that a revival left behind, all DSNs published for a generation are of one call, and a DSN handled with nothing left of it never returns |
| Faults.ReportTwice | internal/queue/recovery.go:435-450 | wherever such metadata was left behind, a run without further errors but one publishes DSNs of two calls for one generation |
| Faults.TwoReports | internal/queue/dead.go:391-418 | and a new message gets there by a revival with three errors |
| Heaps.Up | internal/queue/schedule.go:27-69 | sifting up restores the heap order, with all stored positions right |
| Heaps.Down | internal/queue/schedule.go:27-69 | sifting down restores the order or reports that nothing moved |
| Heaps.Extract | internal/queue/schedule.go:55-69 | an item is taken out without its own key ever being compared |
| Heaps.Push | internal/queue/schedule.go:47-53 | a heap stands for a map; pushing adds one key |
| Heaps.Fix | internal/queue/schedule.go:127-152 | an item with a new key finds its place |
| Heaps.Remove | internal/queue/schedule.go:202-254 | removing takes exactly one key out of the map |
| Heaps.Pop | internal/queue/schedule.go:55-69 | popping takes the earliest key |
| Heaps.RootIsLeast | internal/queue/schedule.go:32-38 | in a heap the first item precedes all others |
| Plans.PushKeeps | internal/queue/schedule.go:127-152 | every owner stays in exactly one of future and due, under its first message's time, and the count is the total |
| Plans.PushAdds | internal/queue/schedule.go:127-152 | a push adds its message and changes no other |
| Plans.PromotesInOrder | internal/queue/schedule.go:166-174 | promotion appends exactly the waiting owners that are due, earliest first |
| Plans.ServeKeeps | internal/queue/schedule.go:180-199 | serving the first due owner keeps the invariant |
| Plans.RemoveKeeps | internal/queue/schedule.go:202-254 | removal keeps it too, whichever list the owner is on |
| Plans.RemoveTakes | internal/queue/schedule.go:202-254 | a removal takes off its message and no other |
| Plans.PopKeeps | internal/queue/schedule.go:166-200 | a pop returns nothing exactly when no message is due, never one that is early, and always its owner's first |
| Plans.PopTakes | internal/queue/schedule.go:166-200 | a pop takes off the schedule what it returns and nothing else |
| Schedule.Schedule.Push | internal/queue/schedule.go:127-152 | heaps and list do what the plan's push does, all heap orders and stored positions kept |
| Schedule.Schedule.PopDue | internal/queue/schedule.go:166-200 | the same for popping, with the plan's result |
| Schedule.Schedule.Remove | internal/queue/schedule.go:202-254 | the same for removal, which reports exactly whether the message was scheduled |
| Schedule.DropOwner | internal/queue/schedule.go:215-221 | takes the owner off the due list and keeps the order of the others |
| Transitions.Queue.ScheduleLocked | internal/queue/schedule.go:263-285 | schedules exactly the accounted version of an ID that is neither blocked nor scheduled |
| Transitions.Queue.BeginTransitions | internal/queue/transitions.go:9-25 | claims all IDs or none, and never one that is taken |
| Transitions.Queue.EndTransition | internal/queue/transitions.go:31-51 | gives the ID back and schedules the first envelope held back that still may be; the ID ends up scheduled exactly if there is one |
| Transitions.HeldBackIff | internal/queue/transitions.go:31-51 | at the end of a transition the ID is scheduled if and only if an envelope held back for it is still the accounted version, and then with the first such |
| Transitions.ReplaceIff | internal/queue/delivery.go:114-142 | replacing what is scheduled leaves the ID scheduled if and only if the new envelope is of the accounted version and not blocked |
| Transitions.Queue.Requeue | internal/queue/delivery.go:77-110 | during a transition an envelope is held back behind the others, once per version, and otherwise scheduled if it may be; other IDs are not touched |
| Transitions.Queue.RequeueAfter | internal/queue/delivery.go:114-142 | takes off what is scheduled under the ID, in transition or not, and schedules the envelope for the new time exactly if it is of the accounted version; otherwise the ID ends up unscheduled |
| Fairness.ServedInTurn | internal/queue/schedule.go:166-200 | an owner at position k of the due list is served by the (k+1)-th successful pop or removed sooner, over every run |
| Fairness.NoTurnBehind | internal/queue/schedule.go:166-200 | nobody behind a waiting owner is served |
| Fairness.BetweenTwoTurns | internal/queue/schedule.go:166-200 | between two turns of one owner every other due owner that is not removed is served exactly once |
| Fairness.Conserved | internal/queue/schedule.go:127-254 | over every run, message by message, what was scheduled and what is pushed is what is popped or removed and what stays: none is lost and none is returned twice |
| Limits.Limiter.TryAcquire | internal/deliver/limiter.go:20-42 | takes a slot exactly when one is left: the key has one holder more and no other key changes |
| Limits.Limiter.Release | internal/deliver/limiter.go:44-67 | gives one slot back, of that key only, and forgets a key without holders |
| Limits.TakeGive | internal/deliver/limiter.go:20-67 | giving back undoes taking, within the limit |
| Grouping.BuildGroups | internal/deliver/attempt.go:103-121 | every pending recipient is in the group of its domain and body, and groups come in the order of their first recipients |
| Grouping.Rotate | internal/deliver/attempt.go:123-134 | the in-place rotation moves the first group of the admitted domain to the front, and the others keep their order |
| Grouping.FrontedPermutes | internal/deliver/attempt.go:123-134 | the rotation is a permutation, the admitted domain comes first if it has a group, and all other groups keep their order |
| Grouping.NextPendingDomain | internal/deliver/run.go:161-179 | the preferred domain while it has pending recipients, otherwise the domain of the first pending recipient, or none |
| Parking.Lot.Park | internal/deliver/admission.go:27-42 | parks behind the others; an envelope that waits for a domain remembers it |
| Parking.Lot.TakeFirst | internal/deliver/admission.go:44-77 | takes out the envelope that has waited longest for the slot, and no other |
| Parking.WakeIsEnabled | internal/deliver/admission.go:44-77 | waking by the first match is one of the wake-ups that the interleavings allow |
| Parking.FirstComeFirstServed | internal/deliver/admission.go:44-77 | envelopes that wait for the same slot leave in the order in which they came |
| Admission.AdmittedFirst | internal/deliver/attempt.go:123-134 | the domain that admission took a slot for heads the attempt's groups |
| Admission.ChooseOk | internal/deliver/attempt.go:141-160 | no slot is overwritten: one is taken only when none is held |
| Admission.StepKeeps | internal/deliver/attempt.go:52-199 | every step of every thread keeps holders per user and domain equal to the threads that will give a slot back, and within the limit |
| Admission.RunKeeps | internal/deliver/run.go:19-142 | the same over every interleaving |
| Admission.NothingLeft | internal/deliver/run.go:19-142 | limits hold in every reachable state, and once the run loop has returned no slot is held and nothing is parked |
| OnePlace.StepOnce | internal/deliver/admission.go:27-88 | every event but the late requeue keeps each envelope in at most one of schedule, parking list and threads |
| OnePlace.LateRequeueIff | internal/deliver/run.go:129-135 | the late requeue does so if and only if nobody else has taken the envelope up since, or its version has been replaced |
| OnePlace.ForgottenIff | internal/queue/delivery.go:114-142 | the late requeue forgets a message, leaving it on no schedule and with nobody, if and only if it finds the message scheduled and its own copy is stale |
| OnePlace.RunOnce | internal/deliver/run.go:19-142 | over every run without such a collision each envelope is in at most one place |
| OnePlace.OnceFromStart | internal/deliver/run.go:19-142 | the same from the start of the deliverer, with any schedule that files envelopes under their IDs |
| OnePlace.TwoAttempts | internal/deliver/run.go:129-135 | for every message alone on the schedule there is a run that ends with two attempts at it under way |
| OnePlace.ForgottenRun | internal/deliver/run.go:129-135 | and one that ends with the message stored and accounted, but neither scheduled, parked nor with anyone |
| NotLost.StepKept | internal/deliver/admission.go:27-88 | every event keeps each accounted message on the schedule, parked, with a thread or known to a caller that will put it back, except a caller that gives it up after an error and the late requeues of `LateRequeueIff` and `ForgottenIff` |
| NotLost.NothingLost | internal/deliver/run.go:19-142 | over every run without those, from a schedule with the accounted version of every message: a message that is still accounted is somewhere, in its accounted version, and once the run loop has returned it is on the schedule |
| AuthLimiter.AdmitKeeps | internal/smtpd/limiter.go:194-281 | a granted reservation keeps all sums, seen times, lockouts and budgets |
| AuthLimiter.CanReserveIff | internal/smtpd/limiter.go:154-175 | a record has an attempt left exactly if it is not locked and five failures and attempts, or past that one attempt at a time, leave room for it |
| AuthLimiter.LockoutDoubles | internal/smtpd/limiter.go:430-453 | the lockout is two seconds at five failures, doubles with each further one, and is capped at five minutes |
| AuthLimiter.FailedKeeps | internal/smtpd/limiter.go:283-303 | so does a failure |
| AuthLimiter.CanceledKeeps | internal/smtpd/limiter.go:305-326 | so does a cancellation |
| AuthLimiter.SucceededKeeps | internal/smtpd/limiter.go:328-384 | so does a success |
| AuthLimiter.DropKeeps | internal/smtpd/limiter.go:567-600 | so does dropping an idle identity |
| AuthLimiter.DropIpKeeps | internal/smtpd/limiter.go:526-565 | so does dropping an IP with all its identities |
| AuthLimiter.DropRemovesIpIff | internal/smtpd/limiter.go:567-600 | dropping an identity removes its IP record exactly when it was the only one |
| AuthLimiter.EvictionKeepsIff | internal/smtpd/limiter.go:207-278 | a reservation that evicts keeps the tables consistent if and only if it does not evict its own IP's only identity |
| AuthLimiter.BreakingRun | internal/smtpd/limiter.go:100-281 | on a limiter of any size, one failure of every identity it has room for and then an attempt by another user of the first IP end in tables which are not consistent |
| AuthLimiter.Limiter.ForcePrune | internal/smtpd/limiter.go:464-498 | drops exactly the identities without an attempt or a lockout whose failures, if there are any, have expired; leaves no IP that could go, and stays consistent |
| AuthLimiter.Limiter.EvictOldestKey | internal/smtpd/limiter.go:500-524 | evicts an oldest idle identity |
| AuthLimiter.Limiter.EvictOldestIp | internal/smtpd/limiter.go:526-565 | evicts an oldest IP none of whose records is at work or locked, with all its identities, and reports none exactly when there is no such IP |
| AuthLimiter.Limiter.Reserve | internal/smtpd/limiter.go:194-281 | within capacity always; granted exactly when there is room or a sweep and an eviction can make it, and IP, identity and user have an attempt left; consistent unless, in tables described before the call, the evicted oldest identity is the only one of the reserving IP |
| AuthLimiter.Limiter.Failed | internal/smtpd/limiter.go:283-303 | exactly the identity and its IP have one failure more and one attempt less, with the lockout that the new count brings; the user has one attempt less, nobody else changes, and the tables stay valid |
| AuthLimiter.Limiter.Canceled | internal/smtpd/limiter.go:305-326 | one attempt less for identity, IP and user, no failure and no lockout changed, a record dropped only if it had nothing left; the tables stay valid |
| AuthLimiter.Limiter.Succeeded | internal/smtpd/limiter.go:328-384 | the identity's failures are cleared and taken off its IP, whose lockout ends below five; nobody else changes, and the tables stay valid |
| AuthLimiter.Limiter.LockedOut | internal/smtpd/limiter.go:194-384 | after a failure that is at least the fifth, over every run of calls every reservation is refused until the lockout for that count has passed: of the identity unless a success came first, at the IP unless its failures have fallen first |
| AuthLimiter.Limiter.AnyRun | internal/smtpd/limiter.go:604-661 | after any sequence of calls under a clock that does not go back the tables satisfy the source's own check, capacity and budgets, unless a harmful eviction stopped it |
| RateLimiter.Limiter.Take | internal/smtpd/rate.go:55-96 | spends exactly one message and its recipients, exactly if the user has the tokens and there is room |
| RateLimiter.Limiter.AnyRun | internal/smtpd/rate.go:55-130 | over any requests and in any window a user is granted at most the burst and what the rate brings, for messages and recipients, where each burst is at most half its rate or the weaker condition of `WindowIff` holds and every message has a recipient; and a new limiter refuses only what would exceed that bound in some window, or a user for whom there is no room |
| RateLimiter.RefusalsNeeded | internal/smtpd/rate.go:55-96 | conversely, over any requests a new limiter refuses only if some window would exceed the burst and what the rate brings, or if as many other users as it has room for made a request within the expiry |
| RateLimiter.PruneInvisibleIff | internal/smtpd/rate.go:122-130 | after every run of a new limiter forgetting idle users changes nothing that anyone can spend, if and only if the recipients' burst is at most half its hourly rate and the messages' burst is too or recipients come back no faster than messages |
| RateLimiter.WindowIff | internal/smtpd/rate.go:28-130 | every window of every run of a new limiter, with at least one recipient per message as internal/smtpd/data.go:41-56 demands, is within that bound if and only if the same condition holds |
| Capacity.Accounts.Reserve | internal/queue/capacity.go:42-116 | granted exactly when size, counters, space and the quotas allow it, and never beyond a user's quota, nor the whole queue's unless it is exempt |
| Capacity.Accounts.AllowedIff | internal/queue/capacity.go:71-95 | the counters allow one more exactly when the messages and reservations themselves, counted and added up in all and per owner, leave room for it |
| Capacity.Accounts.Release | internal/queue/capacity.go:118-153 | undoes one reservation; the guards against negative counts never act |
| Capacity.Accounts.NoteAdded | internal/queue/capacity.go:161-193 | counts a message exactly, and fails only on overflow |
| Capacity.Accounts.Publish | internal/queue/add.go:360-377 | turning a granted reservation into a message never fails and keeps every quota |
| Capacity.Accounts.NoteRemoved | internal/queue/capacity.go:195-222 | uncounts a message exactly |
| Capacity.Accounts.AnyRun | internal/queue/capacity.go:42-222 | over any sequence from an empty queue all counts equal the totals, in all and per owner, no user exceeds a quota with what is in flight, and neither does the whole queue if nothing is exempt |
| Spool.TiersNest | internal/queue/spool.go:26 | room for one burial is smaller than the least emergency reserve, so the tiers nest |
| Spool.BuryFits | internal/queue/dead.go:109 | a burial's hold covers the metadata and two units, less than three, and is never larger than that room |
| Spool.TiersDiffer | internal/queue/spool.go:142-201 | an ordinary write is admitted exactly if a terminal one that is larger by the emergency reserve would be, and an emergency write exactly if one larger by a burial's room would be, in the quota and on the disk |
| Spool.AllocationGrows | internal/disk/disk.go:58-68 | larger files are not charged less |
| Spool.Usage.Reserve | internal/queue/spool.go:142-201 | granted exactly within the tier's limit and above its free-space floor, and then the total is within the limit of that tier |
| Spool.Usage.Commit | internal/queue/spool.go:83-106 | moves reserved bytes to used ones, clamped at zero and at the largest integer, and keeps the total of what was reserved |
| Spool.Usage.Bury | internal/queue/dead.go:109 | unless the last reservation granted was terminal the quota has room for a burial, and only the free space decides |
| Spool.Usage.AnyRunThenBury | internal/queue/spool.go:59-201 | after any sequence of operations of every tier, earlier burials included, one burial passes the spool quota unless the last reservation granted was itself terminal |
| Normalize.Normalize | internal/message/message.go:444-490 | an error exactly for a NUL octet or a line that is too long; otherwise the result has exactly the lines of the text, in order and octet for octet, each ended by CR LF |
| Normalize.NormalText | internal/message/message.go:444-490 | whatever lines make up a text, where CR LF, a lone CR and a lone LF each end one, normalizing replaces their line ends by CR LF and nothing else |
| Normalize.HasLines | internal/message/message.go:444-490 | every text is made up of such lines |
| Normalize.LongLineIff | internal/message/message.go:477-481 | the loop's count finds exactly the runs of more than 998 octets without a line end |
| Normalize.NormalizedIsCanonical | internal/message/message.go:444-490 | every CR is followed by LF and every LF preceded by CR, the text ends with a line end, and no line is longer than 998 octets |
| Normalize.NormalizeTwice | internal/message/message.go:444-490 | normalizing is idempotent |
| Normalize.CanonicalIff | internal/message/message.go:444-490 | a text is its own normal form if and only if it is canonical |
| Headers.ScanHeader | internal/message/message.go:501-576 | the loop over lines computes the scan, with values as slices of the header |
| Headers.ScanPrinted | internal/message/message.go:501-576 | scanning printed fields finds exactly those fields |
| Headers.ScanIff | internal/message/message.go:501-576 | a header scans to a list of fields if and only if it is the print of well-formed fields, at most 1000 |
| Headers.CleanLine | internal/message/message.go:501-576 | no line of a field that scans holds a control character besides the tab before its line end |
| Headers.SplitIff | internal/message/message.go:492-499 | fields, an empty line and a body split into exactly those if and only if there is a field |
| Headers.Reassemble | internal/message/message.go:305-325 | writes generated fields, copied fields, an empty line and the body |
| Headers.ReassembledParses | internal/message/message.go:305-325 | the reassembled message parses to exactly the generated and the copied fields and that body, and a field is copied if and only if its name, in any letter case, is neither Bcc, Resent-Bcc nor Return-Path nor that of a replaced field |
| Headers.KeptPicks | internal/message/message.go:305-325 | the copied fields are exactly those, whole and in their order |
| Variants.PrepareVariants | internal/smtpd/data.go:267-328 | the bodies tile the bundle, each is used, every recipient points to what was made for its key; nothing is bundled if and only if there are several keys and their variants exceed the limit together |
| Variants.ChosenFirst | internal/smtpd/data.go:282-290 | a recipient's variant is the one made for the first recipient with the same key |
| Variants.ValidateBodies | internal/queue/validation.go:139-182 | accepts exactly bodies that tile the data and are all referenced |
| Variants.PreparedIsValid | internal/smtpd/data.go:203-234 | a prepared bundle passes the queue's checks, and the range that a recipient points to holds what was prepared for its key |
| Bodies.VerifyFile | internal/queue/body.go:425-475 | a body file is taken exactly if length, digest and every variant's range and digest are right |
| Bodies.ReaderVariant | internal/queue/body.go:94-158 | opens body n exactly if the file is intact and n exists, with that body's offset, size and digest |
| Bodies.Reader.Read | internal/queue/body.go:31-76 | hands over octets in order and makes progress; reports corruption exactly when octets are missing, the file has grown or the digest does not match, and the end otherwise |
| Bodies.Reader.ReadAll | internal/queue/body.go:31-76 | a sound file is read to its end and handed over exactly; whatever happened to it, an end that is reported comes with the expected length and digest |
| Bodies.ReadRecipient | internal/queue/body.go:31-158 | from preparing to reading: a recipient's variant of the unchanged file is read to the end and is exactly the data prepared for its key, and a changed file never yields other data as complete |
| MxOrder.ShuffleGroup | internal/deliver/discovery.go:186-197 | shuffling within one preference keeps the records sorted and complete |
| MxOrder.Hosts | internal/deliver/discovery.go:163-222 | refuses exactly a null record or no host, and otherwise returns the distinct hosts up to the cap |
| MxOrder.AllNamed | internal/deliver/discovery.go:199-214 | without the cap the result has exactly the hosts of the records, other than the empty name and the single dot |
| MxOrder.HostsInOrder | internal/deliver/discovery.go:175-214 | hosts come in the order of their lowest preference, for every arrangement, and the cap drops the highest |
| Codes.ParsedIsValid | internal/deliver/response.go:165-190 | every enhanced code that is parsed is accepted by the queue |
| Codes.ValidIff | internal/queue/validation.go:331-354 | a code is valid beside a reply code if and only if parsing leaves it as it is |
| Codes.ValidIsWritten | internal/queue/validation.go:331-354 | the accepted codes are exactly a class of 2, 4 or 5 that fits the reply code and two numbers of one to three digits, as section 2 of RFC 3463 writes them |
| Codes.ParseIff | internal/deliver/response.go:165-190 | the parser returns a code if and only if it is accepted and the text starts with it, after white space, with a space or nothing but white space behind it |
| Recipients.NormalizeDiagnostic | internal/deliver/response.go:206-236 | the result is the longest beginning within 1024 octets of the text with a space for every inner run of control characters, trimmed; it is clean, and its other characters are those of the text in order, all of them if the text is within the bound |
| Recipients.NormalizedIsClean | internal/deliver/response.go:206-236 | a diagnostic comes out bounded, trimmed and free of control characters, and a clean one stays as it is |
| Recipients.RunSqueezed | internal/deliver/response.go:206-236 | a run of control characters before visible ones becomes one space, or nothing where nothing visible came before |
| Recipients.ChangesKeep | internal/deliver/attempt.go:174-265 | every change of an attempt keeps a recipient fit for the queue's checks |
| Recipients.RcptAnswers | internal/deliver/send.go:73-127 | the n-th pending recipient gets the n-th RCPT answer, and is accepted exactly when it agrees |
| Recipients.Send | internal/deliver/send.go:50-214 | a pending recipient is sent if and only if MAIL, its own RCPT and the message were all agreed to, and failed, with the codes and the text of the refusal, if and only if one of those asked for it was refused with a code from 500 to 599; otherwise it stays pending with its codes; nobody else changes |
| Recipients.SentFinalIff | internal/deliver/send.go:63-67 | a sent recipient stays sent if and only if the next host does not refuse MAIL for good |
| Recipients.Group | internal/deliver/attempt.go:141-200 | what one group makes of the recipients that are pending when it starts; a group that is cut short leaves whoever is still pending exactly as it was |
| Recipients.AnyEvents | internal/queue/validation.go:188-225 | over any groups, attempts, replies, cancellations, expiry and exhaustion every recipient stays valid, a settled one never changes again, a pending one has changed in its detail only, and one becomes sent only by a group with a session in which MAIL, a recipient and the message were agreed to |

## Left out

- Lifecycle.Store.AnyRun: stated for power cuts alone; `Faults.Store.AnyRun` has I/O errors too, and says nothing about the message being in one place, because entries that fail to load are blocked until an operator acts.
- Lifecycle.Store.CutInRevive: the roll-back of a revival after I/O errors is the subject of `Faults.Store.Revive`.
- Lifecycle.Store.AddDsn: replacing the stage that an earlier failed call left is the subject of `Faults.Store.AddDsn`, because no such stage exists while only power cuts happen.
- Faults.Store.Restart: the blocking of entries that cannot be loaded or moved is not modelled; operations go on from whatever is left.
- Tls.Keeper.AnyCrashSchedule: stated for power cuts; I/O errors other than an existing file are not modelled.
- SpoolAdd.Spool.Add: follows one queue ID; collisions with dead/ and dsn/ and failed validation only add further errors before the first write and are not modelled.
- SpoolAdd.Spool.LoadReady: quarantine of an accepted entry because the counters overflow at startup is not modelled.
- NotLost.NothingLost: says nothing about eventual wake-up of parked envelopes, which depends on other attempts ending.
- Admission.NothingLeft: the bound on concurrent attempts by the channel `active` is not modelled.
- Headers.ScanIff: a fold line counts as blank when it holds ASCII white space only; Unicode white space is not modelled.
- Recipients.NormalizeDiagnostic: which code points are control or white space is a parameter.
- MxOrder.Hosts: host names are taken in lower case and without the final dot, as they are after that conversion.
- AuthLimiter.Limiter.Reserve: usernames and addresses are taken in canonical form, and the key of an identity is a pair; when the empty string is itself an IP of a full table, for which the source's search depends on the order of a map, nothing is said about the grant.
- AuthLimiter.Limiter.EvictOldestIp: for the same reason "oldest" and "none" are stated for tables without the empty string.
- RateLimiter.Limiter.AnyRun: that a refusal was needed is stated for a limiter that starts without users; rounding of floating-point tokens is not modelled.
- Capacity.Accounts.Reserve: the space quota is the parameter `space`; it is the subject of `Spool`.
- Spool.Usage.AnyRunThenBury: usage that is corrected to a measured value (adjustPhysicalDelta) is not modelled, because it follows the disk and not a limit.
- Recipients.AnyEvents: members of a group are given by position; that positions come from domain and body is the subject of `Grouping`.
- Bodies.ReadRecipient: reading the metadata and taking the file handle are not modelled.
- Waiting and wake-up of Next.
- Encryption, signing, key lookup, DNS, SMTP and TLS input and output, configuration, and the commands.
- The text of a DSN; only the identity that it carries is modelled.
- Listing, export, read-only opening and retention pruning of the queue.
- The 4 MiB bound on metadata, beyond the size that a burial reserves.
