# A verified model of the workbench control plane

A control plane places development workbenches (containers) on a fleet of hosts,
resizes and destroys them, and bills for them. Its state is rows in one SQL
database that API requests, dashboard polling, a cron pass and a billing queue
change concurrently; each host runs a daemon that executes jobs. This project
models that state and the programs that change it, and proves what they keep.

## How it is modelled

**The fleet** (`Plans`, `FleetState`, `FleetSteps`, `FleetRun`). A state holds the
hosts and one *slot* per container: its row, its plan-change row and its jobs in
insertion order. Every database batch is one atomic step. A read before a batch is
a separate step of its own: a step of a run names the earlier state each of its
rows was read in, and that state may be any earlier one. So a run covers every
interleaving of every caller, with reads as old as one likes. `FleetEffects` says of
every kind of step on a container but the settling of its jobs exactly when it takes hold and what it then
does, in the fields and numbers of the rows; `FleetOutcomes` of those. `changes() = 1`
chains are modelled statement by statement in `FleetBatches`, whose methods are
proved to be the atomic steps; `FleetRequests` runs a whole plan request and a whole
job poll read by read, with arbitrary steps of others between any two accesses, and
proves that what they do is a run of the model; `FleetTurns` says exactly what a request
can break when it is the only plan request for its container, with pollers, owners, cron
and requests for other containers going on around it; `FleetAnswers` says what an
undisturbed plan request leaves behind and what its answer promises, `FleetReplies`
exactly which answer it gets and what it reserves.

Three history variables record where a host's counters and its containers can part:
what was *dropped* with a deleted plan row, what placement *overcharged*, and what a
destroyed container left *lost*. With them conservation is an equality in every run
(`FleetTheorems.LedgerConserved`), and the counter is exact exactly when all three
are zero. `FleetExact` says exactly which steps make them non-zero, and `FleetDisk`
exactly which steps take a disk counter past its disk, drifted or not. The invariant
and its preservation are in `FleetLedger`, `FleetSlotProofs` and `FleetAccounting`, what
holds in every run in `FleetTheorems` and `FleetIdentity`.

**Plan changes and jobs** (`FleetPlans`, `FleetPlanRuns`, `FleetPromiseSteps`,
`FleetPromises`, `FleetOutcomes`, `FleetStories`, `FleetOwners`). Some promises depend on
the rows that a plan request's batch meets. A step is *safe* when its batch fits them,
however old its reads are; the model proves that plan changes stay explained in a run
exactly when every step of it is safe, and what an unsafe step breaks. Five promises are
also taken one by one, in runs that may have broken all the others: which step breaks
each, and that a run keeps it exactly when no step of it is such a one. They are that
`upgrade_pending` has a live plan change behind it; that a live plan change holds its
container there; that a change to Free reserves and resizes only a stopped workbench; that
only a plan's own job is active while it is live; and that a resizing one is paid for.

**Runs that go wrong** (`FleetRaces`, `FleetStaleReservation`). Four promises are false
of the program when a request acts on an old read. Each has a run, for every host that
admits it, and an exact condition of its own, over any run: for a host's disk in
`FleetDisk`, for the others in `FleetPromiseSteps`:
- the deletion of a finished plan row names only the container
  (`apps/worker/src/plan-transitions.ts:287-291`), so it can delete a plan change that
  has been requested since, and strands the container in `upgrade_pending`; it can
  also drop a reservation that is never credited back;
- placement from the waitlist charges the row it read
  (`apps/worker/src/reconciler.ts:402-411`) while the batch judges the row as it is, so
  a row shrunk in between overcharges the host, past its disk;
- a downgrade's stop queued from an old read of the plan row
  (`apps/worker/src/plan-transitions.ts:105-131`) settles as an ordinary stop, the owner
  can start the workbench, and the downgrade resizes it while it runs;
- a reservation tests only the container and the state of the plan row it meets
  (`apps/worker/src/plan-transitions.ts:150-229`), so amounts computed for a finished
  downgrade can start a later upgrade with nothing reserved, and completing it raises
  the host's counters.

**Choosing a host, a port, a place in line** (`HostSelection`, `Placement`, `Waitlist`).
The retry loops run against a world that changes between any two reads.

**The daemon** (`DaemonJobs`, `DaemonTheorems`, `DaemonRunner`). Promise callbacks
chained per container, in any interleaving with submissions.

**Billing** (`Entitlements`, `Billing`, `Accounts`). Stripe events committed in any
order from any old reads, and the access decision they feed. Two fields do depend on
the order: the grace after a failed payment and the last paid invoice; the model says
exactly when. So does the label stored with the entitlement, which the reservation's
guard reads: a snapshot committed late can leave it and the subscription row apart.
Events of different subscriptions processed at once can leave two live or the wrong one
named. The model says exactly when, for both.

**Two small protocols** (`Signing`, `Credentials`, `CredentialInstaller`). The replay
window of signed requests, and the installation of dashboard grants over logins that
the workbench's own tools rotate. A comment at
`apps/daemon/src/credential-installer.ts:274-275` promises that a later failure never
replays a grant. Marks are saved after installations, the agents' together, so a failure
in between can; the model says exactly when.

Times are integers, identifiers are natural numbers, and a container's or job's id is
its position, so ids are never reused. What the program reads from clocks, random
numbers, daemons and Stripe is arbitrary input.

## Model

| member | source | states |
|---|---|---|
| `FleetTheorems.RunsAreGood` | apps/worker/src/jobs.ts:215-643 | In every run every state satisfies the fleet invariant and is later than each before it: jobs are only added, settled jobs keep their result, hosts and disk sizes never move back |
| `FleetTheorems.LedgerConserved` | apps/worker/src/plan-transitions.ts:133-229 | In every state of every run each host's CPU, RAM and disk counters equal the sum over its containers of base, live reservation, dropped and overcharged, plus what was lost; so no counter is ever below what is hosted |
| `FleetTheorems.ExactIffClean` | apps/worker/src/jobs.ts:433-501 | A counter equals base plus live reservations exactly when nothing was dropped, overcharged or lost at that host |
| `FleetExact.StepExactIff` | apps/worker/src/plan-transitions.ts:287-291 | An exact counter stays exact after a step if and only if the step neither deletes a plan row that still holds a reservation there nor places a container charged for a row that has changed |
| `FleetExact.RunStaysExact` | apps/worker/src/reconciler.ts:356-421 | Over a whole run without such steps the counter stays exact |
| `FleetTheorems.OvercommitBounded` | apps/worker/src/placement.ts:107-158 | What a host's containers use stays within its capacity plus outstanding upgrade reservations plus one vCPU and 2560 MiB per container upgraded in place; disk within capacity outright; tenants within the ceiling; capacity fixed |
| `FleetTheorems.CountersBounded` | apps/worker/src/plan-transitions.ts:190-204 | In every state of every run the CPU and RAM counters exceed capacity by at most outstanding reservations, upgrades taken in place and the drift, which is nothing exactly where nothing was dropped, overcharged or lost |
| `FleetDisk.StepKeepsDiskIff` | apps/worker/src/reconciler.ts:369-421 | In any run, drifted or not, disk allocated stays within the disk after a step if and only if the step is not a placement from the waitlist that takes hold and charges, for the row it read, more disk than is left |
| `FleetDisk.RunKeepsDiskIff` | apps/worker/src/plan-transitions.ts:190-204 | Disk allocated is within the disk in every state of a run exactly when it was at first and no placement of the run oversells it |
| `FleetTheorems.JobsSettleOnce` | apps/worker/src/jobs.ts:226-256 | At most one lifecycle job of a container is active and it is the newest; a settled job keeps its status for the rest of the run |
| `FleetTheorems.AtMostOneSettlement` | apps/worker/src/jobs.ts:675-748 | Of all pollers and timeouts that settle one job in a run, with whatever reads, only the first to change anything changes a counter, status or row |
| `FleetTheorems.DestroyingHasItsJob` | apps/worker/src/jobs.ts:239-249 | A container in `destroying` has an active destroy job |
| `FleetAccounting.PlaceNewOk` | apps/worker/src/placement.ts:116-158 | Placing a new container keeps conservation and admits it only where it fits |
| `FleetAccounting.PlaceWaitlistedOk` | apps/worker/src/reconciler.ts:370-421 | Placing from the waitlist with a row read at any earlier time can overcharge the host but never undercharge it |
| `FleetAccounting.ReserveOk` | apps/worker/src/plan-transitions.ts:139-229 | A reservation computed from old reads adds to the plan row exactly what it adds to the host, and covers the disk the resize will need |
| `FleetAccounting.ReadIsCovered` | apps/worker/src/jobs.ts:439-459 | While a lifecycle job is active, what its settler read of container and plan is what they are, or was dropped since |
| `FleetAccounting.FinalizePlanOk` | apps/worker/src/jobs.ts:452-501 | Completing a resize moves the host by exactly the adjustment computed from the reads: the clamps at zero never change a value |
| `FleetAccounting.FinalizeDestroyOk` | apps/worker/src/jobs.ts:510-532 | Releasing a destroyed container's charge keeps conservation, the clamps idle, whatever was read |
| `FleetPlanRuns.StepKeepsPlanIff` | apps/worker/src/plan-transitions.ts:271-317 | After a step every container's plan change is explained if and only if the step is safe: it creates a plan with the status and tier the container has, deletes none that is live, queues only the job of the plan's own stage, claims or retries a downgrade only when stopped and an upgrade only with its amounts reserved |
| `FleetPlanRuns.RunKeepsPlansIff` | apps/worker/src/plan-transitions.ts:271-317 | Plan changes are explained in every state of a run exactly when they were at first and every step is safe |
| `FleetPromises.UnsafeStepBreaks` | apps/worker/src/plan-transitions.ts:271-317 | What each unsafe step leaves: a container pending without a plan or a plan it does not wait for, a running workbench being downgraded, an upgrade resizing unpaid, a job that is not the plan's |
| `FleetPromiseSteps.StepKeepsPromiseIff` | apps/worker/src/plan-transitions.ts:62-229 | In any run and for each of the five promises, whatever else is broken: if all containers keep it, they keep it after a step if and only if the step is none of its breakers: a deletion, its row read as settled, that meets a pending container; a creation that meets another status than it read, or a failure or success that its poller took for no plan's; a reservation or retry that takes hold of an unstopped downgrade; a job queued or retried across the plan's own; a reservation or retry that takes hold with too little CPU or RAM for the target |
| `FleetPromiseSteps.RunKeepsPromiseIff` | apps/worker/src/plan-transitions.ts:271-317 | Each promise holds in every state of a run exactly when it held at first and no step of the run breaks it |
| `FleetPromises.SafeRunsBreakNothing` | apps/worker/src/plan-transitions.ts:271-317 | A safe run from explained plan changes contains no step that breaks any of the five promises |
| `FleetPromises.PendingHasLivePlan` | apps/worker/src/plan-transitions.ts:62-95 | In any run a container in `upgrade_pending` has a plan change neither complete nor cancelled unless some deletion met a pending container, and one with such a plan change is in `upgrade_pending` unless some step took it for settled |
| `FleetPromises.DowngradeMeetsStopped` | apps/worker/src/plan-transitions.ts:99-131 | In any run a downgrade that is reserving or resizing belongs to a stopped workbench unless a reservation or retry took hold of an unstopped one, and only its own stop or resize is active while it lives unless some job crossed it |
| `FleetPromises.LivePlanLocksOwner` | apps/worker/src/state.ts:46-60 | No owner action, retry or provisioning takes hold while a plan change is live |
| `FleetPromises.FinishingChargesIff` | apps/worker/src/jobs.ts:452-493 | In any run at all, completing a resize raises its host's counters exactly when the reservation it read does not cover the CPU and RAM the target adds, and never takes disk |
| `FleetPromises.FinishingNeverCharges` | apps/worker/src/jobs.ts:452-493 | After safe steps the reservation precedes the resize: completing one raises no counter of any host, gives the container the target tier, and leaves a downgraded one stopped |
| `FleetPromises.StepPaysIff` | apps/worker/src/plan-transitions.ts:139-229 | Where plan changes are explained, every resizing one is paid for after a step if and only if the step starts no upgrade unpaid: by a retry with nothing reserved, or by a reservation whose reads were of no upgrade |
| `FleetPromises.ResizingIsPaidFor` | apps/worker/src/plan-transitions.ts:139-147 | In any run, while a plan change is resizing, base plus reservation covers the target in CPU, RAM and disk, unless some reservation or retry started one short |
| `FleetPlans.ReadsAgree` | apps/worker/src/jobs.ts:682-694 | While a job is active, a settler's old read of the plan row takes the branch the row itself would |
| `FleetOutcomes.FailedAsPlanned` | apps/worker/src/jobs.ts:336-397 | A failed or timed-out job leaves a live plan `failed_retryable` and pending, and any other container in `error`, with every other field unchanged |
| `FleetOutcomes.SucceededAsPlanned` | apps/worker/src/jobs.ts:675-748 | A success records the plan's stop, or applies the plan's target and completes it, or removes the destroyed container, or sets the status the operation promises: decided by the plan as it is, not as it was read |
| `FleetOutcomes.BackgroundFailsAlone` | apps/worker/src/jobs.ts:326-335 | In any run a failed key, credential or export job changes nothing but its own status, and nothing at all once settled |
| `FleetOutcomes.BackgroundSucceedsAlone` | apps/worker/src/jobs.ts:735-744 | The same for one that succeeded |
| `FleetStories.PlanRemembersIff` | apps/worker/src/plan-transitions.ts:50-97 | Every safe step creates a plan change with the status, tier and disk its container has, keeps its request, turns it to `stopped` only by its stop's success, and ends it with the target applied or with status, tier and disk as they were, after claim or host only by failure and for deletion: exactly unless it is a cancellation that restores the status recorded for another plan change |
| `FleetStories.OnlyHealthyHostsTakeOn` | apps/worker/src/plan-transitions.ts:190-204 | In any run a counter of a host rises only by a placement or reservation while the host is active, unfailed and heard from within 15 minutes, or by completing a resize whose read reservation does not cover the CPU and RAM added; never by the latter where plan changes are explained |
| `FleetTheorems.NewFleetIsSound` | apps/worker/migrations/0024_host_availability.sql:11-26 | Any fleet of hosts without containers is a first state the theorems apply to |
| `FleetOwners.OwnerActsIff` | apps/worker/src/state.ts:46-60 | An owner's action on the row as it is takes hold exactly when it is offered for that status, the host is active and of the container's kind, and no lifecycle job is under way |
| `FleetOwners.RetryRepeatsNewest` | apps/worker/src/jobs.ts:80-93 | A retry repeats the newest lifecycle job if it failed and provisions anew otherwise |
| `FleetOwners.DriftNeverOverridesJobs` | apps/worker/src/reconciler.ts:509-576 | A host's report overrides a status only if no lifecycle job was queued since the rows were read and none is under way |
| `FleetIdentity.AccountsAndPortsStayDistinct` | apps/worker/src/reconciler.ts:371-377 | In every run an account has one container and a host's SSH port one container, however old the reads |
| `FleetIdentity.StatusShowsTheJob` | apps/worker/src/jobs.ts:239-249 | In every run `destroying` holds exactly while a destroy is active, an active provision or rebuild shows as `provisioning`, and a container in `provisioning` has such a job as its newest or has had none yet |
| `FleetIdentity.DedicatedHostServesOneAccount` | apps/worker/src/placement.ts:119-121 | In every run a dedicated host holds at most one container, its own account's |
| `FleetRaces.StaleDeletionStrandsPending` | apps/worker/src/plan-transitions.ts:286-292 | A run in which a stale deletion leaves `upgrade_pending` with no plan change |
| `FleetRaces.StalePlacementOvercommitsDisk` | apps/worker/src/reconciler.ts:402-411 | On every host with room for a Free but not a Paid container, a run that takes the disk counter past the disk |
| `FleetRaces.StaleStopResizesRunning` | apps/worker/src/plan-transitions.ts:105-131 | A run in which a downgrade's resize is queued for a running workbench |
| `FleetStaleReservation.StaleReservationUpgradesUnpaid` | apps/worker/src/plan-transitions.ts:150-229 | A run in which an upgrade resizes with nothing reserved, and completing it adds one vCPU and 2560 MiB to the host |
| `FleetEffects.PlaceNewIs` | apps/worker/src/placement.ts:107-158 | A new container is placed exactly if its account has none, the port is free, and the host is active, heard from within 15 minutes without failures, of its kind, its account's if dedicated, and has the room in each dimension and a tenant's place; the host is charged 1 vCPU, 1536 MiB and 10 GB for Free, 2, 4096 and 16 for Paid, and nothing else changes |
| `FleetEffects.JoinIs` | apps/worker/src/placement.ts:200-232 | Joining the waitlist adds a row without host or charge exactly if the account has none |
| `FleetEffects.PlaceWaitlistedIs` | apps/worker/src/reconciler.ts:369-421 | A waiting container is placed exactly if it still waits, the port is free and the host takes the row as it is; the host is charged for the row as it was read |
| `FleetEffects.WithdrawIs` | apps/worker/src/api.ts:398-409 | Withdrawing removes a row, and its plan row, exactly if it still waits |
| `FleetEffects.ShrinkIs` | apps/worker/src/billing.ts:856-873 | The end of paid access makes exactly a waiting Paid row a Free one |
| `FleetEffects.ProvisionNotQueuedIs` | apps/worker/src/placement.ts:175-186 | A placed container whose first job could not be queued ends in error |
| `FleetEffects.QueueIs` | apps/worker/src/jobs.ts:215-260 | A lifecycle job is inserted, with its pending status, exactly if status and host are as read, the host is active and of the container's kind where a specification goes with it, and no lifecycle job is under way |
| `FleetEffects.NothingQueued` | apps/worker/src/state.ts:46-60 | Where the rows read ask for no job, such as an action not offered for the status, nothing changes |
| `FleetEffects.QueueBackgroundIs` | apps/worker/src/jobs.ts:262-270 | A background job is inserted exactly if the host is active, whatever else is under way, and moves no status |
| `FleetEffects.DispatchIs` | apps/worker/src/jobs.ts:284-289 | A taken submission advances exactly a queued job |
| `FleetEffects.HeartbeatIs` | apps/worker/src/jobs.ts:751-760 | A heartbeat sets an unsettled status on exactly an unsettled job |
| `FleetEffects.CreateIs` | apps/worker/src/plan-transitions.ts:50-97 | A plan row is created, with the tier, disk and status read, exactly for a container read running or stopped in another tier that has no plan row and no job under way; it is pending exactly if its status is still the one read |
| `FleetEffects.DeleteIs` | apps/worker/src/plan-transitions.ts:286-292 | A deletion whose row was read settled takes whatever plan row is there, and drops what an unfinished one holds |
| `FleetEffects.CancelIs` | apps/worker/src/plan-transitions.ts:328-359 | A cancellation takes hold exactly of a change read and met unstarted and unreserved with no job under way, and returns a pending container to the status recorded in the row read |
| `FleetEffects.CancelForDestroyIs` | apps/worker/src/plan-transitions.ts:381-421 | For deletion also of a failed one, and exactly of a pending container, which ends in error |
| `FleetEffects.RetryIs` | apps/worker/src/plan-transitions.ts:304-313 | A resize is resumed exactly for a failed change read with a reservation and without a stop to do |
| `FleetEffects.DeferIs` | apps/worker/src/plan-transitions.ts:222-247 | A resize that could not be queued is deferred exactly if no job is under way; a claim is released exactly if it still stands |
| `FleetEffects.ReserveIs` | apps/worker/src/plan-transitions.ts:139-229 | A reservation claims exactly a waiting plan row of an idle, entitled container; host and plan row rise by one vCPU, 2560 MiB and the missing disk, as read, exactly if the host is active, shared, alive and has the disk, whatever its CPU and RAM; otherwise the claim is left for release |
| `FleetEffects.DriftIs` | apps/worker/src/reconciler.ts:509-576 | A report overrides a running or stopped status exactly if status and host are as read, no job is under way and no lifecycle job was queued since |
| `FleetBatches.Database.PlaceNewBatch` | apps/worker/src/placement.ts:107-170 | The two statements are one atomic placement; a second row for the account aborts both |
| `FleetBatches.Database.PlaceWaitlistedBatch` | apps/worker/src/reconciler.ts:369-421 | The claim and the counters are one atomic placement, and it reports a claim exactly when something changed |
| `FleetBatches.Database.EnqueueBatch` | apps/worker/src/jobs.ts:215-260 | Insertion and pending status are one atomic step; reports an insertion exactly when a job was added |
| `FleetBatches.Database.FailJobBatch` | apps/worker/src/jobs.ts:326-397 | Claim, plan row and container, each only if the one before was hit, are the atomic failure step |
| `FleetBatches.Database.SettleSucceededBatch` | apps/worker/src/jobs.ts:699-748 | Claim and status are the atomic success step; reports a claim exactly when the job was active |
| `FleetBatches.Database.FinalizeDowngradeStopBatch` | apps/worker/src/jobs.ts:400-431 | Its three gated statements record the stop in the plan row exactly when job and plan still wait for it |
| `FleetBatches.Database.FinalizePlanBatch` | apps/worker/src/jobs.ts:461-501 | Job, host, container and plan row move together or not at all |
| `FleetBatches.Database.FinalizeDestroyBatch` | apps/worker/src/jobs.ts:604-642 | Statements gated one by one on the newest active destroy act as one |
| `FleetBatches.Database.CreateTransitionBatch` | apps/worker/src/plan-transitions.ts:50-97 | Plan row and pending status are created together |
| `FleetBatches.Database.CancelUnreservedBatch` | apps/worker/src/plan-transitions.ts:328-359 | Cancels exactly an unstarted, unreserved plan with no active job, and restores the prior status |
| `FleetBatches.Database.CancelForDestroyBatch` | apps/worker/src/plan-transitions.ts:381-421 | Reports a cancellation exactly when the plan was fenced off and the container released for deletion |
| `FleetBatches.Database.ReserveBatch` | apps/worker/src/plan-transitions.ts:150-229 | Claim, charge and reservation are one step; reports a charge exactly when the plan was waiting and idle, the account entitled and the host had the disk |
| `FleetRequests.Session.Record` | apps/worker/src/plan-transitions.ts:271-317 | A batch that is a step of the model extends the run by that step, and keeps the plan invariant if it was safe |
| `FleetTurns.StepPlanOfIff` | apps/worker/src/plan-transitions.ts:271-317 | One container's plan change stays explained after a step exactly unless the step is an unsafe one on that container, whatever happens to the others |
| `FleetTurns.TurnsKeepPlanIff` | apps/worker/src/plan-transitions.ts:271-317 | When the plan requests for a container take turns, each acting on what it read since the last one's step, its plan change stays explained exactly when no creation meets another status than it read and no stop meets a plan whose own stop was recorded since |
| `FleetRequests.Session.RequestPlanTransition` | apps/worker/src/plan-transitions.ts:271-317 | Whatever other callers do between its reads and batches, a plan request's effect is a run of the model, and none when the account is not eligible; when the others take no step of a plan request for this container, its steps are turns, and its plan change stays explained exactly as `TurnsKeepPlanIff` says; undisturbed, every step is safe and answer, container and hosts are exactly those of `FleetAnswers.AnswerTo` |
| `FleetAnswers.RequestKeepsPromise` | apps/worker/src/plan-transitions.ts:271-317 | What each answer of an undisturbed request promises: nothing to do and no live plan; a conflict and nothing touched; the stop or the resize under way, or failed and retryable when the daemon refused it; no capacity, the plan waiting and no counter or job moved; an exception only for a container whose kind is not its host's |
| `FleetReplies.RequestRepliesExactly` | apps/worker/src/plan-transitions.ts:271-317 | Which answer an undisturbed request gets, for every row and plan row: nothing needed, a conflict, a stop before a downgrade of a running workbench, and otherwise a resize exactly if the host is active and a failed change's reservation is resumed or the account is entitled and the host has the disk; it reserves one vCPU, 2560 MiB and the missing disk exactly where a resize is answered and none resumed, and leaves no claim behind |
| `FleetRequests.Session.EnqueueJob` | apps/worker/src/jobs.ts:215-298 | Inserts exactly when its guards hold; whatever others do, its own steps are the insertion and then the job's submission or failure, and undisturbed they leave exactly the job running or failed |
| `FleetRequests.Session.RefreshJob` | apps/worker/src/jobs.ts:649-763 | For every daemon reply and whatever others do, the run grows by exactly the poll's own step for that reply, with the states its rows were read in; a settled job is left alone, and so is a queued one the daemon does not know |
| `HostSelection.PickHostIsMaxMin` | apps/worker/src/capacity.ts:36-90 | No host is found exactly when none is feasible; the host found is feasible, no other feasible one has a larger tightest part, none with the same a larger total, and none with both the same a smaller id |
| `HostSelection.FeasibleIff` | apps/worker/src/capacity.ts:44-56 | A host is feasible exactly if it is active, heard from within 15 minutes without failures, of the kind asked for, its own account's if dedicated, and has vCPU, memory at five quarters, disk and a tenant's place left |
| `HostSelection.WorstIsTightest` | apps/worker/src/capacity.ts:57-66 | The part compared first is one of the four, and none is smaller |
| `HostSelection.ScoreIsHeadroomAfterwards` | apps/worker/src/capacity.ts:27-35 | The ranking score is the headroom the host has once the container is placed there |
| `HostSelection.ScoreIs` | apps/worker/src/capacity.ts:57-84 | Each part is the whole hundred-thousandths of a capacity that the placement would leave free, RAM sold at five quarters |
| `HostSelection.FeasibleHasCapacity` | apps/worker/src/capacity.ts:59-84 | A feasible host's capacities are positive, so the ranking never divides by zero |
| `Placement.TakenPorts` | apps/worker/src/ports.ts:38-59 | The set built is exactly the ports in range held by a container or quarantined for less than 30 days |
| `Placement.AllocatePort` | apps/worker/src/ports.ts:33-73 | Fails exactly when every port is taken, for any random draws; otherwise the first free of 200 draws, or the lowest free port; the last throw is unreachable |
| `Placement.StartProvision` | apps/worker/src/placement.ts:92-172 | The loop ends however the world changes; places only where the batch's conditions held, on the host that ranked first when it was picked and a port free when it was allocated; waitlists only after four lost batches or when every feasible host was found without a port; undisturbed, waitlists exactly when every feasible host has no free port |
| `Placement.TryAdmission` | apps/worker/src/reconciler.ts:278-321 | The unbounded loop ends; a candidate is placed as a new container is, and counts as queued exactly if its job was; it is refused only if no feasible host is left or its claim was lost; undisturbed, exactly when every feasible host has no free port |
| `Placement.BatchesPlaceIff` | apps/worker/src/placement.ts:111-158 | The placement batches change something exactly under the conditions the loops reason about |
| `Waitlist.OvertakingIsBounded` | apps/worker/src/reconciler.ts:278-348 | Over any passes an entry with k entries ahead is passed by at most 3 * (k + 1) queued backfills, the head by at most 3 |
| `Waitlist.PassPays` | apps/worker/src/reconciler.ts:323-341 | Each overtaking costs the head one of its skips, or all it had left when it leaves |
| `Waitlist.HeadPassedThreeTimes` | apps/worker/src/reconciler.ts:41-42 | The bound is reached |
| `Waitlist.SharedWaitlist.AdmitPass` | apps/worker/src/reconciler.ts:323-346 | One cron pass, loop and all, leaves exactly the entries of the pass function |
| `Waitlist.PassLeaves` | apps/worker/src/reconciler.ts:323-346 | After a pass exactly those are gone who were withdrawn, or tried and placed; the rest keep order and skips, but that the head has one skip more exactly if one of the next eight went in its place, as at most one does; arrivals follow in order |
| `DaemonJobs.ExecInv` | apps/daemon/src/jobs.ts:39-117 | The runner invariant holds in every interleaving of submissions and callbacks |
| `DaemonTheorems.OneAtATimeInOrder` | apps/daemon/src/jobs.ts:62-116 | A container's jobs run one at a time and begin in submission order |
| `DaemonTheorems.ChainsAreUnfinishedWork` | apps/daemon/src/jobs.ts:31-33 | A chain entry exists exactly for containers with unfinished work, and some callback can always take some of that work to its next phase |
| `DaemonTheorems.ContainersAreIndependent` | apps/daemon/src/jobs.ts:1-4 | A callback of one container neither enables, disables nor changes a job, watermark or chain of another |
| `DaemonTheorems.RegistryBounded` | apps/daemon/src/jobs.ts:125-134 | The registry never exceeds 500 plus the unsettled jobs, and every unsettled job can be looked up |
| `DaemonTheorems.CollectionDropsOldestSettled` | apps/daemon/src/jobs.ts:126-134 | A collection drops only settled jobs, in insertion order, and stops at 400 or when none is left |
| `DaemonTheorems.RedeliveryIsIdempotent` | apps/daemon/src/jobs.ts:40-46 | A request becomes a new queued job or changes nothing; delivering a registered job again changes nothing and answers with the same job; another operation under its id is refused |
| `DaemonTheorems.AttemptsRise` | apps/daemon/src/jobs.ts:80-92 | Between successful destroys the revisions attempted for a container and operation strictly increase |
| `DaemonTheorems.SkippedOnlyWhenOvertaken` | apps/daemon/src/jobs.ts:65-79 | A job is skipped only if an equal or newer revision was attempted since the container was last destroyed |
| `DaemonTheorems.NewestSnapshotWins` | apps/daemon/src/jobs.ts:80-92 | Once drained, the last snapshot attempted is the newest submitted since the last destroy, whatever the order of submission |
| `DaemonTheorems.StatusSaysHow` | apps/daemon/src/jobs.ts:63-106 | In any run a job is queued until its callback begins, has failed exactly if its provisioner call threw, and succeeded exactly if that returned or the job was skipped for an equal or newer snapshot attempted since the last destroy |
| `DaemonTheorems.SettledForGood` | apps/daemon/src/jobs.ts:93-106 | A settled job keeps its status for the rest of the run, and every job its request |
| `DaemonTheorems.HistoryIs` | apps/daemon/src/jobs.ts:80-95 | The attempts counted are exactly the snapshots handed to the provisioner, the destroys exactly those that succeeded |
| `DaemonRunner.JobRunner.SubmitJob` | apps/daemon/src/jobs.ts:39-116 | Submission is the model's step: an idempotent answer, a conflict, or a new job chained on the tail |
| `DaemonRunner.JobRunner.Callback` | apps/daemon/src/jobs.ts:63-92 | A callback skips exactly an overtaken snapshot and otherwise claims its watermark before running |
| `DaemonRunner.JobRunner.Finished` | apps/daemon/src/jobs.ts:93-106 | Settles the record, forgets the watermarks of a destroyed container, collects |
| `DaemonRunner.JobRunner.Finally` | apps/daemon/src/jobs.ts:108-114 | Only the tail removes the chain entry |
| `DaemonRunner.JobRunner.PruneRevisions` | apps/daemon/src/jobs.ts:119-123 | Forgets exactly the container's watermarks |
| `DaemonRunner.JobRunner.Gc` | apps/daemon/src/jobs.ts:126-134 | The deletion loop over the map is the collection the theorems speak about |
| `Entitlements.ProjectionHasOneDeadline` | apps/worker/src/entitlements.ts:73-117 | Fixed facts grant access exactly before one instant, by label and by date alike |
| `Entitlements.GraceComesLast` | apps/worker/src/entitlements.ts:90-115 | The grace label stands exactly for access left when paid time has run out; any other label but a trial's reports the paid date |
| `Entitlements.LabelsSayWhy` | apps/worker/src/entitlements.ts:73-117 | For each label, the one combination of Stripe status, cancellation and dates under which it stands |
| `Entitlements.EffectiveFollowsSubscription` | apps/worker/src/entitlements.ts:185-220 | With a Stripe grant the access function grants paid access exactly for the paid plan before that instant, with the label of the facts, whatever the stored row says, and none without a subscription |
| `Entitlements.FreeOtherwise` | apps/worker/src/entitlements.ts:157-173 | Without paid access, whatever the entitlement and subscription, the answer is free access by the account's own method exactly if it was verified by World ID, invite or development, and ineligible otherwise; without an entitlement always |
| `Entitlements.ManualGrantIs` | apps/worker/src/entitlements.ts:124-135 | A manual grant gives paid access exactly until the later of its dates, for good without any, and reports its plan, source and that date, whatever the subscription |
| `Entitlements.GuardFollowsSubscription` | apps/worker/src/plan-transitions.ts:166-177 | The reservation's SQL guard agrees at an instant when the stored row is fresh |
| `Entitlements.StoredRowDecides` | apps/worker/src/entitlements.ts:137-155 | On the stored row access function and guard agree about a paid plan: a label of access and one of the three dates ahead |
| `Entitlements.StaleGuardNeverRefuses` | apps/worker/src/plan-transitions.ts:166-177 | A stored row gone stale can only admit too much: exactly until the latest recorded date if access held when it was stored |
| `Entitlements.ManualGuardAgreesIff` | apps/worker/src/entitlements.ts:124-135 | For manual grants guard and access function agree exactly when grace does not decide |
| `Entitlements.LaterDeadlinesKeepAccess` | apps/worker/src/entitlements.ts:73-117 | Raising the service or grace date never removes access |
| `Entitlements.AccessEndsByGrace` | apps/worker/src/billing.ts:329-334 | Access ends by the trial's end or by the service date plus the grace setting |
| `Entitlements.ShownDateIsTheEndIff` | apps/worker/src/entitlements.ts:137-155 | The date shown with paid access is the real end exactly when no other recorded date lies beyond it, and never earlier |
| `Entitlements.PremiumUntilDeadline` | apps/worker/src/entitlements.ts:43-57 | An account is premium exactly before the deadline, and verified independently of it |
| `Billing.ServiceIsNewestPaid` | apps/worker/src/billing.ts:361-420 | With any interleaving and any old reads the service date ends at the furthest date paid for |
| `Billing.NewestEventDecides` | apps/worker/src/billing.ts:370-411 | Status, cancellation, trial and event time are those of one event, and no event is newer |
| `Billing.DeliveryOrderDoesNotMatter` | apps/worker/src/billing.ts:361-420 | With distinct event times, delivery order and redelivery change none of them, nor the service date |
| `Billing.LastInvoiceStoredIff` | apps/worker/src/billing.ts:395-414 | In every state of a run the invoice stored is that of the last payment recorded, exactly when every event that records none had read no invoice or the one now stored |
| `Billing.TrialInvoiceBuysNothing` | apps/worker/src/billing.ts:322-329 | A paid invoice of a trialing subscription leaves the service date as it was |
| `Billing.AccessBoundedInEveryRun` | apps/worker/src/billing.ts:329-334 | In every state of every run access ends by the trial's end or the service date plus grace |
| `Billing.FailedPaymentGraceIff` | apps/worker/src/billing.ts:330-334 | A failed payment gives the whole grace exactly when the service date it read is current, or the row had that grace already |
| `Billing.OnlyFailuresGiveGrace` | apps/worker/src/billing.ts:329-334 | An event sets a grace date only if a payment failed, grace is configured and something was ever paid for; otherwise it carries the one it read |
| `Billing.GraceDependsOnOrder` | apps/worker/src/billing.ts:330-334 | The same two events leave grace or none depending on their order |
| `Accounts.OneLiveSubscriptionNamed` | apps/worker/src/billing.ts:308-320 | With events in turn at most one subscription is live and a non-manual entitlement names it, so late events of old subscriptions never displace it |
| `Accounts.StaleEventDuplicatesIff` | apps/worker/src/billing.ts:308-317 | An event that read earlier leaves one live row exactly when no other became live or its own is not |
| `Accounts.StaleEventKeepsAccountIff` | apps/worker/src/billing.ts:308-346 | An event that read earlier keeps at most one subscription live, and it named unless the grant is manual, exactly when it had read another live one, or no other is live now, or a manual grant stands and its own row does not end live |
| `Accounts.AccountKeptIff` | apps/worker/src/billing.ts:308-346 | Over a whole run of events with any reads, both hold in every state exactly when every event meets that condition |
| `Accounts.RefusedIff` | apps/worker/src/billing.ts:308-317 | An event is refused exactly when its subscription and another it read are neither canceled nor incomplete-expired |
| `Accounts.StoredRowIs` | apps/worker/src/billing.ts:361-411 | A refused event changes nothing; any other, from any read, only its own row: each date to the later one, the snapshot to that of the later event |
| `Accounts.StoredGrantIs` | apps/worker/src/billing.ts:421-453 | An event that saw another live subscription or meets a manual grant leaves the entitlement alone; any other stores a paid grant with its name, trial date and label, on which the reservation guard admits exactly if its own facts grant access, whatever it had read |
| `Accounts.GuardFollowsRowIff` | apps/worker/src/billing.ts:421-453 | Guard and stored subscription row agree after an event in turn exactly when it is not older than the row, or its snapshot and the row's grant access alike |
| `Accounts.LateEventReopensGuard` | apps/worker/src/billing.ts:428-445 | A trial's snapshot committed after its cancellation opens the guard while the row grants nothing |
| `Accounts.FurthestDatesAreKept` | apps/worker/src/billing.ts:428-445 | Over any run of events from any reads a manual grant stays, and any other keeps the furthest service and grace date of the first row's and of those the applied authoritative events brought |
| `Accounts.LateCancellationDisplaces` | apps/worker/src/billing.ts:318-346 | A late cancellation that read before the live subscription was recorded takes its name from the entitlement |
| `Accounts.ConcurrentEventsDuplicate` | apps/worker/src/billing.ts:308-317 | Two first events processed at once leave two live subscriptions |
| `Accounts.BillingTables.ApplyCanonicalSubscription` | apps/worker/src/billing.ts:279-460 | Reads, the list of statements and their execution are the account step; the compatibility column says paid exactly when the facts grant access, and stays when another subscription is live or a manual grant stands |
| `Signing.LineInjective` | packages/contract/src/signing.ts:25-33 | Single-line fields are determined by the signed string |
| `Signing.CanonicalStringFixesFields` | packages/contract/src/signing.ts:25-33 | Two canonical strings are equal exactly when method, path, time, nonce and body hash all are |
| `Signing.NoReplay` | packages/contract/src/signing.ts:83-124 | No signed request is accepted twice in any run, collections included, unless a store's clock ran more than 300 seconds ahead of the clock that judges the second |
| `Signing.SteadyIfNeverFarBack` | packages/contract/src/signing.ts:16-17 | A clock that never steps back more than 300 seconds, within a request or between, is enough |
| `Signing.ReplayAcceptedIff` | packages/contract/src/signing.ts:96-124 | In any run the next delivery with an accepted request's nonce is accepted again if and only if it is signed, within its window, and a collection since, its own included, found the store's clock past the recorded expiry |
| `Signing.ReplayOneSecondBeyond` | packages/contract/src/signing.ts:99-101 | The 300 seconds of slack are exact |
| `Signing.StoreStaysSmall` | packages/contract/src/signing.ts:96-102 | Stale and unsigned traffic leaves the store alone; otherwise it stays within its limit or holds unexpired nonces only |
| `Signing.AnswersSayWhy` | packages/contract/src/signing.ts:83-104 | Each answer's exact cause: more than 300 seconds apart, in time but unsigned, signed but still in the store; and what each leaves of every nonce |
| `Signing.MemoryNonceStore.VerifyRequest` | packages/contract/src/signing.ts:68-104 | Verification and recording are the model's step |
| `Signing.MemoryNonceStore.Gc` | packages/contract/src/signing.ts:119-123 | Keeps exactly the unexpired nonces |
| `Credentials.RotatedTokenSurvives` | apps/daemon/src/credential-installer.ts:263-279 | A recorded, unchanged grant whose store exists is never installed again by any writes, rotations and failures |
| `Credentials.WriteDecidesEach` | apps/daemon/src/credential-installer.ts:471-505 | A write decides each provider once from what the home held when it began and records every decision |
| `Credentials.WriteLeaves` | apps/daemon/src/credential-installer.ts:471-505 | What a write leaves of every provider, for all grants: an unselected agent and an unmanaged login as they were, a managed one without grant removed, a grant recorded and written unless the login there came from it or was the owner's before |
| `Credentials.UnselectedIsKept` | apps/daemon/src/credential-installer.ts:481-482 | A write stopped after any number of operations has touched neither store nor mark of an unselected agent |
| `Credentials.SecondWriteInstallsNothing` | apps/daemon/src/credential-installer.ts:266-269 | The same write again changes nothing, whatever was rotated in between |
| `Credentials.DisconnectRemovesManagedOnly` | apps/daemon/src/credential-installer.ts:482-489 | Disconnecting removes exactly the managed stores, of agents only the selected ones |
| `Credentials.SavedGrantsSurviveLaterFailure` | apps/daemon/src/credential-installer.ts:270-279 | Once its own save is done, no later failure of the write makes a provider's grant be installed again: agents after the first save, Wrangler after the second, Convex after the last |
| `Credentials.InterruptedWriteReplaysIff` | apps/daemon/src/credential-installer.ts:471-505 | For a write that fails after any number of operations, any rotation, and the same write again: the grant is installed twice exactly when it was to be installed, its turn had come and its save had not, and the old mark named another grant, or, for a file store, none |
| `Credentials.LaterAgentFailureReplays` | apps/daemon/src/credential-installer.ts:479-505 | Agents are saved together: a later agent's failure makes an earlier agent's changed grant be installed twice, over a rotated token |
| `CredentialInstaller.Workbench.ReconcileAgent` | apps/daemon/src/credential-installer.ts:479-503 | One agent's reconciliation is the model's decision for it |
| `CredentialInstaller.Workbench.ReconcileFile` | apps/daemon/src/credential-installer.ts:568-609 | A file store's reconciliation is the model's decision for it |
| `CredentialInstaller.Workbench.Write` | apps/daemon/src/credential-installer.ts:263-279 | A write that fails after any number of operations leaves the home as the model's interrupted write, a complete one as the complete write |

## Left out

- Billing suspension, export deadlines and suspended containers: they change status and dates, not reservations; a stop settles as `stopped`.
- Administrator rehome, forced retirement, host replacement and capacity edits: their handling of leftover reservations breaks the ledger; host identity and capacity are fixed.
- Port quarantine inside fleet runs: `Placement` reads it as input, the destroy step does not write it.
- Waitlist rows inside fleet runs: a waiting container is a row without a host; order and skips are modelled in `Waitlist`, for passes that do not overlap.
- The order of the dedicated pool's waitlist, which has no backfill.
- Time inside fleet runs: a timeout may fire at any moment, so every real schedule is covered and some that cannot happen are too.
- A request that outlives its container and goes on with the account's next one.
- A database error after a job's insertion, which reports a provisioning container as failed while its job runs.
- Entitlement reads inside fleet runs: whether a reservation finds the account entitled is arbitrary; `Entitlements` says when it is.
- Promise rejections inside the runner's bookkeeping, console output, and the string form of watermark keys: keys are pairs of container and operation.
- Requests without signature headers or with an unreadable timestamp, refused before anything the model looks at.
- Signature verification, hashes and sealed boxes: whether a signature verifies is input, and a grant is identified with its fingerprint.
- Parsing of credential files, provider environment variables and the GitHub part of a credential write.
- HTTP routes, pages, clients, notification texts, prices, sessions and passkeys.
- FleetTheorems.OvercommitBounded: bounds what containers use, not the counters; `FleetTheorems.CountersBounded` bounds those in CPU and RAM, the drift of the ledger added, and `FleetDisk` the disk counter.
