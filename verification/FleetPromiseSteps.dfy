// Five promises about plan changes, one by one: exactly which step breaks each, in runs
// that may have broken any of the others.
module FleetPromiseSteps {
  import opened Wrappers
  import opened Plans
  import opened FleetState
  import opened FleetSteps
  import opened FleetLedger
  import opened FleetSlotProofs
  import opened FleetAccounting
  import opened FleetRun
  import opened FleetTheorems
  import opened FleetPlans
  import opened FleetPlanRuns

  datatype Promise = PendingHasPlan | PlanIsPending | DowngradeStopped | OwnJobsOnly | ResizingPaid

  // Base and reservation together hold the target, in each of CPU, RAM and disk.
  predicate PaidFor(s: Slot)
    requires s.row.Some? && s.tr.Some?
  {
    var tr := s.tr.value;
    Footprint(tr.to, RamMb(tr.to), tr.targetDiskGb).AtMost(Base(s.row.value).Plus(tr.reserved))
  }

  predicate CoversCpuRam(reserved: Res, to: Tier, tier: Tier) {
    && reserved.cpu >= CpuReservation(to) - CpuReservation(tier)
    && reserved.ram >= RamMb(to) - RamMb(tier)
  }

  predicate Holds(p: Promise, s: Slot) {
    match p
    case PendingHasPlan => s.row.Some? && s.row.value.status.UpgradePending? ==> Live(s.tr)
    case PlanIsPending => s.row.Some? && Live(s.tr) ==> s.row.value.status.UpgradePending?
    case DowngradeStopped =>
      s.tr.Some? && s.tr.value.to.Free? && (s.tr.value.state.Reserving? || s.tr.value.state.Resizing?) ==>
        s.tr.value.prior.Stopped?
    case OwnJobsOnly => Live(s.tr) ==> PlanJobs(s)
    case ResizingPaid => IsResizing(s.tr) ==> s.row.Some? && PaidFor(s)
  }

  predicate HoldsAll(p: Promise, db: Db) { forall c | 0 <= c < |db.slots| :: Holds(p, db.slots[c]) }

  // ------------------------------------------------------- the breaking steps

  // A deletion, whose row was read as settled, meets a container that waits.
  predicate StrandsPending(hist: seq<Db>, l: Label, now: Slot) {
    l.DeleteSettledStep? &&
    var tr := ReadTr(hist, l.trAt, l.c);
    tr.Some? && Settled(tr.value) && now.row.Some? && now.row.value.status.UpgradePending?
  }

  // A lifecycle job of a container with a live plan change settles as one of its own.
  predicate SettlesAsOwn(now: Slot, k: nat, read: Option<Transition>) {
    && ActiveAt(now.jobs, k) && IsLifecycle(now.jobs[k].op) && Live(now.tr)
    && !(now.jobs[k].op.Resize? && IsResizing(read)) && !(now.jobs[k].op.Stop? && StoppingDowngrade(read))
  }

  // A plan is created for a container that has another status than was read, or a job
  // that its poller read as not the plan's ends with a status of its own.
  predicate UnsettlesPlan(hist: seq<Db>, l: Label, now: Slot)
    requires hist != []
  {
    match l
    case CreateStep(c, to, rowAt) =>
      var row := ReadRow(hist, rowAt, c);
      && Creates(row, to) && now.row.Some? && now.tr.None? && !Busy(now.jobs)
      && now.row.value.status != row.value.status && !now.row.value.status.UpgradePending?
    case JobFails(c, k, trAt) => JobKnown(hist, trAt, c, k) && SettlesAsOwn(now, k, ReadTr(hist, trAt, c))
    case JobSucceeds(c, k, rowAt, checkAt, trAt, at) =>
      && Observed(hist, c, k, rowAt, checkAt, trAt)
      && SettlesAsOwn(now, k, ReadTr(hist, checkAt, c)) && !now.jobs[k].op.Destroy?
    case _ => false
  }

  predicate Unstopped(now: Slot) { now.tr.Some? && now.tr.value.to.Free? && !now.tr.value.prior.Stopped? }

  // A reservation or a retry takes hold of a downgrade that has not been stopped.
  predicate ClaimsUnstopped(hist: seq<Db>, l: Label, now: Slot)
    requires hist != []
  {
    match l
    case ReserveStep(c, rowAt, trAt, entitled, at) =>
      Reservable(hist, c, rowAt, trAt) && Claimable(now) && entitled && Unstopped(now)
    case RetryResizeStep(c, trAt) =>
      var tr := ReadTr(hist, trAt, c);
      && tr.Some? && MayRetryResize(tr.value) && now.tr.Some? && now.tr.value.state.FailedRetryable?
      && Unstopped(now)
    case _ => false
  }

  // A job that is not the one of its stage is queued under a live plan change, or the
  // resize of a change whose stop is still under way is retried.
  predicate CrossesJobs(hist: seq<Db>, l: Label, now: Slot)
    requires hist != []
  {
    if IsQueueStep(l) then !QueueSafe(hist, l, now)
    else
      l.RetryResizeStep? &&
      var tr := ReadTr(hist, l.trAt, l.c);
      && tr.Some? && MayRetryResize(tr.value) && now.tr.Some? && now.tr.value.state.FailedRetryable?
      && Busy(now.jobs)
  }

  // The reservation with this added is short of CPU or RAM for the plan row's target.
  predicate Short(now: Slot, more: Res) {
    now.row.Some? && now.tr.Some? &&
    !CoversCpuRam(now.tr.value.reserved.Plus(more), now.tr.value.to, now.row.value.tier)
  }

  // The host takes the amounts asked for, and they are too small for the plan row met.
  predicate ChargesShort(now: Slot, host: Host, read: Container, readTr: Transition, at: int) {
    var amount := RequestedAmount(read, readTr);
    HostReserves(host, amount.disk, at) && Short(now, amount)
  }

  // A reservation takes hold with amounts too small for the plan change it meets, or a
  // retry takes hold of one whose reservation is.
  predicate StartsShort(hist: seq<Db>, l: Label, now: Slot)
    requires hist != []
  {
    match l
    case ReserveStep(c, rowAt, trAt, entitled, at) =>
      Reservable(hist, c, rowAt, trAt) && Claimable(now) && entitled &&
      var read := ReadRow(hist, rowAt, c).value;
      ChargesShort(now, Last(hist).hosts[read.host.value], read, ReadTr(hist, trAt, c).value, at)
    case RetryResizeStep(c, trAt) =>
      var tr := ReadTr(hist, trAt, c);
      && tr.Some? && MayRetryResize(tr.value) && now.tr.Some? && now.tr.value.state.FailedRetryable?
      && Short(now, ZERO)
    case _ => false
  }

  predicate Touches(l: Label) { IsSlotStep(l) || l.JobSucceeds? || l.ReserveStep? }

  predicate Breaks(p: Promise, hist: seq<Db>, l: Label)
    requires hist != []
  {
    Touches(l) && l.c < |Last(hist).slots| &&
    var now := Last(hist).slots[l.c];
    match p
    case PendingHasPlan => StrandsPending(hist, l, now)
    case PlanIsPending => UnsettlesPlan(hist, l, now)
    case DowngradeStopped => ClaimsUnstopped(hist, l, now)
    case OwnJobsOnly => CrossesJobs(hist, l, now)
    case ResizingPaid => StartsShort(hist, l, now)
  }

  // ------------------------------------------------------------------- slots

  lemma RowKeeps(p: Promise, now: Slot, read: Slot, seen: Sighting)
    requires SlotInv(now) && Holds(p, now)
    ensures Holds(p, Withdraw(now)) && Holds(p, ShrinkWaitlisted(now)) && Holds(p, ProvisionNotQueued(now))
    ensures Holds(p, CorrectDrift(now, read, seen))
  {
  }

  lemma EnqueueKeepsIff(p: Promise, now: Slot, op: JobOp, read: Container, host: Host)
    requires SlotInv(now) && Holds(p, now) && IsLifecycle(op)
    requires PendingStatusFor(op).Some? ==> !read.status.UpgradePending?
    ensures Holds(p, Enqueue(now, op, read, host)) <==> (p.OwnJobsOnly? ==> QueueFits(now, op, read, host))
  {
    if !Busy(now.jobs) {
      AppendFacts(now.jobs, op);
      assert (now.jobs + [Job(op, JobQueued)])[|now.jobs|] == Job(op, JobQueued);
    }
  }

  lemma {:induction false} RetryIsLifecycle(jobs: seq<Job>)
    ensures IsLifecycle(RetryOp(jobs))
  {
    if jobs != [] { RetryIsLifecycle(jobs[..|jobs| - 1]); }
  }

  lemma QueueKeepsIff(p: Promise, hist: seq<Db>, l: Label, now: Slot)
    requires hist != [] && IsQueueStep(l) && SlotInv(now) && Holds(p, now)
    ensures Holds(p, QueueNext(hist, Last(hist).hosts, l, now)) <==> (p.OwnJobsOnly? ==> QueueSafe(hist, l, now))
  {
    var hosts, op, read := Last(hist).hosts, QueuedOp(hist, l), ReadRow(hist, l.rowAt, l.c);
    if op.Some? && read.Some? && read.value.host.Some? && read.value.host.value < |hosts| {
      if l.UserRetry? { RetryIsLifecycle(ReadSlot(hist, l.jobsAt, l.c).value.jobs); }
      EnqueueKeepsIff(p, now, op.value, read.value, hosts[read.value.host.value]);
    }
  }

  lemma MarkKeeps(p: Promise, now: Slot, k: nat, status: JobStatus)
    requires SlotInv(now) && Holds(p, now)
    ensures Holds(p, Mark(now, k, status))
  {
    if ActiveAt(now.jobs, k) { MarkFacts(now.jobs, k, status); }
  }

  // While job k is active the row read decides whether the plan change is live.
  lemma ReadIsLive(past: Slot, now: Slot, k: nat)
    requires SlotInv(past) && SlotInv(now) && SlotLater(past, now) && k < |past.jobs|
    requires ActiveAt(now.jobs, k) && IsLifecycle(now.jobs[k].op)
    ensures Live(now.tr) ==> Live(past.tr)
    ensures IsResizing(past.tr) && Live(now.tr) ==> IsResizing(now.tr)
  {
    ReadIsCovered(past, now, k);
  }

  lemma FailKeepsIff(p: Promise, past: Slot, now: Slot, k: nat)
    requires SlotInv(past) && SlotInv(now) && SlotLater(past, now) && k < |past.jobs| && Holds(p, now)
    ensures Holds(p, FailJob(now, k, past.tr)) <==> (p.PlanIsPending? ==> !SettlesAsOwn(now, k, past.tr))
  {
    if ActiveAt(now.jobs, k) {
      MarkFacts(now.jobs, k, JobFailed);
      if IsLifecycle(now.jobs[k].op) {
        ActiveIsNewest(now.jobs, k);
        ReadIsLive(past, now, k);
      }
    }
  }

  lemma JobKeepsIff(p: Promise, hist: seq<Db>, l: Label)
    requires Good(hist) && IsJobStep(l) && l.c < |Last(hist).slots| && Holds(p, Last(hist).slots[l.c])
    ensures var now := Last(hist).slots[l.c];
      Holds(p, JobNext(hist, Last(hist).hosts, l, now)) <==> (p.PlanIsPending? ==> !UnsettlesPlan(hist, l, now))
  {
    var now, hosts := Last(hist).slots[l.c], Last(hist).hosts;
    assert SlotInv(now);
    match l
    case QueueBackground(_, op, h) =>
      if h < |hosts| && hosts[h].status.Active? && !IsLifecycle(op) { AppendFacts(now.jobs, op); }
    case DispatchedStep(_, k) => MarkKeeps(p, now, k, JobRunning);
    case Heartbeat(_, k, status) => MarkKeeps(p, now, k, status);
    case JobFails(c, k, trAt) =>
      if JobKnown(hist, trAt, c, k) {
        PastOf(hist, trAt, c);
        FailKeepsIff(p, ReadSlot(hist, trAt, c).value, now, k);
      }
  }

  lemma CreateKeepsPromiseIff(p: Promise, now: Slot, read: Container, to: Tier)
    requires SlotInv(now) && Holds(p, now) && Creates(Some(read), to)
    ensures Holds(p, CreateTransition(now, read, to)) <==> (p.PlanIsPending? ==>
      !(now.row.Some? && now.tr.None? && !Busy(now.jobs)
        && now.row.value.status != read.status && !now.row.value.status.UpgradePending?))
  {
    if !Busy(now.jobs) { IdlePlanJobs(CreateTransition(now, read, to)); }
  }

  lemma DeleteKeepsPromiseIff(p: Promise, now: Slot)
    requires SlotInv(now) && Holds(p, now)
    ensures Holds(p, DeleteTransition(now)) <==>
      (p.PendingHasPlan? ==> !(now.row.Some? && now.row.value.status.UpgradePending?))
  {
  }

  lemma EndKeepsPromise(p: Promise, now: Slot, prior: ContainerStatus)
    requires SlotInv(now) && Holds(p, now)
    ensures prior.Running? || prior.Stopped? ==> Holds(p, CancelUnreserved(now, prior))
    ensures Holds(p, CancelForDestroy(now))
  {
  }

  lemma WaitKeepsPromise(p: Promise, now: Slot)
    requires SlotInv(now) && Holds(p, now)
    ensures Holds(p, ReserveFallback(now)) && Holds(p, Defer(now))
  {
    if !Busy(now.jobs) { IdlePlanJobs(Defer(now)); }
  }

  lemma RetryKeepsPromiseIff(p: Promise, now: Slot)
    requires SlotInv(now) && Holds(p, now)
    ensures Holds(p, RetryResize(now)) <==>
      (now.tr.Some? && now.tr.value.state.FailedRetryable? ==>
         && (p.DowngradeStopped? ==> !Unstopped(now))
         && (p.OwnJobsOnly? ==> !Busy(now.jobs))
         && (p.ResizingPaid? ==> !Short(now, ZERO)))
  {
    if !Busy(now.jobs) { IdlePlanJobs(RetryResize(now)); }
  }

  lemma CreateStepKeepsIff(p: Promise, hist: seq<Db>, l: Label, now: Slot)
    requires hist != [] && l.CreateStep? && l.c < |Last(hist).slots| && now == Last(hist).slots[l.c]
    requires SlotInv(now) && Holds(p, now)
    ensures Holds(p, PlanNext(hist, l, now)) <==> !Breaks(p, hist, l)
  {
    var row := ReadRow(hist, l.rowAt, l.c);
    if Creates(row, l.to) { CreateKeepsPromiseIff(p, now, row.value, l.to); }
    hide Holds, SlotInv, CreateTransition;
  }

  lemma DeleteStepKeepsIff(p: Promise, hist: seq<Db>, l: Label, now: Slot)
    requires hist != [] && l.DeleteSettledStep? && l.c < |Last(hist).slots| && now == Last(hist).slots[l.c]
    requires SlotInv(now) && Holds(p, now)
    ensures Holds(p, PlanNext(hist, l, now)) <==> !Breaks(p, hist, l)
  {
    DeleteKeepsPromiseIff(p, now);
    hide Holds, SlotInv;
  }

  lemma RetryStepKeepsIff(p: Promise, hist: seq<Db>, l: Label, now: Slot)
    requires hist != [] && l.RetryResizeStep? && l.c < |Last(hist).slots| && now == Last(hist).slots[l.c]
    requires SlotInv(now) && Holds(p, now)
    ensures Holds(p, PlanNext(hist, l, now)) <==> !Breaks(p, hist, l)
  {
    RetryKeepsPromiseIff(p, now);
    hide Holds, SlotInv, RetryResize;
  }

  predicate IsQuietPlanStep(l: Label) {
    l.CancelStep? || l.CancelForDestroyStep? || l.ReserveFallbackStep? || l.DeferStep?
  }

  lemma QuietPlanStepKeeps(p: Promise, hist: seq<Db>, l: Label)
    requires hist != [] && Good(hist) && IsQuietPlanStep(l)
    requires l.c < |Last(hist).slots| && Holds(p, Last(hist).slots[l.c])
    ensures Holds(p, PlanNext(hist, l, Last(hist).slots[l.c])) && !Breaks(p, hist, l)
  {
    hide Good, SlotInv, Holds, CancelUnreserved, CancelForDestroy, ReserveFallback, Defer;
    var now := Last(hist).slots[l.c];
    SlotOk(hist, l.c);
    match l
    case CancelStep(c, trAt) => if Cancellable(ReadTr(hist, trAt, c)) { CancelKeeps(p, hist, c, trAt); }
    case CancelForDestroyStep(_, _) => EndKeepsPromise(p, now, Stopped);
    case _ => WaitKeepsPromise(p, now);
  }

  lemma PlanKeepsIff(p: Promise, hist: seq<Db>, l: Label)
    requires hist != [] && Good(hist) && IsPlanStep(l) && l.c < |Last(hist).slots| && Holds(p, Last(hist).slots[l.c])
    ensures Holds(p, PlanNext(hist, l, Last(hist).slots[l.c])) <==> !Breaks(p, hist, l)
  {
    hide Good, SlotInv, Holds, Breaks, PlanNext;
    var now := Last(hist).slots[l.c];
    SlotOk(hist, l.c);
    match l
    case CreateStep(_, _, _) => CreateStepKeepsIff(p, hist, l, now);
    case DeleteSettledStep(_, _) => DeleteStepKeepsIff(p, hist, l, now);
    case RetryResizeStep(_, _) => RetryStepKeepsIff(p, hist, l, now);
    case _ => QuietPlanStepKeeps(p, hist, l);
  }

  lemma CancelKeeps(p: Promise, hist: seq<Db>, c: nat, trAt: nat)
    requires Good(hist) && c < |Last(hist).slots| && Holds(p, Last(hist).slots[c])
    requires Cancellable(ReadTr(hist, trAt, c))
    ensures Holds(p, CancelUnreserved(Last(hist).slots[c], ReadTr(hist, trAt, c).value.prior))
  {
    PastOf(hist, trAt, c);
    assert SlotInv(Last(hist).slots[c]);
    EndKeepsPromise(p, Last(hist).slots[c], ReadTr(hist, trAt, c).value.prior);
  }

  // Of the other steps on one slot only a failure and a job's insertion break anything.
  lemma BreaksOtherwise(p: Promise, hist: seq<Db>, l: Label)
    requires hist != [] && IsSlotStep(l) && !IsPlanStep(l) && l.c < |Last(hist).slots|
    ensures var now := Last(hist).slots[l.c];
      && (IsRowStep(l) ==> !Breaks(p, hist, l))
      && (IsQueueStep(l) ==> (Breaks(p, hist, l) <==> p.OwnJobsOnly? && !QueueSafe(hist, l, now)))
      && (IsJobStep(l) ==> (Breaks(p, hist, l) <==> p.PlanIsPending? && UnsettlesPlan(hist, l, now)))
  {
    hide QueueSafe;
  }

  lemma SlotStepKeepsIff(p: Promise, hist: seq<Db>, l: Label)
    requires hist != [] && Good(hist) && IsSlotStep(l) && l.c < |Last(hist).slots| && Holds(p, Last(hist).slots[l.c])
    ensures var db := Last(hist); Holds(p, SlotNext(hist, db.hosts, l, db.slots[l.c])) <==> !Breaks(p, hist, l)
  {
    hide Good, SlotInv, Holds, Breaks, RowNext, QueueNext, JobNext, PlanNext, UnsettlesPlan, QueueSafe;
    var now := Last(hist).slots[l.c];
    SlotOk(hist, l.c);
    if IsPlanStep(l) {
      PlanKeepsIff(p, hist, l);
    } else {
      BreaksOtherwise(p, hist, l);
      if IsRowStep(l) { RowStepKeeps(p, hist, l, now); }
      else if IsQueueStep(l) { QueueKeepsIff(p, hist, l, now); }
      else { JobKeepsIff(p, hist, l); }
    }
  }

  lemma RowStepKeeps(p: Promise, hist: seq<Db>, l: Label, now: Slot)
    requires IsRowStep(l) && SlotInv(now) && Holds(p, now)
    ensures Holds(p, RowNext(hist, l, now))
  {
    if l.DriftStep? {
      var s := ReadSlot(hist, l.rowAt, l.c);
      if s.Some? { RowKeeps(p, now, s.value, l.seen); }
    } else {
      RowKeeps(p, now, now, Missing);
    }
  }

  // ------------------------------------------------------------ ledger steps

  // Only slot c may have changed, and the promise is kept there exactly if so.
  predicate OneSlotKeeps(p: Promise, db: Db, next: Db, c: nat, keeps: bool) {
    && c < |db.slots| == |next.slots|
    && (forall i | 0 <= i < |db.slots| && i != c :: next.slots[i] == db.slots[i])
    && (Holds(p, next.slots[c]) <==> keeps)
  }

  lemma SettledKeepsIff(p: Promise, past: Slot, now: Slot, k: nat)
    requires SlotInv(past) && SlotInv(now) && SlotLater(past, now) && k < |past.jobs| && k < |now.jobs| && Holds(p, now)
    requires !now.jobs[k].op.Destroy?
    requires !(now.jobs[k].op.Stop? && StoppingDowngrade(past.tr))
    requires !(now.jobs[k].op.Resize? && IsResizing(past.tr))
    ensures Holds(p, SettleSucceeded(now, k)) <==> (p.PlanIsPending? ==> !SettlesAsOwn(now, k, past.tr))
  {
    if ActiveAt(now.jobs, k) {
      MarkFacts(now.jobs, k, JobSucceeded);
      if IsLifecycle(now.jobs[k].op) { ActiveIsNewest(now.jobs, k); }
    }
  }

  lemma StopRecordedKeeps(p: Promise, now: Slot, k: nat)
    requires SlotInv(now) && Holds(p, now)
    ensures Holds(p, FinalizeDowngradeStop(now, k))
  {
    if ActiveAt(now.jobs, k) { MarkFacts(now.jobs, k, JobSucceeded); }
  }

  lemma ResizedKeeps(p: Promise, past: Slot, now: Slot, next: Slot, k: nat, read: Container, at: int)
    requires SlotInv(past) && SlotInv(now) && SlotLater(past, now) && k < |past.jobs| && Holds(p, now)
    requires ActiveAt(now.jobs, k) && IsLifecycle(now.jobs[k].op) && IsResizing(past.tr)
    requires Resized(now, next, k, read, past.tr.value, at)
    ensures Holds(p, next)
  {
    MarkFacts(now.jobs, k, JobSucceeded);
    ReadIsLive(past, now, k);
  }

  lemma FinalizedKeeps(p: Promise, db: Db, c: nat, k: nat, pastRow: Slot, pastTr: Slot, at: int)
    requires WellFormed(db) && c < |db.slots| && Holds(p, db.slots[c]) && SlotInv(db.slots[c])
    requires SlotInv(pastRow) && SlotLater(pastRow, db.slots[c]) && k < |pastRow.jobs|
    requires SlotInv(pastTr) && SlotLater(pastTr, db.slots[c]) && k < |pastTr.jobs|
    requires HostOf(pastRow).Some? && HostOf(pastRow).value < |db.hosts| && IsResizing(pastTr.tr)
    ensures OneSlotKeeps(p, db, FinalizePlan(db, c, k, pastRow.row.value, pastTr.tr.value, at), c, true)
  {
    var now := db.slots[c];
    if ActiveAt(now.jobs, k) && NewestLifecycle(now.jobs, k) {
      var next := FinalizePlan(db, c, k, pastRow.row.value, pastTr.tr.value, at);
      ReadIsCovered(pastRow, now, k);
      FinalizeIsResized(db, c, k, pastRow.row.value, pastTr.tr.value, at);
      hide FinalizePlan, Resized, Holds, SlotInv, SlotLater;
      ResizedKeeps(p, pastTr, now, next.slots[c], k, pastRow.row.value, at);
    }
  }

  lemma DestroyedKeeps(p: Promise, db: Db, c: nat, k: nat, read: Container, tr: Option<Transition>)
    requires WellFormed(db) && c < |db.slots| && Holds(p, db.slots[c]) && SlotInv(db.slots[c])
    requires read.host.Some? && read.host.value < |db.hosts|
    ensures OneSlotKeeps(p, db, FinalizeDestroy(db, c, k, read, tr), c, true)
  {
    MarkKeeps(p, db.slots[c], k, JobSucceeded);
  }

  lemma SucceedKeepsIff(p: Promise, db: Db, c: nat, k: nat, pastRow: Slot, checked: Slot, pastTr: Slot, at: int)
    requires WellFormed(db) && c < |db.slots| && k < |db.slots[c].jobs| && Holds(p, db.slots[c]) && SlotInv(db.slots[c])
    requires SlotInv(pastRow) && SlotLater(pastRow, db.slots[c]) && k < |pastRow.jobs|
    requires SlotInv(checked) && SlotLater(checked, db.slots[c]) && k < |checked.jobs|
    requires SlotInv(pastTr) && SlotLater(pastTr, db.slots[c]) && k < |pastTr.jobs|
    requires HostOf(pastRow).Some? && HostOf(pastRow).value < |db.hosts|
    ensures OneSlotKeeps(p, db, Succeed(db, c, k, pastRow.row.value, checked.tr, pastTr.tr, at), c,
      p.PlanIsPending? && SettlesAsOwn(db.slots[c], k, checked.tr) ==> db.slots[c].jobs[k].op.Destroy?)
  {
    var now := db.slots[c];
    hide Holds, SlotInv, SlotLater, FinalizePlan, FinalizeDestroy, FinalizeDowngradeStop, SettleSucceeded;
    if now.jobs[k].op.Destroy? {
      DestroyedKeeps(p, db, c, k, pastRow.row.value, pastTr.tr);
    } else if now.jobs[k].op.Stop? && StoppingDowngrade(checked.tr) {
      StopRecordedKeeps(p, now, k);
    } else if now.jobs[k].op.Resize? && IsResizing(checked.tr) {
      if IsResizing(pastTr.tr) { FinalizedKeeps(p, db, c, k, pastRow, pastTr, at); }
    } else {
      SettledKeepsIff(p, checked, now, k);
    }
  }

  lemma ReservedKeepsIff(p: Promise, now: Slot, host: Host, past: Slot, readTr: Transition, at: int)
    requires SlotInv(now) && Claimable(now) && Holds(p, now)
    requires past.row.Some? && past.row.value.host.Some? && SlotLater(past, now)
    requires readTr.targetDiskGb == DiskGb(Paid)
    ensures Holds(p, ReservedSlot(now, host, past.row.value, readTr, at)) <==>
      && (p.DowngradeStopped? ==> !Unstopped(now))
      && (p.ResizingPaid? ==> !ChargesShort(now, host, past.row.value, readTr, at))
  {
    if p.ResizingPaid? {
      ReservedPaysIff(now, host, past, readTr, at);
    } else {
      hide RequestedAmount, HostReserves, SlotLater;
      IdlePlanJobs(ReservedSlot(now, host, past.row.value, readTr, at));
    }
  }

  // Disk never runs short: the row read had no more of it than the row as it is.
  lemma ReservedPaysIff(now: Slot, host: Host, past: Slot, readTr: Transition, at: int)
    requires SlotInv(now) && Claimable(now)
    requires past.row.Some? && past.row.value.host.Some? && SlotLater(past, now)
    requires readTr.targetDiskGb == DiskGb(Paid)
    ensures Holds(ResizingPaid, ReservedSlot(now, host, past.row.value, readTr, at)) <==>
      !ChargesShort(now, host, past.row.value, readTr, at)
  {
    hide HostReserves;
  }

  // ------------------------------------------------------------------- steps

  lemma SlotPutKeepsIff(p: Promise, hist: seq<Db>, l: Label, db: Db)
    requires hist != [] && Good(hist) && db == Last(hist) && IsSlotStep(l) && l.c < |db.slots| && HoldsAll(p, db)
    ensures OneSlotKeeps(p, db, Apply(hist, l), l.c, !Breaks(p, hist, l))
  {
    hide Apply, Good, Holds, HoldsAll, Breaks, SlotNext, SlotInv;
    SlotOk(hist, l.c);
    HoldsThere(p, db, l.c);
    SlotStepKeepsIff(p, hist, l);
    SlotStepIs(hist, l);
  }

  lemma HoldsThere(p: Promise, db: Db, c: nat)
    requires HoldsAll(p, db) && c < |db.slots|
    ensures Holds(p, db.slots[c])
  {
  }

  lemma SettleStepKeepsIff(p: Promise, hist: seq<Db>, l: Label, db: Db)
    requires Good(hist) && db == Last(hist) && l.JobSucceeds? && HoldsAll(p, db)
    requires Observed(hist, l.c, l.k, l.rowAt, l.checkAt, l.trAt)
    ensures OneSlotKeeps(p, db, Apply(hist, l), l.c, !Breaks(p, hist, l))
  {
    assert WellFormed(db) && Holds(p, db.slots[l.c]) && SlotInv(db.slots[l.c]);
    PastOf(hist, l.rowAt, l.c);
    PastOf(hist, l.checkAt, l.c);
    PastOf(hist, l.trAt, l.c);
    SettleBreaks(p, hist, l);
    hide Good, Holds, HoldsAll, Breaks, SlotInv, SlotLater, Succeed, SettlesAsOwn;
    SucceedKeepsIff(p, db, l.c, l.k, ReadSlot(hist, l.rowAt, l.c).value, ReadSlot(hist, l.checkAt, l.c).value,
                    ReadSlot(hist, l.trAt, l.c).value, l.at);
  }

  lemma SettleBreaks(p: Promise, hist: seq<Db>, l: Label)
    requires hist != [] && l.JobSucceeds? && Observed(hist, l.c, l.k, l.rowAt, l.checkAt, l.trAt)
    ensures var now := Last(hist).slots[l.c];
      Breaks(p, hist, l) <==>
        p.PlanIsPending? && SettlesAsOwn(now, l.k, ReadTr(hist, l.checkAt, l.c)) && !now.jobs[l.k].op.Destroy?
  {
    hide SettlesAsOwn;
  }

  lemma ReserveBreaks(p: Promise, hist: seq<Db>, l: Label)
    requires hist != [] && l.ReserveStep? && Reservable(hist, l.c, l.rowAt, l.trAt)
    ensures var now := Last(hist).slots[l.c];
      var read := ReadRow(hist, l.rowAt, l.c).value;
      Breaks(p, hist, l) <==>
        && Claimable(now) && l.entitled
        && (|| (p.DowngradeStopped? && Unstopped(now))
            || (p.ResizingPaid? && ChargesShort(now, Last(hist).hosts[read.host.value], read,
                                                ReadTr(hist, l.trAt, l.c).value, l.at)))
  {
    hide Claimable, ChargesShort;
  }

  lemma ReserveStepKeepsIff(p: Promise, hist: seq<Db>, l: Label, db: Db)
    requires Good(hist) && db == Last(hist) && l.ReserveStep? && HoldsAll(p, db)
    requires Reservable(hist, l.c, l.rowAt, l.trAt)
    ensures OneSlotKeeps(p, db, Apply(hist, l), l.c, !Breaks(p, hist, l))
  {
    var now, past := db.slots[l.c], ReadSlot(hist, l.rowAt, l.c).value;
    var read, readTr := past.row.value, ReadTr(hist, l.trAt, l.c).value;
    assert WellFormed(db) && Holds(p, now) && SlotInv(now);
    PastOf(hist, l.rowAt, l.c);
    PastOf(hist, l.trAt, l.c);
    ReserveBreaks(p, hist, l);
    ReserveStepIs(hist, l);
    ReserveIsSlot(db, l.c, read, readTr, l.entitled, l.at);
    hide Apply, Good, Holds, HoldsAll, Breaks, SlotInv, SlotLater, Reserve, ReservedSlot, Claimable, Unstopped,
         ChargesShort;
    if Claimable(now) && l.entitled { ReservedKeepsIff(p, now, db.hosts[read.host.value], past, readTr, l.at); }
  }

  lemma OneSlotKeepsAllIff(p: Promise, db: Db, next: Db, c: nat, keeps: bool)
    requires HoldsAll(p, db) && OneSlotKeeps(p, db, next, c, keeps)
    ensures HoldsAll(p, next) <==> keeps
  {
    hide Holds;
  }

  // Rows appear, a waiting row is placed, or nothing happens: no plan row is involved.
  lemma PlacementKeeps(p: Promise, hist: seq<Db>, l: Label)
    requires Good(hist) && HoldsAll(p, Last(hist)) && !IsSlotStep(l)
    requires l.JobSucceeds? ==> !Observed(hist, l.c, l.k, l.rowAt, l.checkAt, l.trAt)
    requires l.ReserveStep? ==> !Reservable(hist, l.c, l.rowAt, l.trAt)
    ensures HoldsAll(p, Apply(hist, l)) && !Breaks(p, hist, l)
  {
    var db, next := Last(hist), Apply(hist, l);
    assert WellFormed(db) && forall c | 0 <= c < |db.slots| :: SlotInv(db.slots[c]);
    hide Good;
    forall c | 0 <= c < |next.slots| ensures Holds(p, next.slots[c]) {
      if c < |db.slots| { assert Holds(p, db.slots[c]); }
    }
  }

  // A step keeps a promise about every container exactly when it does not break it.
  lemma StepKeepsPromiseIff(p: Promise, hist: seq<Db>, l: Label)
    requires Good(hist) && HoldsAll(p, Last(hist))
    ensures HoldsAll(p, Apply(hist, l)) <==> !Breaks(p, hist, l)
  {
    var db, next := Last(hist), Apply(hist, l);
    hide Good, HoldsAll, OneSlotKeeps, Apply;
    if IsSlotStep(l) {
      if l.c < |db.slots| {
        SlotPutKeepsIff(p, hist, l, db);
        OneSlotKeepsAllIff(p, db, next, l.c, !Breaks(p, hist, l));
      } else {
        NoSlotSame(hist, l);
      }
    } else if l.JobSucceeds? && Observed(hist, l.c, l.k, l.rowAt, l.checkAt, l.trAt) {
      SettleStepKeepsIff(p, hist, l, db);
      OneSlotKeepsAllIff(p, db, next, l.c, !Breaks(p, hist, l));
    } else if l.ReserveStep? && Reservable(hist, l.c, l.rowAt, l.trAt) {
      ReserveStepKeepsIff(p, hist, l, db);
      OneSlotKeepsAllIff(p, db, next, l.c, !Breaks(p, hist, l));
    } else {
      PlacementKeeps(p, hist, l);
    }
  }

  lemma NoSlotSame(hist: seq<Db>, l: Label)
    requires Good(hist) && IsSlotStep(l) && l.c >= |Last(hist).slots|
    ensures Apply(hist, l) == Last(hist)
  {
  }

  // -------------------------------------------------------------------- runs

  predicate HoldsAt(p: Promise, init: Db, run: seq<Label>, i: nat)
    requires WellFormed(init) && i <= |run|
  {
    HoldsAll(p, Exec(init, run)[i])
  }

  predicate KeepsAt(p: Promise, init: Db, run: seq<Label>, n: nat)
    requires WellFormed(init) && n < |run|
  {
    !Breaks(p, Exec(init, run[..n]), run[n])
  }

  // The promise holds at first and no step of the run breaks it.
  predicate Unbroken(p: Promise, init: Db, run: seq<Label>)
    requires WellFormed(init)
  {
    HoldsAll(p, init) && forall n | 0 <= n < |run| :: KeepsAt(p, init, run, n)
  }

  lemma NextKeepsIff(p: Promise, init: Db, run: seq<Label>, n: nat)
    requires Inv(init) && n < |run| && HoldsAt(p, init, run, n)
    ensures HoldsAt(p, init, run, n + 1) <==> KeepsAt(p, init, run, n)
  {
    hide HoldsAll, Breaks, Apply, Exec;
    RunsAreGood(init, run[..n]);
    ExecNext(init, run, n);
    var before := Exec(init, run[..n]);
    hide Good, Inv;
    StepKeepsPromiseIff(p, before, run[n]);
  }

  lemma {:induction false} StaysUnbroken(p: Promise, init: Db, run: seq<Label>, i: nat)
    requires Inv(init) && i <= |run| && HoldsAll(p, init)
    requires forall n | 0 <= n < i :: KeepsAt(p, init, run, n)
    ensures HoldsAt(p, init, run, i)
  {
    hide KeepsAt, HoldsAll;
    if i > 0 {
      StaysUnbroken(p, init, run, i - 1);
      NextKeepsIff(p, init, run, i - 1);
    }
  }

  // A promise holds in every state of a run exactly when it does at first and no step of
  // the run breaks it.
  lemma RunKeepsPromiseIff(p: Promise, init: Db, run: seq<Label>)
    requires Inv(init)
    ensures (forall i | 0 <= i <= |run| :: HoldsAt(p, init, run, i)) <==> Unbroken(p, init, run)
  {
    assert HoldsAt(p, init, run, 0) <==> HoldsAll(p, init);
    hide HoldsAt, HoldsAll, KeepsAt, Exec;
    if forall i | 0 <= i <= |run| :: HoldsAt(p, init, run, i) {
      forall n | 0 <= n < |run| ensures KeepsAt(p, init, run, n) {
        NextKeepsIff(p, init, run, n);
      }
    }
    if Unbroken(p, init, run) {
      forall i | 0 <= i <= |run| ensures HoldsAt(p, init, run, i) {
        StaysUnbroken(p, init, run, i);
      }
    }
  }
}
