// Plan changes: what explains a container's plan change, and what the batch of a step
// must meet to keep it so, however old the rows the step acts on.
module FleetPlans {
  import opened Wrappers
  import opened Plans
  import opened FleetState
  import opened FleetSteps
  import opened FleetLedger
  import opened FleetSlotProofs
  import opened FleetAccounting
  import opened FleetRun

  predicate Live(tr: Option<Transition>) { tr.Some? && !Settled(tr.value) }

  // The reservation pays for the whole resize.
  predicate Covers(tr: Transition, c: Container) {
    && tr.reserved.cpu >= CpuReservation(tr.to) - CpuReservation(c.tier)
    && tr.reserved.ram >= RamMb(tr.to) - c.ramMb
    && tr.reserved.disk >= DiskReservationGb(tr.targetDiskGb) - DiskReservationGb(c.diskGb)
  }

  predicate LivePlanInv(tr: Transition, c: Container) {
    && tr.from == c.tier && tr.from != tr.to
    && (tr.to.Free? && (tr.state.Reserving? || tr.state.Resizing?) ==> tr.prior.Stopped?)
    && (tr.state.Resizing? || !Unreserved(tr) ==> Covers(tr, c))
  }

  // A live plan change admits one kind of job at a time.
  predicate PlanJobs(s: Slot) {
    forall k | 0 <= k < |s.jobs| :: IsLifecycle(s.jobs[k].op) && IsActive(s.jobs[k].status) ==>
      (s.jobs[k].op.Stop? && StoppingDowngrade(s.tr)) || (s.jobs[k].op.Resize? && IsResizing(s.tr))
  }

  predicate PlanInv(s: Slot) {
    && (s.row.Some? ==> (s.row.value.status.UpgradePending? <==> Live(s.tr)))
    && (s.row.Some? && Live(s.tr) ==> LivePlanInv(s.tr.value, s.row.value) && PlanJobs(s))
  }

  // A live plan row is not deleted under an active job.
  predicate LiveKept(a: Slot, b: Slot) {
    Spans(a.jobs, b.jobs) && Live(a.tr) ==> b.tr.Some?
  }

  // ------------------------------------------- what a batch must meet to be safe

  // A plan is created with the status and the tier the container has.
  predicate CreateFits(now: Slot, read: Container) {
    now.row.Some? && now.tr.None? && !Busy(now.jobs) ==>
      now.row.value.status == read.status && now.row.value.tier == read.tier
  }

  // A resize is retried for a stopped workbench, or with a reservation.
  predicate RetryFits(now: Slot) {
    now.tr.Some? && now.tr.value.state.FailedRetryable? ==>
      if now.tr.value.to.Free? then now.tr.value.prior.Stopped? else !Unreserved(now.tr.value)
  }

  // Under a live plan only the job of its own stage is queued.
  predicate QueueFits(now: Slot, op: JobOp, read: Container, host: Host) {
    Live(now.tr) && MayEnqueue(now, op, read, host) ==>
      (op.Stop? && StoppingDowngrade(now.tr)) || (op.Resize? && IsResizing(now.tr))
  }

  // A claim meets a stopped downgrade; or an upgrade that the host refuses, that has
  // its reservation, or whose reads were of an upgrade, too.
  predicate ReserveFits(now: Slot, host: Host, read: Container, readTr: Transition, entitled: bool, at: int) {
    Claimable(now) && entitled ==>
      if now.tr.value.to.Free? then now.tr.value.prior.Stopped?
      else
        HostReserves(host, RequestedAmount(read, readTr).disk, at) && Unreserved(now.tr.value) ==>
          readTr.from.Free? && readTr.to.Paid?
  }

  // The tests on the rows read that let a request go on to create a plan.
  predicate Creates(row: Option<Container>, to: Tier) {
    row.Some? && row.value.tier != to && (row.value.status.Running? || row.value.status.Stopped?)
  }

  // The step's batch fits the rows it meets, however old the rows it acts on.
  predicate Safe(hist: seq<Db>, l: Label)
    requires hist != []
  {
    var db := Last(hist);
    (IsSlotStep(l) || l.ReserveStep?) && l.c < |db.slots| ==>
      var now := db.slots[l.c];
      match l
      case CreateStep(c, to, rowAt) =>
        var row := ReadRow(hist, rowAt, c);
        Creates(row, to) ==> CreateFits(now, row.value)
      case DeleteSettledStep(c, trAt) =>
        var tr := ReadTr(hist, trAt, c);
        tr.Some? && Settled(tr.value) ==> !Live(now.tr)
      case RetryResizeStep(c, trAt) =>
        var tr := ReadTr(hist, trAt, c);
        tr.Some? && MayRetryResize(tr.value) ==> RetryFits(now)
      case QueueResize(c, rowAt, trAt) => QueueSafe(hist, l, now)
      case QueueDowngradeStop(c, rowAt, trAt) => QueueSafe(hist, l, now)
      case ReserveStep(c, rowAt, trAt, entitled, at) =>
        Reservable(hist, c, rowAt, trAt) ==>
          var row := ReadRow(hist, rowAt, c).value;
          ReserveFits(now, db.hosts[row.host.value], row, ReadTr(hist, trAt, c).value, entitled, at)
      case _ => true
  }

  predicate QueueSafe(hist: seq<Db>, l: Label, now: Slot)
    requires hist != [] && IsQueueStep(l)
  {
    var hosts, op, row := Last(hist).hosts, QueuedOp(hist, l), ReadRow(hist, l.rowAt, l.c);
    op.Some? && row.Some? && row.value.host.Some? && row.value.host.value < |hosts| ==>
      QueueFits(now, op.value, row.value, hosts[row.value.host.value])
  }

  predicate PlanKept(now: Slot, next: Slot) { PlanInv(next) && LiveKept(now, next) }

  // Container c's plan change has been explained in every state so far.
  predicate PlanOf(hist: seq<Db>, c: nat) {
    && Good(hist)
    && (forall i | 0 <= i < |hist| && c < |hist[i].slots| :: PlanInv(hist[i].slots[c]))
    && (forall i, j | 0 <= i < j < |hist| && c < |hist[i].slots| && c < |hist[j].slots| ::
          LiveKept(hist[i].slots[c], hist[j].slots[c]))
  }

  predicate GoodPlan(hist: seq<Db>) {
    && Good(hist)
    && (forall i, c | 0 <= i < |hist| && 0 <= c < |hist[i].slots| :: PlanInv(hist[i].slots[c]))
    && (forall i, j, c | 0 <= i < j < |hist| && 0 <= c < |hist[i].slots| && c < |hist[j].slots| ::
          LiveKept(hist[i].slots[c], hist[j].slots[c]))
  }

  // ------------------------------------------------------------------- slots

  // While job k is active, what a settler read decides the same branch as the
  // plan row it meets.
  lemma ReadsAgree(past: Slot, now: Slot, k: nat)
    requires SlotInv(past) && SlotInv(now) && SlotLater(past, now)
    requires PlanInv(past) && PlanInv(now) && LiveKept(past, now)
    requires k < |past.jobs| && ActiveAt(now.jobs, k) && IsLifecycle(now.jobs[k].op)
    ensures now.jobs[k].op.Resize? ==> (IsResizing(past.tr) <==> IsResizing(now.tr))
    ensures now.jobs[k].op.Stop? ==> (StoppingDowngrade(past.tr) <==> StoppingDowngrade(now.tr))
    ensures Live(now.tr) ==>
      (now.jobs[k].op.Resize? && IsResizing(past.tr)) || (now.jobs[k].op.Stop? && StoppingDowngrade(past.tr))
    ensures IsResizing(past.tr) && now.jobs[k].op.Resize? ==>
      now.tr.Some? && SameRequest(past.tr.value, now.tr.value)
  {
    assert Spans(past.jobs, now.jobs) && Stable(past, now);
    assert ActiveAt(past.jobs, k) && Busy(past.jobs) && Busy(now.jobs);
  }

  lemma IdlePlanJobs(s: Slot)
    requires !Busy(s.jobs)
    ensures PlanJobs(s)
  {
  }

  lemma EnqueueKeepsPlanIff(now: Slot, op: JobOp, read: Container, host: Host)
    requires SlotInv(now) && PlanInv(now) && IsLifecycle(op)
    ensures PlanInv(Enqueue(now, op, read, host)) <==> QueueFits(now, op, read, host)
    ensures LiveKept(now, Enqueue(now, op, read, host))
  {
    if !Busy(now.jobs) {
      AppendFacts(now.jobs, op);
      assert (now.jobs + [Job(op, JobQueued)])[|now.jobs|] == Job(op, JobQueued);
    }
  }

  lemma EnqueueBackgroundPlanOk(now: Slot, op: JobOp, host: Host)
    requires SlotInv(now) && PlanInv(now)
    ensures PlanKept(now, EnqueueBackground(now, op, host))
  {
  }

  lemma MarkPlanOk(now: Slot, k: nat, status: JobStatus)
    requires SlotInv(now) && PlanInv(now)
    ensures PlanKept(now, Mark(now, k, status))
  {
    if ActiveAt(now.jobs, k) { MarkFacts(now.jobs, k, status); }
  }

  lemma FailJobPlanOk(past: Slot, now: Slot, k: nat)
    requires SlotInv(past) && SlotInv(now) && SlotLater(past, now)
    requires PlanInv(past) && PlanInv(now) && LiveKept(past, now) && k < |past.jobs|
    ensures PlanKept(now, FailJob(now, k, past.tr))
  {
    if ActiveAt(now.jobs, k) {
      MarkFacts(now.jobs, k, JobFailed);
      MarkPlanOk(now, k, JobFailed);
      if IsLifecycle(now.jobs[k].op) {
        ActiveIsNewest(now.jobs, k);
        ReadsAgree(past, now, k);
        IdlePlanJobs(FailJob(now, k, past.tr));
      }
    }
  }

  lemma SettleSucceededPlanOk(past: Slot, now: Slot, k: nat)
    requires SlotInv(past) && SlotInv(now) && SlotLater(past, now)
    requires PlanInv(past) && PlanInv(now) && LiveKept(past, now) && k < |past.jobs| && k < |now.jobs|
    requires !(now.jobs[k].op.Stop? && StoppingDowngrade(past.tr))
    requires !(now.jobs[k].op.Resize? && IsResizing(past.tr))
    ensures PlanKept(now, SettleSucceeded(now, k))
  {
    if ActiveAt(now.jobs, k) {
      MarkPlanOk(now, k, JobSucceeded);
      MarkFacts(now.jobs, k, JobSucceeded);
      if IsLifecycle(now.jobs[k].op) { ReadsAgree(past, now, k); }
    }
  }

  lemma FinalizeDowngradeStopPlanOk(past: Slot, now: Slot, k: nat)
    requires SlotInv(past) && SlotInv(now) && SlotLater(past, now)
    requires PlanInv(past) && PlanInv(now) && LiveKept(past, now) && k < |past.jobs| && k < |now.jobs|
    requires now.jobs[k].op.Stop? && StoppingDowngrade(past.tr)
    ensures PlanKept(now, FinalizeDowngradeStop(now, k))
  {
    if ActiveAt(now.jobs, k) {
      MarkFacts(now.jobs, k, JobSucceeded);
      ReadsAgree(past, now, k);
      IdlePlanJobs(FinalizeDowngradeStop(now, k));
    }
  }

  lemma CreateKeepsPlanIff(now: Slot, read: Container, to: Tier)
    requires SlotInv(now) && PlanInv(now) && Creates(Some(read), to)
    ensures PlanInv(CreateTransition(now, read, to)) <==> CreateFits(now, read)
    ensures LiveKept(now, CreateTransition(now, read, to))
  {
    if !Busy(now.jobs) { IdlePlanJobs(CreateTransition(now, read, to)); }
  }

  // Deleting the plan row keeps the container's status explained exactly when the
  // row deleted is not live.
  lemma DeleteKeepsPlanIff(now: Slot)
    requires SlotInv(now) && PlanInv(now)
    ensures PlanInv(DeleteTransition(now)) <==> !Live(now.tr)
    ensures !Live(now.tr) ==> LiveKept(now, DeleteTransition(now))
  {
  }

  lemma CancelPlanOk(now: Slot, prior: ContainerStatus)
    requires SlotInv(now) && PlanInv(now)
    ensures prior.Running? || prior.Stopped? ==> PlanKept(now, CancelUnreserved(now, prior))
    ensures PlanKept(now, CancelForDestroy(now))
  {
  }

  lemma RetryKeepsPlanIff(now: Slot)
    requires SlotInv(now) && PlanInv(now)
    ensures PlanInv(RetryResize(now)) <==> RetryFits(now)
    ensures LiveKept(now, RetryResize(now))
  {
    var next := RetryResize(now);
    if now.tr.Some? && now.tr.value.state.FailedRetryable? {
      if RetryFits(now) {
        if now.tr.value.to.Paid? || now.tr.value.prior.Stopped? { assert PlanJobs(now) ==> PlanJobs(next); }
      }
    }
  }

  lemma StatePlanOk(now: Slot)
    requires SlotInv(now) && PlanInv(now)
    ensures PlanKept(now, ReserveFallback(now))
    ensures PlanKept(now, Defer(now))
  {
    if !Busy(now.jobs) { IdlePlanJobs(Defer(now)); }
  }

  lemma RowPlanOk(now: Slot, read: Slot, seen: Sighting)
    requires SlotInv(now) && PlanInv(now)
    ensures PlanKept(now, Withdraw(now))
    ensures PlanKept(now, ShrinkWaitlisted(now))
    ensures PlanKept(now, ProvisionNotQueued(now))
    ensures PlanKept(now, CorrectDrift(now, read, seen))
  {
  }

  function Charged(now: Slot, amount: Res): Slot
    requires now.tr.Some?
  {
    now.(tr := Some(now.tr.value.(state := Resizing, reserved := now.tr.value.reserved.Plus(amount))))
  }

  lemma ClaimKeepsPlanIff(now: Slot)
    requires SlotInv(now) && PlanInv(now) && Claimable(now)
    ensures PlanInv(SetState(now, Reserving)) <==> (now.tr.value.to.Free? ==> now.tr.value.prior.Stopped?)
    ensures LiveKept(now, SetState(now, Reserving))
  {
    IdlePlanJobs(SetState(now, Reserving));
  }

  lemma ChargeKeepsPlanIff(now: Slot, amount: Res)
    requires SlotInv(now) && PlanInv(now) && Claimable(now)
    ensures PlanInv(Charged(now, amount)) <==>
      && (now.tr.value.to.Free? ==> now.tr.value.prior.Stopped?)
      && Covers(Charged(now, amount).tr.value, now.row.value)
    ensures LiveKept(now, Charged(now, amount))
  {
    IdlePlanJobs(Charged(now, amount));
  }

  // A downgrade needs no reservation; what an upgrade needs is what its own reads,
  // or those of any upgrade, ask for, because disks only grow.
  lemma ChargeCoversIff(now: Slot, read: Container, readTr: Transition)
    requires SlotInv(now) && PlanInv(now) && Claimable(now)
    requires readTr.targetDiskGb == DiskGb(Paid) && read.diskGb <= now.row.value.diskGb
    ensures Covers(Charged(now, RequestedAmount(read, readTr)).tr.value, now.row.value) <==>
      (now.tr.value.to.Paid? && Unreserved(now.tr.value) ==> readTr.from.Free? && readTr.to.Paid?)
  {
  }

  // A finished resize is no longer live, and a downgrade leaves the container stopped.
  lemma ResizedPlanOk(past: Slot, now: Slot, next: Slot, k: nat, read: Container, at: int)
    requires SlotInv(past) && SlotInv(now) && SlotLater(past, now)
    requires PlanInv(past) && PlanInv(now) && LiveKept(past, now) && k < |past.jobs|
    requires ActiveAt(now.jobs, k) && now.jobs[k].op.Resize? && IsResizing(past.tr)
    requires Resized(now, next, k, read, past.tr.value, at)
    ensures PlanKept(now, next)
    ensures past.tr.value.to.Free? ==> next.row.value.status.Stopped? && now.tr.Some? && now.tr.value.prior.Stopped?
  {
    ReadsAgree(past, now, k);
    MarkFacts(now.jobs, k, JobSucceeded);
  }
}
