// Runs: any interleaving of steps, where a step may act on rows it read in any
// earlier state of the run.
module FleetRun {
  import opened Wrappers
  import opened Plans
  import opened FleetState
  import opened FleetSteps
  import opened FleetLedger
  import opened FleetSlotProofs
  import opened FleetAccounting

  // `...At` is the index of the state the row was read in. What the program reads
  // from users, entitlements, the clock and the daemon is arbitrary.
  datatype Label =
    | HostReport(h: HostId, hostStatus: HostStatus, seenAt: Option<int>, failures: nat, reports: bool)
    | PlaceNewStep(user: UserId, tier: Tier, mode: Tenancy, h: HostId, port: int, at: int)
    | JoinWaitlistStep(user: UserId, tier: Tier, mode: Tenancy)
    | WithdrawStep(c: nat)
    | ShrinkStep(c: nat)
    | PlaceWaitlistedStep(c: nat, h: HostId, port: int, at: int, rowAt: nat)
    | ProvisionNotQueuedStep(c: nat)
    | QueueProvision(c: nat, rowAt: nat)
    | UserOp(c: nat, op: JobOp, rowAt: nat)
    | UserRetry(c: nat, rowAt: nat, jobsAt: nat)
    | QueueBackground(c: nat, op: JobOp, h: HostId)
    | DispatchedStep(c: nat, k: nat)
    | Heartbeat(c: nat, k: nat, status: JobStatus)
    | JobFails(c: nat, k: nat, trAt: nat)
    | JobSucceeds(c: nat, k: nat, rowAt: nat, checkAt: nat, trAt: nat, at: int)
    | CreateStep(c: nat, to: Tier, rowAt: nat)
    | DeleteSettledStep(c: nat, trAt: nat)
    | CancelStep(c: nat, trAt: nat)
    | CancelForDestroyStep(c: nat, trAt: nat)
    | ReserveStep(c: nat, rowAt: nat, trAt: nat, entitled: bool, at: int)
    | ReserveFallbackStep(c: nat)
    | RetryResizeStep(c: nat, trAt: nat)
    | DeferStep(c: nat)
    | QueueResize(c: nat, rowAt: nat, trAt: nat)
    | QueueDowngradeStop(c: nat, rowAt: nat, trAt: nat)
    | DriftStep(c: nat, seen: Sighting, rowAt: nat)

  function Last(hist: seq<Db>): Db
    requires hist != []
  {
    hist[|hist| - 1]
  }

  // Slot c as state i had it, if both existed.
  function ReadSlot(hist: seq<Db>, i: nat, c: nat): Option<Slot> {
    if i < |hist| && c < |hist[i].slots| then Some(hist[i].slots[c]) else None
  }

  function ReadRow(hist: seq<Db>, i: nat, c: nat): Option<Container> {
    var s := ReadSlot(hist, i, c);
    if s.Some? then s.value.row else None
  }

  function ReadTr(hist: seq<Db>, i: nat, c: nat): Option<Transition> {
    var s := ReadSlot(hist, i, c);
    if s.Some? then s.value.tr else None
  }

  // Job k had been inserted when state i was read.
  predicate JobKnown(hist: seq<Db>, i: nat, c: nat, k: nat) {
    var s := ReadSlot(hist, i, c);
    s.Some? && k < |s.value.jobs|
  }

  // Insertion of a lifecycle job for a container read with a host.
  function QueueFor(hosts: seq<Host>, now: Slot, op: JobOp, read: Option<Container>): Slot {
    if IsLifecycle(op) && read.Some? && read.value.host.Some? && read.value.host.value < |hosts|
    then Enqueue(now, op, read.value, hosts[read.value.host.value])
    else now
  }

  // A retry repeats the newest lifecycle job if it failed, and provisions otherwise.
  function RetryOp(jobs: seq<Job>): JobOp {
    if jobs == [] then Provision
    else
      var last := jobs[|jobs| - 1];
      if !IsLifecycle(last.op) then RetryOp(jobs[..|jobs| - 1])
      else if last.status.JobFailed? then last.op
      else Provision
  }

  // What requestPlanTransition has established from its reads when it reserves.
  predicate MayReserve(tr: Transition) {
    && !tr.state.Resizing?
    && !(tr.to.Free? && tr.prior.Running?)
    && !(tr.state.FailedRetryable? && !Unreserved(tr))
  }

  // ... and when it retries a resize whose reservation it already holds.
  predicate MayRetryResize(tr: Transition) {
    && tr.state.FailedRetryable? && !Unreserved(tr)
    && !(tr.to.Free? && tr.prior.Running?)
  }

  // ---------------------------------------------------- steps on one slot only

  predicate IsRowStep(l: Label) {
    l.WithdrawStep? || l.ShrinkStep? || l.ProvisionNotQueuedStep? || l.DriftStep?
  }

  predicate IsQueueStep(l: Label) {
    l.QueueProvision? || l.UserOp? || l.UserRetry? || l.QueueResize? || l.QueueDowngradeStop?
  }

  predicate IsJobStep(l: Label) {
    l.QueueBackground? || l.DispatchedStep? || l.Heartbeat? || l.JobFails?
  }

  predicate IsPlanStep(l: Label) {
    l.CreateStep? || l.DeleteSettledStep? || l.CancelStep? || l.CancelForDestroyStep?
    || l.ReserveFallbackStep? || l.RetryResizeStep? || l.DeferStep?
  }

  predicate IsSlotStep(l: Label) { IsRowStep(l) || IsQueueStep(l) || IsJobStep(l) || IsPlanStep(l) }

  function RowNext(hist: seq<Db>, l: Label, now: Slot): Slot
    requires IsRowStep(l)
  {
    match l
    case WithdrawStep(_) => Withdraw(now)
    case ShrinkStep(_) => ShrinkWaitlisted(now)
    case ProvisionNotQueuedStep(_) => ProvisionNotQueued(now)
    case DriftStep(c, seen, rowAt) =>
      var s := ReadSlot(hist, rowAt, c);
      if s.Some? then CorrectDrift(now, s.value, seen) else now
  }

  // The operation queued, when the request's reads allow it.
  function QueuedOp(hist: seq<Db>, l: Label): Option<JobOp>
    requires IsQueueStep(l)
  {
    var row := ReadRow(hist, l.rowAt, l.c);
    if row.None? then None
    else match l
      case QueueProvision(_, _) => if row.value.status.Provisioning? then Some(Provision) else None
      case UserOp(_, op, _) => if op in AllowedUserOps(row.value.status) then Some(op) else None
      case UserRetry(c, _, jobsAt) =>
        var s := ReadSlot(hist, jobsAt, c);
        if row.value.status.Error? && s.Some? then Some(RetryOp(s.value.jobs)) else None
      case QueueResize(c, _, trAt) => if ReadTr(hist, trAt, c).Some? then Some(Resize) else None
      case QueueDowngradeStop(c, _, trAt) =>
        var tr := ReadTr(hist, trAt, c);
        if tr.Some? && tr.value.to.Free? && tr.value.prior.Running? then Some(Stop) else None
  }

  function QueueNext(hist: seq<Db>, hosts: seq<Host>, l: Label, now: Slot): Slot
    requires IsQueueStep(l)
  {
    var op := QueuedOp(hist, l);
    if op.Some? then QueueFor(hosts, now, op.value, ReadRow(hist, l.rowAt, l.c)) else now
  }

  function JobNext(hist: seq<Db>, hosts: seq<Host>, l: Label, now: Slot): Slot
    requires IsJobStep(l)
  {
    match l
    case QueueBackground(_, op, h) => if h < |hosts| then EnqueueBackground(now, op, hosts[h]) else now
    case DispatchedStep(_, k) => Dispatched(now, k)
    case Heartbeat(_, k, status) => if IsActive(status) then Mark(now, k, status) else now
    case JobFails(c, k, trAt) => if JobKnown(hist, trAt, c, k) then FailJob(now, k, ReadTr(hist, trAt, c)) else now
  }

  function PlanNext(hist: seq<Db>, l: Label, now: Slot): Slot
    requires IsPlanStep(l)
  {
    match l
    case CreateStep(c, to, rowAt) =>
      var row := ReadRow(hist, rowAt, c);
      if row.Some? && row.value.tier != to && (row.value.status.Running? || row.value.status.Stopped?)
      then CreateTransition(now, row.value, to)
      else now
    case DeleteSettledStep(c, trAt) =>
      var tr := ReadTr(hist, trAt, c);
      if tr.Some? && Settled(tr.value) then DeleteTransition(now) else now
    case CancelStep(c, trAt) =>
      var tr := ReadTr(hist, trAt, c);
      if Cancellable(tr) then CancelUnreserved(now, tr.value.prior) else now
    case CancelForDestroyStep(c, trAt) =>
      if CancellableForDestroy(ReadTr(hist, trAt, c)) then CancelForDestroy(now) else now
    case ReserveFallbackStep(_) => ReserveFallback(now)
    case RetryResizeStep(c, trAt) =>
      var tr := ReadTr(hist, trAt, c);
      if tr.Some? && MayRetryResize(tr.value) then RetryResize(now) else now
    case DeferStep(_) => Defer(now)
  }

  function SlotNext(hist: seq<Db>, hosts: seq<Host>, l: Label, now: Slot): Slot
    requires IsSlotStep(l)
  {
    if IsRowStep(l) then RowNext(hist, l, now)
    else if IsQueueStep(l) then QueueNext(hist, hosts, l, now)
    else if IsJobStep(l) then JobNext(hist, hosts, l, now)
    else PlanNext(hist, l, now)
  }

  // ------------------------------------------------------------------ all steps

  function HostReported(db: Db, h: HostId, status: HostStatus, seenAt: Option<int>, failures: nat, reports: bool): Db {
    if h < |db.hosts| then
      db.(hosts := db.hosts[h := db.hosts[h].(status := status, lastSeenAt := seenAt,
                                              consecutiveFailures := failures, reporting := reports)])
    else db
  }

  function Apply(hist: seq<Db>, l: Label): (next: Db)
    requires hist != [] && WellFormed(Last(hist))
    ensures WellFormed(next)
  {
    var db := Last(hist);
    if IsSlotStep(l) then
      if l.c < |db.slots| then Put(db, l.c, SlotNext(hist, db.hosts, l, db.slots[l.c])) else db
    else match l
      case HostReport(h, status, seenAt, failures, reports) => HostReported(db, h, status, seenAt, failures, reports)
      case PlaceNewStep(user, tier, mode, h, port, at) =>
        if h < |db.hosts| then PlaceNew(db, user, tier, mode, h, port, at) else db
      case JoinWaitlistStep(user, tier, mode) => JoinWaitlist(db, user, tier, mode)
      case PlaceWaitlistedStep(c, h, port, at, rowAt) =>
        var row := ReadRow(hist, rowAt, c);
        if c < |db.slots| && row.Some? && h < |db.hosts| then PlaceWaitlisted(db, c, row.value, h, port, at)
        else db
      case JobSucceeds(c, k, rowAt, checkAt, trAt, at) =>
        if Observed(hist, c, k, rowAt, checkAt, trAt) then
          Succeed(db, c, k, ReadRow(hist, rowAt, c).value, ReadTr(hist, checkAt, c), ReadTr(hist, trAt, c), at)
        else db
      case ReserveStep(c, rowAt, trAt, entitled, at) =>
        if Reservable(hist, c, rowAt, trAt) then
          Reserve(db, c, ReadRow(hist, rowAt, c).value, ReadTr(hist, trAt, c).value, entitled, at)
        else db
  }

  // The poller holds the job, and read the container on a known host.
  predicate Observed(hist: seq<Db>, c: nat, k: nat, rowAt: nat, checkAt: nat, trAt: nat)
    requires hist != []
  {
    var row := ReadRow(hist, rowAt, c);
    && c < |Last(hist).slots| && k < |Last(hist).slots[c].jobs|
    && JobKnown(hist, rowAt, c, k) && JobKnown(hist, checkAt, c, k) && JobKnown(hist, trAt, c, k)
    && row.Some? && row.value.host.Some? && row.value.host.value < |Last(hist).hosts|
  }

  predicate Reservable(hist: seq<Db>, c: nat, rowAt: nat, trAt: nat)
    requires hist != []
  {
    var row, tr := ReadRow(hist, rowAt, c), ReadTr(hist, trAt, c);
    && c < |Last(hist).slots|
    && row.Some? && row.value.host.Some? && row.value.host.value < |Last(hist).hosts|
    && tr.Some? && MayReserve(tr.value)
  }

  // --------------------------------------------------------------- invariant

  // Every state satisfies the invariant and is later than those before it.
  predicate Good(hist: seq<Db>) {
    && hist != []
    && (forall i | 0 <= i < |hist| :: Inv(hist[i]))
    && (forall i, j | 0 <= i < j < |hist| :: Later(hist[i], hist[j]))
  }

  lemma LastOk(hist: seq<Db>)
    requires Good(hist)
    ensures Inv(Last(hist)) && WellFormed(Last(hist))
  {
  }

  lemma SlotOk(hist: seq<Db>, c: nat)
    requires Good(hist) && c < |Last(hist).slots|
    ensures SlotInv(Last(hist).slots[c]) && WellFormed(Last(hist))
  {
    LastOk(hist);
  }

  // Reads are of earlier versions of the same slot.
  lemma PastOf(hist: seq<Db>, i: nat, c: nat)
    requires Good(hist) && ReadSlot(hist, i, c).Some?
    ensures c < |Last(hist).slots|
    ensures var past := ReadSlot(hist, i, c).value; SlotInv(past) && SlotLater(past, Last(hist).slots[c])
    ensures var past := ReadSlot(hist, i, c).value;
      HostOf(past).Some? ==> HostOf(past).value < |Last(hist).hosts|
  {
    if i == |hist| - 1 {
      SlotLaterReflexive(hist[i].slots[c]);
    } else {
      assert Later(hist[i], Last(hist));
    }
  }

  lemma RowNextOk(hist: seq<Db>, l: Label, now: Slot)
    requires IsRowStep(l) && SlotInv(now)
    ensures var next := RowNext(hist, l, now); Kept(now, next) && Quiet(now, next)
  {
    SlotLaterReflexive(now);
    RowOnlyOk(now);
    if l.DriftStep? {
      var s := ReadSlot(hist, l.rowAt, l.c);
      if s.Some? { CorrectDriftOk(now, s.value, l.seen); }
    }
  }

  lemma QueueNextOk(hist: seq<Db>, hosts: seq<Host>, l: Label, now: Slot)
    requires IsQueueStep(l) && SlotInv(now)
    ensures var next := QueueNext(hist, hosts, l, now); Kept(now, next) && Quiet(now, next)
  {
    SlotLaterReflexive(now);
    var op, read := QueuedOp(hist, l), ReadRow(hist, l.rowAt, l.c);
    if op.Some? && IsLifecycle(op.value) && read.Some? && read.value.host.Some? && read.value.host.value < |hosts| {
      EnqueueOk(now, op.value, read.value, hosts[read.value.host.value]);
    }
  }

  lemma JobNextOk(hist: seq<Db>, hosts: seq<Host>, l: Label, now: Slot)
    requires IsJobStep(l) && SlotInv(now)
    ensures var next := JobNext(hist, hosts, l, now); Kept(now, next) && Quiet(now, next)
  {
    SlotLaterReflexive(now);
    match l
    case QueueBackground(_, op, h) => if h < |hosts| { EnqueueBackgroundOk(now, op, hosts[h]); }
    case DispatchedStep(_, k) => MarkOk(now, k, JobRunning);
    case Heartbeat(_, k, status) => if IsActive(status) { MarkOk(now, k, status); }
    case JobFails(c, k, trAt) => FailJobOk(now, k, ReadTr(hist, trAt, c));
  }

  lemma PlanNextOk(hist: seq<Db>, l: Label)
    requires Good(hist) && IsPlanStep(l) && l.c < |Last(hist).slots|
    ensures var now := Last(hist).slots[l.c]; var next := PlanNext(hist, l, now); Kept(now, next) && Quiet(now, next)
  {
    var now := Last(hist).slots[l.c];
    SlotLaterReflexive(now);
    match l
    case CreateStep(c, to, rowAt) =>
      var s := ReadSlot(hist, rowAt, c);
      if s.Some? && s.value.row.Some? {
        PastOf(hist, rowAt, c);
        var row := s.value.row.value;
        if row.tier != to && (row.status.Running? || row.status.Stopped?) { CreateTransitionOk(now, s.value, to); }
      }
    case CancelStep(c, trAt) =>
      var tr := ReadTr(hist, trAt, c);
      if Cancellable(tr) {
        PastOf(hist, trAt, c);
        CancelUnreservedOk(now, tr.value.prior);
      }
    case DeleteSettledStep(_, _) => DeleteTransitionOk(now);
    case CancelForDestroyStep(_, _) => CancelForDestroyOk(now);
    case _ => StateOnlyOk(now);
  }

  lemma SlotNextOk(hist: seq<Db>, l: Label)
    requires Good(hist) && IsSlotStep(l) && l.c < |Last(hist).slots|
    ensures var db := Last(hist);
      var next := SlotNext(hist, db.hosts, l, db.slots[l.c]);
      Kept(db.slots[l.c], next) && Quiet(db.slots[l.c], next)
  {
    var db := Last(hist);
    var now := db.slots[l.c];
    if IsRowStep(l) { RowNextOk(hist, l, now); }
    else if IsQueueStep(l) { QueueNextOk(hist, db.hosts, l, now); }
    else if IsJobStep(l) { JobNextOk(hist, db.hosts, l, now); }
    else { PlanNextOk(hist, l); }
  }

  lemma SlotStepIs(hist: seq<Db>, l: Label)
    requires hist != [] && WellFormed(Last(hist)) && IsSlotStep(l) && l.c < |Last(hist).slots|
    ensures var db := Last(hist); Apply(hist, l) == Put(db, l.c, SlotNext(hist, db.hosts, l, db.slots[l.c]))
  {
    hide SlotNext, IsSlotStep;
  }

  lemma ReserveStepIs(hist: seq<Db>, l: Label)
    requires hist != [] && WellFormed(Last(hist)) && l.ReserveStep? && Reservable(hist, l.c, l.rowAt, l.trAt)
    ensures Apply(hist, l) == Reserve(Last(hist), l.c, ReadRow(hist, l.rowAt, l.c).value,
                                      ReadTr(hist, l.trAt, l.c).value, l.entitled, l.at)
  {
    hide Reserve;
  }

  lemma SlotStepOk(hist: seq<Db>, l: Label, db: Db)
    requires hist != [] && db == Last(hist) && Inv(db) && IsSlotStep(l)
    requires l.c < |db.slots| ==>
      var next := SlotNext(hist, db.hosts, l, db.slots[l.c]);
      Kept(db.slots[l.c], next) && Quiet(db.slots[l.c], next)
    ensures var next := Apply(hist, l); Inv(next) && Later(db, next)
  {
    if l.c < |db.slots| {
      PutKeepsInv(db, l.c, SlotNext(hist, db.hosts, l, db.slots[l.c]));
    } else {
      InvLaterReflexive(db);
    }
  }

  lemma HostReportOk(db: Db, h: HostId, status: HostStatus, seenAt: Option<int>, failures: nat, reports: bool)
    requires Inv(db)
    ensures var next := HostReported(db, h, status, seenAt, failures, reports); Inv(next) && Later(db, next)
  {
    InvLaterReflexive(db);
  }

  lemma JobSucceedsOk(hist: seq<Db>, c: nat, k: nat, rowAt: nat, checkAt: nat, trAt: nat, at: int)
    requires Good(hist) && Observed(hist, c, k, rowAt, checkAt, trAt)
    ensures var next := Succeed(Last(hist), c, k, ReadRow(hist, rowAt, c).value, ReadTr(hist, checkAt, c),
                                ReadTr(hist, trAt, c), at);
      Inv(next) && Later(Last(hist), next)
  {
    var db := Last(hist);
    var now := db.slots[c];
    var pastRow, pastTr := ReadSlot(hist, rowAt, c).value, ReadSlot(hist, trAt, c).value;
    var checked := ReadTr(hist, checkAt, c);
    InvLaterReflexive(db);
    PastOf(hist, rowAt, c);
    PastOf(hist, trAt, c);
    if now.jobs[k].op.Destroy? {
      FinalizeDestroyOk(db, c, k, pastRow, pastTr);
    } else if now.jobs[k].op.Stop? && StoppingDowngrade(checked) {
      FinalizeDowngradeStopOk(now, k);
      PutKeepsInv(db, c, FinalizeDowngradeStop(now, k));
    } else if now.jobs[k].op.Resize? && IsResizing(checked) {
      if IsResizing(pastTr.tr) { FinalizePlanOk(db, c, k, pastRow, pastTr, at); }
    } else {
      SettleSucceededOk(now, k);
      PutKeepsInv(db, c, SettleSucceeded(now, k));
    }
  }

  lemma LedgerStepOk(hist: seq<Db>, l: Label)
    requires Good(hist) && !IsSlotStep(l)
    ensures var next := Apply(hist, l); Inv(next) && Later(Last(hist), next)
  {
    var db := Last(hist);
    InvLaterReflexive(db);
    match l
    case HostReport(h, status, seenAt, failures, reports) => HostReportOk(db, h, status, seenAt, failures, reports);
    case PlaceNewStep(user, tier, mode, h, port, at) =>
      if h < |db.hosts| { PlaceNewOk(db, user, tier, mode, h, port, at); }
    case JoinWaitlistStep(user, tier, mode) => JoinWaitlistOk(db, user, tier, mode);
    case PlaceWaitlistedStep(c, h, port, at, rowAt) =>
      if ReadRow(hist, rowAt, c).Some? && h < |db.hosts| {
        PastOf(hist, rowAt, c);
        PlaceWaitlistedOk(db, c, ReadSlot(hist, rowAt, c).value, h, port, at);
      }
    case JobSucceeds(c, k, rowAt, checkAt, trAt, at) =>
      if Observed(hist, c, k, rowAt, checkAt, trAt) { JobSucceedsOk(hist, c, k, rowAt, checkAt, trAt, at); }
    case ReserveStep(c, rowAt, trAt, entitled, at) =>
      if Reservable(hist, c, rowAt, trAt) {
        PastOf(hist, rowAt, c);
        PastOf(hist, trAt, c);
        ReserveOk(db, c, ReadSlot(hist, rowAt, c).value, ReadSlot(hist, trAt, c).value, entitled, at);
      }
  }

  lemma StepOk(hist: seq<Db>, l: Label)
    requires Good(hist)
    ensures var next := Apply(hist, l); Inv(next) && Later(Last(hist), next) && Good(hist + [next])
  {
    if IsSlotStep(l) {
      if l.c < |Last(hist).slots| { SlotNextOk(hist, l); }
      SlotStepOk(hist, l, Last(hist));
    } else {
      LedgerStepOk(hist, l);
    }
    var next := Apply(hist, l);
    forall i | 0 <= i < |hist| ensures Later(hist[i], next) {
      LaterTransitive(hist, i, next);
    }
  }

  lemma LaterTransitive(hist: seq<Db>, i: nat, next: Db)
    requires Good(hist) && i < |hist| && Inv(next) && Later(Last(hist), next)
    ensures Later(hist[i], next)
  {
    if i < |hist| - 1 {
      var a, b := hist[i], Last(hist);
      assert Later(a, b);
      forall c | 0 <= c < |a.slots| ensures SlotLater(a.slots[c], next.slots[c]) {
        SlotLaterTransitive(a.slots[c], b.slots[c], next.slots[c]);
      }
    }
  }
}
