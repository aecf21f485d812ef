// Every database batch as one atomic step. A step's row arguments (`read...`)
// are values the program selected earlier, so they may be out of date; `now` is
// the slot the batch meets.
module FleetSteps {
  import opened Wrappers
  import opened Plans
  import opened FleetState

  function Put(db: Db, c: nat, s: Slot): Db
    requires c < |db.slots|
  {
    db.(slots := db.slots[c := s])
  }

  // Replace slot c, and set host h's counter and what was lost there.
  function Move(db: Db, c: nat, s: Slot, h: HostId, charged: Res, lost: Res): Db
    requires c < |db.slots| && h < |db.hosts| == |db.lost|
  {
    Db(db.hosts[h := db.hosts[h].(charged := charged)],
       db.slots[c := s],
       db.lost[h := lost])
  }

  predicate WellFormed(db: Db) { |db.hosts| == |db.lost| }

  // --------------------------------------------------------------- placement

  function NewSlot(user: UserId, host: Option<HostId>, port: Option<int>, tier: Tier,
                   mode: Tenancy, status: ContainerStatus): Slot {
    Slot(Some(Container(user, host, port, tier, mode, RamMb(tier), DiskGb(tier), status, None)),
         None, [], ZERO, ZERO)
  }

  // A second row for the account violates its unique constraint and rolls the batch back.
  function PlaceNew(db: Db, user: UserId, tier: Tier, mode: Tenancy, h: HostId, port: int, at: int): Db
    requires WellFormed(db) && h < |db.hosts|
  {
    if || HasContainer(db.slots, user)
       || PortTaken(db.slots, h, port)
       || !Admits(db.hosts[h], Tenants(db.slots, h), user, mode, TierFootprint(tier), at)
    then db
    else
      Db(db.hosts[h := db.hosts[h].(charged := db.hosts[h].charged.Plus(TierFootprint(tier)))],
         db.slots + [NewSlot(user, Some(h), Some(port), tier, mode, Provisioning)],
         db.lost)
  }

  function JoinWaitlist(db: Db, user: UserId, tier: Tier, mode: Tenancy): Db {
    if HasContainer(db.slots, user) then db
    else db.(slots := db.slots + [NewSlot(user, None, None, tier, mode, Waitlisted)])
  }

  predicate StillWaiting(row: Option<Container>) {
    row.Some? && row.value.status.Waitlisted? && row.value.host.None?
  }

  function Withdraw(now: Slot): Slot {
    if StillWaiting(now.row) then now.(row := None, tr := None) else now
  }

  // Ended Paid access shrinks a waiting row to Free in place.
  function ShrinkWaitlisted(now: Slot): Slot {
    if StillWaiting(now.row) && now.row.value.tier.Paid? then
      now.(row := Some(now.row.value.(tier := Free, mode := Shared,
                                      ramMb := RamMb(Free), diskGb := DiskGb(Free))))
    else now
  }

  // The host predicate uses the row as it is; the charge uses the row as it was read.
  function PlaceWaitlisted(db: Db, c: nat, read: Container, h: HostId, port: int, at: int): Db
    requires WellFormed(db) && c < |db.slots| && h < |db.hosts|
  {
    var now := db.slots[c];
    if && StillWaiting(now.row)
       && !PortTaken(db.slots, h, port)
       && Admits(db.hosts[h], Tenants(db.slots, h), now.row.value.user, now.row.value.mode,
                 Base(now.row.value), at)
    then
      var placed := now.row.value.(host := Some(h), sshPort := Some(port), status := Provisioning);
      Move(db, c,
           now.(row := Some(placed), dropped := ZERO, overcharged := Base(read).Minus(Base(placed))),
           h, db.hosts[h].charged.Plus(Base(read)), db.lost[h])
    else db
  }

  // The request that placed the row could not queue its first job.
  function ProvisionNotQueued(now: Slot): Slot {
    if now.row.Some? && now.row.value.status.Provisioning? && now.jobs == [] then
      now.(row := Some(now.row.value.(status := Error)))
    else now
  }

  // -------------------------------------------------------------------- jobs

  predicate SpecBearing(op: JobOp) { op.Provision? || op.Rebuild? || op.Resize? }

  // The guards of a lifecycle job's insertion.
  predicate MayEnqueue(now: Slot, op: JobOp, read: Container, host: Host) {
    && (SpecBearing(op) ==> read.mode == host.tenancy)
    && now.row.Some?
    && now.row.value.status == read.status
    && now.row.value.host == read.host
    && host.status.Active?
    && !Busy(now.jobs)
  }

  // enqueueJob for a lifecycle operation: insertion and pending status in one batch.
  function Enqueue(now: Slot, op: JobOp, read: Container, host: Host): Slot {
    if MayEnqueue(now, op, read, host) then
      var pending := PendingStatusFor(op);
      var status := if pending.Some? then pending.value else now.row.value.status;
      now.(row := Some(now.row.value.(status := status)),
           jobs := now.jobs + [Job(op, JobQueued)])
    else now
  }

  function EnqueueBackground(now: Slot, op: JobOp, host: Host): Slot {
    if host.status.Active? && !IsLifecycle(op) then now.(jobs := now.jobs + [Job(op, JobQueued)])
    else now
  }

  // Settle or renew job k; every statement that does so first requires it active.
  function Mark(now: Slot, k: nat, status: JobStatus): Slot {
    if ActiveAt(now.jobs, k) then now.(jobs := now.jobs[k := now.jobs[k].(status := status)])
    else now
  }

  function Dispatched(now: Slot, k: nat): Slot {
    if k < |now.jobs| && now.jobs[k].status.JobQueued? then Mark(now, k, JobRunning) else now
  }

  function SetStatus(now: Slot, status: ContainerStatus): Slot {
    if now.row.Some? then now.(row := Some(now.row.value.(status := status))) else now
  }

  function SetState(now: Slot, state: TransitionState): Slot {
    if now.tr.Some? then now.(tr := Some(now.tr.value.(state := state))) else now
  }

  // failJob and timeoutStuckJobs: the transition read earlier selects the batch.
  function FailJob(now: Slot, k: nat, readTr: Option<Transition>): Slot {
    if !ActiveAt(now.jobs, k) then now
    else
      var failed := Mark(now, k, JobFailed);
      var op := now.jobs[k].op;
      if !IsLifecycle(op) then failed
      else if op.Resize? && IsResizing(readTr) then
        if IsResizing(now.tr) then SetStatus(SetState(failed, FailedRetryable), UpgradePending)
        else failed
      else if op.Stop? && StoppingDowngrade(readTr) then
        if now.tr.Some? && now.tr.value.to.Free? && Waiting(now.tr.value.state) then
          SetStatus(SetState(failed, FailedRetryable), UpgradePending)
        else failed
      else if NewestLifecycle(now.jobs, k) then SetStatus(failed, Error)
      else failed
  }

  // A success that belongs to no plan change: claim the job, then the status.
  function SettleSucceeded(now: Slot, k: nat): Slot {
    if !ActiveAt(now.jobs, k) then now
    else
      var done := Mark(now, k, JobSucceeded);
      var next := SuccessStatusFor(now.jobs[k].op);
      if next.Some? && NewestLifecycle(now.jobs, k) then SetStatus(done, next.value) else done
  }

  function FinalizeDowngradeStop(now: Slot, k: nat): Slot {
    if !(ActiveAt(now.jobs, k) && NewestLifecycle(now.jobs, k)) then now
    else
      var done := Mark(now, k, JobSucceeded);
      if StoppingDowngrade(now.tr) then
        SetStatus(done.(tr := Some(now.tr.value.(prior := Stopped))), UpgradePending)
      else done
  }

  // Target minus what the container had, minus what was reserved for it, as read.
  function Adjustment(read: Container, readTr: Transition): Res {
    Footprint(readTr.to, RamMb(readTr.to), readTr.targetDiskGb).Minus(Base(read)).Minus(readTr.reserved)
  }

  // The batch subtracts the reservation it read, whatever the row holds by now.
  function FinalizePlan(db: Db, c: nat, k: nat, read: Container, readTr: Transition, at: int): Db
    requires WellFormed(db) && c < |db.slots|
    requires read.host.Some? && read.host.value < |db.hosts|
  {
    var now := db.slots[c];
    var h := read.host.value;
    if !(ActiveAt(now.jobs, k) && NewestLifecycle(now.jobs, k)) then db
    else
      var done := Mark(now, k, JobSucceeded);
      var resized :=
        if now.row.None? then done
        else
          var status := if readTr.to.Free? then Stopped else readTr.prior;
          var upgraded := now.row.value.(tier := readTr.to, mode := Shared, ramMb := RamMb(readTr.to),
                                         diskGb := readTr.targetDiskGb, status := status,
                                         lastUpgradedAt := Some(at));
          var withRow := done.(row := Some(upgraded));
          if IsResizing(now.tr) then SetState(withRow, Complete) else withRow;
      var recovered := readTr.reserved.Minus(Reserved(now.tr)).Plus(Reserved(resized.tr));
      Move(db, c, resized.(dropped := resized.dropped.Minus(recovered)),
           h, db.hosts[h].charged.Plus(Adjustment(read, readTr)).AtLeastZero(), db.lost[h])
  }

  function FinalizeDestroy(db: Db, c: nat, k: nat, read: Container, readTr: Option<Transition>): Db
    requires WellFormed(db) && c < |db.slots|
    requires read.host.Some? && read.host.value < |db.hosts|
  {
    var now := db.slots[c];
    var h := read.host.value;
    var charge := Base(read).Plus(Reserved(readTr));
    if !(ActiveAt(now.jobs, k) && NewestLifecycle(now.jobs, k)) then db
    else if now.row.None? then Put(db, c, Mark(now, k, JobSucceeded))
    else
      Move(db, c, Slot(None, None, Mark(now, k, JobSucceeded).jobs, ZERO, ZERO),
           h, db.hosts[h].charged.Minus(charge).AtLeastZero(),
           db.lost[h].Plus(Held(now).Minus(charge)))
  }

  // refreshJob on a positive daemon reply.
  function Succeed(db: Db, c: nat, k: nat, read: Container, checked: Option<Transition>,
                   readTr: Option<Transition>, at: int): Db
    requires WellFormed(db) && c < |db.slots| && k < |db.slots[c].jobs|
    requires read.host.Some? && read.host.value < |db.hosts|
  {
    var now := db.slots[c];
    var op := now.jobs[k].op;
    if op.Destroy? then FinalizeDestroy(db, c, k, read, readTr)
    else if op.Stop? && StoppingDowngrade(checked) then Put(db, c, FinalizeDowngradeStop(now, k))
    else if op.Resize? && IsResizing(checked) then
      if IsResizing(readTr) then FinalizePlan(db, c, k, read, readTr.value, at) else db
    else Put(db, c, SettleSucceeded(now, k))
  }

  // ------------------------------------------------------------ plan changes

  function TargetDiskGb(read: Container, to: Tier): int { Max(read.diskGb, DiskGb(to)) }

  function CreateTransition(now: Slot, read: Container, to: Tier): Slot {
    if now.row.Some? && now.tr.None? && !Busy(now.jobs) then
      var created := now.(tr := Some(Transition(read.tier, to, TargetDiskGb(read, to), read.status,
                                                Requested, ZERO)));
      if now.row.value.status == read.status then SetStatus(created, UpgradePending) else created
    else now
  }

  // The DELETE names only the container: it removes whatever row is there now.
  function DeleteTransition(now: Slot): Slot {
    now.(tr := None, dropped := now.dropped.Plus(Reserved(now.tr)))
  }

  predicate Unreserved(tr: Transition) { tr.reserved == ZERO }

  predicate Cancellable(tr: Option<Transition>) {
    && tr.Some?
    && (tr.value.state.Requested? || tr.value.state.WaitingCapacity?)
    && Unreserved(tr.value)
  }

  function CancelUnreserved(now: Slot, prior: ContainerStatus): Slot {
    if Cancellable(now.tr) && !Busy(now.jobs) then
      var cancelled := SetState(now, Cancelled);
      if now.row.Some? && now.row.value.status.UpgradePending? then SetStatus(cancelled, prior)
      else cancelled
    else now
  }

  predicate CancellableForDestroy(tr: Option<Transition>) {
    tr.Some? && (tr.value.state.FailedRetryable? || Cancellable(tr))
  }

  function CancelForDestroy(now: Slot): Slot {
    if && CancellableForDestroy(now.tr)
       && now.row.Some? && now.row.value.status.UpgradePending?
       && !Busy(now.jobs)
    then SetStatus(SetState(now, Cancelled), Error)
    else now
  }

  // Positive deltas only; the home volume never shrinks.
  function RequestedAmount(read: Container, readTr: Transition): Res {
    Res(Max(0, CpuReservation(readTr.to) - CpuReservation(readTr.from)),
        Max(0, RamMb(readTr.to) - RamMb(readTr.from)),
        Max(0, DiskReservationGb(readTr.targetDiskGb) - DiskReservationGb(read.diskGb)))
  }

  predicate HostReserves(h: Host, diskGb: int, at: int) {
    && h.status.Active?
    && h.tenancy.Shared?
    && h.charged.disk + diskGb <= h.diskTotalGb
    && Healthy(h, at)
  }

  // No resize, stop or anything else under way for a plan change that waits.
  predicate Claimable(now: Slot) { now.tr.Some? && Waiting(now.tr.value.state) && !Busy(now.jobs) }

  function Reserve(db: Db, c: nat, read: Container, readTr: Transition, entitled: bool, at: int): Db
    requires WellFormed(db) && c < |db.slots|
    requires read.host.Some? && read.host.value < |db.hosts|
  {
    var now := db.slots[c];
    var h := read.host.value;
    var amount := RequestedAmount(read, readTr);
    if !(Claimable(now) && entitled) then db
    else if !HostReserves(db.hosts[h], amount.disk, at) then Put(db, c, SetState(now, Reserving))
    else
      var reserved := now.tr.value.(state := Resizing, reserved := now.tr.value.reserved.Plus(amount));
      Move(db, c, now.(tr := Some(reserved)), h, db.hosts[h].charged.Plus(amount), db.lost[h])
  }

  function ReserveFallback(now: Slot): Slot {
    if now.tr.Some? && now.tr.value.state.Reserving? then SetState(now, WaitingCapacity) else now
  }

  function RetryResize(now: Slot): Slot {
    if now.tr.Some? && now.tr.value.state.FailedRetryable? then SetState(now, Resizing) else now
  }

  function Defer(now: Slot): Slot {
    if IsResizing(now.tr) && !Busy(now.jobs) then SetState(now, FailedRetryable) else now
  }

  // ------------------------------------------------------------ reconciliation

  datatype Sighting = Missing | SeenRunning | SeenStopped

  function LifecycleCount(jobs: seq<Job>): nat {
    if jobs == [] then 0
    else LifecycleCount(jobs[..|jobs| - 1]) + (if IsLifecycle(jobs[|jobs| - 1].op) then 1 else 0)
  }

  function DriftStatus(seen: Sighting): ContainerStatus {
    match seen
    case Missing => Error
    case SeenRunning => Running
    case SeenStopped => Stopped
  }

  // Guarded by the read status and by an unchanged lifecycle version.
  function CorrectDrift(now: Slot, read: Slot, seen: Sighting): Slot {
    if && read.row.Some? && now.row.Some?
       && (read.row.value.status.Running? || read.row.value.status.Stopped?)
       && now.row.value.status == read.row.value.status
       && now.row.value.host == read.row.value.host
       && LifecycleCount(now.jobs) == LifecycleCount(read.jobs)
       && !Busy(now.jobs)
    then SetStatus(now, DriftStatus(seen))
    else now
  }
}
