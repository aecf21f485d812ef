// When each kind of step takes hold and what it then does, spelled out in the fields and
// numbers of the rows it meets.
module FleetEffects {
  import opened Wrappers
  import opened Plans
  import opened FleetState
  import opened FleetSteps
  import opened FleetLedger
  import opened FleetRun
  import opened FleetOwners

  // ------------------------------------------------------------------ a host

  function Residents(slots: seq<Slot>, h: HostId): set<nat> {
    set c | 0 <= c < |slots| && slots[c].row.Some? && slots[c].row.value.host == Some(h)
  }

  lemma {:induction false} TenantsAreResidents(slots: seq<Slot>, h: HostId)
    ensures Tenants(slots, h) == |Residents(slots, h)|
  {
    if slots == [] {
      assert Residents(slots, h) == {};
    } else {
      var n := |slots| - 1;
      TenantsAreResidents(slots[..n], h);
      TenantsSnoc(slots[..n], slots[n], h);
      ResidentsSnoc(slots[..n], slots[n], h);
      assert slots[..n] + [slots[n]] == slots;
      hide Tenants, Residents;
    }
  }

  lemma TenantsSnoc(slots: seq<Slot>, s: Slot, h: HostId)
    ensures Tenants(slots + [s], h) == Tenants(slots, h) + (if HostOf(s) == Some(h) then 1 else 0)
  {
    SumAppend(slots, s, h, One);
    hide Sum;
  }

  lemma ResidentsSnoc(slots: seq<Slot>, s: Slot, h: HostId)
    ensures |Residents(slots + [s], h)| == |Residents(slots, h)| + (if HostOf(s) == Some(h) then 1 else 0)
  {
    assert Residents(slots + [s], h) == Residents(slots, h) + (if HostOf(s) == Some(h) then {|slots|} else {});
  }

  // Heard from within fifteen minutes, and well.
  predicate IsAlive(h: Host, at: int) {
    && h.lastSeenAt.Some? && at - h.lastSeenAt.value <= 900000
    && h.consecutiveFailures == 0 && h.reporting
  }

  // Memory is sold at five quarters of what is not reserved for the host itself.
  predicate HasRoom(db: Db, h: HostId, need: Res)
    requires h < |db.hosts|
  {
    var host := db.hosts[h];
    && host.charged.cpu + need.cpu <= host.vcpuCapacity
    && 4 * (host.charged.ram + need.ram) <= 5 * (host.ramTotalMb - host.ramReserveMb)
    && host.charged.disk + need.disk <= host.diskTotalGb
    && |Residents(db.slots, h)| < host.maxTenants
  }

  predicate Takes(db: Db, h: HostId, user: UserId, mode: Tenancy, need: Res, at: int) {
    && h < |db.hosts| && db.hosts[h].status.Active? && IsAlive(db.hosts[h], at)
    && db.hosts[h].tenancy == mode && (mode.Dedicated? ==> db.hosts[h].dedicatedUser == Some(user))
    && HasRoom(db, h, need)
  }

  lemma ChargedNonneg(db: Db, h: HostId)
    requires Inv(db) && h < |db.hosts|
    ensures db.hosts[h].charged.Nonneg()
  {
    SumOrder(db.slots, h);
  }

  lemma AdmitsIff(db: Db, h: HostId, user: UserId, mode: Tenancy, need: Res, at: int)
    requires Inv(db) && h < |db.hosts| && need.ram > 0
    ensures Admits(db.hosts[h], Tenants(db.slots, h), user, mode, need, at) <==> Takes(db, h, user, mode, need, at)
  {
    TenantsAreResidents(db.slots, h);
    ChargedNonneg(db, h);
    hide Inv, Tenants, Residents;
  }

  // --------------------------------------------------------------- placement

  predicate HasNone(db: Db, user: UserId) {
    forall c | 0 <= c < |db.slots| :: db.slots[c].row.Some? ==> db.slots[c].row.value.user != user
  }

  predicate PortIsFree(db: Db, h: HostId, port: int) {
    forall c | 0 <= c < |db.slots| && db.slots[c].row.Some? ::
      db.slots[c].row.value.host == Some(h) ==> db.slots[c].row.value.sshPort != Some(port)
  }

  function Size(tier: Tier): Res { if tier.Free? then Res(1, 1536, 10) else Res(2, 4096, 16) }

  function Row(user: UserId, host: Option<HostId>, port: Option<int>, tier: Tier, mode: Tenancy,
               status: ContainerStatus): Container
  {
    Container(user, host, port, tier, mode, Size(tier).ram, Size(tier).disk / 2, status, None)
  }

  function Bare(row: Container): Slot { Slot(Some(row), None, [], Res(0, 0, 0), Res(0, 0, 0)) }

  function Charging(hosts: seq<Host>, h: HostId, more: Res): seq<Host>
    requires h < |hosts|
  {
    var c := hosts[h].charged;
    hosts[h := hosts[h].(charged := Res(c.cpu + more.cpu, c.ram + more.ram, c.disk + more.disk))]
  }

  // A new container is placed exactly if its account has none, the port is free and the
  // host takes it; the host is charged for its tier.
  lemma PlaceNewIs(hist: seq<Db>, user: UserId, tier: Tier, mode: Tenancy, h: HostId, port: int, at: int)
    requires hist != [] && Good(hist)
    ensures var db := Last(hist); var next := Apply(hist, PlaceNewStep(user, tier, mode, h, port, at));
      if HasNone(db, user) && PortIsFree(db, h, port) && Takes(db, h, user, mode, Size(tier), at) then
        && next.hosts == Charging(db.hosts, h, Size(tier)) && next.lost == db.lost
        && next.slots == db.slots + [Bare(Row(user, Some(h), Some(port), tier, mode, Provisioning))]
      else next == db
  {
    hide Good, Inv, Admits, Takes, Tenants;
    LastOk(hist);
    var db := Last(hist);
    if h < |db.hosts| { AdmitsIff(db, h, user, mode, Size(tier), at); }
    else { TakesKnown(db, h, user, mode, Size(tier), at); }
    HasNoneIff(db, user);
    PortIsFreeIff(db, h, port);
  }

  lemma TakesKnown(db: Db, h: HostId, user: UserId, mode: Tenancy, need: Res, at: int)
    ensures Takes(db, h, user, mode, need, at) ==> h < |db.hosts|
  {
  }

  lemma HasNoneIff(db: Db, user: UserId)
    ensures HasNone(db, user) <==> !HasContainer(db.slots, user)
  {
  }

  lemma PortIsFreeIff(db: Db, h: HostId, port: int)
    ensures PortIsFree(db, h, port) <==> !PortTaken(db.slots, h, port)
  {
  }

  lemma JoinIs(hist: seq<Db>, user: UserId, tier: Tier, mode: Tenancy)
    requires hist != [] && WellFormed(Last(hist))
    ensures var db := Last(hist); var next := Apply(hist, JoinWaitlistStep(user, tier, mode));
      if HasNone(db, user) then
        next == db.(slots := db.slots + [Bare(Row(user, None, None, tier, mode, Waitlisted))])
      else next == db
  {
    HasNoneIff(Last(hist), user);
    hide HasNone, HasContainer;
  }

  // A waiting container is placed exactly if it still waits, the port is free and the host
  // takes the row as it is; the host is charged for the row as it was read.
  lemma PlaceWaitlistedIs(hist: seq<Db>, c: nat, h: HostId, port: int, at: int, rowAt: nat)
    requires hist != [] && Good(hist)
    ensures var db := Last(hist); var next := Apply(hist, PlaceWaitlistedStep(c, h, port, at, rowAt));
      var read := ReadRow(hist, rowAt, c);
      if && read.Some? && c < |db.slots| && db.slots[c].row.Some?
         && var now := db.slots[c].row.value;
         && now.host.None? && now.status.Waitlisted? && PortIsFree(db, h, port)
         && Takes(db, h, now.user, now.mode, Size(now.tier), at)
      then
        && next.hosts == Charging(db.hosts, h, Size(read.value.tier)) && next.lost == db.lost
        && |next.slots| == |db.slots| && next.slots[c].jobs == db.slots[c].jobs && next.slots[c].tr == db.slots[c].tr
        && next.slots[c].row == Some(db.slots[c].row.value.(host := Some(h), sshPort := Some(port),
                                                           status := Provisioning))
        && (forall i | 0 <= i < |db.slots| && i != c :: next.slots[i] == db.slots[i])
      else next == db
  {
    hide Good, Inv, Admits, Takes, Tenants, SlotLater;
    LastOk(hist);
    var db, read := Last(hist), ReadRow(hist, rowAt, c);
    if read.Some? && c < |db.slots| && db.slots[c].row.Some? && db.slots[c].row.value.host.None? {
      var now := db.slots[c].row.value;
      WaitingSize(hist, c, rowAt);
      if h < |db.hosts| { AdmitsIff(db, h, now.user, now.mode, Size(now.tier), at); }
      else { TakesKnown(db, h, now.user, now.mode, Size(now.tier), at); }
    }
    PortIsFreeIff(db, h, port);
  }

  // A row that waits, and any earlier version of it, is of its tier's size.
  lemma WaitingSize(hist: seq<Db>, c: nat, rowAt: nat)
    requires Good(hist) && c < |Last(hist).slots| && ReadRow(hist, rowAt, c).Some?
    requires Last(hist).slots[c].row.Some? && Last(hist).slots[c].row.value.host.None?
    ensures Base(Last(hist).slots[c].row.value) == Size(Last(hist).slots[c].row.value.tier)
    ensures Base(ReadRow(hist, rowAt, c).value) == Size(ReadRow(hist, rowAt, c).value.tier)
  {
    PastOf(hist, rowAt, c);
    SlotOk(hist, c);
  }

  // -------------------------------------------------------- one container's row

  // Only container c's slot may have changed, to s.
  predicate Became(db: Db, next: Db, c: nat, s: Slot) {
    && c < |db.slots| == |next.slots| && next.slots[c] == s
    && next.hosts == db.hosts && next.lost == db.lost
    && forall i | 0 <= i < |db.slots| && i != c :: next.slots[i] == db.slots[i]
  }

  lemma SlotBecomes(hist: seq<Db>, l: Label)
    requires hist != [] && WellFormed(Last(hist)) && IsSlotStep(l) && l.c < |Last(hist).slots|
    ensures var db := Last(hist); Became(db, Apply(hist, l), l.c, SlotNext(hist, db.hosts, l, db.slots[l.c]))
  {
    SlotStepIs(hist, l);
    hide Apply, SlotNext;
  }

  predicate Waits(s: Slot) { s.row.Some? && s.row.value.host.None? && s.row.value.status.Waitlisted? }

  // Leaving the waitlist takes the row and its plan row away, if it still waits.
  lemma WithdrawIs(hist: seq<Db>, c: nat)
    requires hist != [] && WellFormed(Last(hist)) && c < |Last(hist).slots|
    ensures var now := Last(hist).slots[c];
      Became(Last(hist), Apply(hist, WithdrawStep(c)), c,
             if Waits(now) then Slot(None, None, now.jobs, now.dropped, now.overcharged) else now)
  {
    SlotBecomes(hist, WithdrawStep(c));
    hide Apply;
  }

  // The end of paid access makes a waiting Paid row a Free one.
  lemma ShrinkIs(hist: seq<Db>, c: nat)
    requires hist != [] && WellFormed(Last(hist)) && c < |Last(hist).slots|
    ensures var now := Last(hist).slots[c];
      Became(Last(hist), Apply(hist, ShrinkStep(c)), c,
             if Waits(now) && now.row.value.tier.Paid?
             then now.(row := Some(now.row.value.(tier := Free, mode := Shared, ramMb := 1536, diskGb := 5))) else now)
  {
    SlotBecomes(hist, ShrinkStep(c));
    hide Apply;
  }

  // A placed container whose first job could not be queued ends in error, unless one was.
  lemma ProvisionNotQueuedIs(hist: seq<Db>, c: nat)
    requires hist != [] && WellFormed(Last(hist)) && c < |Last(hist).slots|
    ensures var now := Last(hist).slots[c];
      Became(Last(hist), Apply(hist, ProvisionNotQueuedStep(c)), c,
             if now.row.Some? && now.row.value.status.Provisioning? && now.jobs == []
             then now.(row := Some(now.row.value.(status := Error))) else now)
  {
    SlotBecomes(hist, ProvisionNotQueuedStep(c));
    hide Apply;
  }

  // --------------------------------------------------------------- insertions

  predicate OfLifecycle(op: JobOp) {
    op.Provision? || op.Rebuild? || op.Start? || op.Stop? || op.Destroy? || op.Resize?
  }

  predicate UnderWay(job: Job) { OfLifecycle(job.op) && (job.status.JobQueued? || job.status.JobRunning?) }

  // The job the request's reads ask for.
  predicate Asks(hist: seq<Db>, l: Label, op: JobOp)
    requires IsQueueStep(l)
  {
    var read := ReadRow(hist, l.rowAt, l.c);
    && read.Some?
    && match l
       case QueueProvision(_, _) => op.Provision? && read.value.status.Provisioning?
       case UserOp(_, asked, _) => op == asked && Offered(op, read.value.status)
       case UserRetry(c, _, jobsAt) =>
         var s := ReadSlot(hist, jobsAt, c);
         read.value.status.Error? && s.Some? && op == RetryOp(s.value.jobs)
       case QueueResize(c, _, trAt) => op.Resize? && ReadTr(hist, trAt, c).Some?
       case QueueDowngradeStop(c, _, trAt) =>
         var tr := ReadTr(hist, trAt, c);
         op.Stop? && tr.Some? && tr.value.to.Free? && tr.value.prior.Running?
       case _ => false
  }

  lemma AsksIff(hist: seq<Db>, l: Label, op: JobOp)
    requires IsQueueStep(l)
    ensures Asks(hist, l, op) <==> QueuedOp(hist, l) == Some(op)
  {
  }

  lemma BusyIff(jobs: seq<Job>)
    ensures Busy(jobs) <==> exists k | 0 <= k < |jobs| :: UnderWay(jobs[k])
  {
  }

  // Status and host are as the request read them, the host is active and of the read
  // row's kind where the job carries a specification, and no lifecycle job is under way.
  predicate LetsIn(now: Slot, op: JobOp, read: Container, host: Host) {
    && now.row.Some? && now.row.value.status == read.status && now.row.value.host == read.host
    && host.status.Active?
    && (op.Provision? || op.Rebuild? || op.Resize? ==> read.mode == host.tenancy)
    && forall k | 0 <= k < |now.jobs| :: !UnderWay(now.jobs[k])
  }

  function WithJob(now: Slot, op: JobOp): Slot
    requires now.row.Some?
  {
    var status := if op.Provision? || op.Rebuild? then Provisioning
                  else if op.Destroy? then Destroying else now.row.value.status;
    now.(row := Some(now.row.value.(status := status)), jobs := now.jobs + [Job(op, JobQueued)])
  }

  lemma EnqueueIs(now: Slot, op: JobOp, read: Container, host: Host)
    ensures Enqueue(now, op, read, host) == if LetsIn(now, op, read, host) then WithJob(now, op) else now
  {
    BusyIff(now.jobs);
    hide Busy, UnderWay;
  }

  // A request's lifecycle job is inserted, and its pending status set, exactly if its reads
  // ask for it and the rows let it in.
  lemma QueueIs(hist: seq<Db>, l: Label, op: JobOp)
    requires hist != [] && Good(hist) && IsQueueStep(l) && l.c < |Last(hist).slots|
    requires Asks(hist, l, op) && OfLifecycle(op)
    ensures var db := Last(hist); var now, read := db.slots[l.c], ReadRow(hist, l.rowAt, l.c).value;
      Became(db, Apply(hist, l), l.c,
             if && read.host.Some? && read.host.value < |db.hosts|
                && LetsIn(now, op, read, db.hosts[read.host.value])
             then WithJob(now, op) else now)
  {
    hide Good, Apply, Enqueue, LetsIn, WithJob, QueuedOp, Asks;
    LastOk(hist);
    SlotBecomes(hist, l);
    AsksIff(hist, l, op);
    RowAsked(hist, l, op);
    var db := Last(hist);
    var now, read := db.slots[l.c], ReadRow(hist, l.rowAt, l.c).value;
    if read.host.Some? && read.host.value < |db.hosts| { EnqueueIs(now, op, read, db.hosts[read.host.value]); }
  }

  lemma RowAsked(hist: seq<Db>, l: Label, op: JobOp)
    requires IsQueueStep(l) && Asks(hist, l, op)
    ensures ReadRow(hist, l.rowAt, l.c).Some?
  {
  }

  lemma NothingQueued(hist: seq<Db>, l: Label)
    requires hist != [] && WellFormed(Last(hist)) && IsQueueStep(l) && l.c < |Last(hist).slots|
    requires forall op :: !Asks(hist, l, op)
    ensures Became(Last(hist), Apply(hist, l), l.c, Last(hist).slots[l.c])
  {
    SlotBecomes(hist, l);
    forall op ensures QueuedOp(hist, l) != Some(op) { AsksIff(hist, l, op); }
    hide Apply, QueuedOp, Asks;
  }

  // A background job is inserted exactly if the host is active; no lifecycle job is in its
  // way, and no status moves.
  lemma QueueBackgroundIs(hist: seq<Db>, c: nat, op: JobOp, h: HostId)
    requires hist != [] && WellFormed(Last(hist)) && c < |Last(hist).slots|
    ensures var db := Last(hist); var now := db.slots[c];
      Became(db, Apply(hist, QueueBackground(c, op, h)), c,
             if h < |db.hosts| && db.hosts[h].status.Active? && !OfLifecycle(op)
             then now.(jobs := now.jobs + [Job(op, JobQueued)]) else now)
  {
    SlotBecomes(hist, QueueBackground(c, op, h));
    hide Apply;
  }

  // ------------------------------------------------------------- jobs under way

  // A submission the daemon took advances a queued job only; a heartbeat any that has not
  // settled, to a status that has not.
  lemma DispatchIs(hist: seq<Db>, c: nat, k: nat)
    requires hist != [] && WellFormed(Last(hist)) && c < |Last(hist).slots|
    ensures var now := Last(hist).slots[c];
      Became(Last(hist), Apply(hist, DispatchedStep(c, k)), c,
             if k < |now.jobs| && now.jobs[k].status.JobQueued?
             then now.(jobs := now.jobs[k := Job(now.jobs[k].op, JobRunning)]) else now)
  {
    SlotBecomes(hist, DispatchedStep(c, k));
    hide Apply;
  }

  lemma HeartbeatIs(hist: seq<Db>, c: nat, k: nat, status: JobStatus)
    requires hist != [] && WellFormed(Last(hist)) && c < |Last(hist).slots|
    ensures var now := Last(hist).slots[c];
      Became(Last(hist), Apply(hist, Heartbeat(c, k, status)), c,
             if && k < |now.jobs| && (now.jobs[k].status.JobQueued? || now.jobs[k].status.JobRunning?)
                && (status.JobQueued? || status.JobRunning?)
             then now.(jobs := now.jobs[k := Job(now.jobs[k].op, status)]) else now)
  {
    SlotBecomes(hist, Heartbeat(c, k, status));
    hide Apply;
  }

  // -------------------------------------------------------------- plan changes

  predicate IsIdle(now: Slot) { forall k | 0 <= k < |now.jobs| :: !UnderWay(now.jobs[k]) }

  lemma IdleIff(now: Slot)
    ensures IsIdle(now) <==> !Busy(now.jobs)
  {
    BusyIff(now.jobs);
    hide UnderWay;
  }

  predicate HoldsNothing(tr: Transition) {
    tr.reserved.cpu == 0 && tr.reserved.ram == 0 && tr.reserved.disk == 0
  }

  predicate Unstarted(tr: Option<Transition>) {
    tr.Some? && (tr.value.state.Requested? || tr.value.state.WaitingCapacity?) && HoldsNothing(tr.value)
  }

  function InState(now: Slot, state: TransitionState): Slot
    requires now.tr.Some?
  {
    now.(tr := Some(now.tr.value.(state := state)))
  }

  function InStatus(now: Slot, status: ContainerStatus): Slot
    requires now.row.Some?
  {
    now.(row := Some(now.row.value.(status := status)))
  }

  // A plan row is created for a running or stopped container of another tier, as it was
  // read, if there is none and no job is under way; and the container waits for it if it
  // still has the status that was read.
  lemma CreateIs(hist: seq<Db>, c: nat, to: Tier, rowAt: nat)
    requires hist != [] && WellFormed(Last(hist)) && c < |Last(hist).slots|
    ensures var now, row := Last(hist).slots[c], ReadRow(hist, rowAt, c);
      Became(Last(hist), Apply(hist, CreateStep(c, to, rowAt)), c,
        if && row.Some? && row.value.tier != to && (row.value.status.Running? || row.value.status.Stopped?)
           && now.row.Some? && now.tr.None? && IsIdle(now)
        then
          var disk := if row.value.diskGb > Size(to).disk / 2 then row.value.diskGb else Size(to).disk / 2;
          var tr := Transition(row.value.tier, to, disk, row.value.status, Requested, Res(0, 0, 0));
          var created := now.(tr := Some(tr));
          if now.row.value.status == row.value.status then InStatus(created, UpgradePending) else created
        else now)
  {
    SlotBecomes(hist, CreateStep(c, to, rowAt));
    IdleIff(Last(hist).slots[c]);
    hide Apply, IsIdle, Busy;
  }

  // A deletion, its row read as settled, takes whatever plan row is there, and what that
  // holds is dropped unless it is complete.
  lemma DeleteIs(hist: seq<Db>, c: nat, trAt: nat)
    requires hist != [] && WellFormed(Last(hist)) && c < |Last(hist).slots|
    ensures var now, tr := Last(hist).slots[c], ReadTr(hist, trAt, c);
      Became(Last(hist), Apply(hist, DeleteSettledStep(c, trAt)), c,
        if tr.Some? && (tr.value.state.Complete? || tr.value.state.Cancelled?) then
          now.(tr := None,
               dropped := if now.tr.Some? && !now.tr.value.state.Complete?
                          then now.dropped.Plus(now.tr.value.reserved) else now.dropped)
        else now)
  {
    SlotBecomes(hist, DeleteSettledStep(c, trAt));
    hide Apply;
  }

  // A cancellation takes hold of a change that has neither started nor reserved, read and
  // met as such, and returns a waiting container to the status recorded in the one read.
  lemma CancelIs(hist: seq<Db>, c: nat, trAt: nat)
    requires hist != [] && WellFormed(Last(hist)) && c < |Last(hist).slots|
    ensures var now, tr := Last(hist).slots[c], ReadTr(hist, trAt, c);
      Became(Last(hist), Apply(hist, CancelStep(c, trAt)), c,
        if Unstarted(tr) && Unstarted(now.tr) && IsIdle(now) then
          var cancelled := InState(now, Cancelled);
          if now.row.Some? && now.row.value.status.UpgradePending? then InStatus(cancelled, tr.value.prior)
          else cancelled
        else now)
  {
    SlotBecomes(hist, CancelStep(c, trAt));
    IdleIff(Last(hist).slots[c]);
    hide Apply, IsIdle, Busy;
  }

  predicate MayGiveWay(tr: Option<Transition>) { Unstarted(tr) || (tr.Some? && tr.value.state.FailedRetryable?) }

  lemma CancelForDestroyIs(hist: seq<Db>, c: nat, trAt: nat)
    requires hist != [] && WellFormed(Last(hist)) && c < |Last(hist).slots|
    ensures var now := Last(hist).slots[c];
      Became(Last(hist), Apply(hist, CancelForDestroyStep(c, trAt)), c,
        if && MayGiveWay(ReadTr(hist, trAt, c)) && MayGiveWay(now.tr) && IsIdle(now)
           && now.row.Some? && now.row.value.status.UpgradePending?
        then InStatus(InState(now, Cancelled), Error) else now)
  {
    SlotBecomes(hist, CancelForDestroyStep(c, trAt));
    IdleIff(Last(hist).slots[c]);
    hide Apply, IsIdle, Busy;
  }

  predicate StillRuns(tr: Transition) { tr.to.Free? && tr.prior.Running? }

  // A retry of a failed change that holds a reservation, a deferral of a resize without
  // job, and the release of a claim.
  lemma RetryIs(hist: seq<Db>, c: nat, trAt: nat)
    requires hist != [] && WellFormed(Last(hist)) && c < |Last(hist).slots|
    ensures var now, tr := Last(hist).slots[c], ReadTr(hist, trAt, c);
      Became(Last(hist), Apply(hist, RetryResizeStep(c, trAt)), c,
        if && tr.Some? && tr.value.state.FailedRetryable? && !HoldsNothing(tr.value) && !StillRuns(tr.value)
           && now.tr.Some? && now.tr.value.state.FailedRetryable?
        then InState(now, Resizing) else now)
  {
    SlotBecomes(hist, RetryResizeStep(c, trAt));
    hide Apply;
  }

  lemma DeferIs(hist: seq<Db>, c: nat)
    requires hist != [] && WellFormed(Last(hist)) && c < |Last(hist).slots|
    ensures var now := Last(hist).slots[c];
      && Became(Last(hist), Apply(hist, DeferStep(c)), c,
           if now.tr.Some? && now.tr.value.state.Resizing? && IsIdle(now) then InState(now, FailedRetryable) else now)
      && Became(Last(hist), Apply(hist, ReserveFallbackStep(c)), c,
           if now.tr.Some? && now.tr.value.state.Reserving? then InState(now, WaitingCapacity) else now)
  {
    SlotBecomes(hist, DeferStep(c));
    SlotBecomes(hist, ReserveFallbackStep(c));
    IdleIff(Last(hist).slots[c]);
    hide Apply, IsIdle, Busy;
  }

  // ---------------------------------------------------------------- reservation

  // What the plan row asks for beyond what the container row has; never less than nothing.
  function More(read: Container, tr: Transition): Res {
    var up := tr.from.Free? && tr.to.Paid?;
    Res(if up then 1 else 0, if up then 2560 else 0,
        if tr.targetDiskGb > read.diskGb then 2 * (tr.targetDiskGb - read.diskGb) else 0)
  }

  lemma MoreIs(read: Container, tr: Transition)
    ensures RequestedAmount(read, tr) == More(read, tr)
  {
  }

  predicate LetsReserve(h: Host, disk: int, at: int) {
    && h.status.Active? && h.tenancy.Shared? && IsAlive(h, at)
    && h.charged.disk + disk <= h.diskTotalGb
  }

  // With a read container on a known host and a read plan row that is not resizing, not a
  // running workbench's downgrade, and holds nothing if it failed: the plan row as it is
  // is claimed if it waits, no job is under way and the account is entitled; and if the
  // host lets it, both rise by what the read rows ask for. CPU and RAM are not tested.
  lemma ReserveIs(hist: seq<Db>, c: nat, rowAt: nat, trAt: nat, entitled: bool, at: int)
    requires hist != [] && WellFormed(Last(hist)) && c < |Last(hist).slots|
    ensures var db := Last(hist); var next := Apply(hist, ReserveStep(c, rowAt, trAt, entitled, at));
      var now, read, tr := db.slots[c], ReadRow(hist, rowAt, c), ReadTr(hist, trAt, c);
      if && read.Some? && read.value.host.Some? && read.value.host.value < |db.hosts|
         && tr.Some? && !tr.value.state.Resizing? && !StillRuns(tr.value)
         && (tr.value.state.FailedRetryable? ==> HoldsNothing(tr.value))
         && now.tr.Some? && IsIdle(now) && entitled
         && (now.tr.value.state.Requested? || now.tr.value.state.WaitingCapacity?
             || now.tr.value.state.FailedRetryable?)
      then
        var h, more := read.value.host.value, More(read.value, tr.value);
        if LetsReserve(db.hosts[h], more.disk, at) then
          var ready := InState(now, Resizing);
          var held := now.tr.value.reserved.Plus(more);
          && next.hosts == Charging(db.hosts, h, more) && next.lost == db.lost
          && next.slots == db.slots[c := ready.(tr := Some(ready.tr.value.(reserved := held)))]
        else Became(db, next, c, InState(now, Reserving))
      else next == db
  {
    var db := Last(hist);
    var now, read, tr := db.slots[c], ReadRow(hist, rowAt, c), ReadTr(hist, trAt, c);
    IdleIff(now);
    var l := ReserveStep(c, rowAt, trAt, entitled, at);
    if Reservable(hist, c, rowAt, trAt) { ReserveStepIs(hist, l); }
    hide Apply, IsIdle, Busy, RequestedAmount, More;
    if read.Some? && tr.Some? { MoreIs(read.value, tr.value); }
  }

  // --------------------------------------------------------------------- drift

  // A host's report overrides the status of a running or stopped container exactly if
  // status and host are as they were read, no job is under way, and none of its lifecycle
  // was queued since.
  lemma DriftIs(hist: seq<Db>, c: nat, seen: Sighting, rowAt: nat)
    requires hist != [] && Good(hist) && c < |Last(hist).slots|
    ensures var now, read := Last(hist).slots[c], ReadSlot(hist, rowAt, c);
      Became(Last(hist), Apply(hist, DriftStep(c, seen, rowAt)), c,
        if && read.Some? && read.value.row.Some? && now.row.Some?
           && var was, row := read.value.row.value, now.row.value;
           && (was.status.Running? || was.status.Stopped?) && row.status == was.status && row.host == was.host
           && IsIdle(now) && forall k | |read.value.jobs| <= k < |now.jobs| :: !OfLifecycle(now.jobs[k].op)
        then InStatus(now, if seen.Missing? then Error else if seen.SeenRunning? then Running else Stopped)
        else now)
  {
    hide Good, Inv, Apply, IsIdle, Busy, SlotInv, SlotLater, LifecycleCount;
    LastOk(hist);
    SlotBecomes(hist, DriftStep(c, seen, rowAt));
    IdleIff(Last(hist).slots[c]);
    var read := ReadSlot(hist, rowAt, c);
    if read.Some? {
      PastOf(hist, rowAt, c);
      JobsAreLater(read.value, Last(hist).slots[c]);
      CountGrows(read.value.jobs, Last(hist).slots[c].jobs);
    }
  }

  lemma JobsAreLater(past: Slot, now: Slot)
    requires SlotLater(past, now)
    ensures JobsLater(past.jobs, now.jobs)
  {
  }
}
