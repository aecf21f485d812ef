// Runs in which acting on an old read breaks what safe runs keep.
module FleetRaces {
  import opened Wrappers
  import opened Plans
  import opened FleetState
  import opened FleetSteps
  import opened FleetLedger
  import opened FleetRun
  import opened FleetTheorems

  // A fleet of one host and no containers; what its counter starts with is lost.
  function OneHost(host: Host): Db { Db([host], [], [host.charged]) }

  lemma OneHostInv(host: Host)
    requires host.charged.Nonneg() && Capacity(host).Nonneg() && host.maxTenants > 0
    ensures Inv(OneHost(host))
  {
    NewFleetIsSound([host]);
    assert OneHost(host) == NewFleet([host]);
  }

  lemma ExecStep(init: Db, run: seq<Label>, n: nat)
    requires Inv(init) && n < |run|
    ensures Exec(init, run[..n + 1]) == Exec(init, run[..n]) + [Apply(Exec(init, run[..n]), run[n])]
    ensures Last(Exec(init, run[..n + 1])) == Apply(Exec(init, run[..n]), run[n])
  {
    assert run[..n + 1][..n] == run[..n];
  }

  // A step on the only slot of the fleet.
  lemma OnlySlotStep(hist: seq<Db>, l: Label)
    requires hist != [] && WellFormed(Last(hist)) && IsSlotStep(l) && l.c == 0 && |Last(hist).slots| == 1
    ensures var db := Last(hist); Apply(hist, l) == db.(slots := [SlotNext(hist, db.hosts, l, db.slots[0])])
  {
  }

  // ------------------------------------------- a placement charged for an old row

  // The cron pass reads a waiting Paid row, billing shrinks it to Free, and the
  // placement admits the Free row but charges the Paid one.
  function StalePlacement(port: int, at: int): seq<Label> {
    [JoinWaitlistStep(7, Paid, Shared), ShrinkStep(0), PlaceWaitlistedStep(0, 0, port, at, 1)]
  }

  // On every host whose free disk fits a Free container but not a Paid one, the
  // counter ends above the disk.
  lemma StalePlacementOvercommitsDisk(host: Host, port: int, at: int)
    requires host.charged.Nonneg() && Admits(host, 0, 7, Shared, TierFootprint(Free), at)
    requires host.diskTotalGb - host.charged.disk < TierFootprint(Paid).disk
    ensures Inv(OneHost(host))
    ensures var db := Last(Exec(OneHost(host), StalePlacement(port, at)));
      |db.hosts| == 1 && db.hosts[0].charged.disk > db.hosts[0].diskTotalGb == host.diskTotalGb
  {
    OneHostInv(host);
    var init, run := OneHost(host), StalePlacement(port, at);
    hide Inv, Apply, Admits;
    var before := ShrunkSinceRead(host, port, at);
    ExecStep(init, run, 2);
    assert run[..3] == run;
    StalePlacementStep(before, host, NewSlot(7, None, None, Paid, Shared, Waitlisted),
                       NewSlot(7, None, None, Free, Shared, Waitlisted), port, at);
  }

  lemma ShrunkSinceRead(host: Host, port: int, at: int) returns (before: seq<Db>)
    requires Inv(OneHost(host))
    ensures before == Exec(OneHost(host), StalePlacement(port, at)[..2]) && |before| == 3
    ensures before[1].slots == [NewSlot(7, None, None, Paid, Shared, Waitlisted)]
    ensures Last(before) == OneHost(host).(slots := [NewSlot(7, None, None, Free, Shared, Waitlisted)])
  {
    var init, run := OneHost(host), StalePlacement(port, at);
    ExecStep(init, run, 0);
    assert Last(Exec(init, run[..1])) == init.(slots := [NewSlot(7, None, None, Paid, Shared, Waitlisted)]);
    ExecStep(init, run, 1);
    OnlySlotStep(Exec(init, run[..1]), run[1]);
    before := Exec(init, run[..2]);
  }

  lemma StalePlacementStep(hist: seq<Db>, host: Host, paid: Slot, free: Slot, port: int, at: int)
    requires |hist| == 3 && hist[1].slots == [paid] && Last(hist) == Db([host], [free], [host.charged])
    requires paid == NewSlot(7, None, None, Paid, Shared, Waitlisted)
    requires free == NewSlot(7, None, None, Free, Shared, Waitlisted)
    requires Admits(host, 0, 7, Shared, TierFootprint(Free), at)
    ensures var db := Apply(hist, PlaceWaitlistedStep(0, 0, port, at, 1));
      |db.hosts| == 1 && db.hosts[0] == host.(charged := host.charged.Plus(TierFootprint(Paid)))
  {
    hide Admits, Tenants, PortTaken, TierFootprint;
    NobodyThere([free], 0, port);
    FootprintOfTier(paid.row.value);
    FootprintOfTier(free.row.value);
  }

  lemma FootprintOfTier(c: Container)
    requires c.ramMb == RamMb(c.tier) && c.diskGb == DiskGb(c.tier)
    ensures Base(c) == TierFootprint(c.tier)
  {
  }

  lemma NobodyThere(slots: seq<Slot>, h: HostId, port: int)
    requires |slots| == 1 && HostOf(slots[0]).None?
    ensures Tenants(slots, h) == 0 && !PortTaken(slots, h, port)
  {
    hide Total;
    TotalOfOne(Shares(slots, h, One));
  }

  lemma TotalOfOne(rs: seq<Res>)
    requires |rs| == 1
    ensures Total(rs) == rs[0]
  {
    assert Total(rs[..0]) == ZERO;
  }

  // ---------------------------------------------------- getting a container up

  // Only a container that was downgraded has a disk other than its tier's.
  predicate Sits(s: Slot, tier: Tier, status: ContainerStatus, jobs: seq<Job>, diskGb: int := DiskGb(tier)) {
    && s.row.Some? && s.row.value.host == Some(0) && s.row.value.tier == tier && s.row.value.mode == Shared
    && s.row.value.ramMb == RamMb(tier) && s.row.value.diskGb == diskGb && s.row.value.status == status
    && s.jobs == jobs
  }

  // One container on the one active host.
  predicate OnlySlot(hist: seq<Db>, i: nat, tier: Tier, status: ContainerStatus, jobs: seq<Job>,
                     diskGb: int := DiskGb(tier))
  {
    && i < |hist| && WellFormed(hist[i])
    && |hist[i].hosts| == 1 && hist[i].hosts[0].status.Active? && hist[i].hosts[0].tenancy.Shared?
    && |hist[i].slots| == 1 && Sits(hist[i].slots[0], tier, status, jobs, diskGb)
  }

  // hist is the run of these labels from its first state.
  predicate IsRun(hist: seq<Db>, run: seq<Label>) {
    && |hist| == |run| + 1
    && forall n | 0 <= n < |run| :: WellFormed(hist[n]) && hist[n + 1] == Apply(hist[..n + 1], run[n])
  }

  lemma PrefixIsRun(hist: seq<Db>, run: seq<Label>, n: nat)
    requires IsRun(hist, run) && n < |run|
    ensures IsRun(hist[..n + 1], run[..n])
  {
    forall m | 0 <= m < n ensures hist[..n + 1][m + 1] == Apply(hist[..n + 1][..m + 1], run[..n][m]) {
      assert hist[..n + 1][..m + 1] == hist[..m + 1];
    }
  }

  lemma {:induction false} RunIsExec(hist: seq<Db>, run: seq<Label>)
    requires IsRun(hist, run) && Inv(hist[0])
    ensures hist == Exec(hist[0], run)
  {
    if run != [] {
      var n := |run| - 1;
      PrefixIsRun(hist, run, n);
      RunIsExec(hist[..n + 1], run[..n]);
      ExecLast(hist[0], run, hist[..n + 1]);
      assert hist == hist[..n + 1] + [hist[n + 1]];
    }
  }

  lemma ExtendRun(hist: seq<Db>, run: seq<Label>, l: Label)
    requires IsRun(hist, run) && WellFormed(Last(hist))
    ensures IsRun(hist + [Apply(hist, l)], run + [l])
  {
    var next, longer := hist + [Apply(hist, l)], run + [l];
    forall n | 0 <= n < |longer| ensures WellFormed(next[n]) && next[n + 1] == Apply(next[..n + 1], longer[n]) {
      if n < |run| {
        assert next[..n + 1] == hist[..n + 1];
      } else {
        assert next[..n + 1] == hist;
      }
    }
  }

  const PROVISIONED := [Job(Provision, JobSucceeded)]

  predicate Now(hist: seq<Db>, tier: Tier, status: ContainerStatus, jobs: seq<Job>, diskGb: int := DiskGb(tier)) {
    hist != [] && OnlySlot(hist, |hist| - 1, tier, status, jobs, diskGb)
  }

  function Tr(hist: seq<Db>): Option<Transition>
    requires hist != [] && Last(hist).slots != []
  {
    Last(hist).slots[0].tr
  }

  // Placement, provisioning and its success leave a running container.
  function Bring(tier: Tier, port: int, at: int): seq<Label> {
    [PlaceNewStep(7, tier, Shared, 0, port, at)] + [QueueProvision(0, 1)] + [JobSucceeds(0, 0, 2, 2, 2, at)]
  }

  lemma BringsUp(host: Host, tier: Tier, port: int, at: int) returns (hist: seq<Db>)
    requires host.charged.Nonneg() && Admits(host, 0, 7, Shared, TierFootprint(tier), at)
    ensures IsRun(hist, Bring(tier, port, at)) && hist[0] == OneHost(host)
    ensures |hist| == 4 && Now(hist, tier, Running, PROVISIONED) && Tr(hist).None?
    ensures Last(hist).hosts == [host.(charged := host.charged.Plus(TierFootprint(tier)))]
  {
    hist := [OneHost(host)];
    PlaceFirst(hist, host, tier, port, at);
    var place, settle := PlaceNewStep(7, tier, Shared, 0, port, at), JobSucceeds(0, 0, 2, 2, 2, at);
    ExtendRun(hist, [], place);
    assert [] + [place] == [place];
    hist := hist + [Apply(hist, place)];
    var queued := QueueStep(hist, QueueProvision(0, 1), tier, Provisioning, [], Provision);
    ExtendRun(hist, [place], QueueProvision(0, 1));
    hist := queued;
    assert [] + [Job(Provision, JobQueued)] == [Job(Provision, JobQueued)];
    SettleStep(hist, 0, 2, tier, Provisioning, [Job(Provision, JobQueued)], at);
    ExtendRun(hist, [place] + [QueueProvision(0, 1)], settle);
    hist := hist + [Apply(hist, settle)];
  }

  lemma PlaceFirst(hist: seq<Db>, host: Host, tier: Tier, port: int, at: int)
    requires hist == [OneHost(host)] && Admits(host, 0, 7, Shared, TierFootprint(tier), at)
    ensures var next := hist + [Apply(hist, PlaceNewStep(7, tier, Shared, 0, port, at))];
      && Now(next, tier, Provisioning, []) && Tr(next).None?
      && Last(next).hosts == [host.(charged := host.charged.Plus(TierFootprint(tier)))]
  {
    assert Shares([], 0, One) == [];
  }

  // A queueing step whose reads are current inserts its job.
  lemma QueueStep(hist: seq<Db>, l: Label, tier: Tier, status: ContainerStatus, jobs: seq<Job>, op: JobOp,
                  diskGb: int := DiskGb(tier))
    returns (next: seq<Db>)
    requires Now(hist, tier, status, jobs, diskGb) && !Busy(jobs)
    requires IsQueueStep(l) && l.c == 0 && QueuedOp(hist, l) == Some(op) && IsLifecycle(op)
    requires ReadRow(hist, l.rowAt, 0) == Last(hist).slots[0].row
    ensures next == hist + [Apply(hist, l)]
    ensures var pending := PendingStatusFor(op);
      Now(next, tier, if pending.Some? then pending.value else status, jobs + [Job(op, JobQueued)], diskGb)
    ensures Tr(next) == Tr(hist) && Last(next).hosts == Last(hist).hosts
  {
    next := hist + [Apply(hist, l)];
    OnlySlotStep(hist, l);
  }

  // A poller that read slot 0 in state readAt settles its newest job, no plan
  // change involved as far as it saw.
  lemma SettleStep(hist: seq<Db>, k: nat, readAt: nat, tier: Tier, status: ContainerStatus, jobs: seq<Job>, at: int)
    requires Now(hist, tier, status, jobs) && k == |jobs| - 1
    requires readAt < |hist| && |hist[readAt].slots| == 1 && k < |hist[readAt].slots[0].jobs|
    requires hist[readAt].slots[0].row.Some? && hist[readAt].slots[0].row.value.host == Some(0)
    requires SuccessStatusFor(jobs[k].op).Some? && IsActive(jobs[k].status)
    requires !IsResizing(hist[readAt].slots[0].tr) && !StoppingDowngrade(hist[readAt].slots[0].tr)
    ensures var next := hist + [Apply(hist, JobSucceeds(0, k, readAt, readAt, readAt, at))];
      && Now(next, tier, SuccessStatusFor(jobs[k].op).value, jobs[k := jobs[k].(status := JobSucceeded)])
      && Tr(next) == Tr(hist) && Last(next).hosts == Last(hist).hosts
  {
    assert NewestLifecycle(jobs, k);
  }

  // ------------------------------------------ deletion of a plan row read before

  lemma CreateNow(hist: seq<Db>, to: Tier, rowAt: nat, tier: Tier, jobs: seq<Job>,
                  status: ContainerStatus := Running, diskGb: int := DiskGb(tier))
    requires Now(hist, tier, status, jobs, diskGb) && !Busy(jobs) && Tr(hist).None? && tier != to
    requires status.Running? || status.Stopped?
    requires ReadRow(hist, rowAt, 0) == Last(hist).slots[0].row
    ensures var next := hist + [Apply(hist, CreateStep(0, to, rowAt))];
      && Now(next, tier, UpgradePending, jobs, diskGb) && Cancellable(Tr(next)) && Last(next).hosts == Last(hist).hosts
      && Tr(next).value == Transition(tier, to, Max(diskGb, DiskGb(to)), status, FleetState.Requested, Res(0, 0, 0))
  {
    OnlySlotStep(hist, CreateStep(0, to, rowAt));
  }

  lemma CancelNow(hist: seq<Db>, trAt: nat, tier: Tier, jobs: seq<Job>)
    requires Now(hist, tier, UpgradePending, jobs) && !Busy(jobs) && Cancellable(Tr(hist))
    requires ReadTr(hist, trAt, 0) == Tr(hist)
    ensures var next := hist + [Apply(hist, CancelStep(0, trAt))];
      Now(next, tier, Tr(hist).value.prior, jobs) && Tr(next).Some? && Settled(Tr(next).value)
  {
    OnlySlotStep(hist, CancelStep(0, trAt));
  }

  lemma DeleteNow(hist: seq<Db>, trAt: nat, tier: Tier, status: ContainerStatus, jobs: seq<Job>,
                  diskGb: int := DiskGb(tier))
    requires Now(hist, tier, status, jobs, diskGb)
    requires ReadTr(hist, trAt, 0).Some? && Settled(ReadTr(hist, trAt, 0).value)
    ensures var next := hist + [Apply(hist, DeleteSettledStep(0, trAt))];
      Now(next, tier, status, jobs, diskGb) && Tr(next).None? && Last(next).hosts == Last(hist).hosts
  {
    OnlySlotStep(hist, DeleteSettledStep(0, trAt));
  }

  // A request reads the cancelled row; another deletes it and asks again; the
  // first deletes what is now a live plan change.
  function StaleDeletion(port: int, at: int): seq<Label> {
    Bring(Free, port, at) + [CreateStep(0, Paid, 3)] + [CancelStep(0, 4)] + [DeleteSettledStep(0, 5)]
    + [CreateStep(0, Paid, 6)] + [DeleteSettledStep(0, 5)]
  }

  lemma StaleDeletionRun(host: Host, port: int, at: int) returns (hist: seq<Db>)
    requires host.charged.Nonneg() && Admits(host, 0, 7, Shared, TierFootprint(Free), at)
    ensures IsRun(hist, StaleDeletion(port, at)) && hist[0] == OneHost(host)
    ensures Now(hist, Free, UpgradePending, PROVISIONED) && Tr(hist).None?
  {
    var run := Bring(Free, port, at);
    hist := BringsUp(host, Free, port, at);
    CreateNow(hist, Paid, 3, Free, PROVISIONED);
    ExtendRun(hist, run, CreateStep(0, Paid, 3));
    hist, run := hist + [Apply(hist, CreateStep(0, Paid, 3))], run + [CreateStep(0, Paid, 3)];
    CancelNow(hist, 4, Free, PROVISIONED);
    ExtendRun(hist, run, CancelStep(0, 4));
    hist, run := hist + [Apply(hist, CancelStep(0, 4))], run + [CancelStep(0, 4)];
    DeleteNow(hist, 5, Free, Running, PROVISIONED);
    ExtendRun(hist, run, DeleteSettledStep(0, 5));
    hist, run := hist + [Apply(hist, DeleteSettledStep(0, 5))], run + [DeleteSettledStep(0, 5)];
    CreateNow(hist, Paid, 6, Free, PROVISIONED);
    ExtendRun(hist, run, CreateStep(0, Paid, 6));
    hist, run := hist + [Apply(hist, CreateStep(0, Paid, 6))], run + [CreateStep(0, Paid, 6)];
    DeleteNow(hist, 5, Free, UpgradePending, PROVISIONED);
    ExtendRun(hist, run, DeleteSettledStep(0, 5));
    hist := hist + [Apply(hist, DeleteSettledStep(0, 5))];
  }

  // The container waits for a plan change that no longer exists.
  lemma StaleDeletionStrandsPending(host: Host, port: int, at: int)
    requires host.charged.Nonneg() && Admits(host, 0, 7, Shared, TierFootprint(Free), at)
    ensures Inv(OneHost(host))
    ensures var db := Last(Exec(OneHost(host), StaleDeletion(port, at)));
      |db.slots| == 1 && db.slots[0].row.Some? && db.slots[0].row.value.status.UpgradePending? && db.slots[0].tr.None?
  {
    OneHostInv(host);
    var hist := StaleDeletionRun(host, port, at);
    RunIsExec(hist, StaleDeletion(port, at));
  }

  // --------------------------------------------- a downgrade's stop queued twice

  // A request reads the plan row before its stop is recorded and queues a second
  // stop; that one settles as an ordinary stop, the owner starts the workbench,
  // and the downgrade resizes it while it runs.
  function StaleStop(port: int, at: int): seq<Label> {
    Bring(Paid, port, at) + [CreateStep(0, Free, 3)] + [QueueDowngradeStop(0, 4, 4)] + [JobSucceeds(0, 1, 5, 5, 5, at)]
    + [QueueDowngradeStop(0, 6, 4)] + [JobSucceeds(0, 2, 7, 7, 7, at)] + [UserOp(0, Start, 8)]
    + [JobSucceeds(0, 3, 9, 9, 9, at)] + [ReserveStep(0, 10, 10, true, at)] + [QueueResize(0, 11, 11)]
  }

  // The plan's own stop is recorded in the plan row.
  lemma StopRecorded(hist: seq<Db>, k: nat, readAt: nat, tier: Tier, jobs: seq<Job>, at: int)
    requires Now(hist, tier, UpgradePending, jobs) && k == |jobs| - 1 && readAt == |hist| - 1
    requires jobs[k] == Job(Stop, JobQueued) && StoppingDowngrade(Tr(hist))
    ensures var next := hist + [Apply(hist, JobSucceeds(0, k, readAt, readAt, readAt, at))];
      && Now(next, tier, UpgradePending, jobs[k := Job(Stop, JobSucceeded)])
      && Tr(next) == Some(Tr(hist).value.(prior := Stopped)) && Last(next).hosts == Last(hist).hosts
  {
    assert NewestLifecycle(jobs, k);
  }

  // A reservation whose reads are of a downgrade claims nothing on the host, and starts
  // whatever plan change waits by then.
  lemma ReserveNow(hist: seq<Db>, readAt: nat, tier: Tier, status: ContainerStatus, jobs: seq<Job>, at: int,
                   diskGb: int := DiskGb(tier))
    requires Now(hist, tier, status, jobs, diskGb) && !Busy(jobs) && Tr(hist).Some? && Waiting(Tr(hist).value.state)
    requires ReadRow(hist, readAt, 0).Some? && ReadRow(hist, readAt, 0).value.host == Some(0)
    requires ReadTr(hist, readAt, 0).Some? && MayReserve(ReadTr(hist, readAt, 0).value)
    requires var read, tr := ReadRow(hist, readAt, 0).value, ReadTr(hist, readAt, 0).value;
      tr.from.Paid? && tr.to.Free? && tr.targetDiskGb == read.diskGb
    requires HostReserves(Last(hist).hosts[0], 0, at)
    ensures var next := hist + [Apply(hist, ReserveStep(0, readAt, readAt, true, at))];
      && Now(next, tier, status, jobs, diskGb) && Last(next).hosts == Last(hist).hosts
      && Tr(next) == Some(Tr(hist).value.(state := Resizing))
  {
    var host := Last(hist).hosts[0];
    assert host.charged.Plus(Res(0, 0, 0)) == host.charged;
    var tr := Tr(hist).value;
    assert tr.reserved.Plus(Res(0, 0, 0)) == tr.reserved;
  }

  const STOPPED := PROVISIONED + [Job(Stop, JobSucceeded)]
  const STOPPED_TWICE := STOPPED + [Job(Stop, JobSucceeded)]
  const STARTED := STOPPED_TWICE + [Job(Start, JobSucceeded)]

  lemma StaleStopToStopped(host: Host, port: int, at: int) returns (hist: seq<Db>, run: seq<Label>)
    requires host.charged.Nonneg() && Admits(host, 0, 7, Shared, TierFootprint(Paid), at)
    ensures run == Bring(Paid, port, at) + [CreateStep(0, Free, 3)] + [QueueDowngradeStop(0, 4, 4)]
                   + [JobSucceeds(0, 1, 5, 5, 5, at)]
    ensures IsRun(hist, run) && hist[0] == OneHost(host) && |hist| == 7
    ensures Now(hist, Paid, UpgradePending, STOPPED)
    ensures Tr(hist) == Some(Transition(Paid, Free, 8, Stopped, FleetState.Requested, Res(0, 0, 0)))
    ensures ReadTr(hist, 4, 0) == Some(Transition(Paid, Free, 8, Running, FleetState.Requested, Res(0, 0, 0)))
    ensures Last(hist).hosts == [host.(charged := host.charged.Plus(TierFootprint(Paid)))]
  {
    run := Bring(Paid, port, at);
    hist := BringsUp(host, Paid, port, at);
    CreateNow(hist, Free, 3, Paid, PROVISIONED);
    ExtendRun(hist, run, CreateStep(0, Free, 3));
    hist, run := hist + [Apply(hist, CreateStep(0, Free, 3))], run + [CreateStep(0, Free, 3)];
    var queued := QueueStep(hist, QueueDowngradeStop(0, 4, 4), Paid, UpgradePending, PROVISIONED, Stop);
    ExtendRun(hist, run, QueueDowngradeStop(0, 4, 4));
    hist, run := queued, run + [QueueDowngradeStop(0, 4, 4)];
    var jobs := PROVISIONED + [Job(Stop, JobQueued)];
    StopRecorded(hist, 1, 5, Paid, jobs, at);
    assert jobs[1 := Job(Stop, JobSucceeded)] == STOPPED;
    ExtendRun(hist, run, JobSucceeds(0, 1, 5, 5, 5, at));
    hist, run := hist + [Apply(hist, JobSucceeds(0, 1, 5, 5, 5, at))], run + [JobSucceeds(0, 1, 5, 5, 5, at)];
  }

  lemma StaleStopToRunning(host: Host, port: int, at: int) returns (hist: seq<Db>, run: seq<Label>)
    requires host.charged.Nonneg() && Admits(host, 0, 7, Shared, TierFootprint(Paid), at)
    ensures run == Bring(Paid, port, at) + [CreateStep(0, Free, 3)] + [QueueDowngradeStop(0, 4, 4)]
                   + [JobSucceeds(0, 1, 5, 5, 5, at)] + [QueueDowngradeStop(0, 6, 4)]
                   + [JobSucceeds(0, 2, 7, 7, 7, at)] + [UserOp(0, Start, 8)] + [JobSucceeds(0, 3, 9, 9, 9, at)]
    ensures IsRun(hist, run) && hist[0] == OneHost(host) && |hist| == 11
    ensures Now(hist, Paid, Running, STARTED)
    ensures Tr(hist) == Some(Transition(Paid, Free, 8, Stopped, FleetState.Requested, Res(0, 0, 0)))
    ensures Last(hist).hosts == [host.(charged := host.charged.Plus(TierFootprint(Paid)))]
  {
    hist, run := StaleStopToStopped(host, port, at);
    var queued := QueueStep(hist, QueueDowngradeStop(0, 6, 4), Paid, UpgradePending, STOPPED, Stop);
    ExtendRun(hist, run, QueueDowngradeStop(0, 6, 4));
    hist, run := queued, run + [QueueDowngradeStop(0, 6, 4)];
    var jobs := STOPPED + [Job(Stop, JobQueued)];
    SettleStep(hist, 2, 7, Paid, UpgradePending, jobs, at);
    assert jobs[2 := Job(Stop, JobSucceeded)] == STOPPED_TWICE;
    ExtendRun(hist, run, JobSucceeds(0, 2, 7, 7, 7, at));
    hist, run := hist + [Apply(hist, JobSucceeds(0, 2, 7, 7, 7, at))], run + [JobSucceeds(0, 2, 7, 7, 7, at)];
    queued := QueueStep(hist, UserOp(0, Start, 8), Paid, Stopped, STOPPED_TWICE, Start);
    ExtendRun(hist, run, UserOp(0, Start, 8));
    hist, run := queued, run + [UserOp(0, Start, 8)];
    jobs := STOPPED_TWICE + [Job(Start, JobQueued)];
    SettleStep(hist, 3, 9, Paid, Stopped, jobs, at);
    assert jobs[3 := Job(Start, JobSucceeded)] == STARTED;
    ExtendRun(hist, run, JobSucceeds(0, 3, 9, 9, 9, at));
    hist, run := hist + [Apply(hist, JobSucceeds(0, 3, 9, 9, 9, at))], run + [JobSucceeds(0, 3, 9, 9, 9, at)];
  }

  // The downgrade's resize is queued while the workbench runs.
  lemma StaleStopResizesRunning(host: Host, port: int, at: int)
    requires host.charged.Nonneg() && Admits(host, 0, 7, Shared, TierFootprint(Paid), at)
    ensures Inv(OneHost(host))
    ensures var db := Last(Exec(OneHost(host), StaleStop(port, at)));
      && |db.slots| == 1 && db.slots[0].row.Some? && db.slots[0].row.value.status.Running?
      && IsResizing(db.slots[0].tr) && db.slots[0].tr.value.to.Free?
      && ActiveAt(db.slots[0].jobs, 4) && db.slots[0].jobs[4].op.Resize?
  {
    OneHostInv(host);
    var hist, run := StaleStopToRunning(host, port, at);
    ReserveNow(hist, 10, Paid, Running, STARTED, at);
    ExtendRun(hist, run, ReserveStep(0, 10, 10, true, at));
    hist, run := hist + [Apply(hist, ReserveStep(0, 10, 10, true, at))], run + [ReserveStep(0, 10, 10, true, at)];
    var queued := QueueStep(hist, QueueResize(0, 11, 11), Paid, Running, STARTED, Resize);
    ExtendRun(hist, run, QueueResize(0, 11, 11));
    RunIsExec(queued, StaleStop(port, at));
  }
}
