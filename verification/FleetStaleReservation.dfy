// A run in which a reservation made from old reads starts an upgrade unpaid.
module FleetStaleReservation {
  import opened Wrappers
  import opened Plans
  import opened FleetState
  import opened FleetSteps
  import opened FleetLedger
  import opened FleetRun
  import opened FleetTheorems
  import opened FleetPromiseSteps
  import opened FleetPromises
  import opened FleetRaces

  // A cron pass reads a requested downgrade; another request completes it, and the
  // account, paying again, asks for the upgrade. The pass then reserves what the
  // downgrade needed, nothing, and finds a plan change that waits.
  function StaleReservation(port: int, at: int): seq<Label> {
    Bring(Paid, port, at) + [UserOp(0, Stop, 3)] + [JobSucceeds(0, 1, 4, 4, 4, at)] + [CreateStep(0, Free, 5)]
    + [ReserveStep(0, 6, 6, true, at)] + [QueueResize(0, 7, 7)] + [JobSucceeds(0, 2, 8, 8, 8, at)]
    + [DeleteSettledStep(0, 9)] + [CreateStep(0, Paid, 10)] + [ReserveStep(0, 6, 6, true, at)]
    + [QueueResize(0, 12, 12)] + [JobSucceeds(0, 3, 13, 13, 13, at)]
  }

  const STOPPED_BY_OWNER := PROVISIONED + [Job(Stop, JobSucceeded)]
  const DOWNGRADED := STOPPED_BY_OWNER + [Job(Resize, JobSucceeded)]

  // What changing a container that has the Paid disk to a tier adds to its host.
  function Shifted(charged: Res, to: Tier): Res {
    if to.Paid? then Res(charged.cpu + 1, charged.ram + 2560, charged.disk)
    else Res(charged.cpu - 1, charged.ram - 2560, charged.disk)
  }

  // One container on one host has the active resize of an unreserved plan change.
  predicate ResizeUnreserved(db: Db, k: nat, tier: Tier, jobs: seq<Job>) {
    && WellFormed(db) && |db.slots| == |db.hosts| == 1
    && Sits(db.slots[0], tier, UpgradePending, jobs, DiskGb(Paid))
    && k == |jobs| - 1 && jobs[k] == Job(Resize, JobQueued)
    && IsResizing(db.slots[0].tr) && IsNothing(db.slots[0].tr.value.reserved)
    && var tr := db.slots[0].tr.value;
       && tr.targetDiskGb == DiskGb(Paid) && tr.prior == Stopped && tr.to != tier
       && db.hosts[0].charged.Nonneg() && Shifted(db.hosts[0].charged, tr.to).Nonneg()
  }

  lemma AdjustedBy(read: Container, tr: Transition, charged: Res)
    requires read.tier != tr.to && read.ramMb == RamMb(read.tier) && read.diskGb == tr.targetDiskGb
    requires IsNothing(tr.reserved) && charged.Nonneg() && Shifted(charged, tr.to).Nonneg()
    ensures charged.Plus(Adjustment(read, tr)).AtLeastZero() ==
      Shifted(charged, tr.to)
  {
  }

  lemma FinalizeUnreserved(db: Db, k: nat, tier: Tier, jobs: seq<Job>, at: int)
    requires ResizeUnreserved(db, k, tier, jobs)
    ensures var host, tr := db.hosts[0], db.slots[0].tr.value;
      var next := FinalizePlan(db, 0, k, db.slots[0].row.value, tr, at);
      && WellFormed(next) && |next.slots| == 1
      && Sits(next.slots[0], tr.to, Stopped, jobs[k := Job(Resize, JobSucceeded)], DiskGb(Paid))
      && next.slots[0].tr == Some(tr.(state := Complete))
      && next.hosts == [host.(charged := Shifted(host.charged, tr.to))]
  {
    assert NewestLifecycle(jobs, k);
    AdjustedBy(db.slots[0].row.value, db.slots[0].tr.value, db.hosts[0].charged);
    hide Adjustment, Reserved, NewestLifecycle, Shifted;
  }

  // The poller of such a resize completes it.
  lemma FinishNow(hist: seq<Db>, k: nat, tier: Tier, jobs: seq<Job>, at: int)
    requires Now(hist, tier, UpgradePending, jobs, DiskGb(Paid)) && ResizeUnreserved(Last(hist), k, tier, jobs)
    ensures var readAt := |hist| - 1; var next := hist + [Apply(hist, JobSucceeds(0, k, readAt, readAt, readAt, at))];
      var host, to := Last(hist).hosts[0], Tr(hist).value.to;
      && Now(next, to, Stopped, jobs[k := Job(Resize, JobSucceeded)], DiskGb(Paid))
      && Tr(next) == Some(Tr(hist).value.(state := Complete))
      && Last(next).hosts ==
           [host.(charged := Shifted(host.charged, to))]
  {
    var readAt := |hist| - 1;
    assert ReadRow(hist, readAt, 0) == Last(hist).slots[0].row && ReadTr(hist, readAt, 0) == Tr(hist);
    FinishIsFinalize(hist, 0, k, readAt, readAt, readAt, at);
    FinalizeUnreserved(Last(hist), k, tier, jobs, at);
    hide Apply, FinalizePlan, ResizeUnreserved, Shifted;
  }

  // The downgrade is read, and then completed.
  lemma Downgrade(host: Host, port: int, at: int) returns (hist: seq<Db>, run: seq<Label>)
    requires host.charged.Nonneg() && Admits(host, 0, 7, Shared, TierFootprint(Paid), at)
    ensures run == Bring(Paid, port, at) + [UserOp(0, Stop, 3)] + [JobSucceeds(0, 1, 4, 4, 4, at)]
                   + [CreateStep(0, Free, 5)]
                   + [ReserveStep(0, 6, 6, true, at)] + [QueueResize(0, 7, 7)] + [JobSucceeds(0, 2, 8, 8, 8, at)]
    ensures IsRun(hist, run) && hist[0] == OneHost(host) && |hist| == 10
    ensures Now(hist, Free, Stopped, DOWNGRADED, DiskGb(Paid))
    ensures Tr(hist).Some? && Settled(Tr(hist).value) && ReadTr(hist, 9, 0) == Tr(hist)
    ensures ReadTr(hist, 6, 0) == Some(Transition(Paid, Free, 8, Stopped, FleetState.Requested, Res(0, 0, 0)))
    ensures ReadRow(hist, 6, 0).Some? && ReadRow(hist, 6, 0).value.host == Some(0)
            && ReadRow(hist, 6, 0).value.diskGb == DiskGb(Paid)
    ensures Last(hist).hosts == [host.(charged := Shifted(host.charged.Plus(TierFootprint(Paid)), Free))]
  {
    hist, run := DowngradeRead(host, port, at);
    ReserveNow(hist, 6, Paid, UpgradePending, STOPPED_BY_OWNER, at);
    ExtendRun(hist, run, ReserveStep(0, 6, 6, true, at));
    hist, run := hist + [Apply(hist, ReserveStep(0, 6, 6, true, at))], run + [ReserveStep(0, 6, 6, true, at)];
    var queued := QueueStep(hist, QueueResize(0, 7, 7), Paid, UpgradePending, STOPPED_BY_OWNER, Resize);
    ExtendRun(hist, run, QueueResize(0, 7, 7));
    hist, run := queued, run + [QueueResize(0, 7, 7)];
    var jobs := STOPPED_BY_OWNER + [Job(Resize, JobQueued)];
    FinishNow(hist, 2, Paid, jobs, at);
    assert jobs[2 := Job(Resize, JobSucceeded)] == DOWNGRADED;
    ExtendRun(hist, run, JobSucceeds(0, 2, 8, 8, 8, at));
    hist, run := hist + [Apply(hist, JobSucceeds(0, 2, 8, 8, 8, at))], run + [JobSucceeds(0, 2, 8, 8, 8, at)];
  }

  lemma DowngradeRead(host: Host, port: int, at: int) returns (hist: seq<Db>, run: seq<Label>)
    requires host.charged.Nonneg() && Admits(host, 0, 7, Shared, TierFootprint(Paid), at)
    ensures run == Bring(Paid, port, at) + [UserOp(0, Stop, 3)] + [JobSucceeds(0, 1, 4, 4, 4, at)]
                   + [CreateStep(0, Free, 5)]
    ensures IsRun(hist, run) && hist[0] == OneHost(host) && |hist| == 7
    ensures Now(hist, Paid, UpgradePending, STOPPED_BY_OWNER)
    ensures Tr(hist) == Some(Transition(Paid, Free, 8, Stopped, FleetState.Requested, Res(0, 0, 0)))
    ensures Last(hist).hosts == [host.(charged := host.charged.Plus(TierFootprint(Paid)))]
  {
    run := Bring(Paid, port, at);
    hist := BringsUp(host, Paid, port, at);
    var queued := QueueStep(hist, UserOp(0, Stop, 3), Paid, Running, PROVISIONED, Stop);
    ExtendRun(hist, run, UserOp(0, Stop, 3));
    hist, run := queued, run + [UserOp(0, Stop, 3)];
    var jobs := PROVISIONED + [Job(Stop, JobQueued)];
    SettleStep(hist, 1, 4, Paid, Running, jobs, at);
    assert jobs[1 := Job(Stop, JobSucceeded)] == STOPPED_BY_OWNER;
    ExtendRun(hist, run, JobSucceeds(0, 1, 4, 4, 4, at));
    hist, run := hist + [Apply(hist, JobSucceeds(0, 1, 4, 4, 4, at))], run + [JobSucceeds(0, 1, 4, 4, 4, at)];
    CreateNow(hist, Free, 5, Paid, STOPPED_BY_OWNER, Stopped);
    ExtendRun(hist, run, CreateStep(0, Free, 5));
    hist, run := hist + [Apply(hist, CreateStep(0, Free, 5))], run + [CreateStep(0, Free, 5)];
  }

  // The upgrade is requested, and started with the amounts of the downgrade.
  lemma UpgradeUnpaid(host: Host, port: int, at: int) returns (hist: seq<Db>, run: seq<Label>)
    requires host.charged.Nonneg() && Admits(host, 0, 7, Shared, TierFootprint(Paid), at)
    ensures run + [QueueResize(0, 12, 12)] + [JobSucceeds(0, 3, 13, 13, 13, at)] == StaleReservation(port, at)
    ensures IsRun(hist, run) && hist[0] == OneHost(host) && |hist| == 13
    ensures Now(hist, Free, UpgradePending, DOWNGRADED, DiskGb(Paid))
    ensures Tr(hist) == Some(Transition(Free, Paid, 8, Stopped, Resizing, Res(0, 0, 0)))
    ensures Last(hist).hosts == [host.(charged := Shifted(host.charged.Plus(TierFootprint(Paid)), Free))]
  {
    hist, run := Downgrade(host, port, at);
    ghost var downgraded := hist;
    DeleteNow(hist, 9, Free, Stopped, DOWNGRADED, DiskGb(Paid));
    ExtendRun(hist, run, DeleteSettledStep(0, 9));
    hist, run := hist + [Apply(hist, DeleteSettledStep(0, 9))], run + [DeleteSettledStep(0, 9)];
    CreateNow(hist, Paid, 10, Free, DOWNGRADED, Stopped, DiskGb(Paid));
    ExtendRun(hist, run, CreateStep(0, Paid, 10));
    hist, run := hist + [Apply(hist, CreateStep(0, Paid, 10))], run + [CreateStep(0, Paid, 10)];
    assert ReadSlot(hist, 6, 0) == ReadSlot(downgraded, 6, 0);
    ReserveNow(hist, 6, Free, UpgradePending, DOWNGRADED, at, DiskGb(Paid));
    ExtendRun(hist, run, ReserveStep(0, 6, 6, true, at));
    hist, run := hist + [Apply(hist, ReserveStep(0, 6, 6, true, at))], run + [ReserveStep(0, 6, 6, true, at)];
  }

  lemma NothingPaid(s: Slot)
    requires s.row.Some? && s.row.value.tier.Free?
    requires s.tr == Some(Transition(Free, Paid, 8, Stopped, Resizing, Res(0, 0, 0)))
    ensures !Holds(ResizingPaid, s)
  {
  }

  // The upgrade resizes with nothing reserved for it, and completing it adds a CPU and
  // its memory to the counters of a host nobody asked.
  lemma StaleReservationUpgradesUnpaid(host: Host, port: int, at: int)
    requires host.charged.Nonneg() && Admits(host, 0, 7, Shared, TierFootprint(Paid), at)
    ensures Inv(OneHost(host))
    ensures var states := Exec(OneHost(host), StaleReservation(port, at));
      && |states| == 15 && |states[13].slots| == 1 && |states[13].hosts| == 1 && |states[14].hosts| == 1
      && !Holds(ResizingPaid, states[13].slots[0]) && states[13].slots[0].tr.value.to.Paid?
      && ActiveAt(states[13].slots[0].jobs, 3) && states[13].slots[0].jobs[3].op.Resize?
      && states[14].hosts[0].charged == Shifted(states[13].hosts[0].charged, Paid)
  {
    hide Holds;
    OneHostInv(host);
    var hist, run := UpgradeUnpaid(host, port, at);
    var queued := QueueStep(hist, QueueResize(0, 12, 12), Free, UpgradePending, DOWNGRADED, Resize, DiskGb(Paid));
    ExtendRun(hist, run, QueueResize(0, 12, 12));
    hist, run := queued, run + [QueueResize(0, 12, 12)];
    var jobs := DOWNGRADED + [Job(Resize, JobQueued)];
    NothingPaid(Last(hist).slots[0]);
    FinishNow(hist, 3, Free, jobs, at);
    ExtendRun(hist, run, JobSucceeds(0, 3, 13, 13, 13, at));
    hist := hist + [Apply(hist, JobSucceeds(0, 3, 13, 13, 13, at))];
    RunIsExec(hist, StaleReservation(port, at));
  }
}
