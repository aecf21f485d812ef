// What plan changes promise: what an unsafe step breaks, what each promise means in any
// run, and when a finished resize charges its host.
module FleetPromises {
  import opened Plans
  import opened FleetState
  import opened FleetSteps
  import opened FleetLedger
  import opened FleetSlotProofs
  import opened FleetAccounting
  import opened FleetRun
  import opened FleetTheorems
  import opened FleetPlans
  import opened FleetPlanRuns
  import opened FleetPromiseSteps

  // ------------------------------------------------- what an unsafe step breaks

  predicate StartsUnfit(s: Slot)
    requires s.row.Some? && s.tr.Some?
  {
    if s.tr.value.to.Free? then (s.tr.value.state.Reserving? || s.tr.value.state.Resizing?) && s.tr.value.prior.Running?
    else s.tr.value.state.Resizing? && !PaidFor(s)
  }

  predicate QueuedLast(s: Slot, op: JobOp) { s.jobs != [] && s.jobs[|s.jobs| - 1] == Job(op, JobQueued) }

  // What is wrong with the container after the unsafe step.
  predicate Broken(l: Label, s: Slot) {
    && s.row.Some?
    && match l
       case CreateStep(_, _, _) =>
         Live(s.tr) && (!s.row.value.status.UpgradePending? || s.tr.value.from != s.row.value.tier)
       case DeleteSettledStep(_, _) => s.row.value.status.UpgradePending? && s.tr.None?
       case RetryResizeStep(_, _) => s.tr.Some? && StartsUnfit(s)
       case ReserveStep(_, _, _, _, _) => s.tr.Some? && StartsUnfit(s)
       case QueueResize(_, _, _) => Live(s.tr) && !IsResizing(s.tr) && QueuedLast(s, Resize)
       case QueueDowngradeStop(_, _, _) => Live(s.tr) && !StoppingDowngrade(s.tr) && QueuedLast(s, Stop)
       case _ => false
  }

  // An unsafe step leaves a plan its container does not wait for or whose tier it
  // does not have; a container waiting for no plan; a downgrade of a running
  // workbench or an unpaid upgrade under way; or a job that is not the plan's.
  lemma UnsafeStepBreaks(hist: seq<Db>, l: Label)
    requires GoodPlan(hist) && !Safe(hist, l)
    ensures (IsSlotStep(l) || l.ReserveStep?) && l.c < |Apply(hist, l).slots| && Broken(l, Apply(hist, l).slots[l.c])
  {
    var db := Last(hist);
    var now := db.slots[l.c];
    assert PlanInv(now) && SlotInv(now) && WellFormed(db);
    if l.ReserveStep? {
      UnsafeReserveBreaks(hist, l, now);
    } else if IsQueueStep(l) {
      UnsafeQueueBreaks(hist, l, now);
    } else {
      UnsafePlanStepBreaks(hist, l, now);
    }
  }

  lemma UnsafeReserveBreaks(hist: seq<Db>, l: Label, now: Slot)
    requires hist != [] && WellFormed(Last(hist)) && l.ReserveStep? && !Safe(hist, l) && now == Last(hist).slots[l.c]
    requires PlanInv(now) && SlotInv(now)
    ensures l.c < |Apply(hist, l).slots| && Broken(l, Apply(hist, l).slots[l.c])
  {
    var read, readTr := ReadRow(hist, l.rowAt, l.c).value, ReadTr(hist, l.trAt, l.c).value;
    SafeReserveIff(hist, l);
    ReserveIsSlot(Last(hist), l.c, read, readTr, l.entitled, l.at);
  }

  lemma UnsafeQueueBreaks(hist: seq<Db>, l: Label, now: Slot)
    requires hist != [] && WellFormed(Last(hist)) && IsQueueStep(l) && !Safe(hist, l) && now == Last(hist).slots[l.c]
    requires PlanInv(now) && SlotInv(now)
    ensures l.c < |Apply(hist, l).slots| && Broken(l, Apply(hist, l).slots[l.c])
  {
    SafeQueueIff(hist, l);
  }

  lemma UnsafePlanStepBreaks(hist: seq<Db>, l: Label, now: Slot)
    requires hist != [] && WellFormed(Last(hist)) && IsSlotStep(l) && !IsQueueStep(l) && !Safe(hist, l)
    requires now == Last(hist).slots[l.c] && PlanInv(now) && SlotInv(now)
    ensures l.c < |Apply(hist, l).slots| && Broken(l, Apply(hist, l).slots[l.c])
  {
  }

  // ------------------------------------------------------ reserve, then apply

  // An upgrade starts with nothing reserved for it: retried after no reservation, or
  // reserved for amounts that old reads of a downgrade asked for.
  predicate StartsUnpaid(hist: seq<Db>, l: Label)
    requires hist != []
  {
    (l.RetryResizeStep? || l.ReserveStep?) && !Safe(hist, l) && Last(hist).slots[l.c].tr.value.to.Paid?
  }

  lemma PlanShortIff(tr: Transition, c: Container)
    requires LivePlanInv(tr, c) && RowInv(c) && tr.reserved.Nonneg() && !tr.state.Resizing?
    ensures CoversCpuRam(tr.reserved.Plus(ZERO), tr.to, c.tier) <==> (tr.to.Paid? ==> !Unreserved(tr))
  {
  }

  lemma RetryShortIff(now: Slot)
    requires SlotInv(now) && PlanInv(now) && now.tr.Some? && now.tr.value.state.FailedRetryable?
    ensures Short(now, ZERO) <==> !RetryFits(now) && now.tr.value.to.Paid?
  {
    hide CoversCpuRam, LivePlanInv, PlanJobs, OneActive, ActiveDestroy, RowInv, Unreserved;
    PlanShortIff(now.tr.value, now.row.value);
  }

  lemma ReserveShortIff(now: Slot, host: Host, read: Container, readTr: Transition, at: int)
    requires SlotInv(now) && PlanInv(now) && Claimable(now)
    ensures ChargesShort(now, host, read, readTr, at) <==>
      !ReserveFits(now, host, read, readTr, true, at) && now.tr.value.to.Paid?
  {
    hide HostReserves;
  }

  lemma StartsShortIff(hist: seq<Db>, l: Label, now: Slot)
    requires hist != [] && (l.RetryResizeStep? || l.ReserveStep?)
    requires l.c < |Last(hist).slots| && now == Last(hist).slots[l.c] && SlotInv(now) && PlanInv(now)
    ensures Breaks(ResizingPaid, hist, l) <==> StartsUnpaid(hist, l)
  {
    hide SlotInv, PlanInv, Short, ChargesShort, RetryFits, ReserveFits;
    if l.RetryResizeStep? {
      if now.tr.Some? && now.tr.value.state.FailedRetryable? { RetryShortIff(now); }
      else { NothingToRetry(now); }
    } else if Reservable(hist, l.c, l.rowAt, l.trAt) {
      var read, readTr := ReadRow(hist, l.rowAt, l.c).value, ReadTr(hist, l.trAt, l.c).value;
      var host := Last(hist).hosts[read.host.value];
      SafeReserveIff(hist, l);
      if Claimable(now) && l.entitled { ReserveShortIff(now, host, read, readTr, l.at); }
      else { NothingToClaim(now, host, read, readTr, l.entitled, l.at); }
    }
  }

  lemma NothingToRetry(now: Slot)
    requires !(now.tr.Some? && now.tr.value.state.FailedRetryable?)
    ensures RetryFits(now)
  {
  }

  lemma NothingToClaim(now: Slot, host: Host, read: Container, readTr: Transition, entitled: bool, at: int)
    requires !(Claimable(now) && entitled)
    ensures ReserveFits(now, host, read, readTr, entitled, at)
  {
  }

  // A step leaves every resizing plan change paid for by base and reservation exactly
  // when it starts no upgrade with nothing reserved for it.
  lemma StepPaysIff(hist: seq<Db>, l: Label)
    requires GoodPlan(hist)
    ensures HoldsAll(ResizingPaid, Apply(hist, l)) <==> !StartsUnpaid(hist, l)
  {
    forall c | 0 <= c < |Last(hist).slots| ensures Holds(ResizingPaid, Last(hist).slots[c]) {
      assert SlotInv(Last(hist).slots[c]) && PlanInv(Last(hist).slots[c]);
      ExplainedHolds(ResizingPaid, Last(hist).slots[c]);
    }
    StepKeepsPromiseIff(ResizingPaid, hist, l);
    if (l.RetryResizeStep? || l.ReserveStep?) && l.c < |Last(hist).slots| {
      StartsShortIff(hist, l, Last(hist).slots[l.c]);
    }
  }

  // A resizing plan change is paid for unless a reservation or retry started one short.
  lemma ResizingIsPaidFor(init: Db, run: seq<Label>, i: nat, c: nat)
    requires Inv(init) && i <= |run| && c < |Exec(init, run)[i].slots|
    requires IsResizing(Exec(init, run)[i].slots[c].tr)
    ensures var s := Exec(init, run)[i].slots[c];
      Unbroken(ResizingPaid, init, run) ==> s.row.Some? && PaidFor(s)
  {
    HoldsIn(ResizingPaid, init, run, i, c);
  }

  // ------------------------------------------------------------ in every run

  lemma ExplainedHolds(p: Promise, s: Slot)
    requires SlotInv(s) && PlanInv(s)
    ensures Holds(p, s)
  {
    if s.row.None? { IdlePlanJobs(s); }
  }

  // Safe steps break no promise.
  lemma SafeRunsBreakNothing(p: Promise, init: Db, run: seq<Label>)
    requires Inv(init) && AllPlans(init) && SafeRun(init, run)
    ensures Unbroken(p, init, run)
  {
    SafeRunsAreGood(init, run);
    var hist := Exec(init, run);
    forall i | 0 <= i <= |run| ensures HoldsAt(p, init, run, i) {
      forall c | 0 <= c < |hist[i].slots| ensures Holds(p, hist[i].slots[c]) {
        assert SlotInv(hist[i].slots[c]) && PlanInv(hist[i].slots[c]);
        ExplainedHolds(p, hist[i].slots[c]);
      }
    }
    RunKeepsPromiseIff(p, init, run);
  }

  // `upgrade_pending` has a live plan change behind it unless a deletion met it, and a
  // live plan change holds its container there unless a step that took it for settled
  // said otherwise.
  lemma PendingHasLivePlan(init: Db, run: seq<Label>, i: nat, c: nat)
    requires Inv(init) && i <= |run|
    requires c < |Exec(init, run)[i].slots| && Exec(init, run)[i].slots[c].row.Some?
    ensures var s := Exec(init, run)[i].slots[c];
      && (Unbroken(PendingHasPlan, init, run) && s.row.value.status.UpgradePending? ==> Live(s.tr))
      && (Unbroken(PlanIsPending, init, run) && Live(s.tr) ==> s.row.value.status.UpgradePending?)
  {
    HoldsIn(PendingHasPlan, init, run, i, c);
    HoldsIn(PlanIsPending, init, run, i, c);
    hide Unbroken, Exec;
  }

  lemma HoldsIn(p: Promise, init: Db, run: seq<Label>, i: nat, c: nat)
    requires Inv(init) && i <= |run| && c < |Exec(init, run)[i].slots|
    ensures Unbroken(p, init, run) ==> Holds(p, Exec(init, run)[i].slots[c])
  {
    RunKeepsPromiseIff(p, init, run);
    assert Unbroken(p, init, run) ==> HoldsAt(p, init, run, i);
  }

  // A downgrade claims and resizes only a stopped workbench unless a claim or retry met
  // one that was not, and no other job than its own stop or resize is active while it
  // is live unless a job crossed it.
  lemma DowngradeMeetsStopped(init: Db, run: seq<Label>, i: nat, c: nat)
    requires Inv(init) && i <= |run| && c < |Exec(init, run)[i].slots|
    requires var s := Exec(init, run)[i].slots[c]; Live(s.tr) && s.tr.value.to.Free?
    ensures var s := Exec(init, run)[i].slots[c];
      && (Unbroken(DowngradeStopped, init, run) && (s.tr.value.state.Reserving? || s.tr.value.state.Resizing?) ==>
            s.tr.value.prior.Stopped?)
      && (Unbroken(OwnJobsOnly, init, run) ==>
            forall k | 0 <= k < |s.jobs| :: IsLifecycle(s.jobs[k].op) && IsActive(s.jobs[k].status) ==>
              (s.jobs[k].op.Stop? && s.tr.value.prior.Running?) || (s.jobs[k].op.Resize? && s.tr.value.state.Resizing?))
  {
    HoldsIn(DowngradeStopped, init, run, i, c);
    HoldsIn(OwnJobsOnly, init, run, i, c);
  }

  // No owner action, retry or provisioning takes hold while a plan change is live.
  lemma LivePlanLocksOwner(hist: seq<Db>, l: Label)
    requires GoodPlan(hist) && (l.UserOp? || l.UserRetry? || l.QueueProvision?)
    requires l.c < |Last(hist).slots| && Live(Last(hist).slots[l.c].tr)
    ensures Apply(hist, l) == Last(hist)
  {
    var db := Last(hist);
    var now := db.slots[l.c];
    assert SlotInv(now) && PlanInv(now);
    assert QueueNext(hist, db.hosts, l, now) == now;
    assert db.slots[l.c := now] == db.slots;
  }

  // Whatever happened before, finishing a resize raises its host's counters exactly
  // when the reservation it read does not cover the CPU and RAM that the target adds;
  // it never takes disk.
  lemma FinishingChargesIff(hist: seq<Db>, c: nat, k: nat, rowAt: nat, checkAt: nat, trAt: nat, at: int)
    requires Good(hist) && Observed(hist, c, k, rowAt, checkAt, trAt)
    requires Last(hist).slots[c].jobs[k].op.Resize? && ActiveAt(Last(hist).slots[c].jobs, k)
    requires IsResizing(ReadTr(hist, checkAt, c)) && IsResizing(ReadTr(hist, trAt, c))
    ensures Last(hist).slots[c].row.Some? && HostOf(Last(hist).slots[c]).Some?
    ensures var db, next := Last(hist), Apply(hist, JobSucceeds(c, k, rowAt, checkAt, trAt, at));
      var row, tr, h := db.slots[c].row.value, ReadTr(hist, trAt, c).value, HostOf(db.slots[c]).value;
      && h < |db.hosts| == |next.hosts|
      && next.hosts[h].charged.disk <= db.hosts[h].charged.disk
      && (next.hosts[h].charged.AtMost(db.hosts[h].charged) <==> CoversCpuRam(tr.reserved, tr.to, row.tier))
  {
    PastOf(hist, rowAt, c);
    PastOf(hist, trAt, c);
    assert Inv(Last(hist)) && SlotInv(Last(hist).slots[c]);
    FinishIsFinalize(hist, c, k, rowAt, checkAt, trAt, at);
    FinalizeChargesIff(Last(hist), c, k, ReadSlot(hist, rowAt, c).value, ReadSlot(hist, trAt, c).value, at);
  }

  lemma FinalizeChargesIff(db: Db, c: nat, k: nat, pastRow: Slot, pastTr: Slot, at: int)
    requires Inv(db) && c < |db.slots| && ActiveAt(db.slots[c].jobs, k)
    requires SlotInv(pastRow) && SlotLater(pastRow, db.slots[c]) && k < |pastRow.jobs|
    requires SlotInv(pastTr) && SlotLater(pastTr, db.slots[c]) && k < |pastTr.jobs|
    requires HostOf(pastRow).Some? && HostOf(pastRow).value < |db.hosts|
    requires IsResizing(pastTr.tr) && pastTr.jobs[k].op.Resize?
    ensures db.slots[c].row.Some? && HostOf(db.slots[c]) == HostOf(pastRow)
    ensures var next := FinalizePlan(db, c, k, pastRow.row.value, pastTr.tr.value, at);
      var row, tr, h := db.slots[c].row.value, pastTr.tr.value, HostOf(pastRow).value;
      && h < |next.hosts|
      && next.hosts[h].charged.disk <= db.hosts[h].charged.disk
      && (next.hosts[h].charged.AtMost(db.hosts[h].charged) <==> CoversCpuRam(tr.reserved, tr.to, row.tier))
  {
    var now := db.slots[c];
    ActiveIsNewest(now.jobs, k);
    ReadIsCovered(pastRow, now, k);
    ReadIsCovered(pastTr, now, k);
    FinalizePlanOk(db, c, k, pastRow, pastTr, at);
    assert Adjustment(pastRow.row.value, pastTr.tr.value).disk <= 0;
    hide Inv;
  }

  // The reservation was made before the resize: finishing one raises no counter,
  // and leaves a downgraded container stopped.
  lemma FinishingNeverCharges(hist: seq<Db>, c: nat, k: nat, rowAt: nat, checkAt: nat, trAt: nat, at: int, h: HostId)
    requires GoodPlan(hist) && Observed(hist, c, k, rowAt, checkAt, trAt)
    requires Last(hist).slots[c].jobs[k].op.Resize? && ActiveAt(Last(hist).slots[c].jobs, k)
    requires IsResizing(ReadTr(hist, checkAt, c)) && IsResizing(ReadTr(hist, trAt, c))
    requires h < |Last(hist).hosts|
    ensures var db, next := Last(hist), Apply(hist, JobSucceeds(c, k, rowAt, checkAt, trAt, at));
      && h < |next.hosts| && next.hosts[h].charged.AtMost(db.hosts[h].charged)
      && c < |next.slots| && next.slots[c].row.Some?
      && next.slots[c].row.value.tier == ReadTr(hist, trAt, c).value.to
      && (ReadTr(hist, trAt, c).value.to.Free? ==> next.slots[c].row.value.status.Stopped?)
  {
    PlanOfGood(hist, c);
    ObservedReads(hist, c, k, rowAt, checkAt, trAt);
    FinishIsFinalize(hist, c, k, rowAt, checkAt, trAt, at);
    FinalizeNeverCharges(Last(hist), c, k, ReadSlot(hist, rowAt, c).value, ReadSlot(hist, trAt, c).value, at, h);
  }

  lemma FinishIsFinalize(hist: seq<Db>, c: nat, k: nat, rowAt: nat, checkAt: nat, trAt: nat, at: int)
    requires hist != [] && WellFormed(Last(hist)) && Observed(hist, c, k, rowAt, checkAt, trAt)
    requires Last(hist).slots[c].jobs[k].op.Resize?
    requires IsResizing(ReadTr(hist, checkAt, c)) && IsResizing(ReadTr(hist, trAt, c))
    ensures Apply(hist, JobSucceeds(c, k, rowAt, checkAt, trAt, at)) ==
      FinalizePlan(Last(hist), c, k, ReadRow(hist, rowAt, c).value, ReadTr(hist, trAt, c).value, at)
  {
  }

  lemma FinalizeNeverCharges(db: Db, c: nat, k: nat, pastRow: Slot, pastTr: Slot, at: int, h: HostId)
    requires Inv(db) && c < |db.slots| && ActiveAt(db.slots[c].jobs, k) && h < |db.hosts|
    requires ReadOf(pastRow, db.slots[c], k) && ReadOf(pastTr, db.slots[c], k)
    requires HostOf(pastRow).Some? && HostOf(pastRow).value < |db.hosts|
    requires IsResizing(pastTr.tr) && pastTr.jobs[k].op.Resize?
    ensures var next := FinalizePlan(db, c, k, pastRow.row.value, pastTr.tr.value, at);
      && h < |next.hosts| && next.hosts[h].charged.AtMost(db.hosts[h].charged)
      && c < |next.slots| && next.slots[c].row.Some?
      && next.slots[c].row.value.tier == pastTr.tr.value.to
      && (pastTr.tr.value.to.Free? ==> next.slots[c].row.value.status.Stopped?)
  {
    var now := db.slots[c];
    ActiveIsNewest(now.jobs, k);
    ReadIsCovered(pastRow, now, k);
    ReadsAgree(pastTr, now, k);
    AdjustmentNonpositive(now, pastTr.tr.value, pastRow.row.value);
    FinalizePlanOk(db, c, k, pastRow, pastTr, at);
  }

  lemma AdjustmentNonpositive(now: Slot, tr: Transition, read: Container)
    requires SlotInv(now) && PlanInv(now) && now.row.Some? && IsResizing(now.tr)
    requires SameRequest(tr, now.tr.value) && Base(read) == Base(now.row.value)
    ensures Adjustment(read, tr).Nonpositive()
  {
    assert Covers(now.tr.value, now.row.value);
  }
}
