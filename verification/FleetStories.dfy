// What a plan change remembers from its creation to its end, and what may add to a
// host's charge, over the steps of safe runs.
module FleetStories {
  import opened Wrappers
  import opened Plans
  import opened FleetState
  import opened FleetSteps
  import opened FleetLedger
  import opened FleetAccounting
  import opened FleetRun
  import opened FleetTheorems
  import opened FleetPlans
  import opened FleetPlanRuns
  import opened FleetPromiseSteps
  import opened FleetPromises
  import opened FleetOutcomes

  // A stop that was active has just succeeded.
  predicate StopSucceeded(now: Slot, next: Slot) {
    exists k | 0 <= k < |now.jobs| && k < |next.jobs| ::
      now.jobs[k].op.Stop? && IsActive(now.jobs[k].status) && next.jobs[k] == Job(Stop, JobSucceeded)
  }

  predicate Created(now: Slot, next: Slot)
    requires Live(next.tr)
  {
    && now.row.Some? && next.row == Some(now.row.value.(status := UpgradePending))
    && (now.row.value.status.Running? || now.row.value.status.Stopped?)
    && next.tr.value.prior == now.row.value.status
    && next.tr.value.from == now.row.value.tier && next.tr.value.to != now.row.value.tier
    && next.tr.value.targetDiskGb == Max(now.row.value.diskGb, DiskGb(next.tr.value.to))
    && next.tr.value.state == TransitionState.Requested && Unreserved(next.tr.value)
  }

  predicate Carried(now: Slot, next: Slot)
    requires Live(now.tr) && Live(next.tr)
  {
    var a, b := now.tr.value, next.tr.value;
    && a.from == b.from && a.to == b.to && a.targetDiskGb == b.targetDiskGb
    && (b.prior == a.prior || (a.prior.Running? && b.prior.Stopped? && StopSucceeded(now, next)))
    && (next.row.Some? && now.row.Some? ==>
          next.row.value.tier == now.row.value.tier && next.row.value.diskGb == now.row.value.diskGb)
  }

  predicate Ended(now: Slot, next: Slot)
    requires Live(now.tr)
  {
    next.row.Some? ==>
      && now.row.Some? && next.tr.Some?
      && (if next.tr.value.state.Complete? then
            && next.row.value.tier == now.tr.value.to && next.row.value.diskGb == now.tr.value.targetDiskGb
            && next.row.value.status == (if now.tr.value.to.Free? then Stopped else now.tr.value.prior)
          else
            && next.row.value.tier == now.row.value.tier && next.row.value.diskGb == now.row.value.diskGb
            && (next.row.value.status.Error?
                || (next.row.value.status == now.tr.value.prior && NotStarted(now.tr.value)))
            && (NotStarted(now.tr.value) || now.tr.value.state.FailedRetryable?))
  }

  // Nothing claimed on the host, nothing sent to it.
  predicate NotStarted(tr: Transition) {
    IsNothing(tr.reserved) && (tr.state.Requested? || tr.state.WaitingCapacity?)
  }

  // The stages of a plan change: created with the status and tier the container had,
  // carried on until its stop succeeds, ended with its target applied or with the
  // container as it was. Once it has claimed or reached the host it can be given up
  // only after a failure, and only for deletion.
  predicate PlanStory(now: Slot, next: Slot) {
    if Live(now.tr) then (if Live(next.tr) then Carried(now, next) else Ended(now, next))
    else Live(next.tr) ==> Created(now, next)
  }

  // ------------------------------------------------------------ slot by slot

  lemma SameStory(now: Slot, next: Slot)
    requires next.tr == now.tr && (Live(now.tr) && now.row.Some? && next.row.Some? ==>
      next.row.value.tier == now.row.value.tier && next.row.value.diskGb == now.row.value.diskGb)
    ensures PlanStory(now, next)
  {
  }

  lemma FailJobStory(past: Slot, now: Slot, k: nat)
    requires ReadOf(past, now, k)
    ensures PlanStory(now, FailJob(now, k, past.tr))
  {
    var next := FailJob(now, k, past.tr);
    if ActiveAt(now.jobs, k) && IsLifecycle(now.jobs[k].op) {
      FailureOutcome(past, now, k);
      if !Live(now.tr) { SameStory(now, next); }
    } else {
      SameStory(now, next);
    }
  }

  // A cancellation takes hold and restores the status another plan change had recorded.
  predicate Misrestores(hist: seq<Db>, l: Label)
    requires hist != []
  {
    l.CancelStep? && l.c < |Last(hist).slots| &&
    var now, tr := Last(hist).slots[l.c], ReadTr(hist, l.trAt, l.c);
    Cancellable(tr) && Cancellable(now.tr) && !Busy(now.jobs) && tr.value.prior != now.tr.value.prior
  }

  lemma CreateStory(now: Slot, past: Slot, to: Tier)
    requires SlotInv(now) && PlanInv(now) && SlotInv(past) && SlotLater(past, now)
    requires Creates(past.row, to) && CreateFits(now, past.row.value)
    ensures PlanStory(now, CreateTransition(now, past.row.value, to))
  {
  }

  lemma CancelStoryIff(now: Slot, prior: ContainerStatus)
    requires SlotInv(now) && PlanInv(now) && (prior.Running? || prior.Stopped?)
    ensures PlanStory(now, CancelUnreserved(now, prior)) <==>
      (Cancellable(now.tr) && !Busy(now.jobs) ==> prior == now.tr.value.prior)
  {
  }

  lemma PlanStepStoryIff(hist: seq<Db>, l: Label)
    requires GoodPlan(hist) && Safe(hist, l) && IsPlanStep(l) && l.c < |Last(hist).slots|
    ensures var now := Last(hist).slots[l.c]; PlanStory(now, PlanNext(hist, l, now)) <==> !Misrestores(hist, l)
  {
    var now := Last(hist).slots[l.c];
    assert SlotInv(now) && PlanInv(now);
    match l
    case CreateStep(c, to, rowAt) =>
      if Creates(ReadRow(hist, rowAt, c), to) {
        PastOf(hist, rowAt, c);
        CreateStory(now, ReadSlot(hist, rowAt, c).value, to);
      }
    case CancelStep(c, trAt) =>
      if Cancellable(ReadTr(hist, trAt, c)) {
        PastOf(hist, trAt, c);
        CancelStoryIff(now, ReadTr(hist, trAt, c).value.prior);
      }
    case _ => OtherPlanStepStory(hist, l, now);
  }

  lemma OtherPlanStepStory(hist: seq<Db>, l: Label, now: Slot)
    requires IsPlanStep(l) && !l.CreateStep? && !l.CancelStep? && SlotInv(now) && PlanInv(now)
    requires l.DeleteSettledStep? && ReadTr(hist, l.trAt, l.c).Some? && Settled(ReadTr(hist, l.trAt, l.c).value) ==>
      !Live(now.tr)
    ensures PlanStory(now, PlanNext(hist, l, now))
  {
  }

  lemma SucceedStory(db: Db, c: nat, k: nat, pastRow: Slot, checked: Slot, pastTr: Slot, at: int)
    requires WellFormed(db) && c < |db.slots| && k < |db.slots[c].jobs|
    requires ReadOf(pastRow, db.slots[c], k) && ReadOf(checked, db.slots[c], k) && ReadOf(pastTr, db.slots[c], k)
    requires HostOf(pastRow).Some? && HostOf(pastRow).value < |db.hosts|
    ensures var next := Succeed(db, c, k, pastRow.row.value, checked.tr, pastTr.tr, at);
      |next.slots| == |db.slots| && PlanStory(db.slots[c], next.slots[c])
  {
    var now := db.slots[c];
    var next := Succeed(db, c, k, pastRow.row.value, checked.tr, pastTr.tr, at);
    if IsActive(now.jobs[k].status) && IsLifecycle(now.jobs[k].op) {
      SuccessOutcome(db, c, k, pastRow, checked, pastTr, at);
      SucceededStory(now, next.slots[c], k);
    } else {
      SettledLong(db, c, k, pastRow.row.value, checked.tr, pastTr.tr, at);
      SameStory(now, next.slots[c]);
    }
  }

  lemma SucceededStory(now: Slot, next: Slot, k: nat)
    requires SlotInv(now) && PlanInv(now) && ActiveAt(now.jobs, k) && IsLifecycle(now.jobs[k].op)
    requires Succeeded(now, next, k)
    ensures PlanStory(now, next)
  {
    if Live(now.tr) {
      assert next.jobs[k] == Job(now.jobs[k].op, JobSucceeded);
    }
  }

  lemma SettledLong(db: Db, c: nat, k: nat, read: Container, checked: Option<Transition>, tr: Option<Transition>,
                    at: int)
    requires WellFormed(db) && c < |db.slots| && k < |db.slots[c].jobs|
    requires read.host.Some? && read.host.value < |db.hosts|
    requires !(IsActive(db.slots[c].jobs[k].status) && IsLifecycle(db.slots[c].jobs[k].op))
    ensures var next := Succeed(db, c, k, read, checked, tr, at);
      |next.slots| == |db.slots| && next.slots[c].tr == db.slots[c].tr && next.slots[c].row == db.slots[c].row
  {
  }

  // -------------------------------------------------------------------- steps

  lemma SlotStepStoryIff(hist: seq<Db>, l: Label)
    requires GoodPlan(hist) && Safe(hist, l) && IsSlotStep(l) && l.c < |Last(hist).slots|
    ensures var now := Last(hist).slots[l.c];
      PlanStory(now, SlotNext(hist, Last(hist).hosts, l, now)) <==> !Misrestores(hist, l)
  {
    if IsPlanStep(l) { PlanStepStoryIff(hist, l); }
    else if l.JobFails? { JobFailsStory(hist, l); }
    else { OtherSlotStory(hist, l); }
    hide PlanStory, Safe, GoodPlan;
  }

  lemma OtherSlotStory(hist: seq<Db>, l: Label)
    requires GoodPlan(hist) && IsSlotStep(l) && !IsPlanStep(l) && !l.JobFails? && l.c < |Last(hist).slots|
    ensures var now := Last(hist).slots[l.c]; PlanStory(now, SlotNext(hist, Last(hist).hosts, l, now))
  {
    assert SlotInv(Last(hist).slots[l.c]) && PlanInv(Last(hist).slots[l.c]);
    hide GoodPlan, PlanStory, SlotNext, SlotInv, PlanInv;
    OtherStory(hist, Last(hist).hosts, l, Last(hist).slots[l.c]);
  }

  lemma JobFailsStory(hist: seq<Db>, l: Label)
    requires GoodPlan(hist) && l.JobFails? && l.c < |Last(hist).slots|
    ensures var now := Last(hist).slots[l.c]; PlanStory(now, JobNext(hist, Last(hist).hosts, l, now))
  {
    var now := Last(hist).slots[l.c];
    hide PlanStory, GoodPlan;
    if JobKnown(hist, l.trAt, l.c, l.k) {
      PlanOfGood(hist, l.c);
      PastPlan(hist, l.trAt, l.c);
      FailJobStory(ReadSlot(hist, l.trAt, l.c).value, now, l.k);
    } else {
      SameStory(now, now);
    }
  }

  lemma OtherStory(hist: seq<Db>, hosts: seq<Host>, l: Label, now: Slot)
    requires IsSlotStep(l) && !IsPlanStep(l) && !l.JobFails? && SlotInv(now) && PlanInv(now)
    ensures PlanStory(now, SlotNext(hist, hosts, l, now))
  {
  }

  lemma ReserveStory(db: Db, c: nat, read: Container, tr: Transition, entitled: bool, at: int)
    requires WellFormed(db) && c < |db.slots| && read.host.Some? && read.host.value < |db.hosts|
    ensures var next := Reserve(db, c, read, tr, entitled, at);
      next.slots == db.slots || (|next.slots| == |db.slots| && next.slots == db.slots[c := next.slots[c]]
                                 && PlanStory(db.slots[c], next.slots[c]))
  {
  }

  lemma SucceedTouchesOne(db: Db, c: nat, k: nat, read: Container, checked: Option<Transition>, tr: Option<Transition>,
                          at: int)
    requires WellFormed(db) && c < |db.slots| && k < |db.slots[c].jobs|
    requires read.host.Some? && read.host.value < |db.hosts|
    ensures var next := Succeed(db, c, k, read, checked, tr, at);
      |next.slots| == |db.slots| && next.slots == db.slots[c := next.slots[c]]
  {
  }

  // Every slot's story goes on.
  predicate OneStory(db: Db, next: Db) {
    && |db.slots| <= |next.slots|
    && forall c | 0 <= c < |db.slots| :: PlanStory(db.slots[c], next.slots[c])
  }

  lemma OneSlotStory(db: Db, next: Db, c: nat)
    requires c < |db.slots| == |next.slots| && next.slots == db.slots[c := next.slots[c]]
    requires PlanStory(db.slots[c], next.slots[c])
    ensures OneStory(db, next)
  {
    forall i | 0 <= i < |db.slots| ensures PlanStory(db.slots[i], next.slots[i]) {
      if i != c { SameStory(db.slots[i], next.slots[i]); }
    }
  }

  lemma SameSlotsStory(db: Db, next: Db)
    requires |db.slots| <= |next.slots| && forall c | 0 <= c < |db.slots| :: next.slots[c] == db.slots[c]
    ensures OneStory(db, next)
  {
    forall i | 0 <= i < |db.slots| ensures PlanStory(db.slots[i], next.slots[i]) {
      SameStory(db.slots[i], next.slots[i]);
    }
  }

  lemma PlacementStory(hist: seq<Db>, l: Label, db: Db)
    requires hist != [] && db == Last(hist) && WellFormed(db)
    requires !IsSlotStep(l) && !l.JobSucceeds? && !l.ReserveStep?
    ensures OneStory(db, Apply(hist, l))
  {
    var next := Apply(hist, l);
    if l.PlaceWaitlistedStep? && next != db {
      SameStory(db.slots[l.c], next.slots[l.c]);
      OneSlotStory(db, next, l.c);
    } else {
      SameSlotsStory(db, next);
    }
  }

  lemma SettleStory(hist: seq<Db>, l: Label, db: Db)
    requires GoodPlan(hist) && db == Last(hist)
    requires l.JobSucceeds? && Observed(hist, l.c, l.k, l.rowAt, l.checkAt, l.trAt)
    ensures OneStory(db, Apply(hist, l))
  {
    assert WellFormed(db);
    hide GoodPlan, PlanStory, OneStory, ReadOf;
    SucceedTouchesOne(db, l.c, l.k, ReadRow(hist, l.rowAt, l.c).value, ReadTr(hist, l.checkAt, l.c),
                      ReadTr(hist, l.trAt, l.c), l.at);
    PlanOfGood(hist, l.c);
    ObservedReads(hist, l.c, l.k, l.rowAt, l.checkAt, l.trAt);
    SucceedStory(db, l.c, l.k, ReadSlot(hist, l.rowAt, l.c).value, ReadSlot(hist, l.checkAt, l.c).value,
                 ReadSlot(hist, l.trAt, l.c).value, l.at);
    OneSlotStory(db, Apply(hist, l), l.c);
  }

  // Every safe step tells every container's plan change on, exactly unless it is a
  // cancellation that restores a status recorded for another plan change.
  lemma PlanRemembersIff(hist: seq<Db>, l: Label)
    requires GoodPlan(hist) && Safe(hist, l)
    ensures OneStory(Last(hist), Apply(hist, l)) <==> !Misrestores(hist, l)
  {
    var db, next := Last(hist), Apply(hist, l);
    hide GoodPlan, PlanStory, Safe;
    if IsSlotStep(l) {
      if l.c < |db.slots| { SlotOneStoryIff(hist, l, db); } else { SameSlotsStory(db, next); }
    } else if l.JobSucceeds? {
      if Observed(hist, l.c, l.k, l.rowAt, l.checkAt, l.trAt) { SettleStory(hist, l, db); }
      else { SameSlotsStory(db, next); }
    } else if l.ReserveStep? {
      if Reservable(hist, l.c, l.rowAt, l.trAt) { ReservableStory(hist, l, db); } else { SameSlotsStory(db, next); }
    } else {
      PlacementStory(hist, l, db);
    }
  }

  lemma SlotOneStoryIff(hist: seq<Db>, l: Label, db: Db)
    requires hist != [] && Good(hist) && GoodPlan(hist) && Safe(hist, l)
    requires db == Last(hist) && IsSlotStep(l) && l.c < |db.slots|
    ensures OneStory(db, Apply(hist, l)) <==> !Misrestores(hist, l)
  {
    hide Apply, GoodPlan, Good, Safe, PlanStory, Misrestores, SlotNext;
    LastOk(hist);
    SlotStepStoryIff(hist, l);
    SlotStepIs(hist, l);
    if PlanStory(db.slots[l.c], Apply(hist, l).slots[l.c]) { OneSlotStory(db, Apply(hist, l), l.c); }
  }

  lemma ReservableStory(hist: seq<Db>, l: Label, db: Db)
    requires hist != [] && db == Last(hist) && WellFormed(db)
    requires l.ReserveStep? && Reservable(hist, l.c, l.rowAt, l.trAt)
    ensures OneStory(db, Apply(hist, l))
  {
    hide PlanStory, OneStory;
    ReserveStory(db, l.c, ReadRow(hist, l.rowAt, l.c).value, ReadTr(hist, l.trAt, l.c).value, l.entitled, l.at);
    if Apply(hist, l).slots == db.slots { SameSlotsStory(db, Apply(hist, l)); }
    else { OneSlotStory(db, Apply(hist, l), l.c); }
  }

  // ------------------------------------------------------------------ charges

  lemma CounterNonneg(db: Db, h: HostId)
    requires Inv(db) && h < |db.hosts|
    ensures db.hosts[h].charged.Nonneg()
  {
    SumOrder(db.slots, h);
  }

  lemma DestroyNeverCharges(db: Db, c: nat, k: nat, pastRow: Slot, pastTr: Slot, h: HostId)
    requires Inv(db) && c < |db.slots| && h < |db.hosts| && SlotInv(pastRow) && SlotInv(pastTr)
    requires HostOf(pastRow).Some? && HostOf(pastRow).value < |db.hosts|
    ensures var next := FinalizeDestroy(db, c, k, pastRow.row.value, pastTr.tr);
      h < |next.hosts| && next.hosts[h].charged.AtMost(db.hosts[h].charged)
  {
    CounterNonneg(db, h);
    hide Inv;
  }

  // A resize finishes whose poller read a reservation that does not cover the CPU and
  // RAM the target adds to its container on h.
  predicate FinishesUnpaid(hist: seq<Db>, l: Label, h: HostId)
    requires hist != []
  {
    l.JobSucceeds? && Observed(hist, l.c, l.k, l.rowAt, l.checkAt, l.trAt) &&
    var now, tr := Last(hist).slots[l.c], ReadTr(hist, l.trAt, l.c);
    && now.jobs[l.k].op.Resize? && ActiveAt(now.jobs, l.k)
    && IsResizing(ReadTr(hist, l.checkAt, l.c)) && IsResizing(tr)
    && OnHost(now, h) && !CoversCpuRam(tr.value.reserved, tr.value.to, now.row.value.tier)
  }

  lemma FinishingOnHostIff(hist: seq<Db>, l: Label, h: HostId)
    requires Good(hist) && l.JobSucceeds? && Observed(hist, l.c, l.k, l.rowAt, l.checkAt, l.trAt)
    requires Last(hist).slots[l.c].jobs[l.k].op.Resize? && ActiveAt(Last(hist).slots[l.c].jobs, l.k)
    requires IsResizing(ReadTr(hist, l.checkAt, l.c)) && IsResizing(ReadTr(hist, l.trAt, l.c))
    requires h < |Last(hist).hosts|
    ensures h < |Apply(hist, l).hosts|
    ensures Apply(hist, l).hosts[h].charged.AtMost(Last(hist).hosts[h].charged) <==> !FinishesUnpaid(hist, l, h)
  {
    FinishingChargesIff(hist, l.c, l.k, l.rowAt, l.checkAt, l.trAt, l.at);
    if !OnHost(Last(hist).slots[l.c], h) { FinishingElsewhere(hist, l, h); }
    hide Good, Apply, CoversCpuRam;
  }

  lemma FinishingElsewhere(hist: seq<Db>, l: Label, h: HostId)
    requires Good(hist) && l.JobSucceeds? && Observed(hist, l.c, l.k, l.rowAt, l.checkAt, l.trAt)
    requires Last(hist).slots[l.c].jobs[l.k].op.Resize? && ActiveAt(Last(hist).slots[l.c].jobs, l.k)
    requires IsResizing(ReadTr(hist, l.checkAt, l.c)) && IsResizing(ReadTr(hist, l.trAt, l.c))
    requires h < |Last(hist).hosts| && !OnHost(Last(hist).slots[l.c], h)
    ensures h < |Apply(hist, l).hosts| && Apply(hist, l).hosts[h] == Last(hist).hosts[h]
  {
    LastOk(hist);
    PastOf(hist, l.rowAt, l.c);
    ReadIsCovered(ReadSlot(hist, l.rowAt, l.c).value, Last(hist).slots[l.c], l.k);
    FinishIsFinalize(hist, l.c, l.k, l.rowAt, l.checkAt, l.trAt, l.at);
    hide Good, Apply;
  }

  lemma DestroyedNeverCharges(hist: seq<Db>, l: Label, h: HostId)
    requires hist != [] && Good(hist) && l.JobSucceeds? && Observed(hist, l.c, l.k, l.rowAt, l.checkAt, l.trAt)
    requires h < |Last(hist).hosts| && Last(hist).slots[l.c].jobs[l.k].op.Destroy?
    ensures var next := Apply(hist, l); h < |next.hosts| && next.hosts[h].charged.AtMost(Last(hist).hosts[h].charged)
  {
    hide Good, Inv, SlotInv, SlotLater, FinalizeDestroy;
    PastOf(hist, l.rowAt, l.c);
    PastOf(hist, l.trAt, l.c);
    LastOk(hist);
    DestroyNeverCharges(Last(hist), l.c, l.k, ReadSlot(hist, l.rowAt, l.c).value, ReadSlot(hist, l.trAt, l.c).value, h);
  }

  lemma SettlingChargesIff(hist: seq<Db>, l: Label, h: HostId)
    requires hist != [] && Good(hist) && l.JobSucceeds?
    requires Observed(hist, l.c, l.k, l.rowAt, l.checkAt, l.trAt) && h < |Last(hist).hosts|
    ensures h < |Apply(hist, l).hosts|
    ensures Apply(hist, l).hosts[h].charged.AtMost(Last(hist).hosts[h].charged) <==> !FinishesUnpaid(hist, l, h)
  {
    hide Good, CoversCpuRam;
    LastOk(hist);
    var db := Last(hist);
    var job := db.slots[l.c].jobs[l.k];
    if job.op.Destroy? {
      DestroyedNeverCharges(hist, l, h);
    } else if job.op.Resize? && IsActive(job.status)
              && IsResizing(ReadTr(hist, l.checkAt, l.c)) && IsResizing(ReadTr(hist, l.trAt, l.c)) {
      FinishingOnHostIff(hist, l, h);
    } else {
      OtherwiseSameHosts(db, l.c, l.k, ReadRow(hist, l.rowAt, l.c).value, ReadTr(hist, l.checkAt, l.c),
                         ReadTr(hist, l.trAt, l.c), l.at);
    }
  }

  lemma OtherwiseSameHosts(db: Db, c: nat, k: nat, read: Container, checked: Option<Transition>,
                           tr: Option<Transition>, at: int)
    requires WellFormed(db) && c < |db.slots| && k < |db.slots[c].jobs|
    requires read.host.Some? && read.host.value < |db.hosts| && !db.slots[c].jobs[k].op.Destroy?
    requires var job := db.slots[c].jobs[k];
      !(job.op.Resize? && IsActive(job.status) && IsResizing(checked) && IsResizing(tr))
    ensures Succeed(db, c, k, read, checked, tr, at).hosts == db.hosts
  {
  }

  predicate MayTakeOn(db: Db, l: Label, h: HostId)
    requires h < |db.hosts|
  {
    && (l.PlaceNewStep? || l.PlaceWaitlistedStep? || l.ReserveStep?)
    && db.hosts[h].status.Active? && Healthy(db.hosts[h], l.at)
    && (l.ReserveStep? ==> db.hosts[h].tenancy.Shared?)
  }

  // No counter rises but by a placement or a reservation, on a host that is active, has
  // reported within a quarter of an hour and has not failed since; or by finishing a
  // resize that was not paid for, which safe steps never lead to.
  lemma OnlyHealthyHostsTakeOn(hist: seq<Db>, l: Label, h: HostId)
    requires Good(hist) && h < |Last(hist).hosts|
    ensures h < |Apply(hist, l).hosts|
    ensures Apply(hist, l).hosts[h].charged.AtMost(Last(hist).hosts[h].charged)
            || MayTakeOn(Last(hist), l, h) || FinishesUnpaid(hist, l, h)
    ensures GoodPlan(hist) ==> !FinishesUnpaid(hist, l, h)
  {
    LastOk(hist);
    if l.JobSucceeds? && Observed(hist, l.c, l.k, l.rowAt, l.checkAt, l.trAt) {
      SettlingChargesIff(hist, l, h);
      if GoodPlan(hist) && FinishesUnpaid(hist, l, h) {
        FinishingNeverCharges(hist, l.c, l.k, l.rowAt, l.checkAt, l.trAt, l.at, h);
      }
    } else {
      OthersTakeOn(hist, l, h);
    }
  }

  lemma OthersTakeOn(hist: seq<Db>, l: Label, h: HostId)
    requires hist != [] && WellFormed(Last(hist)) && h < |Last(hist).hosts|
    requires !(l.JobSucceeds? && Observed(hist, l.c, l.k, l.rowAt, l.checkAt, l.trAt))
    ensures h < |Apply(hist, l).hosts|
    ensures Apply(hist, l).hosts[h].charged.AtMost(Last(hist).hosts[h].charged) || MayTakeOn(Last(hist), l, h)
  {
  }
}
