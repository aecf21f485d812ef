// Plan changes over whole runs: the steps that keep them, exactly, and what then holds.
module FleetPlanRuns {
  import opened Wrappers
  import opened Plans
  import opened FleetState
  import opened FleetSteps
  import opened FleetLedger
  import opened FleetAccounting
  import opened FleetRun
  import opened FleetTheorems
  import opened FleetPlans

  lemma PlanOfGood(hist: seq<Db>, c: nat)
    requires GoodPlan(hist)
    ensures PlanOf(hist, c)
  {
  }

  lemma PastPlan(hist: seq<Db>, i: nat, c: nat)
    requires PlanOf(hist, c) && ReadSlot(hist, i, c).Some?
    ensures c < |Last(hist).slots|
    ensures var past, now := ReadSlot(hist, i, c).value, Last(hist).slots[c];
      && SlotInv(past) && SlotInv(now) && SlotLater(past, now)
      && PlanInv(past) && PlanInv(now) && LiveKept(past, now)
  {
    PastOf(hist, i, c);
  }

  lemma SafeQueueIff(hist: seq<Db>, l: Label)
    requires hist != [] && IsQueueStep(l) && l.c < |Last(hist).slots|
    ensures Safe(hist, l) <==>
      (l.QueueResize? || l.QueueDowngradeStop? ==> QueueSafe(hist, l, Last(hist).slots[l.c]))
  {
    hide QueueSafe;
  }

  lemma QueuePlanIff(hist: seq<Db>, l: Label)
    requires IsQueueStep(l) && PlanOf(hist, l.c) && l.c < |Last(hist).slots|
    ensures var now := Last(hist).slots[l.c]; var next := QueueNext(hist, Last(hist).hosts, l, now);
      (PlanInv(next) <==> Safe(hist, l)) && LiveKept(now, next)
  {
    var now, hosts := Last(hist).slots[l.c], Last(hist).hosts;
    var op, read := QueuedOp(hist, l), ReadRow(hist, l.rowAt, l.c);
    assert PlanInv(now) && SlotInv(now);
    SafeQueueIff(hist, l);
    hide PlanOf, PlanInv, SlotInv, Safe, LiveKept, QueueFits, Enqueue;
    SameSlotKept(now);
    if op.Some? && IsLifecycle(op.value) && read.Some? && read.value.host.Some? && read.value.host.value < |hosts| {
      OwnersWait(hist, l, op.value, hosts[read.value.host.value]);
      EnqueueKeepsPlanIff(now, op.value, read.value, hosts[read.value.host.value]);
    }
  }

  lemma SameSlotKept(now: Slot)
    requires SlotInv(now)
    ensures LiveKept(now, now)
  {
  }

  // Owners act on running, stopped and failed workbenches, never on a pending change.
  lemma OwnersWait(hist: seq<Db>, l: Label, op: JobOp, host: Host)
    requires IsQueueStep(l) && PlanOf(hist, l.c) && l.c < |Last(hist).slots| && QueuedOp(hist, l) == Some(op)
    ensures l.UserOp? || l.UserRetry? || l.QueueProvision? ==>
      QueueFits(Last(hist).slots[l.c], op, ReadRow(hist, l.rowAt, l.c).value, host)
  {
    assert PlanInv(Last(hist).slots[l.c]) && SlotInv(Last(hist).slots[l.c]);
  }

  lemma JobStepPlanOk(hist: seq<Db>, l: Label)
    requires IsJobStep(l) && PlanOf(hist, l.c) && l.c < |Last(hist).slots|
    ensures var now := Last(hist).slots[l.c]; PlanKept(now, JobNext(hist, Last(hist).hosts, l, now))
  {
    var now, hosts := Last(hist).slots[l.c], Last(hist).hosts;
    assert PlanInv(now) && SlotInv(now);
    match l
    case QueueBackground(_, op, h) => if h < |hosts| { EnqueueBackgroundPlanOk(now, op, hosts[h]); }
    case DispatchedStep(_, k) => MarkPlanOk(now, k, JobRunning);
    case Heartbeat(_, k, status) => MarkPlanOk(now, k, status);
    case JobFails(c, k, trAt) =>
      if JobKnown(hist, trAt, c, k) {
        PastPlan(hist, trAt, c);
        FailJobPlanOk(ReadSlot(hist, trAt, c).value, now, k);
      }
  }

  lemma PlanStepPlanIff(hist: seq<Db>, l: Label)
    requires IsPlanStep(l) && PlanOf(hist, l.c) && l.c < |Last(hist).slots|
    ensures var now := Last(hist).slots[l.c]; var next := PlanNext(hist, l, now);
      (PlanInv(next) <==> Safe(hist, l)) && (Safe(hist, l) ==> LiveKept(now, next))
  {
    var now := Last(hist).slots[l.c];
    assert PlanInv(now) && SlotInv(now);
    match l
    case CreateStep(c, to, rowAt) =>
      var row := ReadRow(hist, rowAt, c);
      if Creates(row, to) { CreateKeepsPlanIff(now, row.value, to); }
    case DeleteSettledStep(_, _) => DeleteKeepsPlanIff(now);
    case CancelStep(c, trAt) =>
      if Cancellable(ReadTr(hist, trAt, c)) {
        PastOf(hist, trAt, c);
        CancelPlanOk(now, ReadTr(hist, trAt, c).value.prior);
      }
    case CancelForDestroyStep(_, _) => CancelPlanOk(now, Stopped);
    case RetryResizeStep(_, _) => RetryKeepsPlanIff(now);
    case _ => StatePlanOk(now);
  }

  lemma SlotStepPlanIff(hist: seq<Db>, l: Label)
    requires IsSlotStep(l) && PlanOf(hist, l.c) && l.c < |Last(hist).slots|
    ensures var now := Last(hist).slots[l.c]; var next := SlotNext(hist, Last(hist).hosts, l, now);
      (PlanInv(next) <==> Safe(hist, l)) && (Safe(hist, l) ==> LiveKept(now, next))
  {
    var now := Last(hist).slots[l.c];
    assert PlanInv(now) && SlotInv(now);
    if l.DriftStep? {
      var s := ReadSlot(hist, l.rowAt, l.c);
      if s.Some? { RowPlanOk(now, s.value, l.seen); }
    } else if IsRowStep(l) {
      RowPlanOk(now, now, Missing);
    } else if IsQueueStep(l) {
      QueuePlanIff(hist, l);
    } else if IsJobStep(l) {
      JobStepPlanOk(hist, l);
    } else {
      PlanStepPlanIff(hist, l);
    }
  }

  // ------------------------------------------------------------ ledger steps

  // Only slot c may have changed, and its plan is kept exactly if so `safe` says.
  predicate OneSlotPlan(db: Db, next: Db, c: nat, safe: bool) {
    && c < |db.slots| == |next.slots|
    && (forall i | 0 <= i < |db.slots| && i != c :: next.slots[i] == db.slots[i])
    && (PlanInv(next.slots[c]) <==> safe)
    && (safe ==> LiveKept(db.slots[c], next.slots[c]))
  }

  // A read of slot c from a state in which job k was known.
  predicate ReadOf(past: Slot, now: Slot, k: nat) {
    && SlotInv(past) && SlotInv(now) && SlotLater(past, now)
    && PlanInv(past) && PlanInv(now) && LiveKept(past, now)
    && k < |past.jobs|
  }

  lemma FinalizePlanPlanOk(db: Db, c: nat, k: nat, pastRow: Slot, pastTr: Slot, at: int)
    requires WellFormed(db) && c < |db.slots|
    requires ReadOf(pastRow, db.slots[c], k) && ReadOf(pastTr, db.slots[c], k)
    requires HostOf(pastRow).Some? && HostOf(pastRow).value < |db.hosts|
    requires IsResizing(pastTr.tr) && pastTr.jobs[k].op.Resize?
    ensures var next := FinalizePlan(db, c, k, pastRow.row.value, pastTr.tr.value, at);
      next == db || OneSlotPlan(db, next, c, true)
  {
    var now := db.slots[c];
    if ActiveAt(now.jobs, k) && NewestLifecycle(now.jobs, k) {
      var next := FinalizePlan(db, c, k, pastRow.row.value, pastTr.tr.value, at);
      ReadIsCovered(pastRow, now, k);
      FinalizeIsResized(db, c, k, pastRow.row.value, pastTr.tr.value, at);
      hide FinalizePlan, Resized, NewestLifecycle;
      ResizedPlanOk(pastTr, now, next.slots[c], k, pastRow.row.value, at);
    }
  }

  lemma SucceedPlanOk(db: Db, c: nat, k: nat, pastRow: Slot, checked: Slot, pastTr: Slot, at: int)
    requires WellFormed(db) && c < |db.slots| && k < |db.slots[c].jobs|
    requires ReadOf(pastRow, db.slots[c], k) && ReadOf(checked, db.slots[c], k) && ReadOf(pastTr, db.slots[c], k)
    requires HostOf(pastRow).Some? && HostOf(pastRow).value < |db.hosts|
    ensures var next := Succeed(db, c, k, pastRow.row.value, checked.tr, pastTr.tr, at);
      next == db || OneSlotPlan(db, next, c, true)
  {
    var now := db.slots[c];
    if now.jobs[k].op.Destroy? {
      MarkPlanOk(now, k, JobSucceeded);
    } else if now.jobs[k].op.Stop? && StoppingDowngrade(checked.tr) {
      FinalizeDowngradeStopPlanOk(checked, now, k);
    } else if now.jobs[k].op.Resize? && IsResizing(checked.tr) {
      if IsResizing(pastTr.tr) { FinalizePlanPlanOk(db, c, k, pastRow, pastTr, at); }
    } else {
      SettleSucceededPlanOk(checked, now, k);
    }
  }

  lemma ObservedReads(hist: seq<Db>, c: nat, k: nat, rowAt: nat, checkAt: nat, trAt: nat)
    requires PlanOf(hist, c) && Observed(hist, c, k, rowAt, checkAt, trAt)
    ensures var now := Last(hist).slots[c];
      && ReadOf(ReadSlot(hist, rowAt, c).value, now, k)
      && ReadOf(ReadSlot(hist, checkAt, c).value, now, k)
      && ReadOf(ReadSlot(hist, trAt, c).value, now, k)
  {
    PastPlan(hist, rowAt, c);
    PastPlan(hist, checkAt, c);
    PastPlan(hist, trAt, c);
  }

  // A reservation that takes hold turns the slot it meets into this one.
  function ReservedSlot(now: Slot, host: Host, read: Container, readTr: Transition, at: int): Slot
    requires Claimable(now)
  {
    var amount := RequestedAmount(read, readTr);
    if HostReserves(host, amount.disk, at) then Charged(now, amount) else SetState(now, Reserving)
  }

  lemma ReservePlanIff(now: Slot, host: Host, past: Slot, readTr: Transition, at: int)
    requires SlotInv(now) && PlanInv(now) && Claimable(now)
    requires past.row.Some? && past.row.value.host.Some? && SlotLater(past, now)
    requires readTr.targetDiskGb == DiskGb(Paid)
    ensures var next := ReservedSlot(now, host, past.row.value, readTr, at);
      && (PlanInv(next) <==> ReserveFits(now, host, past.row.value, readTr, true, at))
      && LiveKept(now, next)
  {
    hide RequestedAmount, Covers, Unreserved, HostReserves, PlanInv, LiveKept, SlotInv;
    var amount := RequestedAmount(past.row.value, readTr);
    assert now.row.Some? by { HasRow(now); }
    if HostReserves(host, amount.disk, at) {
      ChargeKeepsPlanIff(now, amount);
      ChargeCoversIff(now, past.row.value, readTr);
    } else {
      ClaimKeepsPlanIff(now);
    }
  }

  lemma HasRow(s: Slot)
    requires SlotInv(s)
    ensures s.tr.Some? ==> s.row.Some?
  {
  }

  lemma ReserveIsSlot(db: Db, c: nat, read: Container, readTr: Transition, entitled: bool, at: int)
    requires WellFormed(db) && c < |db.slots| && read.host.Some? && read.host.value < |db.hosts|
    ensures Reserve(db, c, read, readTr, entitled, at).slots ==
      if Claimable(db.slots[c]) && entitled
      then db.slots[c := ReservedSlot(db.slots[c], db.hosts[read.host.value], read, readTr, at)]
      else db.slots
  {
  }

  lemma SafeReserveIff(hist: seq<Db>, l: Label)
    requires hist != [] && l.ReserveStep? && Reservable(hist, l.c, l.rowAt, l.trAt)
    ensures var db, row := Last(hist), ReadRow(hist, l.rowAt, l.c).value;
      Safe(hist, l) <==> ReserveFits(db.slots[l.c], db.hosts[row.host.value], row, ReadTr(hist, l.trAt, l.c).value,
                                     l.entitled, l.at)
  {
    hide ReserveFits;
  }

  lemma ReserveStepPlanIff(hist: seq<Db>, l: Label, db: Db)
    requires l.ReserveStep? && PlanOf(hist, l.c) && db == Last(hist) && Reservable(hist, l.c, l.rowAt, l.trAt)
    ensures OneSlotPlan(db, Apply(hist, l), l.c, Safe(hist, l))
  {
    var now := db.slots[l.c];
    var past, readTr := ReadSlot(hist, l.rowAt, l.c).value, ReadTr(hist, l.trAt, l.c).value;
    assert PlanInv(now) && SlotInv(now) && WellFormed(db);
    PastOf(hist, l.rowAt, l.c);
    PastOf(hist, l.trAt, l.c);
    SafeReserveIff(hist, l);
    ReserveStepIs(hist, l);
    hide Apply, PlanOf, PlanInv, LiveKept, SlotInv, Safe, ReserveFits, Reserve, ReservedSlot, SlotLater;
    ReserveIsSlot(db, l.c, past.row.value, readTr, l.entitled, l.at);
    if Claimable(now) && l.entitled {
      ReservePlanIff(now, db.hosts[past.row.value.host.value], past, readTr, l.at);
    } else {
      SameSlotPlan(now, db.hosts[past.row.value.host.value], past.row.value, readTr, l.entitled, l.at);
    }
  }

  lemma SameSlotPlan(now: Slot, host: Host, read: Container, readTr: Transition, entitled: bool, at: int)
    requires SlotInv(now) && !(Claimable(now) && entitled)
    ensures LiveKept(now, now) && ReserveFits(now, host, read, readTr, entitled, at)
  {
  }

  predicate Grown(db: Db, next: Db) {
    && |db.slots| <= |next.slots|
    && (forall i | 0 <= i < |db.slots| :: next.slots[i] == db.slots[i])
    && (forall i | |db.slots| <= i < |next.slots| :: PlanInv(next.slots[i]))
  }

  lemma LastPlanOf(hist: seq<Db>, c: nat)
    requires PlanOf(hist, c)
    ensures hist != [] && WellFormed(Last(hist)) && Inv(Last(hist))
    ensures c < |Last(hist).slots| ==> PlanInv(Last(hist).slots[c]) && SlotInv(Last(hist).slots[c])
  {
  }

  lemma SlotPutPlanIff(hist: seq<Db>, l: Label, db: Db)
    requires hist != [] && IsSlotStep(l) && PlanOf(hist, l.c) && db == Last(hist) && l.c < |db.slots|
    ensures OneSlotPlan(db, Apply(hist, l), l.c, Safe(hist, l))
  {
    hide Apply, PlanOf, PlanInv, LiveKept, Safe, SlotNext, Inv, SlotInv;
    LastPlanOf(hist, l.c);
    SlotStepPlanIff(hist, l);
    SlotStepIs(hist, l);
  }

  lemma SettlePlanOk(hist: seq<Db>, l: Label, db: Db)
    requires l.JobSucceeds? && PlanOf(hist, l.c) && db == Last(hist)
    requires Observed(hist, l.c, l.k, l.rowAt, l.checkAt, l.trAt)
    ensures Apply(hist, l) == db || OneSlotPlan(db, Apply(hist, l), l.c, true)
  {
    ObservedReads(hist, l.c, l.k, l.rowAt, l.checkAt, l.trAt);
    SucceedPlanOk(db, l.c, l.k, ReadSlot(hist, l.rowAt, l.c).value, ReadSlot(hist, l.checkAt, l.c).value,
                  ReadSlot(hist, l.trAt, l.c).value, l.at);
  }

  // Rows appear, or a waiting row is placed; no plan row is involved.
  lemma PlacementPlanOk(hist: seq<Db>, l: Label, db: Db)
    requires hist != [] && db == Last(hist) && WellFormed(db)
    requires forall c | 0 <= c < |db.slots| :: PlanInv(db.slots[c]) && SlotInv(db.slots[c])
    requires !IsSlotStep(l) && !l.JobSucceeds? && !l.ReserveStep?
    ensures StepPlan(db, Apply(hist, l), true)
  {
    var next := Apply(hist, l);
    if l.PlaceWaitlistedStep? && next != db { assert OneSlotPlan(db, next, l.c, true); }
  }

  // Rows appear and the step is safe, or one slot changes.
  ghost predicate StepPlan(db: Db, next: Db, safe: bool) {
    (safe && Grown(db, next)) || exists c :: OneSlotPlan(db, next, c, safe)
  }

  lemma StepPlanIff(hist: seq<Db>, l: Label, db: Db)
    requires GoodPlan(hist) && db == Last(hist)
    ensures StepPlan(db, Apply(hist, l), Safe(hist, l))
  {
    if IsSlotStep(l) {
      PlanOfGood(hist, l.c);
      if l.c < |db.slots| { SlotPutPlanIff(hist, l, db); }
    } else if l.JobSucceeds? {
      PlanOfGood(hist, l.c);
      if Observed(hist, l.c, l.k, l.rowAt, l.checkAt, l.trAt) { SettlePlanOk(hist, l, db); }
    } else if l.ReserveStep? {
      PlanOfGood(hist, l.c);
      if Reservable(hist, l.c, l.rowAt, l.trAt) { ReserveStepPlanIff(hist, l, db); }
    } else {
      PlacementPlanOk(hist, l, db);
    }
  }

  lemma LiveKeptTransitive(a: Slot, b: Slot, c: Slot)
    requires SlotLater(a, b) && SlotLater(b, c) && LiveKept(a, b) && LiveKept(b, c)
    ensures LiveKept(a, c)
  {
    if Spans(a.jobs, c.jobs) && Live(a.tr) {
      var k :| 0 <= k < |a.jobs| && IsLifecycle(c.jobs[k].op) && IsActive(c.jobs[k].status);
      assert IsActive(b.jobs[k].status) && IsLifecycle(b.jobs[k].op);
      assert Spans(a.jobs, b.jobs) && Spans(b.jobs, c.jobs);
    }
  }

  predicate AllPlans(db: Db) { forall c | 0 <= c < |db.slots| :: PlanInv(db.slots[c]) }

  lemma AllKeptIff(db: Db, next: Db, safe: bool)
    requires AllPlans(db) && StepPlan(db, next, safe)
    ensures AllPlans(next) <==> safe
    ensures safe ==> PlanLater(db, next)
  {
    hide PlanInv;
    if !Grown(db, next) || !safe {
      var k :| OneSlotPlan(db, next, k, safe);
      if safe {
        forall c | 0 <= c < |next.slots|
          ensures PlanInv(next.slots[c]) && LiveKept(db.slots[c], next.slots[c])
        {
          if c != k { assert next.slots[c] == db.slots[c]; }
        }
      }
    }
  }

  // A step keeps every container's plan change explained exactly when it is safe.
  lemma StepKeepsPlanIff(hist: seq<Db>, l: Label)
    requires GoodPlan(hist)
    ensures AllPlans(Apply(hist, l)) <==> Safe(hist, l)
  {
    assert AllPlans(Last(hist));
    StepPlanIff(hist, l, Last(hist));
    AllKeptIff(Last(hist), Apply(hist, l), Safe(hist, l));
  }

  lemma AppendPlan(hist: seq<Db>, next: Db)
    requires GoodPlan(hist) && Good(hist + [next])
    requires forall c | 0 <= c < |next.slots| :: PlanInv(next.slots[c])
    requires forall i | 0 <= i < |hist| :: PlanLater(hist[i], next)
    ensures GoodPlan(hist + [next])
  {
    var longer := hist + [next];
    forall i, j, c | 0 <= i < j < |longer| && 0 <= c < |longer[i].slots| && c < |longer[j].slots|
      ensures LiveKept(longer[i].slots[c], longer[j].slots[c])
    {
      if j == |hist| { assert PlanLater(hist[i], next); }
    }
  }

  lemma ExtendPlan(hist: seq<Db>, l: Label)
    requires GoodPlan(hist) && Safe(hist, l)
    ensures GoodPlan(hist + [Apply(hist, l)])
  {
    var db, next := Last(hist), Apply(hist, l);
    assert AllPlans(db);
    StepOk(hist, l);
    StepPlanIff(hist, l, db);
    AllKeptIff(db, next, true);
    forall i | 0 <= i < |hist| ensures PlanLater(hist[i], next) {
      PlanLaterTransitive(hist, i, next);
    }
    AppendPlan(hist, next);
  }

  predicate PlanLater(a: Db, b: Db) {
    forall c | 0 <= c < |a.slots| && c < |b.slots| :: LiveKept(a.slots[c], b.slots[c])
  }

  lemma PlanLaterTransitive(hist: seq<Db>, i: nat, next: Db)
    requires GoodPlan(hist) && i < |hist| && Later(Last(hist), next) && PlanLater(Last(hist), next)
    ensures PlanLater(hist[i], next)
  {
    var a, b := hist[i], Last(hist);
    if i < |hist| - 1 {
      assert Later(a, b);
      forall c | 0 <= c < |a.slots| ensures LiveKept(a.slots[c], next.slots[c]) {
        LiveKeptTransitive(a.slots[c], b.slots[c], next.slots[c]);
      }
    }
  }

  // Step n of the run is safe.
  predicate SafeAt(init: Db, run: seq<Label>, n: nat)
    requires WellFormed(init) && n < |run|
  {
    Safe(Exec(init, run[..n]), run[n])
  }

  predicate SafeRun(init: Db, run: seq<Label>)
    requires WellFormed(init)
  {
    forall n | 0 <= n < |run| :: SafeAt(init, run, n)
  }

  lemma PrefixSafeAt(init: Db, run: seq<Label>, n: nat, m: nat)
    requires WellFormed(init) && m < n <= |run|
    ensures SafeAt(init, run[..n], m) <==> SafeAt(init, run, m)
  {
    assert run[..n][..m] == run[..m];
  }

  lemma {:induction false} SafeRunsAreGood(init: Db, run: seq<Label>)
    requires Inv(init) && AllPlans(init) && SafeRun(init, run)
    ensures GoodPlan(Exec(init, run))
  {
    if run != [] {
      var n := |run| - 1;
      forall m | 0 <= m < n ensures SafeAt(init, run[..n], m) {
        PrefixSafeAt(init, run, n, m);
      }
      SafeRunsAreGood(init, run[..n]);
      assert SafeAt(init, run, n);
      ExtendPlan(Exec(init, run[..n]), run[n]);
    }
  }

  predicate PlansAt(init: Db, run: seq<Label>, i: nat)
    requires WellFormed(init) && i <= |run|
  {
    AllPlans(Exec(init, run)[i])
  }

  lemma NextSafeIff(init: Db, run: seq<Label>, n: nat)
    requires WellFormed(init) && n < |run| && GoodPlan(Exec(init, run[..n]))
    ensures PlansAt(init, run, n + 1) <==> SafeAt(init, run, n)
  {
    hide GoodPlan, AllPlans, Safe, Apply, Exec, Inv;
    ExecNext(init, run, n);
    var before := Exec(init, run[..n]);
    assert GoodPlan(before);
    StepKeepsPlanIff(before, run[n]);
  }

  // Safe up to a state, plans are explained up to there, and one step more exactly
  // if that is safe, too.
  lemma {:induction false} ExplainedSoFar(init: Db, run: seq<Label>, n: nat)
    requires Inv(init) && n <= |run|
    requires forall i | 0 <= i <= n :: PlansAt(init, run, i)
    ensures GoodPlan(Exec(init, run[..n])) && forall m | 0 <= m < n :: SafeAt(init, run, m)
  {
    hide SafeAt, Safe, PlansAt, GoodPlan, Exec;
    assert PlansAt(init, run, n);
    if n > 0 {
      ExplainedSoFar(init, run, n - 1);
      NextSafeIff(init, run, n - 1);
      assert run[..n][..n - 1] == run[..n - 1];
      ExtendPlanAt(init, run, n - 1);
    } else {
      FirstPlans(init, run);
    }
  }

  lemma ExtendPlanAt(init: Db, run: seq<Label>, n: nat)
    requires Inv(init) && n < |run| && GoodPlan(Exec(init, run[..n])) && SafeAt(init, run, n)
    ensures GoodPlan(Exec(init, run[..n + 1]))
  {
    assert run[..n + 1][..n] == run[..n];
    ExecLast(init, run[..n + 1], Exec(init, run[..n]));
    ExtendPlan(Exec(init, run[..n]), run[n]);
  }

  lemma FirstPlans(init: Db, run: seq<Label>)
    requires Inv(init) && PlansAt(init, run, 0)
    ensures GoodPlan(Exec(init, run[..0]))
  {
    assert run[..0] == [];
    assert AllPlans(init);
  }

  // Every container's plan change is explained in every state of a run exactly when
  // it was at first and every step of the run is safe.
  lemma RunKeepsPlansIff(init: Db, run: seq<Label>)
    requires Inv(init)
    ensures (forall i | 0 <= i <= |run| :: PlansAt(init, run, i)) <==> AllPlans(init) && SafeRun(init, run)
  {
    if AllPlans(init) && SafeRun(init, run) {
      SafeRunsAreGood(init, run);
    }
    if forall i | 0 <= i <= |run| :: PlansAt(init, run, i) {
      assert PlansAt(init, run, 0);
      ExplainedSoFar(init, run, |run|);
    }
  }
}
