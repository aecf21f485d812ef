// Plan requests for one container one at a time: which of a request's steps can be
// overtaken by pollers, timeouts, owners and cron, exactly.
module FleetTurns {
  import opened Wrappers
  import opened Plans
  import opened FleetState
  import opened FleetSteps
  import opened FleetLedger
  import opened FleetSlotProofs
  import opened FleetAccounting
  import opened FleetRun
  import opened FleetTheorems
  import opened FleetPlans
  import opened FleetPlanRuns

  // ---------------------------------------------------- one container at a time

  predicate OnPlan(l: Label, c: nat) { (IsSlotStep(l) || l.ReserveStep?) && l.c == c }

  // What a step does to container c, its plan included.
  predicate PlanNextIff(db: Db, next: Db, c: nat, safe: bool) {
    && |db.slots| <= |next.slots|
    && (c < |next.slots| ==> (PlanInv(next.slots[c]) <==> safe))
    && (c < |db.slots| && safe ==> LiveKept(db.slots[c], next.slots[c]))
  }

  lemma SameElsewhere(hist: seq<Db>, l: Label, c: nat)
    requires hist != [] && WellFormed(Last(hist)) && (IsSlotStep(l) || l.JobSucceeds? || l.ReserveStep?) && l.c != c
    ensures var db, next := Last(hist), Apply(hist, l);
      |next.slots| == |db.slots| && (c < |db.slots| ==> next.slots[c] == db.slots[c])
  {
  }

  lemma PlacementPlanOf(hist: seq<Db>, l: Label, c: nat)
    requires hist != [] && WellFormed(Last(hist))
    requires !IsSlotStep(l) && !l.JobSucceeds? && !l.ReserveStep?
    requires c < |Last(hist).slots| ==> PlanInv(Last(hist).slots[c]) && SlotInv(Last(hist).slots[c])
    ensures PlanNextIff(Last(hist), Apply(hist, l), c, true)
  {
  }

  lemma SamePlanNext(db: Db, next: Db, c: nat)
    requires |next.slots| == |db.slots| && (c < |db.slots| ==> next.slots[c] == db.slots[c])
    requires c < |db.slots| ==> PlanInv(db.slots[c]) && SlotInv(db.slots[c])
    ensures PlanNextIff(db, next, c, true)
  {
  }

  lemma OnPlanNextIff(hist: seq<Db>, l: Label, c: nat)
    requires PlanOf(hist, c) && OnPlan(l, c)
    ensures PlanNextIff(Last(hist), Apply(hist, l), c, Safe(hist, l))
  {
    var db := Last(hist);
    LastPlanOf(hist, c);
    if c < |db.slots| {
      if IsSlotStep(l) { SlotPutPlanIff(hist, l, db); }
      else if Reservable(hist, c, l.rowAt, l.trAt) { ReserveStepPlanIff(hist, l, db); }
      else { SamePlanNext(db, Apply(hist, l), c); }
    }
  }

  lemma OffPlanNext(hist: seq<Db>, l: Label, c: nat)
    requires PlanOf(hist, c) && !OnPlan(l, c)
    ensures PlanNextIff(Last(hist), Apply(hist, l), c, true)
  {
    var db, next := Last(hist), Apply(hist, l);
    LastPlanOf(hist, c);
    if IsSlotStep(l) || l.ReserveStep? || (l.JobSucceeds? && l.c != c) {
      SameElsewhere(hist, l, c);
      SamePlanNext(db, next, c);
    } else if l.JobSucceeds? {
      if Observed(hist, l.c, l.k, l.rowAt, l.checkAt, l.trAt) { SettlePlanOk(hist, l, db); }
      if next == db { SamePlanNext(db, next, c); }
    } else {
      PlacementPlanOf(hist, l, c);
    }
  }

  // A step keeps the container's plan change explained exactly unless it is one on its
  // plan that is not safe, whatever happens to other containers.
  lemma StepPlanOfIff(hist: seq<Db>, l: Label, c: nat)
    requires PlanOf(hist, c)
    ensures PlanOf(hist + [Apply(hist, l)], c) <==> (OnPlan(l, c) ==> Safe(hist, l))
  {
    var safe := OnPlan(l, c) ==> Safe(hist, l);
    if OnPlan(l, c) { OnPlanNextIff(hist, l, c); } else { OffPlanNext(hist, l, c); }
    StepOk(hist, l);
    if safe {
      ExtendPlanOf(hist, Apply(hist, l), c);
    } else {
      assert (hist + [Apply(hist, l)])[|hist|] == Apply(hist, l);
      UnsafeKnowsSlot(hist, l, c);
    }
  }

  lemma UnsafeKnowsSlot(hist: seq<Db>, l: Label, c: nat)
    requires hist != [] && OnPlan(l, c) && !Safe(hist, l)
    ensures c < |Last(hist).slots|
  {
  }

  lemma ExtendPlanOf(hist: seq<Db>, next: Db, c: nat)
    requires PlanOf(hist, c) && Good(hist + [next]) && PlanNextIff(Last(hist), next, c, true)
    ensures PlanOf(hist + [next], c)
  {
    var longer := hist + [next];
    forall i | 0 <= i < |hist| && c < |hist[i].slots| ensures LiveKept(hist[i].slots[c], next.slots[c]) {
      KeptToNext(hist, next, i, c);
    }
    forall i, j | 0 <= i < j < |longer| && c < |longer[i].slots| && c < |longer[j].slots|
      ensures LiveKept(longer[i].slots[c], longer[j].slots[c])
    {
      if j == |hist| { assert longer[i] == hist[i]; }
    }
  }

  lemma KeptToNext(hist: seq<Db>, next: Db, i: nat, c: nat)
    requires PlanOf(hist, c) && Good(hist + [next]) && PlanNextIff(Last(hist), next, c, true)
    requires i < |hist| && c < |hist[i].slots|
    ensures c < |next.slots| && LiveKept(hist[i].slots[c], next.slots[c])
  {
    var longer := hist + [next];
    var n := |hist| - 1;
    assert longer[n] == Last(hist) && longer[|hist|] == next && longer[i] == hist[i];
    assert Later(longer[n], longer[|hist|]);
    if i < n {
      assert Later(longer[i], longer[n]);
      LiveKeptTransitive(hist[i].slots[c], Last(hist).slots[c], next.slots[c]);
    }
  }

  // ------------------------------------------------------ what others leave alone

  // The steps of plan requests for container c.
  predicate RequestOn(l: Label, c: nat) {
    && (l.CreateStep? || l.DeleteSettledStep? || l.CancelStep? || l.ReserveStep? || l.ReserveFallbackStep?
        || l.RetryResizeStep? || l.DeferStep? || l.QueueResize? || l.QueueDowngradeStop?)
    && l.c == c
  }

  // Where no plan change was live none is, and the size is what it was.
  predicate Unplanned(a: Slot, b: Slot) {
    !Live(a.tr) ==>
      !Live(b.tr) && (a.row.Some? && b.row.Some? && a.row.value.host.Some? ==> b.row.value.tier == a.row.value.tier)
  }

  // A live plan change keeps its request, its stop may be recorded, it goes on waiting
  // if it waited, and stays as it is while no job is under way.
  predicate SamePlan(a: Transition, b: Transition) {
    && a.from == b.from && a.to == b.to && a.targetDiskGb == b.targetDiskGb && a.reserved == b.reserved
    && (b.prior == a.prior || (a.prior.Running? && b.prior.Stopped?))
    && (Waiting(a.state) ==> Waiting(b.state))
    && (a.state.FailedRetryable? ==> b.state.FailedRetryable?)
  }

  predicate Calmly(a: Slot, b: Slot) {
    && Unplanned(a, b)
    && (Live(a.tr) && Live(b.tr) ==>
          && SamePlan(a.tr.value, b.tr.value)
          && (!Busy(a.jobs) ==> !Busy(b.jobs) && b.tr == a.tr))
  }

  lemma CalmlySelf(s: Slot)
    ensures Calmly(s, s)
  {
  }

  lemma UnplannedTransitive(a: Slot, b: Slot, c: Slot)
    requires Unplanned(a, b) && Unplanned(b, c) && SlotLater(a, b) && SlotLater(b, c)
    ensures Unplanned(a, c)
  {
  }

  lemma CalmlyTransitive(a: Slot, b: Slot, c: Slot)
    requires Calmly(a, b) && Calmly(b, c) && SlotLater(a, b) && SlotLater(b, c)
    ensures Calmly(a, c)
  {
    UnplannedTransitive(a, b, c);
  }

  lemma RowCalm(now: Slot, read: Slot, seen: Sighting)
    requires SlotInv(now) && PlanInv(now)
    ensures Calmly(now, Withdraw(now)) && Calmly(now, ShrinkWaitlisted(now)) && Calmly(now, ProvisionNotQueued(now))
    ensures Calmly(now, CorrectDrift(now, read, seen)) && Calmly(now, CancelForDestroy(now))
  {
  }

  lemma MarkCalm(now: Slot, k: nat, status: JobStatus)
    requires SlotInv(now)
    ensures Calmly(now, Mark(now, k, status))
  {
    if ActiveAt(now.jobs, k) { MarkFacts(now.jobs, k, status); }
  }

  lemma BackgroundCalm(now: Slot, op: JobOp, host: Host)
    requires SlotInv(now)
    ensures Calmly(now, EnqueueBackground(now, op, host))
  {
    if !IsLifecycle(op) { AppendFacts(now.jobs, op); }
  }

  lemma FailCalm(past: Slot, now: Slot, k: nat)
    requires ReadOf(past, now, k)
    ensures Calmly(now, FailJob(now, k, past.tr))
  {
    if ActiveAt(now.jobs, k) {
      MarkFacts(now.jobs, k, JobFailed);
      if IsLifecycle(now.jobs[k].op) { ReadsAgree(past, now, k); }
    }
  }

  lemma SettleCalm(past: Slot, now: Slot, k: nat)
    requires ReadOf(past, now, k)
    ensures Calmly(now, SettleSucceeded(now, k)) && Calmly(now, FinalizeDowngradeStop(now, k))
  {
    if ActiveAt(now.jobs, k) { MarkFacts(now.jobs, k, JobSucceeded); }
  }

  lemma ResizedCalm(past: Slot, now: Slot, next: Slot, k: nat, read: Container, at: int)
    requires ReadOf(past, now, k) && ActiveAt(now.jobs, k) && now.jobs[k].op.Resize? && IsResizing(past.tr)
    requires Resized(now, next, k, read, past.tr.value, at)
    ensures Calmly(now, next)
  {
    hide SlotInv, PlanInv, SlotLater, LiveKept, SamePlan, Busy;
    ReadsAgree(past, now, k);
  }

  // ------------------------------------------------------------- calm steps

  lemma OwnerCalm(now: Slot, op: JobOp, read: Container, host: Host)
    requires SlotInv(now) && PlanInv(now) && !read.status.UpgradePending?
    ensures Calmly(now, Enqueue(now, op, read, host))
  {
  }

  lemma QueueCalm(hist: seq<Db>, l: Label, now: Slot)
    requires hist != [] && IsQueueStep(l) && !RequestOn(l, l.c) && SlotInv(now) && PlanInv(now)
    ensures Calmly(now, QueueNext(hist, Last(hist).hosts, l, now))
  {
    var hosts, op, read := Last(hist).hosts, QueuedOp(hist, l), ReadRow(hist, l.rowAt, l.c);
    CalmlySelf(now);
    if op.Some? && IsLifecycle(op.value) && read.Some? && read.value.host.Some? && read.value.host.value < |hosts| {
      OwnerCalm(now, op.value, read.value, hosts[read.value.host.value]);
    }
    hide Calmly, SlotInv, PlanInv, Enqueue;
  }

  lemma JobCalm(hist: seq<Db>, l: Label, c: nat)
    requires PlanOf(hist, c) && IsJobStep(l) && l.c == c && c < |Last(hist).slots|
    ensures var now := Last(hist).slots[c]; Calmly(now, JobNext(hist, Last(hist).hosts, l, now))
  {
    var now, hosts := Last(hist).slots[c], Last(hist).hosts;
    LastPlanOf(hist, c);
    match l
    case QueueBackground(_, op, h) => if h < |hosts| { BackgroundCalm(now, op, hosts[h]); }
    case DispatchedStep(_, k) => MarkCalm(now, k, JobRunning);
    case Heartbeat(_, k, status) => MarkCalm(now, k, status);
    case JobFails(_, k, trAt) =>
      if JobKnown(hist, trAt, c, k) {
        PastPlan(hist, trAt, c);
        FailCalm(ReadSlot(hist, trAt, c).value, now, k);
      }
  }

  lemma SlotCalm(hist: seq<Db>, l: Label, c: nat)
    requires PlanOf(hist, c) && IsSlotStep(l) && l.c == c && c < |Last(hist).slots| && !RequestOn(l, c)
    ensures var now := Last(hist).slots[c]; Calmly(now, SlotNext(hist, Last(hist).hosts, l, now))
  {
    var now := Last(hist).slots[c];
    LastPlanOf(hist, c);
    if IsQueueStep(l) { QueueCalm(hist, l, now); }
    else if IsJobStep(l) { JobCalm(hist, l, c); }
    else if l.DriftStep? {
      var s := ReadSlot(hist, l.rowAt, c);
      if s.Some? { RowCalm(now, s.value, l.seen); }
    } else {
      RowCalm(now, now, Missing);
    }
  }

  lemma SucceedCalm(db: Db, c: nat, k: nat, pastRow: Slot, checked: Slot, pastTr: Slot, at: int)
    requires WellFormed(db) && c < |db.slots| && k < |db.slots[c].jobs|
    requires ReadOf(pastRow, db.slots[c], k) && ReadOf(checked, db.slots[c], k) && ReadOf(pastTr, db.slots[c], k)
    requires HostOf(pastRow).Some? && HostOf(pastRow).value < |db.hosts|
    ensures var next := Succeed(db, c, k, pastRow.row.value, checked.tr, pastTr.tr, at);
      |next.slots| == |db.slots| && Calmly(db.slots[c], next.slots[c])
  {
    var now := db.slots[c];
    MarkCalm(now, k, JobSucceeded);
    SettleCalm(checked, now, k);
    if now.jobs[k].op.Resize? && IsResizing(checked.tr) && IsResizing(pastTr.tr)
       && ActiveAt(now.jobs, k) && NewestLifecycle(now.jobs, k) {
      var next := FinalizePlan(db, c, k, pastRow.row.value, pastTr.tr.value, at);
      ReadIsCovered(pastRow, now, k);
      FinalizeIsResized(db, c, k, pastRow.row.value, pastTr.tr.value, at);
      ResizedCalm(pastTr, now, next.slots[c], k, pastRow.row.value, at);
    }
  }

  lemma PlacementCalm(hist: seq<Db>, l: Label, c: nat)
    requires hist != [] && WellFormed(Last(hist)) && c < |Last(hist).slots|
    requires !IsSlotStep(l) && !l.JobSucceeds? && !l.ReserveStep?
    ensures var next := Apply(hist, l); c < |next.slots| && Calmly(Last(hist).slots[c], next.slots[c])
  {
  }

  // A step that is not a plan request's for c leaves its plan change in peace.
  lemma CalmStep(hist: seq<Db>, l: Label, c: nat)
    requires PlanOf(hist, c) && c < |Last(hist).slots| && !RequestOn(l, c)
    ensures var next := Apply(hist, l); c < |next.slots| && Calmly(Last(hist).slots[c], next.slots[c])
  {
    var db := Last(hist);
    LastPlanOf(hist, c);
    if IsSlotStep(l) && l.c == c {
      SlotCalm(hist, l, c);
      SlotStepIs(hist, l);
    } else if IsSlotStep(l) || l.ReserveStep? || (l.JobSucceeds? && l.c != c) {
      SameElsewhere(hist, l, c);
      CalmlySelf(db.slots[c]);
    } else if l.JobSucceeds? {
      CalmlySelf(db.slots[c]);
      if Observed(hist, c, l.k, l.rowAt, l.checkAt, l.trAt) { SettledCalm(hist, l, c); }
    } else {
      PlacementCalm(hist, l, c);
    }
  }

  lemma SettledCalm(hist: seq<Db>, l: Label, c: nat)
    requires PlanOf(hist, c) && l.JobSucceeds? && l.c == c && Observed(hist, c, l.k, l.rowAt, l.checkAt, l.trAt)
    ensures var next := Apply(hist, l); c < |next.slots| && Calmly(Last(hist).slots[c], next.slots[c])
  {
    LastPlanOf(hist, c);
    ObservedReads(hist, c, l.k, l.rowAt, l.checkAt, l.trAt);
    SucceedCalm(Last(hist), c, l.k, ReadSlot(hist, l.rowAt, c).value, ReadSlot(hist, l.checkAt, c).value,
                ReadSlot(hist, l.trAt, c).value, l.at);
  }

  // The steps of a request but its creation plan nothing either.
  lemma RequestUnplanned(hist: seq<Db>, l: Label, c: nat)
    requires PlanOf(hist, c) && c < |Last(hist).slots| && RequestOn(l, c) && !l.CreateStep?
    ensures var next := Apply(hist, l); c < |next.slots| && Unplanned(Last(hist).slots[c], next.slots[c])
  {
    var db := Last(hist);
    LastPlanOf(hist, c);
    if l.ReserveStep? {
      if Reservable(hist, c, l.rowAt, l.trAt) {
        ReserveStepIs(hist, l);
        ReserveIsSlot(db, c, ReadRow(hist, l.rowAt, c).value, ReadTr(hist, l.trAt, c).value, l.entitled, l.at);
      }
    } else {
      SlotStepIs(hist, l);
      RequestSlotUnplanned(hist, l, db.slots[c]);
    }
  }

  lemma RequestSlotUnplanned(hist: seq<Db>, l: Label, now: Slot)
    requires hist != [] && IsSlotStep(l) && RequestOn(l, l.c) && !l.CreateStep? && SlotInv(now)
    ensures Unplanned(now, SlotNext(hist, Last(hist).hosts, l, now))
  {
  }

  lemma UnplannedStep(hist: seq<Db>, l: Label, c: nat)
    requires PlanOf(hist, c) && c < |Last(hist).slots| && !(l.CreateStep? && l.c == c)
    ensures var next := Apply(hist, l); c < |next.slots| && Unplanned(Last(hist).slots[c], next.slots[c])
  {
    if RequestOn(l, c) { RequestUnplanned(hist, l, c); } else { CalmStep(hist, l, c); }
  }

  // ---------------------------------------------------------------- stretches

  predicate CalmIn(run: seq<Label>, i: nat, n: nat, c: nat) {
    i <= n <= |run| && forall m | i <= m < n :: !RequestOn(run[m], c)
  }

  predicate NoCreateIn(run: seq<Label>, i: nat, n: nat, c: nat) {
    i <= n <= |run| && forall m | i <= m < n :: !(run[m].CreateStep? && run[m].c == c)
  }

  // Container c's plan change is explained up to state n.
  predicate PlanUpTo(init: Db, run: seq<Label>, n: nat, c: nat)
    requires WellFormed(init) && n <= |run|
  {
    PlanOf(Exec(init, run[..n]), c)
  }

  lemma PlanOfPrefix(hist: seq<Db>, k: nat, c: nat)
    requires PlanOf(hist, c) && 0 < k <= |hist|
    ensures PlanOf(hist[..k], c)
  {
  }

  lemma PlanBefore(init: Db, run: seq<Label>, i: nat, n: nat, c: nat)
    requires WellFormed(init) && i <= n <= |run| && PlanUpTo(init, run, n, c)
    ensures PlanUpTo(init, run, i, c)
  {
    ExecPrefix(init, run[..n], i);
    assert run[..n][..i] == run[..i];
    PlanOfPrefix(Exec(init, run[..n]), i + 1, c);
  }

  function SlotAt(init: Db, run: seq<Label>, i: nat, c: nat): Slot
    requires WellFormed(init) && i <= |run| && c < |Exec(init, run)[i].slots|
  {
    Exec(init, run)[i].slots[c]
  }

  lemma GrownTo(init: Db, run: seq<Label>, i: nat, n: nat, c: nat)
    requires Inv(init) && i <= n <= |run| && c < |Exec(init, run)[i].slots|
    ensures c < |Exec(init, run)[n].slots| && SlotLater(SlotAt(init, run, i, c), SlotAt(init, run, n, c))
    ensures SlotInv(SlotAt(init, run, i, c))
  {
    RunsAreGood(init, run);
    assert Inv(Exec(init, run)[i]);
    SlotLaterReflexive(SlotAt(init, run, i, c));
    if i < n { assert Later(Exec(init, run)[i], Exec(init, run)[n]); }
  }

  lemma {:induction false} CalmStretch(init: Db, run: seq<Label>, i: nat, n: nat, c: nat)
    requires Inv(init) && CalmIn(run, i, n, c) && PlanUpTo(init, run, n, c) && c < |Exec(init, run)[i].slots|
    ensures c < |Exec(init, run)[n].slots| && Calmly(SlotAt(init, run, i, c), SlotAt(init, run, n, c))
  {
    if i == n {
      CalmlySelf(SlotAt(init, run, i, c));
    } else {
      PlanBefore(init, run, n - 1, n, c);
      CalmStretch(init, run, i, n - 1, c);
      ExecNext(init, run, n - 1);
      CalmStep(Exec(init, run[..n - 1]), run[n - 1], c);
      GrownTo(init, run, i, n - 1, c);
      GrownTo(init, run, n - 1, n, c);
      CalmlyTransitive(SlotAt(init, run, i, c), SlotAt(init, run, n - 1, c), SlotAt(init, run, n, c));
    }
  }

  lemma {:induction false} UnplannedStretch(init: Db, run: seq<Label>, i: nat, n: nat, c: nat)
    requires Inv(init) && NoCreateIn(run, i, n, c) && PlanUpTo(init, run, n, c) && c < |Exec(init, run)[i].slots|
    ensures c < |Exec(init, run)[n].slots| && Unplanned(SlotAt(init, run, i, c), SlotAt(init, run, n, c))
  {
    if i < n {
      PlanBefore(init, run, n - 1, n, c);
      UnplannedStretch(init, run, i, n - 1, c);
      ExecNext(init, run, n - 1);
      UnplannedStep(Exec(init, run[..n - 1]), run[n - 1], c);
      GrownTo(init, run, i, n - 1, c);
      GrownTo(init, run, n - 1, n, c);
      UnplannedTransitive(SlotAt(init, run, i, c), SlotAt(init, run, n - 1, c), SlotAt(init, run, n, c));
    }
  }

  // ------------------------------------------------------------- taking turns

  // Step m of the run reserved for the container's resize, or retried it.
  predicate Started(hist: seq<Db>, run: seq<Label>, m: nat, c: nat) {
    && m < |run| && m + 1 < |hist| && c < |hist[m + 1].slots|
    && match run[m]
       case ReserveStep(b, rowAt, trAt, _, _) =>
         b == c && Reservable(hist[..m + 1], c, rowAt, trAt) && IsResizing(hist[m + 1].slots[c].tr)
       case RetryResizeStep(b, trAt) =>
         b == c && ReadTr(hist[..m + 1], trAt, c).Some? && MayRetryResize(ReadTr(hist[..m + 1], trAt, c).value)
       case _ => false
  }

  // As step n of the run, since it read what it acts on no other request for c has
  // taken a step: a creation since the container was read, any other since the plan
  // row was, and a resize is queued right after its reservation or retry.
  predicate InTurn(hist: seq<Db>, run: seq<Label>, start: nat, l: Label, n: nat, c: nat) {
    match l
    case CreateStep(_, _, rowAt) => NoCreateIn(run, rowAt, n, c)
    case DeleteSettledStep(_, trAt) => CalmIn(run, trAt, n, c)
    case ReserveStep(_, _, trAt, _, _) => CalmIn(run, trAt, n, c)
    case RetryResizeStep(_, trAt) => CalmIn(run, trAt, n, c)
    case QueueDowngradeStop(_, _, trAt) => CalmIn(run, trAt, n, c)
    case QueueResize(_, _, _) => exists m | start <= m < n :: Started(hist, run, m, c) && CalmIn(run, m + 1, n, c)
    case _ => true
  }

  predicate TurnAt(hist: seq<Db>, run: seq<Label>, start: nat, n: nat, c: nat)
    requires n < |run|
  {
    RequestOn(run[n], c) ==> InTurn(hist, run, start, run[n], n, c)
  }

  // A creation meets another status than the request read; or a stop meets a plan
  // change whose own stop has been recorded since, and would be queued once more.
  predicate Outdated(hist: seq<Db>, l: Label)
    requires hist != []
  {
    var db := Last(hist);
    match l
    case CreateStep(c, to, rowAt) =>
      c < |db.slots| &&
      var now, row := db.slots[c], ReadRow(hist, rowAt, c);
      && Creates(row, to) && now.row.Some? && now.tr.None? && !Busy(now.jobs)
      && now.row.value.status != row.value.status
    case QueueDowngradeStop(c, rowAt, trAt) =>
      c < |db.slots| &&
      var now, row := db.slots[c], ReadRow(hist, rowAt, c);
      && QueuedOp(hist, l) == Some(Stop) && row.value.host.Some? && row.value.host.value < |db.hosts|
      && Live(now.tr) && now.tr.value.prior.Stopped? && MayEnqueue(now, Stop, row.value, db.hosts[row.value.host.value])
    case _ => false
  }

  // The read of a state of the run is the slot of that state.
  lemma ReadInRun(init: Db, run: seq<Label>, i: nat, n: nat, c: nat)
    requires Inv(init) && i <= n <= |run|
    ensures var s := ReadSlot(Exec(init, run[..n]), i, c);
      && (s.Some? <==> c < |Exec(init, run)[i].slots|)
      && (s.Some? ==> s.value == SlotAt(init, run, i, c))
    ensures Last(Exec(init, run[..n])) == Exec(init, run)[n]
  {
    ExecPrefix(init, run, n);
  }

  // -------------------------------------------------- a turn is safe, slot by slot

  lemma CreateTurnIff(past: Slot, now: Slot, to: Tier)
    requires SlotInv(past) && SlotInv(now) && PlanInv(past) && PlanInv(now)
    requires SlotLater(past, now) && Unplanned(past, now)
    requires Creates(past.row, to)
    ensures CreateFits(now, past.row.value) <==>
      !(now.row.Some? && now.tr.None? && !Busy(now.jobs) && now.row.value.status != past.row.value.status)
  {
  }

  lemma DeleteTurnOk(past: Slot, now: Slot)
    requires Calmly(past, now) && past.tr.Some? && Settled(past.tr.value)
    ensures !Live(now.tr)
  {
  }

  lemma RetryTurnOk(past: Slot, now: Slot)
    requires SlotInv(past) && SlotInv(now) && PlanInv(now) && Calmly(past, now)
    requires past.tr.Some? && MayRetryResize(past.tr.value)
    ensures RetryFits(now)
    ensures Live(RetryResize(now).tr) ==> IsResizing(RetryResize(now).tr) && !Busy(RetryResize(now).jobs)
  {
  }

  lemma StopTurnIff(past: Slot, now: Slot, read: Container, host: Host)
    requires SlotInv(past) && SlotInv(now) && PlanInv(past) && PlanInv(now) && Calmly(past, now)
    requires past.tr.Some? && past.tr.value.to.Free? && past.tr.value.prior.Running?
    ensures QueueFits(now, Stop, read, host) <==>
      !(Live(now.tr) && now.tr.value.prior.Stopped? && MayEnqueue(now, Stop, read, host))
  {
  }

  lemma ReserveTurnOk(past: Slot, now: Slot, host: Host, read: Container, entitled: bool, at: int)
    requires SlotInv(past) && SlotInv(now) && PlanInv(now) && Calmly(past, now)
    requires past.tr.Some? && MayReserve(past.tr.value)
    ensures ReserveFits(now, host, read, past.tr.value, entitled, at)
  {
    hide HostReserves, RequestedAmount;
  }

  // A live plan change is about to be resized.
  predicate Ready(s: Slot) { Live(s.tr) ==> IsResizing(s.tr) && !Busy(s.jobs) }

  lemma ResizeTurnOk(started: Slot, now: Slot, read: Container, host: Host)
    requires Calmly(started, now) && Ready(started)
    ensures QueueFits(now, Resize, read, host)
  {
  }

  // -------------------------------------------------------- a turn within a run

  // What a step read of the container before its turn, and what it meets.
  lemma CalmTurn(init: Db, run: seq<Label>, i: nat, n: nat, c: nat) returns (past: Slot, now: Slot)
    requires Inv(init) && CalmIn(run, i, n, c) && PlanUpTo(init, run, n, c)
    requires ReadSlot(Exec(init, run[..n]), i, c).Some?
    ensures var hist := Exec(init, run[..n]);
      past == ReadSlot(hist, i, c).value && c < |Last(hist).slots| && now == Last(hist).slots[c]
    ensures SlotInv(past) && SlotInv(now) && PlanInv(past) && PlanInv(now) && Calmly(past, now)
  {
    var hist := Exec(init, run[..n]);
    ReadInRun(init, run, i, n, c);
    CalmStretch(init, run, i, n, c);
    PastPlan(hist, i, c);
    past, now := ReadSlot(hist, i, c).value, Last(hist).slots[c];
  }

  lemma CreateInTurn(init: Db, run: seq<Label>, start: nat, n: nat, c: nat)
    requires Inv(init) && n < |run| && PlanUpTo(init, run, n, c) && run[n].CreateStep? && run[n].c == c
    requires InTurn(Exec(init, run), run, start, run[n], n, c)
    ensures var hist := Exec(init, run[..n]); Safe(hist, run[n]) <==> !Outdated(hist, run[n])
  {
    var hist, l := Exec(init, run[..n]), run[n];
    if Creates(ReadRow(hist, l.rowAt, c), l.to) {
      ReadInRun(init, run, l.rowAt, n, c);
      UnplannedStretch(init, run, l.rowAt, n, c);
      PastPlan(hist, l.rowAt, c);
      CreateTurnIff(ReadSlot(hist, l.rowAt, c).value, Last(hist).slots[c], l.to);
    }
    hide PlanUpTo, Exec, CreateFits;
  }

  lemma DeleteInTurn(init: Db, run: seq<Label>, start: nat, n: nat, c: nat)
    requires Inv(init) && n < |run| && PlanUpTo(init, run, n, c) && run[n].DeleteSettledStep? && run[n].c == c
    requires InTurn(Exec(init, run), run, start, run[n], n, c)
    ensures Safe(Exec(init, run[..n]), run[n])
  {
    var hist, l := Exec(init, run[..n]), run[n];
    if ReadTr(hist, l.trAt, c).Some? && Settled(ReadTr(hist, l.trAt, c).value) {
      var past, now := CalmTurn(init, run, l.trAt, n, c);
      DeleteTurnOk(past, now);
    }
  }

  lemma RetryInTurn(init: Db, run: seq<Label>, start: nat, n: nat, c: nat)
    requires Inv(init) && n < |run| && PlanUpTo(init, run, n, c) && run[n].RetryResizeStep? && run[n].c == c
    requires InTurn(Exec(init, run), run, start, run[n], n, c)
    ensures Safe(Exec(init, run[..n]), run[n])
  {
    var hist, l := Exec(init, run[..n]), run[n];
    if ReadTr(hist, l.trAt, c).Some? && MayRetryResize(ReadTr(hist, l.trAt, c).value) {
      var past, now := CalmTurn(init, run, l.trAt, n, c);
      RetryTurnOk(past, now);
    }
  }

  lemma ReserveInTurn(init: Db, run: seq<Label>, start: nat, n: nat, c: nat)
    requires Inv(init) && n < |run| && PlanUpTo(init, run, n, c) && run[n].ReserveStep? && run[n].c == c
    requires InTurn(Exec(init, run), run, start, run[n], n, c)
    ensures Safe(Exec(init, run[..n]), run[n])
  {
    var hist, l := Exec(init, run[..n]), run[n];
    if Reservable(hist, c, l.rowAt, l.trAt) {
      var past, now := CalmTurn(init, run, l.trAt, n, c);
      var read := ReadRow(hist, l.rowAt, c).value;
      SafeReserveIff(hist, l);
      ReserveTurnOk(past, now, Last(hist).hosts[read.host.value], read, l.entitled, l.at);
    }
    hide PlanUpTo, Exec, ReserveFits;
  }

  lemma StopInTurn(init: Db, run: seq<Label>, start: nat, n: nat, c: nat)
    requires Inv(init) && n < |run| && PlanUpTo(init, run, n, c) && run[n].QueueDowngradeStop? && run[n].c == c
    requires InTurn(Exec(init, run), run, start, run[n], n, c)
    ensures var hist := Exec(init, run[..n]); Safe(hist, run[n]) <==> !Outdated(hist, run[n])
  {
    var hist, l := Exec(init, run[..n]), run[n];
    if QueuedOp(hist, l).Some? {
      var past, now := CalmTurn(init, run, l.trAt, n, c);
      var read := ReadRow(hist, l.rowAt, c).value;
      if read.host.Some? && read.host.value < |Last(hist).hosts| {
        StopTurnIff(past, now, read, Last(hist).hosts[read.host.value]);
      }
    }
    hide PlanUpTo, Exec, QueueFits;
  }

  lemma ReservedReady(past: Slot, now: Slot, host: Host, read: Container, readTr: Transition, at: int)
    requires SlotInv(past) && PlanInv(past) && SlotInv(now) && PlanInv(now) && Calmly(past, now)
    requires past.tr.Some? && MayReserve(past.tr.value)
    ensures !IsResizing(now.tr)
    ensures Claimable(now) && IsResizing(ReservedSlot(now, host, read, readTr, at).tr) ==>
      Ready(ReservedSlot(now, host, read, readTr, at))
  {
  }

  lemma StartedReady(init: Db, run: seq<Label>, start: nat, m: nat, c: nat)
    requires Inv(init) && m < |run| && PlanUpTo(init, run, m, c) && Started(Exec(init, run), run, m, c)
    requires InTurn(Exec(init, run), run, start, run[m], m, c)
    ensures c < |Exec(init, run)[m + 1].slots| && Ready(SlotAt(init, run, m + 1, c))
  {
    var hist, l := Exec(init, run[..m]), run[m];
    ExecPrefix(init, run, m);
    ExecNext(init, run, m);
    var past, now := CalmTurn(init, run, l.trAt, m, c);
    if l.ReserveStep? {
      var read, readTr := ReadRow(hist, l.rowAt, c).value, ReadTr(hist, l.trAt, c).value;
      ReserveStepIs(hist, l);
      ReserveIsSlot(Last(hist), c, read, readTr, l.entitled, l.at);
      ReservedReady(past, now, Last(hist).hosts[read.host.value], read, readTr, l.at);
    } else {
      RetryTurnOk(past, now);
      SlotStepIs(hist, l);
    }
  }

  // The container as the resize to be queued meets it.
  lemma StartedStretch(init: Db, run: seq<Label>, start: nat, m: nat, n: nat, c: nat)
    requires Inv(init) && start <= m < n <= |run| && PlanUpTo(init, run, n, c)
    requires Started(Exec(init, run), run, m, c) && CalmIn(run, m + 1, n, c)
    requires InTurn(Exec(init, run), run, start, run[m], m, c)
    ensures c < |Exec(init, run)[m + 1].slots| && Ready(SlotAt(init, run, m + 1, c))
    ensures c < |Last(Exec(init, run[..n])).slots|
    ensures Calmly(SlotAt(init, run, m + 1, c), Last(Exec(init, run[..n])).slots[c])
  {
    PlanBefore(init, run, m, n, c);
    StartedReady(init, run, start, m, c);
    CalmStretch(init, run, m + 1, n, c);
    ReadInRun(init, run, n, n, c);
  }

  lemma ResizeInTurn(init: Db, run: seq<Label>, start: nat, n: nat, c: nat)
    requires WellFormed(init) && Inv(init) && n < |run| && PlanUpTo(init, run, n, c)
    requires run[n].QueueResize? && run[n].c == c
    requires InTurn(Exec(init, run), run, start, run[n], n, c)
    requires forall m | start <= m < n :: TurnAt(Exec(init, run), run, start, m, c)
    ensures Safe(Exec(init, run[..n]), run[n])
  {
    hide Exec, PlanUpTo, Started, CalmIn, InTurn, TurnAt, Ready, Calmly, Safe, Inv;
    var m := StartedBefore(Exec(init, run), run, start, n, c);
    StartedStretch(init, run, start, m, n, c);
    ReadySafe(SlotAt(init, run, m + 1, c), Exec(init, run[..n]), run[n], c);
  }

  lemma StartedBefore(hist: seq<Db>, run: seq<Label>, start: nat, n: nat, c: nat) returns (m: nat)
    requires n < |run| && run[n].QueueResize? && InTurn(hist, run, start, run[n], n, c)
    requires forall m | start <= m < n :: TurnAt(hist, run, start, m, c)
    ensures start <= m < n && Started(hist, run, m, c) && CalmIn(run, m + 1, n, c)
    ensures InTurn(hist, run, start, run[m], m, c)
  {
    m :| start <= m < n && Started(hist, run, m, c) && CalmIn(run, m + 1, n, c);
    assert TurnAt(hist, run, start, m, c);
  }

  lemma ReadySafe(started: Slot, hist: seq<Db>, l: Label, c: nat)
    requires hist != [] && l.QueueResize? && l.c == c && c < |Last(hist).slots|
    requires Ready(started) && Calmly(started, Last(hist).slots[c])
    ensures Safe(hist, l)
  {
    hide Ready, Calmly, QueueFits;
    var op, row := QueuedOp(hist, l), ReadRow(hist, l.rowAt, c);
    if op.Some? && row.Some? && row.value.host.Some? && row.value.host.value < |Last(hist).hosts| {
      ResizeTurnOk(started, Last(hist).slots[c], row.value, Last(hist).hosts[row.value.host.value]);
    }
  }

  // A request's step in its turn is safe exactly unless it is outdated.
  lemma TurnSafeIff(init: Db, run: seq<Label>, start: nat, n: nat, c: nat)
    requires Inv(init) && start <= n < |run| && PlanUpTo(init, run, n, c)
    requires forall m | start <= m <= n :: TurnAt(Exec(init, run), run, start, m, c)
    ensures (OnPlan(run[n], c) ==> Safe(Exec(init, run[..n]), run[n])) <==>
            (RequestOn(run[n], c) ==> !Outdated(Exec(init, run[..n]), run[n]))
  {
    var l := run[n];
    assert TurnAt(Exec(init, run), run, start, n, c);
    hide PlanUpTo, Exec, Inv;
    if l.CreateStep? && l.c == c { CreateInTurn(init, run, start, n, c); }
    else if l.DeleteSettledStep? && l.c == c { DeleteInTurn(init, run, start, n, c); }
    else if l.RetryResizeStep? && l.c == c { RetryInTurn(init, run, start, n, c); }
    else if l.ReserveStep? && l.c == c { ReserveInTurn(init, run, start, n, c); }
    else if l.QueueDowngradeStop? && l.c == c { StopInTurn(init, run, start, n, c); }
    else if l.QueueResize? && l.c == c { ResizeInTurn(init, run, start, n, c); }
    else { OthersAreSafe(Exec(init, run[..n]), l, c); }
  }

  lemma OthersAreSafe(hist: seq<Db>, l: Label, c: nat)
    requires hist != [] && !(RequestOn(l, c) && !l.CancelStep? && !l.ReserveFallbackStep? && !l.DeferStep?)
    ensures OnPlan(l, c) ==> Safe(hist, l)
    ensures RequestOn(l, c) ==> !Outdated(hist, l)
  {
  }

  predicate OutdatedAt(init: Db, run: seq<Label>, n: nat, c: nat)
    requires WellFormed(init) && n < |run|
  {
    RequestOn(run[n], c) && Outdated(Exec(init, run[..n]), run[n])
  }

  // No step from `start` on is an outdated one of a request for c.
  predicate NoneOutdated(init: Db, run: seq<Label>, start: nat, n: nat, c: nat)
    requires WellFormed(init) && n <= |run|
  {
    forall m | start <= m < n :: !OutdatedAt(init, run, m, c)
  }

  lemma NextTurnIff(init: Db, run: seq<Label>, start: nat, n: nat, c: nat)
    requires Inv(init) && start <= n < |run| && PlanUpTo(init, run, n, c)
    requires forall m | start <= m <= n :: TurnAt(Exec(init, run), run, start, m, c)
    ensures PlanUpTo(init, run, n + 1, c) <==> !OutdatedAt(init, run, n, c)
  {
    TurnSafeIff(init, run, start, n, c);
    assert run[..n + 1][..n] == run[..n];
    ExecLast(init, run[..n + 1], Exec(init, run[..n]));
    StepPlanOfIff(Exec(init, run[..n]), run[n], c);
    hide Exec, Outdated, Safe, PlanOf, RequestOn, OnPlan, TurnAt;
  }

  // With the requests for c one at a time, its plan change stays explained exactly when
  // no creation meets a status that has changed since it was read and no stop is queued
  // for a downgrade already stopped; whatever pollers, timeouts, owners, cron and the
  // requests for other containers do in between, with reads however old.
  lemma {:induction false} TurnsKeepPlanIff(init: Db, run: seq<Label>, start: nat, n: nat, c: nat)
    requires Inv(init) && start <= n <= |run| && PlanUpTo(init, run, start, c)
    requires forall m | start <= m < n :: TurnAt(Exec(init, run), run, start, m, c)
    ensures PlanUpTo(init, run, n, c) <==> NoneOutdated(init, run, start, n, c)
  {
    hide PlanUpTo, TurnAt, OutdatedAt, Exec;
    if n > start {
      TurnsKeepPlanIff(init, run, start, n - 1, c);
      if PlanUpTo(init, run, n, c) { PlanBefore(init, run, n - 1, n, c); }
      if PlanUpTo(init, run, n - 1, c) { NextTurnIff(init, run, start, n - 1, c); }
    }
  }

  // ------------------------------------------------------------ a growing run

  predicate Turns(hist: seq<Db>, run: seq<Label>, start: nat, c: nat) {
    forall n | start <= n < |run| :: TurnAt(hist, run, start, n, c)
  }

  predicate Calm(labels: seq<Label>, c: nat) { forall m | 0 <= m < |labels| :: !RequestOn(labels[m], c) }

  // The run has gone on.
  predicate GoesOn(hist: seq<Db>, run: seq<Label>, next: seq<Db>, longer: seq<Label>) {
    |hist| == |run| + 1 && |next| == |longer| + 1 && hist <= next && run <= longer
  }

  lemma StartedStays(hist: seq<Db>, run: seq<Label>, next: seq<Db>, longer: seq<Label>, m: nat, c: nat)
    requires GoesOn(hist, run, next, longer) && Started(hist, run, m, c)
    ensures Started(next, longer, m, c)
  {
    assert hist[..m + 1] == next[..m + 1];
  }

  lemma InTurnStays(hist: seq<Db>, run: seq<Label>, next: seq<Db>, longer: seq<Label>, start: nat, l: Label, n: nat,
                    c: nat)
    requires GoesOn(hist, run, next, longer) && n <= |run| && InTurn(hist, run, start, l, n, c)
    ensures InTurn(next, longer, start, l, n, c)
  {
    if l.QueueResize? {
      var m :| start <= m < n && Started(hist, run, m, c) && CalmIn(run, m + 1, n, c);
      StartedStays(hist, run, next, longer, m, c);
      assert CalmIn(longer, m + 1, n, c);
    }
  }

  lemma TurnsGoOn(hist: seq<Db>, run: seq<Label>, next: seq<Db>, longer: seq<Label>, start: nat, c: nat)
    requires GoesOn(hist, run, next, longer) && Turns(hist, run, start, c)
    requires forall n | |run| <= n < |longer| :: TurnAt(next, longer, start, n, c)
    ensures Turns(next, longer, start, c)
  {
    forall n | start <= n < |longer| ensures TurnAt(next, longer, start, n, c) {
      if n < |run| {
        assert TurnAt(hist, run, start, n, c);
        if RequestOn(run[n], c) { InTurnStays(hist, run, next, longer, start, run[n], n, c); }
      }
    }
  }

  // After others' steps.
  lemma TurnsAfterCalm(hist: seq<Db>, run: seq<Label>, next: seq<Db>, longer: seq<Label>, labels: seq<Label>,
                       start: nat, c: nat)
    requires GoesOn(hist, run, next, longer) && longer == run + labels && Calm(labels, c)
    ensures Turns(hist, run, start, c) ==> Turns(next, longer, start, c)
  {
    if Turns(hist, run, start, c) {
      forall n | |run| <= n < |longer| ensures TurnAt(next, longer, start, n, c) {
        assert longer[n] == labels[n - |run|];
      }
      TurnsGoOn(hist, run, next, longer, start, c);
    }
  }

  // After a step of one's own in its turn, and then others'.
  lemma TurnsAfterStep(hist: seq<Db>, run: seq<Label>, next: seq<Db>, longer: seq<Label>, l: Label, labels: seq<Label>,
                       start: nat, c: nat)
    requires GoesOn(hist, run, next, longer) && longer == run + [l] + labels && Calm(labels, c)
    requires RequestOn(l, c) ==> InTurn(hist, run, start, l, |run|, c)
    ensures Turns(hist, run, start, c) ==> Turns(next, longer, start, c)
  {
    if RequestOn(l, c) { InTurnStays(hist, run, next, longer, start, l, |run|, c); }
    if Turns(hist, run, start, c) {
      forall n | |run| <= n < |longer| ensures TurnAt(next, longer, start, n, c) {
        if n > |run| { assert longer[n] == labels[n - |run| - 1]; }
      }
      TurnsGoOn(hist, run, next, longer, start, c);
    }
  }

  // Peace lasts through others' steps.
  lemma CalmGoesOn(run: seq<Label>, labels: seq<Label>, i: nat, c: nat)
    requires Calm(labels, c)
    ensures CalmIn(run, i, |run|, c) ==> CalmIn(run + labels, i, |run + labels|, c)
    ensures NoCreateIn(run, i, |run|, c) ==> NoCreateIn(run + labels, i, |run + labels|, c)
  {
    forall m | |run| <= m < |run + labels| ensures !RequestOn((run + labels)[m], c) {
      assert (run + labels)[m] == labels[m - |run|];
    }
  }

  lemma CalmHere(run: seq<Label>, c: nat)
    ensures CalmIn(run, |run|, |run|, c)
  {
  }

  lemma ResizeIsInTurn(hist: seq<Db>, run: seq<Label>, start: nat, l: Label, m: nat, c: nat)
    requires l.QueueResize? && start <= m && Started(hist, run, m, c) && CalmIn(run, m + 1, |run|, c)
    ensures InTurn(hist, run, start, l, |run|, c)
  {
  }
}
