// What the end of a lifecycle job leaves behind, decided by the container's plan
// change as it is and not by what the settler read, in every safe run.
module FleetOutcomes {
  import opened Wrappers
  import opened Plans
  import opened FleetState
  import opened FleetSteps
  import opened FleetSlotProofs
  import opened FleetRun
  import opened FleetPlans
  import opened FleetPlanRuns

  predicate Settling(past: Slot, now: Slot, k: nat) {
    && ReadOf(past, now, k)
    && ActiveAt(now.jobs, k) && IsLifecycle(now.jobs[k].op)
  }

  // A failed job of a live plan change leaves it to be retried; any other leaves the
  // container in error, never waiting for a job that has ended.
  predicate Failed(now: Slot, next: Slot, k: nat)
    requires k < |now.jobs|
  {
    && next.jobs == now.jobs[k := Job(now.jobs[k].op, JobFailed)]
    && next.row.Some? && now.row.Some?
    && (if Live(now.tr)
        then next.row.value == now.row.value.(status := UpgradePending)
             && next.tr == Some(now.tr.value.(state := FailedRetryable))
        else next.row.value == now.row.value.(status := Error) && next.tr == now.tr)
  }

  lemma FailureOutcome(past: Slot, now: Slot, k: nat)
    requires Settling(past, now, k)
    ensures Failed(now, FailJob(now, k, past.tr), k)
  {
    ReadsAgree(past, now, k);
    ActiveIsNewest(now.jobs, k);
    assert Busy(now.jobs);
    MarkFacts(now.jobs, k, JobFailed);
  }

  // A success finishes the stage the plan change was in, or sets the status its own
  // operation promises; a destroyed container is gone with its plan row.
  predicate Succeeded(now: Slot, next: Slot, k: nat)
    requires k < |now.jobs|
  {
    var op := now.jobs[k].op;
    && next.jobs == now.jobs[k := Job(op, JobSucceeded)]
    && now.row.Some?
    && (if op.Destroy? then next.row.None? && next.tr.None?
        else if op.Stop? && Live(now.tr) then
          && next.row == Some(now.row.value.(status := UpgradePending))
          && next.tr == Some(now.tr.value.(prior := Stopped))
        else if op.Resize? && Live(now.tr) then
          && next.row.Some? && next.row.value.tier == now.tr.value.to
          && next.row.value.ramMb == RamMb(now.tr.value.to) && next.row.value.diskGb == now.tr.value.targetDiskGb
          && next.row.value.host == now.row.value.host
          && next.row.value.status == (if now.tr.value.to.Free? then Stopped else now.tr.value.prior)
          && next.tr == Some(now.tr.value.(state := Complete))
        else
          && next.row == Some(now.row.value.(status := if op.Stop? then Stopped else Running))
          && next.tr == now.tr)
  }

  lemma OrdinarySuccess(past: Slot, now: Slot, k: nat)
    requires Settling(past, now, k) && !now.jobs[k].op.Destroy?
    requires !(now.jobs[k].op.Stop? && StoppingDowngrade(past.tr))
    requires !(now.jobs[k].op.Resize? && IsResizing(past.tr))
    ensures Succeeded(now, SettleSucceeded(now, k), k)
  {
    ReadsAgree(past, now, k);
    ActiveIsNewest(now.jobs, k);
    assert Busy(now.jobs);
  }

  lemma StopSuccess(past: Slot, now: Slot, k: nat)
    requires Settling(past, now, k) && now.jobs[k].op.Stop? && StoppingDowngrade(past.tr)
    ensures Succeeded(now, FinalizeDowngradeStop(now, k), k)
  {
    ReadsAgree(past, now, k);
    ActiveIsNewest(now.jobs, k);
    assert Busy(now.jobs);
  }

  lemma ResizeSuccess(db: Db, c: nat, k: nat, pastRow: Slot, pastTr: Slot, at: int)
    requires WellFormed(db) && c < |db.slots| && Settling(pastRow, db.slots[c], k) && Settling(pastTr, db.slots[c], k)
    requires db.slots[c].jobs[k].op.Resize? && IsResizing(pastTr.tr)
    requires HostOf(pastRow).Some? && HostOf(pastRow).value < |db.hosts|
    ensures var next := FinalizePlan(db, c, k, pastRow.row.value, pastTr.tr.value, at);
      |next.slots| == |db.slots| && Succeeded(db.slots[c], next.slots[c], k)
  {
    ActiveIsNewest(db.slots[c].jobs, k);
    assert Busy(db.slots[c].jobs);
    var next := FinalizePlan(db, c, k, pastRow.row.value, pastTr.tr.value, at).slots[c];
    ResizedSuccess(pastTr, db.slots[c], next, k, at);
  }

  // The batch's effect on job, row and plan row.
  predicate RowsResized(now: Slot, next: Slot, k: nat, tr: Transition, at: int) {
    && k < |now.jobs|
    && next.jobs == now.jobs[k := now.jobs[k].(status := JobSucceeded)]
    && next.row.Some? && now.row.Some?
    && next.row.value == now.row.value.(
         tier := tr.to, mode := Shared, ramMb := RamMb(tr.to), diskGb := tr.targetDiskGb,
         status := if tr.to.Free? then Stopped else tr.prior, lastUpgradedAt := Some(at))
    && next.tr == (if IsResizing(now.tr) then Some(now.tr.value.(state := Complete)) else now.tr)
  }

  lemma ResizedSuccess(pastTr: Slot, now: Slot, next: Slot, k: nat, at: int)
    requires Settling(pastTr, now, k) && now.jobs[k].op.Resize? && IsResizing(pastTr.tr)
    requires RowsResized(now, next, k, pastTr.tr.value, at)
    ensures Succeeded(now, next, k)
  {
    ReadsAgree(pastTr, now, k);
    assert pastTr.tr.value.prior == now.tr.value.prior;
  }

  lemma DestroySuccess(db: Db, c: nat, k: nat, pastRow: Slot, pastTr: Slot)
    requires WellFormed(db) && c < |db.slots| && Settling(pastRow, db.slots[c], k)
    requires db.slots[c].jobs[k].op.Destroy?
    requires HostOf(pastRow).Some? && HostOf(pastRow).value < |db.hosts|
    ensures var next := FinalizeDestroy(db, c, k, pastRow.row.value, pastTr.tr);
      |next.slots| == |db.slots| && Succeeded(db.slots[c], next.slots[c], k)
  {
    ActiveIsNewest(db.slots[c].jobs, k);
    assert Busy(db.slots[c].jobs);
  }

  // One poller's two reads of the plan row decide alike, and as the row is.
  lemma SuccessOutcome(db: Db, c: nat, k: nat, pastRow: Slot, checked: Slot, pastTr: Slot, at: int)
    requires WellFormed(db) && c < |db.slots| && Settling(pastRow, db.slots[c], k)
    requires Settling(checked, db.slots[c], k) && Settling(pastTr, db.slots[c], k)
    requires HostOf(pastRow).Some? && HostOf(pastRow).value < |db.hosts|
    ensures var next := Succeed(db, c, k, pastRow.row.value, checked.tr, pastTr.tr, at);
      |next.slots| == |db.slots| && Succeeded(db.slots[c], next.slots[c], k)
  {
    var now := db.slots[c];
    ReadsAgree(checked, now, k);
    ReadsAgree(pastTr, now, k);
    if now.jobs[k].op.Destroy? {
      DestroySuccess(db, c, k, pastRow, pastTr);
    } else if now.jobs[k].op.Stop? && StoppingDowngrade(checked.tr) {
      StopSuccess(checked, now, k);
    } else if now.jobs[k].op.Resize? && IsResizing(checked.tr) {
      ResizeSuccess(db, c, k, pastRow, pastTr, at);
    } else {
      OrdinarySuccess(checked, now, k);
    }
  }

  // In a safe run, whoever settles job k first, with reads however old.
  lemma FailedAsPlanned(hist: seq<Db>, c: nat, k: nat, trAt: nat)
    requires GoodPlan(hist) && c < |Last(hist).slots| && JobKnown(hist, trAt, c, k)
    requires ActiveAt(Last(hist).slots[c].jobs, k) && IsLifecycle(Last(hist).slots[c].jobs[k].op)
    ensures var next := Apply(hist, JobFails(c, k, trAt));
      |next.slots| == |Last(hist).slots| && Failed(Last(hist).slots[c], next.slots[c], k)
  {
    PlanOfGood(hist, c);
    PastPlan(hist, trAt, c);
    FailureOutcome(ReadSlot(hist, trAt, c).value, Last(hist).slots[c], k);
  }

  lemma WellFormedPlan(hist: seq<Db>, c: nat)
    requires hist != [] && PlanOf(hist, c)
    ensures WellFormed(Last(hist))
  {
  }

  lemma SucceededAsPlanned(hist: seq<Db>, c: nat, k: nat, rowAt: nat, checkAt: nat, trAt: nat, at: int)
    requires hist != [] && GoodPlan(hist) && Observed(hist, c, k, rowAt, checkAt, trAt)
    requires ActiveAt(Last(hist).slots[c].jobs, k) && IsLifecycle(Last(hist).slots[c].jobs[k].op)
    ensures var next := Apply(hist, JobSucceeds(c, k, rowAt, checkAt, trAt, at));
      |next.slots| == |Last(hist).slots| && Succeeded(Last(hist).slots[c], next.slots[c], k)
  {
    hide GoodPlan, PlanOf, ReadOf, Succeeded, Succeed;
    PlanOfGood(hist, c);
    WellFormedPlan(hist, c);
    ObservedReads(hist, c, k, rowAt, checkAt, trAt);
    SuccessOutcome(Last(hist), c, k, ReadSlot(hist, rowAt, c).value, ReadSlot(hist, checkAt, c).value,
                   ReadSlot(hist, trAt, c).value, at);
  }

  // ------------------------------------------------------------ background jobs

  predicate InBackground(op: JobOp) { op.SyncKeys? || op.RefreshCredentials? || op.ExportWindow? }

  // Job k of container c has ended, and everything else is as it was.
  predicate OnlyEnds(db: Db, next: Db, c: nat, k: nat, status: JobStatus)
    requires c < |db.slots| && k < |db.slots[c].jobs|
  {
    var now := db.slots[c];
    && next.hosts == db.hosts && next.lost == db.lost && |next.slots| == |db.slots|
    && (forall i | 0 <= i < |db.slots| && i != c :: next.slots[i] == db.slots[i])
    && next.slots[c] == now.(jobs := now.jobs[k := Job(now.jobs[k].op, status)])
  }

  // In any run a background job fails without disturbing its container, plan change or
  // host, and a settled one is left alone.
  lemma BackgroundFailsAlone(hist: seq<Db>, c: nat, k: nat, trAt: nat)
    requires hist != [] && WellFormed(Last(hist)) && c < |Last(hist).slots| && JobKnown(hist, trAt, c, k)
    requires k < |Last(hist).slots[c].jobs| && InBackground(Last(hist).slots[c].jobs[k].op)
    ensures var db, next := Last(hist), Apply(hist, JobFails(c, k, trAt));
      var status := db.slots[c].jobs[k].status;
      if status.JobQueued? || status.JobRunning? then OnlyEnds(db, next, c, k, JobFailed) else next == db
  {
    SlotStepIs(hist, JobFails(c, k, trAt));
    hide Apply;
    var db := Last(hist);
    assert db.slots[c := db.slots[c]] == db.slots;
  }

  lemma BackgroundSucceedsAlone(hist: seq<Db>, c: nat, k: nat, rowAt: nat, checkAt: nat, trAt: nat, at: int)
    requires hist != [] && WellFormed(Last(hist)) && Observed(hist, c, k, rowAt, checkAt, trAt)
    requires InBackground(Last(hist).slots[c].jobs[k].op)
    ensures var db, next := Last(hist), Apply(hist, JobSucceeds(c, k, rowAt, checkAt, trAt, at));
      var status := db.slots[c].jobs[k].status;
      if status.JobQueued? || status.JobRunning? then OnlyEnds(db, next, c, k, JobSucceeded) else next == db
  {
    var db := Last(hist);
    assert db.slots[c := db.slots[c]] == db.slots;
  }
}
