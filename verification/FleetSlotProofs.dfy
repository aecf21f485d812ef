// Each step on one slot keeps the slot invariant, stays later than the slot it
// met, and moves no accounting of its own.
module FleetSlotProofs {
  import opened Wrappers
  import opened Plans
  import opened FleetState
  import opened FleetSteps
  import opened FleetLedger

  predicate Kept(now: Slot, next: Slot) {
    SlotInv(next) && SlotLater(now, next)
  }

  // -------------------------------------------------------------------- jobs

  lemma SpansSelf(jobs: seq<Job>)
    ensures Spans(jobs, jobs) <==> Busy(jobs)
  {
  }

  lemma MarkFacts(jobs: seq<Job>, k: nat, status: JobStatus)
    requires OneActive(jobs) && ActiveAt(jobs, k)
    ensures var next := jobs[k := jobs[k].(status := status)];
      && OneActive(next) && JobsLater(jobs, next)
      && (Busy(next) ==> Busy(jobs)) && (Spans(jobs, next) ==> Busy(jobs))
      && (IsLifecycle(jobs[k].op) ==> Busy(jobs))
      && (IsLifecycle(jobs[k].op) && !IsActive(status) ==> !Busy(next) && !Spans(jobs, next))
      && (ActiveDestroy(jobs) && (!jobs[k].op.Destroy? || IsActive(status)) ==> ActiveDestroy(next))
  {
    var next := jobs[k := jobs[k].(status := status)];
    if ActiveDestroy(jobs) && (!jobs[k].op.Destroy? || IsActive(status)) {
      var d :| 0 <= d < |jobs| && jobs[d].op.Destroy? && IsActive(jobs[d].status);
      assert next[d].op.Destroy? && IsActive(next[d].status);
    }
  }

  lemma AppendFacts(jobs: seq<Job>, op: JobOp)
    requires OneActive(jobs) && (IsLifecycle(op) ==> !Busy(jobs))
    ensures var next := jobs + [Job(op, JobQueued)];
      && OneActive(next) && JobsLater(jobs, next)
      && (Busy(next) <==> Busy(jobs) || IsLifecycle(op))
      && (Spans(jobs, next) ==> Busy(jobs))
      && (ActiveDestroy(next) <==> ActiveDestroy(jobs) || op.Destroy?)
  {
    var next := jobs + [Job(op, JobQueued)];
    assert next[|jobs|] == Job(op, JobQueued);
    if Busy(jobs) {
      var k :| 0 <= k < |jobs| && IsLifecycle(jobs[k].op) && IsActive(jobs[k].status);
      assert IsLifecycle(next[k].op) && IsActive(next[k].status);
    }
    if ActiveDestroy(jobs) {
      var d :| 0 <= d < |jobs| && jobs[d].op.Destroy? && IsActive(jobs[d].status);
      assert next[d].op.Destroy? && IsActive(next[d].status);
    }
  }

  lemma DestroyIsBusy(jobs: seq<Job>)
    ensures ActiveDestroy(jobs) ==> Busy(jobs)
  {
    if ActiveDestroy(jobs) {
      var d :| 0 <= d < |jobs| && jobs[d].op.Destroy? && IsActive(jobs[d].status);
      assert IsLifecycle(jobs[d].op);
    }
  }

  // The only active lifecycle job is the newest one, so the `newest` test in the
  // settling statements never turns an active job away.
  lemma ActiveIsNewest(jobs: seq<Job>, k: nat)
    requires OneActive(jobs) && ActiveAt(jobs, k) && IsLifecycle(jobs[k].op)
    ensures NewestLifecycle(jobs, k) && Busy(jobs)
  {
  }

  lemma EnqueueOk(now: Slot, op: JobOp, read: Container, host: Host)
    requires SlotInv(now) && IsLifecycle(op) && read.host.Some?
    ensures var next := Enqueue(now, op, read, host); Kept(now, next) && Quiet(now, next)
  {
    if !Busy(now.jobs) { AppendFacts(now.jobs, op); }
    SpansSelf(now.jobs);
  }

  lemma EnqueueBackgroundOk(now: Slot, op: JobOp, host: Host)
    requires SlotInv(now)
    ensures var next := EnqueueBackground(now, op, host); Kept(now, next) && Quiet(now, next)
  {
    if !IsLifecycle(op) { AppendFacts(now.jobs, op); }
    SpansSelf(now.jobs);
  }

  lemma MarkOk(now: Slot, k: nat, status: JobStatus)
    requires SlotInv(now)
    requires ActiveAt(now.jobs, k) && now.jobs[k].op.Destroy? ==> IsActive(status)
    ensures var next := Mark(now, k, status); Kept(now, next) && Quiet(now, next)
  {
    if ActiveAt(now.jobs, k) { MarkFacts(now.jobs, k, status); }
    SpansSelf(now.jobs);
  }

  // Once its job has settled, a plan change may go back to waiting for a retry.
  lemma RetryLaterOk(now: Slot, failed: Slot)
    requires SlotInv(failed) && Kept(now, failed) && Quiet(now, failed) && !Busy(failed.jobs)
    requires !Spans(now.jobs, failed.jobs)
    requires failed.tr.Some? && (IsResizing(failed.tr) || failed.tr.value.to.Free?)
    requires !failed.tr.value.state.Complete?
    ensures var next := SetStatus(SetState(failed, FailedRetryable), UpgradePending);
      Kept(now, next) && Quiet(now, next)
  {
  }

  lemma FailJobOk(now: Slot, k: nat, readTr: Option<Transition>)
    requires SlotInv(now)
    ensures var next := FailJob(now, k, readTr); Kept(now, next) && Quiet(now, next)
  {
    SpansSelf(now.jobs);
    if ActiveAt(now.jobs, k) {
      MarkFacts(now.jobs, k, JobFailed);
      var op := now.jobs[k].op;
      var failed := Mark(now, k, JobFailed);
      if op.Destroy? {
        ActiveIsNewest(now.jobs, k);
      } else {
        MarkOk(now, k, JobFailed);
        if op.Resize? && IsResizing(readTr) && IsResizing(now.tr) {
          RetryLaterOk(now, failed);
        } else if && op.Stop? && StoppingDowngrade(readTr)
                  && now.tr.Some? && now.tr.value.to.Free? && Waiting(now.tr.value.state) {
          RetryLaterOk(now, failed);
        } else if IsLifecycle(op) {
          FailWithErrorOk(now, failed);
        }
      }
    }
  }

  lemma FailWithErrorOk(now: Slot, failed: Slot)
    requires Kept(now, failed) && Quiet(now, failed)
    ensures Kept(now, SetStatus(failed, Error)) || HostOf(failed).None?
    ensures Quiet(now, SetStatus(failed, Error))
  {
  }

  lemma SettleSucceededOk(now: Slot, k: nat)
    requires SlotInv(now) && k < |now.jobs| && !now.jobs[k].op.Destroy?
    ensures var next := SettleSucceeded(now, k); Kept(now, next) && Quiet(now, next)
  {
    SpansSelf(now.jobs);
    if ActiveAt(now.jobs, k) {
      MarkFacts(now.jobs, k, JobSucceeded);
    }
  }

  lemma FinalizeDowngradeStopOk(now: Slot, k: nat)
    requires SlotInv(now) && k < |now.jobs| && !now.jobs[k].op.Destroy?
    ensures var next := FinalizeDowngradeStop(now, k); Kept(now, next) && Quiet(now, next)
  {
    SpansSelf(now.jobs);
    if ActiveAt(now.jobs, k) {
      MarkFacts(now.jobs, k, JobSucceeded);
    }
  }

  // ------------------------------------------------------------- plan changes

  // Even a row read long ago fixes the target disk, and leaves Free a target
  // only for containers that already own the Paid disk.
  lemma CreateTransitionOk(now: Slot, past: Slot, to: Tier)
    requires SlotInv(now) && SlotInv(past) && SlotLater(past, now)
    requires past.row.Some? && past.row.value.tier != to
    requires past.row.value.status.Running? || past.row.value.status.Stopped?
    ensures var next := CreateTransition(now, past.row.value, to); Kept(now, next) && Quiet(now, next)
  {
    SpansSelf(now.jobs);
  }

  lemma DeleteTransitionOk(now: Slot)
    requires SlotInv(now)
    ensures var next := DeleteTransition(now); Kept(now, next) && Quiet(now, next)
  {
    SpansSelf(now.jobs);
  }

  lemma CancelUnreservedOk(now: Slot, prior: ContainerStatus)
    requires SlotInv(now) && (prior.Running? || prior.Stopped?)
    ensures var next := CancelUnreserved(now, prior); Kept(now, next) && Quiet(now, next)
  {
    SpansSelf(now.jobs);
    DestroyIsBusy(now.jobs);
  }

  lemma CancelForDestroyOk(now: Slot)
    requires SlotInv(now)
    ensures var next := CancelForDestroy(now); Kept(now, next) && Quiet(now, next)
  {
    SpansSelf(now.jobs);
    DestroyIsBusy(now.jobs);
  }

  lemma StateOnlyOk(now: Slot)
    requires SlotInv(now)
    ensures Kept(now, ReserveFallback(now)) && Quiet(now, ReserveFallback(now))
    ensures Kept(now, RetryResize(now)) && Quiet(now, RetryResize(now))
    ensures Kept(now, Defer(now)) && Quiet(now, Defer(now))
  {
    SpansSelf(now.jobs);
  }

  // --------------------------------------------------------- other row changes

  lemma RowOnlyOk(now: Slot)
    requires SlotInv(now)
    ensures Kept(now, Withdraw(now)) && Quiet(now, Withdraw(now))
    ensures Kept(now, ShrinkWaitlisted(now)) && Quiet(now, ShrinkWaitlisted(now))
    ensures Kept(now, ProvisionNotQueued(now)) && Quiet(now, ProvisionNotQueued(now))
  {
    SpansSelf(now.jobs);
  }

  lemma CorrectDriftOk(now: Slot, read: Slot, seen: Sighting)
    requires SlotInv(now)
    ensures var next := CorrectDrift(now, read, seen); Kept(now, next) && Quiet(now, next)
  {
    SpansSelf(now.jobs);
  }
}
