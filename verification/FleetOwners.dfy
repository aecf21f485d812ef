// What an owner, a retry and the drift check may do to a container, and when.
module FleetOwners {
  import opened Wrappers
  import opened FleetState
  import opened FleetSteps
  import opened FleetLedger
  import opened FleetRun

  // The actions offered to an owner, by status.
  predicate Offered(op: JobOp, status: ContainerStatus) {
    || (op.Start? && status.Stopped?)
    || (op.Stop? && status.Running?)
    || (op.Rebuild? && (status.Running? || status.Stopped?))
    || (op.Destroy? && (status.Running? || status.Stopped? || status.Error?))
  }

  // An owner's action on the row as it is takes hold exactly when it is offered, the
  // host is active and of the container's kind, and no other job is under way.
  lemma OwnerActsIff(hist: seq<Db>, c: nat, op: JobOp, rowAt: nat)
    requires Good(hist) && c < |Last(hist).slots| && rowAt == |hist| - 1
    requires HostOf(Last(hist).slots[c]).Some?
    ensures HostOf(Last(hist).slots[c]).value < |Last(hist).hosts|
    ensures var db := Last(hist); var s := db.slots[c]; var host := db.hosts[HostOf(s).value];
      Apply(hist, UserOp(c, op, rowAt)) != db <==>
        && Offered(op, s.row.value.status) && host.status.Active? && !Busy(s.jobs)
        && (op.Rebuild? ==> s.row.value.mode == host.tenancy)
  {
    var db := Last(hist);
    var s := db.slots[c];
    assert Inv(db) && SlotInv(s);
    var next := Apply(hist, UserOp(c, op, rowAt));
    assert IsQueueStep(UserOp(c, op, rowAt)) && ReadRow(hist, rowAt, c) == s.row;
    OwnerEnqueues(s, op, db.hosts[HostOf(s).value]);
    assert next.slots[c] != s ==> next != db;
    assert next.slots[c] == s ==> next.slots == db.slots;
  }

  lemma OwnerEnqueues(s: Slot, op: JobOp, host: Host)
    requires s.row.Some?
    ensures op in AllowedUserOps(s.row.value.status) <==> Offered(op, s.row.value.status)
    ensures Offered(op, s.row.value.status) ==>
      (Enqueue(s, op, s.row.value, host) != s <==>
        host.status.Active? && !Busy(s.jobs) && (op.Rebuild? ==> s.row.value.mode == host.tenancy))
  {
    var next := Enqueue(s, op, s.row.value, host);
    assert |next.jobs| > |s.jobs| ==> next != s;
  }

  // A retry repeats the newest lifecycle job if it failed, and provisions anew otherwise.
  lemma {:induction false} RetryRepeatsNewest(jobs: seq<Job>, k: nat)
    ensures NewestLifecycle(jobs, k) ==> RetryOp(jobs) == if jobs[k].status.JobFailed? then jobs[k].op else Provision
    ensures (forall j | 0 <= j < |jobs| :: !IsLifecycle(jobs[j].op)) ==> RetryOp(jobs) == Provision
  {
    if jobs != [] && !IsLifecycle(jobs[|jobs| - 1].op) { RetryRepeatsNewest(jobs[..|jobs| - 1], k); }
  }

  // ------------------------------------------------------------------- drift

  lemma {:induction false} CountGrows(a: seq<Job>, b: seq<Job>)
    requires JobsLater(a, b)
    ensures LifecycleCount(a) <= LifecycleCount(b)
    ensures LifecycleCount(a) == LifecycleCount(b) <==> forall k | |a| <= k < |b| :: !IsLifecycle(b[k].op)
    decreases |b|
  {
    if |a| < |b| {
      var n := |b| - 1;
      CountGrows(a, b[..n]);
      assert forall k | |a| <= k < n :: b[..n][k] == b[k];
    } else if a != [] {
      var n := |a| - 1;
      CountGrows(a[..n], b[..n]);
    }
  }

  // What the host reported overrides a status only if no lifecycle job has been
  // queued since the rows were read and none is under way; then the status is what
  // was seen.
  lemma DriftNeverOverridesJobs(read: Slot, now: Slot, seen: Sighting)
    requires JobsLater(read.jobs, now.jobs) && CorrectDrift(now, read, seen) != now
    ensures !Busy(now.jobs) && forall k | |read.jobs| <= k < |now.jobs| :: !IsLifecycle(now.jobs[k].op)
    ensures now.row.Some? && (now.row.value.status.Running? || now.row.value.status.Stopped?)
    ensures var next := CorrectDrift(now, read, seen);
      next == now.(row := Some(now.row.value.(status :=
        if seen.Missing? then Error else if seen.SeenRunning? then Running else Stopped)))
  {
    CountGrows(read.jobs, now.jobs);
  }
}
