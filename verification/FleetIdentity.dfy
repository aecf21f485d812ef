// Accounts, ports and provisioning over whole runs, however old the reads.
module FleetIdentity {
  import opened Wrappers
  import opened Plans
  import opened FleetState
  import opened FleetSteps
  import opened FleetLedger
  import opened FleetSlotProofs
  import opened FleetRun
  import opened FleetTheorems

  // No two rows of one account, and no two rows of one host with one SSH port.
  predicate Distinct(a: Slot, b: Slot) {
    a.row.Some? && b.row.Some? ==>
      && a.row.value.user != b.row.value.user
      && (a.row.value.host.Some? && a.row.value.host == b.row.value.host && a.row.value.sshPort.Some? ==>
            a.row.value.sshPort != b.row.value.sshPort)
  }

  predicate AllDistinct(slots: seq<Slot>) {
    forall i, j | 0 <= i < j < |slots| :: Distinct(slots[i], slots[j])
  }

  predicate ActiveSetup(jobs: seq<Job>, k: nat)
    requires k < |jobs|
  {
    IsActive(jobs[k].status) && (jobs[k].op.Provision? || jobs[k].op.Rebuild?)
  }

  // The status an active job stands for, if it stands for one.
  predicate ShowsItsJob(row: Container, job: Job) {
    IsActive(job.status) && PendingStatusFor(job.op).Some? ==> Some(row.status) == PendingStatusFor(job.op)
  }

  predicate HasLifecycle(jobs: seq<Job>) { exists k | 0 <= k < |jobs| :: IsLifecycle(jobs[k].op) }

  predicate BeenUp(status: ContainerStatus) { status.Running? || status.Stopped? || status.UpgradePending? }

  // A provisioning container has a job to wait for, or has yet to be given its first;
  // a waiting one has had none; an active job shows in its container's status; and
  // only jobs bring a container up.
  predicate StatusCause(s: Slot) {
    && (s.tr.Some? ==> HasLifecycle(s.jobs))
    && (s.row.Some? ==>
          && (s.row.value.status.Provisioning? ==>
                forall k | 0 <= k < |s.jobs| && NewestLifecycle(s.jobs, k) :: ActiveSetup(s.jobs, k))
          && (s.row.value.host.None? ==> !HasLifecycle(s.jobs))
          && (BeenUp(s.row.value.status) ==> HasLifecycle(s.jobs))
          && (forall k | 0 <= k < |s.jobs| :: ShowsItsJob(s.row.value, s.jobs[k])))
  }

  // The row, if it survives, is the same account's on the same host and port.
  predicate SameIdentity(now: Slot, next: Slot) {
    next.row.Some? ==>
      && now.row.Some? && next.row.value.user == now.row.value.user
      && next.row.value.host == now.row.value.host && next.row.value.sshPort == now.row.value.sshPort
  }

  predicate IdentityKept(now: Slot, next: Slot) {
    SameIdentity(now, next) && (StatusCause(now) ==> StatusCause(next))
  }

  // ------------------------------------------------------------------- slots

  lemma MarkKeepsNewestOf(jobs: seq<Job>, k: nat, status: JobStatus, j: nat)
    requires k < |jobs|
    ensures NewestLifecycle(jobs[k := jobs[k].(status := status)], j) <==> NewestLifecycle(jobs, j)
  {
    var marked := jobs[k := jobs[k].(status := status)];
    assert forall i | 0 <= i < |jobs| :: marked[i].op == jobs[i].op;
  }

  lemma MarkKeepsHistory(jobs: seq<Job>, k: nat, status: JobStatus)
    requires k < |jobs|
    ensures HasLifecycle(jobs[k := jobs[k].(status := status)]) <==> HasLifecycle(jobs)
  {
    var marked := jobs[k := jobs[k].(status := status)];
    if HasLifecycle(jobs) {
      var j :| 0 <= j < |jobs| && IsLifecycle(jobs[j].op);
      assert IsLifecycle(marked[j].op);
    }
    if HasLifecycle(marked) {
      var j :| 0 <= j < |jobs| && IsLifecycle(marked[j].op);
      assert IsLifecycle(jobs[j].op);
    }
  }

  lemma OneNewest(jobs: seq<Job>, j: nat, k: nat)
    requires NewestLifecycle(jobs, j) && NewestLifecycle(jobs, k)
    ensures j == k
  {
  }

  // Settling a job other than by its status change leaves provisioning with its cause.
  lemma MarkIdentity(now: Slot, k: nat, status: JobStatus)
    requires k < |now.jobs| ==> IsActive(status) || !NewestLifecycle(now.jobs, k)
    ensures IdentityKept(now, Mark(now, k, status))
  {
    if ActiveAt(now.jobs, k) {
      var next := Mark(now, k, status);
      MarkKeepsHistory(now.jobs, k, status);
      forall j | 0 <= j < |next.jobs| && NewestLifecycle(next.jobs, j) && StatusCause(now)
                 && next.row.Some? && next.row.value.status.Provisioning?
        ensures ActiveSetup(next.jobs, j)
      {
        MarkKeepsNewestOf(now.jobs, k, status, j);
        assert NewestLifecycle(now.jobs, j);
      }
    }
  }

  lemma {:induction false} NewestExists(jobs: seq<Job>, j: nat) returns (k: nat)
    requires j < |jobs| && IsLifecycle(jobs[j].op)
    ensures NewestLifecycle(jobs, k)
    decreases |jobs| - j
  {
    k := j;
    if i :| j < i < |jobs| && IsLifecycle(jobs[i].op) { k := NewestExists(jobs, i); }
  }

  // A provisioning container that has had a lifecycle job is busy with its newest.
  lemma ProvisioningIsBusy(s: Slot)
    requires StatusCause(s) && s.row.Some? && s.row.value.status.Provisioning? && HasLifecycle(s.jobs)
    ensures Busy(s.jobs)
  {
    var j :| 0 <= j < |s.jobs| && IsLifecycle(s.jobs[j].op);
    var k := NewestExists(s.jobs, j);
    assert ActiveSetup(s.jobs, k);
  }

  lemma EnqueueIdentity(now: Slot, op: JobOp, read: Container, host: Host)
    requires IsLifecycle(op) && read.host.Some?
    requires op.Provision? || op.Rebuild? || !read.status.Provisioning? || HasLifecycle(now.jobs)
    ensures IdentityKept(now, Enqueue(now, op, read, host))
  {
    var next := Enqueue(now, op, read, host);
    if next != now && StatusCause(now) {
      if now.row.value.status.Provisioning? && HasLifecycle(now.jobs) { ProvisioningIsBusy(now); }
      var n := |now.jobs|;
      assert next.jobs[n] == Job(op, JobQueued) && NewestLifecycle(next.jobs, n);
      forall j | 0 <= j < |next.jobs| && NewestLifecycle(next.jobs, j) ensures j == n {
        OneNewest(next.jobs, j, n);
      }
    }
  }

  lemma EnqueueBackgroundIdentity(now: Slot, op: JobOp, host: Host)
    ensures IdentityKept(now, EnqueueBackground(now, op, host))
  {
    var next := EnqueueBackground(now, op, host);
    if HasLifecycle(now.jobs) && next != now {
      var j :| 0 <= j < |now.jobs| && IsLifecycle(now.jobs[j].op);
      assert IsLifecycle(next.jobs[j].op);
    }
    if next != now {
      forall j | 0 <= j < |next.jobs| && NewestLifecycle(next.jobs, j) ensures NewestLifecycle(now.jobs, j) {
        assert next.jobs[|now.jobs|].op == op;
        assert forall i | 0 <= i < |now.jobs| :: next.jobs[i] == now.jobs[i];
      }
    }
  }

  // A failure takes its own container out of provisioning, unless it was a plan's.
  lemma FailJobIdentity(now: Slot, k: nat, readTr: Option<Transition>)
    requires SlotInv(now)
    ensures IdentityKept(now, FailJob(now, k, readTr))
  {
    if ActiveAt(now.jobs, k) && StatusCause(now) {
      var op := now.jobs[k].op;
      if !IsLifecycle(op) {
        MarkIdentity(now, k, JobFailed);
      } else {
        MarkKeepsHistory(now.jobs, k, JobFailed);
        ActiveIsNewest(now.jobs, k);
        assert now.row.Some? && now.row.value.status.Provisioning? ==> op.Provision? || op.Rebuild?;
      }
    }
  }

  lemma SettleSucceededIdentity(now: Slot, k: nat)
    requires SlotInv(now)
    ensures IdentityKept(now, SettleSucceeded(now, k))
  {
    if ActiveAt(now.jobs, k) && StatusCause(now) {
      var op := now.jobs[k].op;
      if !IsLifecycle(op) {
        MarkIdentity(now, k, JobSucceeded);
      } else {
        MarkKeepsHistory(now.jobs, k, JobSucceeded);
        ActiveIsNewest(now.jobs, k);
        assert now.row.Some? && now.row.value.status.Provisioning? ==> op.Provision? || op.Rebuild?;
      }
    }
  }

  lemma FinalizeDowngradeStopIdentity(now: Slot, k: nat)
    requires SlotInv(now) && k < |now.jobs| && now.jobs[k].op.Stop?
    ensures IdentityKept(now, FinalizeDowngradeStop(now, k))
  {
    if ActiveAt(now.jobs, k) {
      MarkFacts(now.jobs, k, JobSucceeded);
      MarkKeepsHistory(now.jobs, k, JobSucceeded);
    }
  }

  // ------------------------------------------------------------------- steps

  lemma HistoryStays(a: seq<Job>, b: seq<Job>)
    requires JobsLater(a, b) && HasLifecycle(a)
    ensures HasLifecycle(b)
  {
    var k :| 0 <= k < |a| && IsLifecycle(a[k].op);
    assert IsLifecycle(b[k].op);
  }

  // In every state so far each status has its cause.
  predicate AllCaused(slots: seq<Slot>) { forall c | 0 <= c < |slots| :: StatusCause(slots[c]) }

  predicate CausedSoFar(hist: seq<Db>) { forall i | 0 <= i < |hist| :: AllCaused(hist[i].slots) }

  // What was read as a plan, or as up, has had a lifecycle job.
  lemma ReadHadJobs(hist: seq<Db>, i: nat, c: nat)
    requires Good(hist) && CausedSoFar(hist) && ReadSlot(hist, i, c).Some?
    ensures c < |Last(hist).slots|
    ensures ReadTr(hist, i, c).Some? || (ReadRow(hist, i, c).Some? && BeenUp(ReadRow(hist, i, c).value.status)) ==>
      HasLifecycle(Last(hist).slots[c].jobs)
  {
    PastOf(hist, i, c);
    var past := ReadSlot(hist, i, c).value;
    assert AllCaused(hist[i].slots) && StatusCause(past);
    if HasLifecycle(past.jobs) { HistoryStays(past.jobs, Last(hist).slots[c].jobs); }
  }

  lemma QueueIdentity(hist: seq<Db>, l: Label)
    requires Good(hist) && IsQueueStep(l) && l.c < |Last(hist).slots|
    ensures var now := Last(hist).slots[l.c];
      var next := QueueNext(hist, Last(hist).hosts, l, now);
      SameIdentity(now, next) && (CausedSoFar(hist) ==> StatusCause(next))
  {
    var now, hosts := Last(hist).slots[l.c], Last(hist).hosts;
    var op, read := QueuedOp(hist, l), ReadRow(hist, l.rowAt, l.c);
    if CausedSoFar(hist) {
      assert AllCaused(Last(hist).slots) && StatusCause(now);
      if op.Some? && IsLifecycle(op.value) && read.Some? && read.value.host.Some? && read.value.host.value < |hosts| {
        if l.QueueResize? || l.QueueDowngradeStop? { ReadHadJobs(hist, l.trAt, l.c); }
        EnqueueIdentity(now, op.value, read.value, hosts[read.value.host.value]);
      }
    }
  }

  lemma JobIdentity(hist: seq<Db>, hosts: seq<Host>, l: Label, now: Slot)
    requires IsJobStep(l) && SlotInv(now)
    ensures IdentityKept(now, JobNext(hist, hosts, l, now))
  {
    match l
    case QueueBackground(_, op, h) => if h < |hosts| { EnqueueBackgroundIdentity(now, op, hosts[h]); }
    case DispatchedStep(_, k) => MarkIdentity(now, k, JobRunning);
    case Heartbeat(_, k, status) => if IsActive(status) { MarkIdentity(now, k, status); }
    case JobFails(c, k, trAt) => FailJobIdentity(now, k, ReadTr(hist, trAt, c));
  }

  lemma RowIdentity(hist: seq<Db>, l: Label, now: Slot)
    requires IsRowStep(l)
    ensures IdentityKept(now, RowNext(hist, l, now))
  {
  }

  lemma PlanIdentity(hist: seq<Db>, l: Label, now: Slot)
    requires IsPlanStep(l) && SlotInv(now)
    requires l.CancelStep? && ReadTr(hist, l.trAt, l.c).Some? ==>
      ReadTr(hist, l.trAt, l.c).value.prior.Running? || ReadTr(hist, l.trAt, l.c).value.prior.Stopped?
    ensures SameIdentity(now, PlanNext(hist, l, now))
    ensures StatusCause(now) && (l.CreateStep? && PlanNext(hist, l, now) != now ==> HasLifecycle(now.jobs)) ==>
      StatusCause(PlanNext(hist, l, now))
  {
  }

  lemma PlanCaused(hist: seq<Db>, l: Label)
    requires Good(hist) && IsPlanStep(l) && l.c < |Last(hist).slots|
    ensures var now := Last(hist).slots[l.c]; var next := PlanNext(hist, l, now);
      SameIdentity(now, next) && (CausedSoFar(hist) ==> StatusCause(next))
  {
    var now := Last(hist).slots[l.c];
    assert SlotInv(now);
    if l.CancelStep? && ReadTr(hist, l.trAt, l.c).Some? { ReadPrior(hist, l.trAt, l.c); }
    if CausedSoFar(hist) {
      assert AllCaused(Last(hist).slots) && StatusCause(now);
      if l.CreateStep? && ReadRow(hist, l.rowAt, l.c).Some? { ReadHadJobs(hist, l.rowAt, l.c); }
    }
    PlanIdentity(hist, l, now);
  }

  lemma ReadPrior(hist: seq<Db>, i: nat, c: nat)
    requires Good(hist) && ReadTr(hist, i, c).Some?
    ensures ReadTr(hist, i, c).value.prior.Running? || ReadTr(hist, i, c).value.prior.Stopped?
  {
    assert SlotInv(hist[i].slots[c]);
  }

  lemma SlotIdentity(hist: seq<Db>, l: Label)
    requires Good(hist) && IsSlotStep(l) && l.c < |Last(hist).slots|
    ensures var now := Last(hist).slots[l.c];
      var next := SlotNext(hist, Last(hist).hosts, l, now);
      SameIdentity(now, next) && (CausedSoFar(hist) ==> StatusCause(next))
  {
    var now, hosts := Last(hist).slots[l.c], Last(hist).hosts;
    assert SlotInv(now);
    if CausedSoFar(hist) { assert AllCaused(Last(hist).slots) && StatusCause(now); }
    hide StatusCause, SameIdentity, Inv;
    if IsRowStep(l) { RowIdentity(hist, l, now); }
    else if IsQueueStep(l) { QueueIdentity(hist, l); }
    else if IsJobStep(l) { JobIdentity(hist, hosts, l, now); }
    else { PlanCaused(hist, l); }
  }

  predicate OneSlotIdentity(db: Db, next: Db, c: nat) {
    && c < |db.slots| == |next.slots| && next.slots == db.slots[c := next.slots[c]]
    && SameIdentity(db.slots[c], next.slots[c])
    && (StatusCause(db.slots[c]) ==> StatusCause(next.slots[c]))
  }

  lemma FinalizePlanIdentity(db: Db, c: nat, k: nat, read: Container, tr: Transition, at: int)
    requires WellFormed(db) && c < |db.slots| && read.host.Some? && read.host.value < |db.hosts|
    requires (tr.prior.Running? || tr.prior.Stopped?) && SlotInv(db.slots[c])
    ensures OneSlotIdentity(db, FinalizePlan(db, c, k, read, tr, at), c)
  {
    var jobs := db.slots[c].jobs;
    if ActiveAt(jobs, k) && NewestLifecycle(jobs, k) {
      MarkFacts(jobs, k, JobSucceeded);
      MarkKeepsHistory(jobs, k, JobSucceeded);
    }
  }

  lemma FinalizeDestroyIdentity(db: Db, c: nat, k: nat, read: Container, tr: Option<Transition>)
    requires WellFormed(db) && c < |db.slots| && read.host.Some? && read.host.value < |db.hosts|
    ensures OneSlotIdentity(db, FinalizeDestroy(db, c, k, read, tr), c)
  {
    if k < |db.slots[c].jobs| { MarkKeepsHistory(db.slots[c].jobs, k, JobSucceeded); }
  }

  lemma SucceedIdentity(db: Db, c: nat, k: nat, read: Container, checked: Option<Transition>, tr: Option<Transition>,
                        at: int)
    requires WellFormed(db) && c < |db.slots| && k < |db.slots[c].jobs| && SlotInv(db.slots[c])
    requires read.host.Some? && read.host.value < |db.hosts|
    requires tr.Some? ==> tr.value.prior.Running? || tr.value.prior.Stopped?
    ensures OneSlotIdentity(db, Succeed(db, c, k, read, checked, tr, at), c)
  {
    var op := db.slots[c].jobs[k].op;
    if op.Destroy? {
      FinalizeDestroyIdentity(db, c, k, read, tr);
    } else if op.Stop? && StoppingDowngrade(checked) {
      FinalizeDowngradeStopIdentity(db.slots[c], k);
    } else if op.Resize? && IsResizing(checked) {
      if IsResizing(tr) { FinalizePlanIdentity(db, c, k, read, tr.value, at); }
    } else {
      SettleSucceededIdentity(db.slots[c], k);
    }
  }

  lemma SettleIdentity(hist: seq<Db>, l: Label, db: Db)
    requires hist != [] && Good(hist) && db == Last(hist)
    requires l.JobSucceeds? && Observed(hist, l.c, l.k, l.rowAt, l.checkAt, l.trAt)
    ensures OneSlotIdentity(db, Apply(hist, l), l.c)
  {
    hide Good, SlotInv, Succeed, OneSlotIdentity;
    SlotOk(hist, l.c);
    if ReadTr(hist, l.trAt, l.c).Some? { ReadPrior(hist, l.trAt, l.c); }
    SucceedIdentity(db, l.c, l.k, ReadRow(hist, l.rowAt, l.c).value, ReadTr(hist, l.checkAt, l.c),
                    ReadTr(hist, l.trAt, l.c), l.at);
  }

  lemma ReserveIdentity(db: Db, c: nat, read: Container, tr: Transition, entitled: bool, at: int)
    requires WellFormed(db) && c < |db.slots| && read.host.Some? && read.host.value < |db.hosts|
    ensures OneSlotIdentity(db, Reserve(db, c, read, tr, entitled, at), c)
  {
  }

  // ------------------------------------------------------- distinct identities

  lemma OneSlotDistinct(db: Db, next: Db, c: nat)
    requires AllDistinct(db.slots) && c < |db.slots| == |next.slots| && next.slots == db.slots[c := next.slots[c]]
    requires SameIdentity(db.slots[c], next.slots[c])
    ensures AllDistinct(next.slots)
  {
    forall i, j | 0 <= i < j < |next.slots| ensures Distinct(next.slots[i], next.slots[j]) {
      assert Distinct(db.slots[i], db.slots[j]);
    }
  }

  lemma PlaceNewDistinct(db: Db, user: UserId, tier: Tier, mode: Tenancy, h: HostId, port: int, at: int)
    requires WellFormed(db) && h < |db.hosts| && AllDistinct(db.slots)
    ensures AllDistinct(PlaceNew(db, user, tier, mode, h, port, at).slots)
  {
    var next := PlaceNew(db, user, tier, mode, h, port, at);
    if next != db {
      forall i, j | 0 <= i < j < |next.slots| ensures Distinct(next.slots[i], next.slots[j]) {
        if j < |db.slots| {
          assert Distinct(db.slots[i], db.slots[j]);
        } else {
          assert next.slots[i] == db.slots[i];
        }
      }
    }
  }

  lemma JoinWaitlistDistinct(db: Db, user: UserId, tier: Tier, mode: Tenancy)
    requires AllDistinct(db.slots)
    ensures AllDistinct(JoinWaitlist(db, user, tier, mode).slots)
  {
    var next := JoinWaitlist(db, user, tier, mode);
    if next != db {
      forall i, j | 0 <= i < j < |next.slots| ensures Distinct(next.slots[i], next.slots[j]) {
        if j < |db.slots| { assert Distinct(db.slots[i], db.slots[j]); }
      }
    }
  }

  lemma PlaceWaitlistedDistinct(db: Db, c: nat, read: Container, h: HostId, port: int, at: int)
    requires WellFormed(db) && c < |db.slots| && h < |db.hosts| && AllDistinct(db.slots)
    ensures AllDistinct(PlaceWaitlisted(db, c, read, h, port, at).slots)
  {
    var next := PlaceWaitlisted(db, c, read, h, port, at);
    if next != db {
      forall i, j | 0 <= i < j < |next.slots| ensures Distinct(next.slots[i], next.slots[j]) {
        assert Distinct(db.slots[i], db.slots[j]);
        assert !(OnHost(db.slots[i], h) && db.slots[i].row.value.sshPort == Some(port));
        assert !(OnHost(db.slots[j], h) && db.slots[j].row.value.sshPort == Some(port));
      }
    }
  }

  lemma SlotStepDistinct(hist: seq<Db>, l: Label)
    requires hist != [] && Good(hist) && IsSlotStep(l) && l.c < |Last(hist).slots| && AllDistinct(Last(hist).slots)
    ensures AllDistinct(Apply(hist, l).slots)
  {
    hide Apply, Good, SlotNext, Distinct, AllDistinct, SameIdentity, StatusCause;
    SlotOk(hist, l.c);
    SlotIdentity(hist, l);
    SlotStepIs(hist, l);
    OneSlotDistinct(Last(hist), Apply(hist, l), l.c);
  }

  lemma SettleDistinct(hist: seq<Db>, l: Label)
    requires Good(hist) && l.JobSucceeds? && AllDistinct(Last(hist).slots)
    ensures AllDistinct(Apply(hist, l).slots)
  {
    if Observed(hist, l.c, l.k, l.rowAt, l.checkAt, l.trAt) {
      SettleIdentity(hist, l, Last(hist));
      hide StatusCause, Inv, Good;
      OneSlotDistinct(Last(hist), Apply(hist, l), l.c);
    }
  }

  lemma StepDistinct(hist: seq<Db>, l: Label)
    requires Good(hist) && AllDistinct(Last(hist).slots)
    ensures AllDistinct(Apply(hist, l).slots)
  {
    var db := Last(hist);
    assert WellFormed(db);
    hide Good, Inv, AllDistinct;
    if IsSlotStep(l) {
      if l.c < |db.slots| { SlotStepDistinct(hist, l); }
    } else {
      match l
      case HostReport(_, _, _, _, _) =>
      case PlaceNewStep(user, tier, mode, h, port, at) =>
        if h < |db.hosts| { PlaceNewDistinct(db, user, tier, mode, h, port, at); }
      case JoinWaitlistStep(user, tier, mode) => JoinWaitlistDistinct(db, user, tier, mode);
      case PlaceWaitlistedStep(c, h, port, at, rowAt) =>
        var row := ReadRow(hist, rowAt, c);
        if c < |db.slots| && row.Some? && h < |db.hosts| { PlaceWaitlistedDistinct(db, c, row.value, h, port, at); }
      case JobSucceeds(_, _, _, _, _, _) => SettleDistinct(hist, l);
      case ReserveStep(c, rowAt, trAt, entitled, at) =>
        if Reservable(hist, c, rowAt, trAt) {
          ReserveDistinct(db, c, ReadRow(hist, rowAt, c).value, ReadTr(hist, trAt, c).value, entitled, at);
        }
    }
  }

  lemma ReserveDistinct(db: Db, c: nat, read: Container, tr: Transition, entitled: bool, at: int)
    requires WellFormed(db) && c < |db.slots| && AllDistinct(db.slots)
    requires read.host.Some? && read.host.value < |db.hosts|
    ensures AllDistinct(Reserve(db, c, read, tr, entitled, at).slots)
  {
    ReserveIdentity(db, c, read, tr, entitled, at);
    OneSlotDistinct(db, Reserve(db, c, read, tr, entitled, at), c);
  }

  // One container per account, and one container per SSH port of a host, in every
  // run: however stale the reads, the batches check both again.
  lemma {:induction false} AccountsAndPortsStayDistinct(init: Db, run: seq<Label>)
    requires Inv(init) && AllDistinct(init.slots)
    ensures AllDistinct(Last(Exec(init, run)).slots)
  {
    if run != [] {
      var before := Exec(init, run[..|run| - 1]);
      AccountsAndPortsStayDistinct(init, run[..|run| - 1]);
      RunsAreGood(init, run[..|run| - 1]);
      StepDistinct(before, run[|run| - 1]);
      ExecLast(init, run, before);
    }
  }

  // ---------------------------------------------------------- dedicated hosts

  predicate HomeRight(hosts: seq<Host>, s: Slot) {
    s.row.Some? && s.row.value.host.Some? && s.row.value.host.value < |hosts| ==>
      var host := hosts[s.row.value.host.value];
      host.tenancy.Dedicated? ==> host.dedicatedUser == Some(s.row.value.user)
  }

  predicate HomesRight(db: Db) { forall c | 0 <= c < |db.slots| :: HomeRight(db.hosts, db.slots[c]) }

  predicate SameTenancy(a: seq<Host>, b: seq<Host>) {
    |a| == |b| && forall h | 0 <= h < |a| :: a[h].tenancy == b[h].tenancy && a[h].dedicatedUser == b[h].dedicatedUser
  }

  lemma SucceedSameTenancy(db: Db, c: nat, k: nat, read: Container, checked: Option<Transition>, tr: Option<Transition>,
                           at: int)
    requires WellFormed(db) && c < |db.slots| && k < |db.slots[c].jobs|
    requires read.host.Some? && read.host.value < |db.hosts|
    ensures SameTenancy(db.hosts, Succeed(db, c, k, read, checked, tr, at).hosts)
  {
  }

  lemma StepSameTenancy(hist: seq<Db>, l: Label)
    requires hist != [] && WellFormed(Last(hist))
    ensures SameTenancy(Last(hist).hosts, Apply(hist, l).hosts)
  {
    if l.JobSucceeds? && Observed(hist, l.c, l.k, l.rowAt, l.checkAt, l.trAt) {
      SucceedSameTenancy(Last(hist), l.c, l.k, ReadRow(hist, l.rowAt, l.c).value, ReadTr(hist, l.checkAt, l.c),
                         ReadTr(hist, l.trAt, l.c), l.at);
    }
  }

  lemma OneSlotHome(db: Db, next: Db, c: nat)
    requires HomesRight(db) && SameTenancy(db.hosts, next.hosts)
    requires c < |db.slots| == |next.slots| && next.slots == db.slots[c := next.slots[c]]
    requires SameIdentity(db.slots[c], next.slots[c])
    ensures HomesRight(next)
  {
    forall i | 0 <= i < |next.slots| ensures HomeRight(next.hosts, next.slots[i]) {
      assert HomeRight(db.hosts, db.slots[i]);
    }
  }

  // Placement is the only step that gives a row a host.
  lemma PlacementHome(hist: seq<Db>, l: Label, db: Db)
    requires hist != [] && db == Last(hist) && WellFormed(db) && HomesRight(db)
    requires SameTenancy(db.hosts, Apply(hist, l).hosts)
    requires !IsSlotStep(l) && !l.JobSucceeds? && !l.ReserveStep?
    ensures HomesRight(Apply(hist, l))
  {
    var next := Apply(hist, l);
    forall i | 0 <= i < |next.slots| ensures HomeRight(next.hosts, next.slots[i]) {
      if i < |db.slots| { assert HomeRight(db.hosts, db.slots[i]); }
    }
  }

  lemma StepHome(hist: seq<Db>, l: Label)
    requires Good(hist) && HomesRight(Last(hist))
    ensures HomesRight(Apply(hist, l))
  {
    var db, next := Last(hist), Apply(hist, l);
    StepSameTenancy(hist, l);
    assert WellFormed(db);
    hide Good, Inv, HomesRight, SameTenancy, StatusCause;
    if IsSlotStep(l) {
      if l.c < |db.slots| {
        SlotIdentity(hist, l);
        OneSlotHome(db, next, l.c);
      } else {
        assert next == db;
      }
    } else if l.JobSucceeds? {
      if Observed(hist, l.c, l.k, l.rowAt, l.checkAt, l.trAt) {
        SettleIdentity(hist, l, db);
        OneSlotHome(db, next, l.c);
      }
    } else if l.ReserveStep? {
      if Reservable(hist, l.c, l.rowAt, l.trAt) {
        ReserveIdentity(db, l.c, ReadRow(hist, l.rowAt, l.c).value, ReadTr(hist, l.trAt, l.c).value, l.entitled, l.at);
        OneSlotHome(db, next, l.c);
      }
    } else {
      PlacementHome(hist, l, db);
    }
  }

  lemma {:induction false} HomesStayRight(init: Db, run: seq<Label>)
    requires Inv(init) && HomesRight(init)
    ensures HomesRight(Last(Exec(init, run)))
  {
    if run != [] {
      var before := Exec(init, run[..|run| - 1]);
      HomesStayRight(init, run[..|run| - 1]);
      RunsAreGood(init, run[..|run| - 1]);
      StepHome(before, run[|run| - 1]);
      ExecLast(init, run, before);
    }
  }

  // A dedicated host serves its own account, and only with one container, in any run.
  lemma DedicatedHostServesOneAccount(init: Db, run: seq<Label>, h: HostId, i: nat, j: nat)
    requires Inv(init) && HomesRight(init) && AllDistinct(init.slots)
    requires var db := Last(Exec(init, run));
      h < |db.hosts| && db.hosts[h].tenancy.Dedicated? && i < |db.slots| && j < |db.slots|
      && OnHost(db.slots[i], h) && OnHost(db.slots[j], h)
    ensures var db := Last(Exec(init, run)); i == j && Some(db.slots[i].row.value.user) == db.hosts[h].dedicatedUser
  {
    HomesStayRight(init, run);
    AccountsAndPortsStayDistinct(init, run);
    var db := Last(Exec(init, run));
    assert HomeRight(db.hosts, db.slots[i]) && HomeRight(db.hosts, db.slots[j]);
  }

  // ------------------------------------------------------------- provisioning

  lemma OneSlotCaused(db: Db, next: Db, c: nat)
    requires AllCaused(db.slots) && c < |db.slots| == |next.slots| && next.slots == db.slots[c := next.slots[c]]
    requires StatusCause(next.slots[c])
    ensures AllCaused(next.slots)
  {
  }

  // New rows come with their cause: none has had a job.
  lemma PlaceNewCaused(db: Db, user: UserId, tier: Tier, mode: Tenancy, h: HostId, port: int, at: int)
    requires WellFormed(db) && h < |db.hosts| && AllCaused(db.slots)
    ensures AllCaused(PlaceNew(db, user, tier, mode, h, port, at).slots)
  {
  }

  lemma JoinWaitlistCaused(db: Db, user: UserId, tier: Tier, mode: Tenancy)
    requires AllCaused(db.slots)
    ensures AllCaused(JoinWaitlist(db, user, tier, mode).slots)
  {
  }

  lemma PlaceWaitlistedCaused(db: Db, c: nat, read: Container, h: HostId, port: int, at: int)
    requires WellFormed(db) && c < |db.slots| && h < |db.hosts| && AllCaused(db.slots)
    ensures AllCaused(PlaceWaitlisted(db, c, read, h, port, at).slots)
  {
    assert StatusCause(db.slots[c]);
  }

  lemma SlotStepCaused(hist: seq<Db>, l: Label)
    requires Good(hist) && CausedSoFar(hist) && IsSlotStep(l) && l.c < |Last(hist).slots|
    ensures AllCaused(Apply(hist, l).slots)
  {
    assert WellFormed(Last(hist)) && AllCaused(Last(hist).slots);
    SlotIdentity(hist, l);
    SlotStepIs(hist, l);
    hide Apply, Good, Inv, CausedSoFar, StatusCause, SlotNext, IsSlotStep;
    OneSlotCaused(Last(hist), Apply(hist, l), l.c);
  }

  lemma StepCaused(hist: seq<Db>, l: Label)
    requires Good(hist) && CausedSoFar(hist)
    ensures AllCaused(Apply(hist, l).slots)
  {
    var db := Last(hist);
    assert WellFormed(db) && AllCaused(db.slots);
    hide Good, Inv, CausedSoFar, StatusCause;
    if IsSlotStep(l) {
      if l.c < |db.slots| { SlotStepCaused(hist, l); }
    } else {
      match l
      case HostReport(_, _, _, _, _) =>
      case PlaceNewStep(user, tier, mode, h, port, at) =>
        if h < |db.hosts| { PlaceNewCaused(db, user, tier, mode, h, port, at); }
      case JoinWaitlistStep(user, tier, mode) => JoinWaitlistCaused(db, user, tier, mode);
      case PlaceWaitlistedStep(c, h, port, at, rowAt) =>
        var row := ReadRow(hist, rowAt, c);
        if c < |db.slots| && row.Some? && h < |db.hosts| { PlaceWaitlistedCaused(db, c, row.value, h, port, at); }
      case JobSucceeds(c, k, rowAt, checkAt, trAt, at) =>
        if Observed(hist, c, k, rowAt, checkAt, trAt) {
          SettleIdentity(hist, l, db);
          OneSlotCaused(db, Apply(hist, l), c);
        }
      case ReserveStep(c, rowAt, trAt, entitled, at) =>
        if Reservable(hist, c, rowAt, trAt) {
          ReserveIdentity(db, c, ReadRow(hist, rowAt, c).value, ReadTr(hist, trAt, c).value, entitled, at);
          OneSlotCaused(db, Apply(hist, l), c);
        }
    }
  }

  lemma {:induction false} RunsStayCaused(init: Db, run: seq<Label>)
    requires Inv(init) && AllCaused(init.slots)
    ensures CausedSoFar(Exec(init, run))
  {
    if run != [] {
      var before := Exec(init, run[..|run| - 1]);
      RunsStayCaused(init, run[..|run| - 1]);
      RunsAreGood(init, run[..|run| - 1]);
      StepCaused(before, run[|run| - 1]);
      ExecLast(init, run, before);
    }
  }

  // No spinner without its job and no job without its spinner, in any run: `destroying`
  // shows an active destroy and nothing else; `provisioning` shows an active provision
  // or rebuild, or a container that has yet to be given its first job.
  lemma StatusShowsTheJob(init: Db, run: seq<Label>, i: nat, c: nat)
    requires Inv(init) && AllCaused(init.slots) && i <= |run|
    requires c < |Exec(init, run)[i].slots| && Exec(init, run)[i].slots[c].row.Some?
    ensures var s := Exec(init, run)[i].slots[c]; var status := s.row.value.status;
      && (status.Destroying? <==> ActiveDestroy(s.jobs))
      && (status.Provisioning? ==>
            || (exists k | 0 <= k < |s.jobs| :: NewestLifecycle(s.jobs, k) && ActiveSetup(s.jobs, k))
            || !HasLifecycle(s.jobs))
      && (forall k | 0 <= k < |s.jobs| :: ActiveSetup(s.jobs, k) ==> status.Provisioning?)
  {
    RunsStayCaused(init, run);
    RunsAreGood(init, run);
    var s := Exec(init, run)[i].slots[c];
    assert AllCaused(Exec(init, run)[i].slots);
    assert SlotInv(s) && StatusCause(s);
    ShowsBoth(s);
  }

  lemma ShowsBoth(s: Slot)
    requires SlotInv(s) && StatusCause(s) && s.row.Some?
    ensures s.row.value.status.Destroying? <==> ActiveDestroy(s.jobs)
    ensures s.row.value.status.Provisioning? ==>
      || (exists k | 0 <= k < |s.jobs| :: NewestLifecycle(s.jobs, k) && ActiveSetup(s.jobs, k))
      || !HasLifecycle(s.jobs)
    ensures forall k | 0 <= k < |s.jobs| :: ActiveSetup(s.jobs, k) ==> s.row.value.status.Provisioning?
  {
    if ActiveDestroy(s.jobs) {
      var k :| 0 <= k < |s.jobs| && s.jobs[k].op.Destroy? && IsActive(s.jobs[k].status);
      assert ShowsItsJob(s.row.value, s.jobs[k]);
    }
    if s.row.value.status.Provisioning? {
      if j :| 0 <= j < |s.jobs| && IsLifecycle(s.jobs[j].op) {
        var k := NewestExists(s.jobs, j);
      }
    }
    forall k | 0 <= k < |s.jobs| && ActiveSetup(s.jobs, k) ensures s.row.value.status.Provisioning? {
      assert ShowsItsJob(s.row.value, s.jobs[k]);
    }
  }
}
