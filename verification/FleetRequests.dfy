// A plan request as the program runs it, read by read and batch by batch, with
// anything happening in between. Whatever happens, what the request does is a run of
// the model; undisturbed, every step of it is safe, and it does and answers what
// `FleetAnswers` says.
module FleetRequests {
  import opened Wrappers
  import opened Plans
  import opened FleetState
  import opened FleetSteps
  import opened FleetLedger
  import opened FleetRun
  import opened FleetTheorems
  import opened FleetPlans
  import opened FleetPlanRuns
  import opened FleetBatches
  import opened FleetAnswers
  import opened FleetTurns

  // What the daemon answers about a job; SaysActive(true) is a running one.
  datatype DaemonReply = Unreachable | UnknownJob | SaysFailed | SaysActive(running: bool) | SaysSucceeded

  lemma ExecSnoc(init: Db, run: seq<Label>, l: Label)
    requires WellFormed(init)
    ensures Exec(init, run + [l]) == Exec(init, run) + [Apply(Exec(init, run), l)]
  {
    assert (run + [l])[..|run|] == run;
    ExecLast(init, run + [l], Exec(init, run));
  }

  // What was read stays what was read.
  lemma ReadStable(before: seq<Db>, after: seq<Db>, i: nat, c: nat)
    requires before <= after && i < |before|
    ensures ReadSlot(after, i, c) == ReadSlot(before, i, c)
  {
  }

  // Nothing else runs between the request's own steps.
  ghost predicate Undisturbed(others: nat -> seq<Label>) { forall i :: others(i) == [] }

  // No other plan request for c takes a step between the request's own.
  ghost predicate AllCalm(others: nat -> seq<Label>, c: nat) { forall i :: Calm(others(i), c) }

  function Shifted(others: nat -> seq<Label>, k: nat): nat -> seq<Label> { (n: nat) => others(k + n) }

  // The step acts on the plan row and the container row as they are.
  predicate Fresh(hist: seq<Db>, l: Label)
    requires hist != []
  {
    (IsSlotStep(l) || l.ReserveStep?) && l.c < |Last(hist).slots| ==>
      var now := Last(hist).slots[l.c];
      match l
      case CreateStep(c, _, rowAt) => ReadRow(hist, rowAt, c) == now.row
      case DeleteSettledStep(_, _) => !Live(now.tr)
      case RetryResizeStep(c, trAt) => ReadTr(hist, trAt, c) == now.tr
      case QueueDowngradeStop(c, _, trAt) => ReadTr(hist, trAt, c) == now.tr
      case QueueResize(_, _, _) => IsResizing(now.tr)
      case ReserveStep(c, _, trAt, _, _) => ReadTr(hist, trAt, c) == now.tr
      case _ => true
  }

  lemma QueueStepIs(hist: seq<Db>, l: Label, op: JobOp)
    requires hist != [] && WellFormed(Last(hist)) && IsQueueStep(l) && l.c < |Last(hist).slots|
    requires QueuedOp(hist, l) == Some(op) && IsLifecycle(op)
    requires var row := ReadRow(hist, l.rowAt, l.c);
      row.Some? && row.value.host.Some? && row.value.host.value < |Last(hist).hosts|
    ensures var db, row := Last(hist), ReadRow(hist, l.rowAt, l.c).value;
      Apply(hist, l) == Put(db, l.c, Enqueue(db.slots[l.c], op, row, db.hosts[row.host.value]))
  {
    hide Enqueue;
  }

  lemma FreshIsSafe(hist: seq<Db>, l: Label)
    requires GoodPlan(hist) && Fresh(hist, l)
    ensures Safe(hist, l)
  {
    if (IsSlotStep(l) || l.ReserveStep?) && l.c < |Last(hist).slots| {
      assert SlotInv(Last(hist).slots[l.c]) && PlanInv(Last(hist).slots[l.c]);
    }
  }

  lemma FreshRetry(hist: seq<Db>, c: nat, trAt: nat)
    requires GoodPlan(hist) && c < |Last(hist).slots| && ReadTr(hist, trAt, c) == Last(hist).slots[c].tr
    ensures Safe(hist, RetryResizeStep(c, trAt))
  {
    FreshIsSafe(hist, RetryResizeStep(c, trAt));
  }

  lemma FreshReserve(hist: seq<Db>, c: nat, rowAt: nat, trAt: nat, entitled: bool, at: int)
    requires GoodPlan(hist) && c < |Last(hist).slots| && ReadTr(hist, trAt, c) == Last(hist).slots[c].tr
    ensures Safe(hist, ReserveStep(c, rowAt, trAt, entitled, at))
  {
    FreshIsSafe(hist, ReserveStep(c, rowAt, trAt, entitled, at));
  }

  lemma HostKnown(hist: seq<Db>, run: seq<Label>, i: nat, c: nat)
    requires IsHistory(hist, run) && ReadRow(hist, i, c).Some? && ReadRow(hist, i, c).value.host.Some?
    ensures ReadRow(hist, i, c).value.host.value < |Last(hist).hosts|
  {
    RunsAreGood(hist[0], run);
    assert HostOf(hist[i].slots[c]).Some?;
    LastGrown(hist, run, i);
  }

  // The states of this run, from a first state that satisfies the invariant.
  predicate IsHistory(hist: seq<Db>, run: seq<Label>) {
    hist != [] && Inv(hist[0]) && hist == Exec(hist[0], run)
  }

  // Hosts stay, containers and jobs are only added.
  predicate OnlyGrown(a: Db, b: Db) {
    && |a.hosts| == |b.hosts| && |a.slots| <= |b.slots|
    && forall c | 0 <= c < |a.slots| :: |a.slots[c].jobs| <= |b.slots[c].jobs|
  }

  lemma LastGrown(hist: seq<Db>, run: seq<Label>, i: nat)
    requires IsHistory(hist, run) && i < |hist|
    ensures OnlyGrown(hist[i], Last(hist))
  {
    RunsAreGood(hist[0], run);
    if i < |hist| - 1 { assert Later(hist[i], Last(hist)); }
  }

  // Container c is now s, the hosts are these, and nothing else has changed.
  predicate Left(was: Db, now: Db, c: nat, s: Slot, hosts: seq<Host>) {
    && c < |was.slots| == |now.slots| && now.slots[c] == s && now.hosts == hosts && now.lost == was.lost
    && forall i | 0 <= i < |was.slots| && i != c :: now.slots[i] == was.slots[i]
  }

  // The container, and the container and its plan change, have been read as they are.
  predicate RowRead(hist: seq<Db>, db: Db, c: nat, rowAt: nat) {
    && c < |db.slots| && Hosted(db.slots[c], db.hosts)
    && db.slots[c].row.Some? && ReadRow(hist, rowAt, c) == db.slots[c].row
  }

  predicate PlanRead(hist: seq<Db>, db: Db, c: nat, rowAt: nat, trAt: nat) {
    RowRead(hist, db, c, rowAt) && db.slots[c].tr.Some? && ReadTr(hist, trAt, c) == db.slots[c].tr
  }

  // The submission of job k, with others' steps around it, from the state |hist| - 1.
  function DispatchSteps(c: nat, k: nat, accepts: bool, first: seq<Label>, second: seq<Label>, at: nat): seq<Label> {
    first + (if accepts then [DispatchedStep(c, k)] else second + [JobFails(c, k, at + |first|)])
  }

  lemma DispatchIsCalm(c: nat, k: nat, accepts: bool, first: seq<Label>, second: seq<Label>, at: nat)
    requires Calm(first, c) && Calm(second, c)
    ensures Calm(DispatchSteps(c, k, accepts, first, second, at), c) && Calm([], c)
  {
  }

  // A poller's steps after its first read of the container, in state rowAt.
  function RefreshSteps(c: nat, k: nat, reply: DaemonReply, at: int, others: nat -> seq<Label>,
                        rowAt: nat, queued: bool): seq<Label>
  {
    var checkAt := rowAt + |others(0)|;
    others(0) +
    match reply
    case Unreachable => []
    case UnknownJob => if queued then [] else others(1) + [JobFails(c, k, checkAt)]
    case SaysFailed => others(1) + [JobFails(c, k, checkAt)]
    case SaysActive(running) => [Heartbeat(c, k, if running then JobRunning else JobQueued)]
    case SaysSucceeded => others(1) + others(2) + [JobSucceeds(c, k, rowAt, checkAt, checkAt + |others(1)|, at)]
  }

  class Session {
    const db: Database
    var hist: seq<Db>
    var run: seq<Label>

    ghost predicate Valid()
      reads this, db
    {
      IsHistory(hist, run) && |hist| == |run| + 1 && Last(hist) == db.State() && WellFormed(db.State())
    }

    constructor (init: Db)
      requires Inv(init)
      ensures Valid() && hist == [init] && run == [] && fresh(db)
    {
      db := new Database(init);
      hist, run := [init], [];
    }

    // The batch just executed was this step.
    method Record(l: Label)
      requires IsHistory(hist, run) && |hist| == |run| + 1
      requires db.State() == Apply(hist, l)
      modifies this
      ensures Valid() && hist == old(hist) + [Apply(old(hist), l)] && run == old(run) + [l]
      ensures old(GoodPlan(hist)) && Safe(old(hist), l) ==> GoodPlan(hist)
    {
      ExecSnoc(hist[0], run, l);
      if GoodPlan(hist) && Safe(hist, l) { ExtendPlan(hist, l); }
      hist := hist + [Apply(hist, l)];
      run := run + [l];
    }

    // Other requests, pollers and cron take these steps.
    method Others(labels: seq<Label>, ghost c: nat, ghost start: nat, ghost i: nat)
      requires Valid()
      modifies this, db
      ensures Valid() && old(hist) <= hist && run == old(run) + labels
      ensures Calm(labels, c) ==>
        && (Turns(old(hist), old(run), start, c) ==> Turns(hist, run, start, c))
        && (CalmIn(old(run), i, |old(run)|, c) ==> CalmIn(run, i, |run|, c))
        && (NoCreateIn(old(run), i, |old(run)|, c) ==> NoCreateIn(run, i, |run|, c))
      ensures labels == [] ==> hist == old(hist) && db.State() == old(db.State())
      ensures OnlyGrown(old(db.State()), db.State())
    {
      hide GoodPlan, IsHistory, Apply, Safe, Turns, CalmIn, NoCreateIn, Calm;
      var k := 0;
      LastGrown(hist, run, |hist| - 1);
      while k < |labels|
        invariant k <= |labels| && Valid() && old(hist) <= hist && run == old(run) + labels[..k]
        invariant k == 0 ==> hist == old(hist) && db.State() == old(db.State())
        invariant OnlyGrown(old(db.State()), db.State())
      {
        var next := Apply(hist, labels[k]);
        db.hosts, db.slots, db.lost := next.hosts, next.slots, next.lost;
        Record(labels[k]);
        LastGrown(hist, run, |old(hist)| - 1);
        k := k + 1;
      }
      assert labels[..k] == labels;
      if Calm(labels, c) {
        TurnsAfterCalm(old(hist), old(run), hist, run, labels, start, c);
        CalmGoesOn(old(run), labels, i, c);
      }
    }

    // ------------------------------------------------------ steps of a request

    // Deletion of a plan row read as settled.
    method DeleteSettled(c: nat, trAt: nat)
      requires Valid() && c < |db.slots| && ReadTr(hist, trAt, c).Some? && Settled(ReadTr(hist, trAt, c).value)
      modifies this, db
      ensures Valid() && old(hist) <= hist && run == old(run) + [DeleteSettledStep(c, trAt)]
      ensures old(GoodPlan(hist)) && !Live(old(db.slots)[c].tr) ==> GoodPlan(hist)
      ensures Left(old(db.State()), db.State(), c, DeleteTransition(old(db.slots)[c]), old(db.hosts))
    {
      hide GoodPlan, IsHistory;
      db.slots := db.slots[c := DeleteTransition(db.slots[c])];
      Record(DeleteSettledStep(c, trAt));
    }

    method CancelUnreservedPlan(c: nat, trAt: nat) returns (cancelled: bool)
      requires Valid() && c < |db.slots| && Cancellable(ReadTr(hist, trAt, c))
      modifies this, db
      ensures Valid() && old(hist) <= hist && run == old(run) + [CancelStep(c, trAt)]
      ensures old(GoodPlan(hist)) ==> GoodPlan(hist)
      ensures cancelled <==> Cancellable(old(db.slots)[c].tr) && !Busy(old(db.slots)[c].jobs)
      ensures Left(old(db.State()), db.State(), c,
                   CancelUnreserved(old(db.slots)[c], ReadTr(old(hist), trAt, c).value.prior), old(db.hosts))
    {
      hide GoodPlan, IsHistory;
      cancelled := db.CancelUnreservedBatch(c, ReadTr(hist, trAt, c).value.prior);
      Record(CancelStep(c, trAt));
    }

    method CreatePlan(c: nat, rowAt: nat, to: Tier)
      requires Valid() && c < |db.slots| && Creates(ReadRow(hist, rowAt, c), to)
      modifies this, db
      ensures Valid() && old(hist) <= hist && run == old(run) + [CreateStep(c, to, rowAt)]
      ensures old(GoodPlan(hist)) && ReadRow(old(hist), rowAt, c) == old(db.slots)[c].row ==> GoodPlan(hist)
      ensures Left(old(db.State()), db.State(), c,
                   CreateTransition(old(db.slots)[c], ReadRow(old(hist), rowAt, c).value, to), old(db.hosts))
    {
      hide GoodPlan, IsHistory;
      db.CreateTransitionBatch(c, ReadRow(hist, rowAt, c).value, to);
      Record(CreateStep(c, to, rowAt));
    }

    method ClaimAndCharge(c: nat, rowAt: nat, trAt: nat, entitled: bool, at: int) returns (charged: bool)
      requires Valid() && Reservable(hist, c, rowAt, trAt)
      modifies this, db
      ensures Valid() && old(hist) <= hist && OnlyGrown(old(db.State()), db.State())
      ensures run == old(run) + [ReserveStep(c, rowAt, trAt, entitled, at)]
      ensures charged ==> Started(hist, run, |old(run)|, c)
      ensures old(GoodPlan(hist)) && Safe(old(hist), ReserveStep(c, rowAt, trAt, entitled, at)) ==> GoodPlan(hist)
      ensures var read, readTr := ReadRow(old(hist), rowAt, c).value, ReadTr(old(hist), trAt, c).value;
        && db.State() == FleetSteps.Reserve(old(db.State()), c, read, readTr, entitled, at)
        && (charged <==> Claimable(old(db.slots)[c]) && entitled
                         && HostReserves(old(db.hosts)[read.host.value], RequestedAmount(read, readTr).disk, at))
      ensures c < |db.slots| && (charged ==> IsResizing(db.slots[c].tr))
    {
      hide GoodPlan, IsHistory, Safe;
      charged := db.ReserveBatch(c, ReadRow(hist, rowAt, c).value, ReadTr(hist, trAt, c).value, entitled, at);
      Record(ReserveStep(c, rowAt, trAt, entitled, at));
      LastGrown(hist, run, |hist| - 2);
      assert hist[..|old(run)| + 1] == old(hist);
    }

    method ReleaseClaim(c: nat)
      requires Valid() && c < |db.slots|
      modifies this, db
      ensures Valid() && old(hist) <= hist && run == old(run) + [ReserveFallbackStep(c)]
      ensures OnlyGrown(old(db.State()), db.State())
      ensures old(GoodPlan(hist)) ==> GoodPlan(hist)
      ensures Left(old(db.State()), db.State(), c, ReserveFallback(old(db.slots)[c]), old(db.hosts))
    {
      hide GoodPlan, IsHistory;
      db.slots := db.slots[c := ReserveFallback(db.slots[c])];
      Record(ReserveFallbackStep(c));
      LastGrown(hist, run, |hist| - 2);
    }

    // One step of one's own, in its turn, and what others did right after.
    lemma StepTaken(h: seq<Db>, r: seq<Label>, l: Label, labels: seq<Label>, start: nat, c: nat)
      requires GoesOn(h, r, hist, run) && run == r + [l] + labels && Calm(labels, c)
      ensures (RequestOn(l, c) ==> InTurn(h, r, start, l, |r|, c)) && Turns(h, r, start, c) ==>
        Turns(hist, run, start, c)
    {
      if RequestOn(l, c) ==> InTurn(h, r, start, l, |r|, c) { TurnsAfterStep(h, r, hist, run, l, labels, start, c); }
    }

    // Reserves, or releases the claim on the plan row when the host refused.
    method ReservePlan(c: nat, rowAt: nat, trAt: nat, entitled: bool, at: int, others: seq<Label>, ghost start: nat)
      returns (charged: bool)
      requires Valid() && Reservable(hist, c, rowAt, trAt)
      modifies this, db
      ensures Valid() && old(hist) <= hist && old(run) <= run && OnlyGrown(old(db.State()), db.State())
      ensures Calm(others, c) && Turns(old(hist), old(run), start, c) && CalmIn(old(run), trAt, |old(run)|, c) ==>
        Turns(hist, run, start, c)
      ensures charged ==> |run| == |old(run)| + 1 && Started(hist, run, |old(run)|, c)
      ensures old(GoodPlan(hist)) && Safe(old(hist), ReserveStep(c, rowAt, trAt, entitled, at))
              && (charged || others == []) ==>
        GoodPlan(hist)
      ensures charged ==> c < |db.slots| && IsResizing(db.slots[c].tr)
      ensures others == [] && PlanRead(old(hist), old(db.State()), c, rowAt, trAt) ==>
        var now, hosts := old(db.slots)[c], old(db.hosts);
        && (charged <==> Reserves(now, hosts, entitled, at))
        && (if charged then Left(old(db.State()), db.State(), c, Charged(now, Wanted(now)),
                                 HostCharged(hosts, HostOf(now).value, Wanted(now)))
            else Left(old(db.State()), db.State(), c, Refused(now, entitled), hosts))
    {
      hide GoodPlan, IsHistory, Safe, Turns, CalmIn, Calm, Started;
      charged := ClaimAndCharge(c, rowAt, trAt, entitled, at);
      StepTaken(old(hist), old(run), ReserveStep(c, rowAt, trAt, entitled, at), [], start, c);
      if !charged {
        Others(others, c, start, trAt);
        ghost var waited, steps := hist, run;
        ReleaseClaim(c);
        StepTaken(waited, steps, ReserveFallbackStep(c), [], start, c);
      }
    }

    method RetryPlan(c: nat, trAt: nat)
      requires Valid() && c < |db.slots| && ReadTr(hist, trAt, c).Some? && MayRetryResize(ReadTr(hist, trAt, c).value)
      modifies this, db
      ensures Valid() && old(hist) <= hist && OnlyGrown(old(db.State()), db.State())
      ensures run == old(run) + [RetryResizeStep(c, trAt)] && Started(hist, run, |old(run)|, c)
      ensures old(GoodPlan(hist)) && ReadTr(old(hist), trAt, c) == old(db.slots)[c].tr ==> GoodPlan(hist)
      ensures Left(old(db.State()), db.State(), c, RetryResize(old(db.slots)[c]), old(db.hosts))
    {
      hide GoodPlan, IsHistory, Safe;
      if GoodPlan(hist) && ReadTr(hist, trAt, c) == db.slots[c].tr { FreshRetry(hist, c, trAt); }
      db.slots := db.slots[c := RetryResize(db.slots[c])];
      Record(RetryResizeStep(c, trAt));
      LastGrown(hist, run, |hist| - 2);
      assert hist[..|old(run)| + 1] == old(hist);
    }

    method DeferResize(c: nat)
      requires Valid() && c < |db.slots|
      modifies this, db
      ensures Valid() && old(hist) <= hist && run == old(run) + [DeferStep(c)]
      ensures OnlyGrown(old(db.State()), db.State())
      ensures old(GoodPlan(hist)) ==> GoodPlan(hist)
      ensures Left(old(db.State()), db.State(), c, Defer(old(db.slots)[c]), old(db.hosts))
    {
      hide GoodPlan, IsHistory;
      db.slots := db.slots[c := Defer(db.slots[c])];
      Record(DeferStep(c));
      LastGrown(hist, run, |hist| - 2);
    }

    // A request's insertion of a job, with the row it read on a known host.
    ghost predicate Insertable(l: Label, op: JobOp)
      reads this, db
    {
      && hist != [] && IsQueueStep(l) && l.c < |db.slots| && QueuedOp(hist, l) == Some(op) && IsLifecycle(op)
      && var row := ReadRow(hist, l.rowAt, l.c);
         row.Some? && row.value.host.Some? && row.value.host.value < |db.hosts|
    }

    method InsertJob(l: Label, op: JobOp) returns (inserted: bool)
      requires Valid() && Insertable(l, op)
      modifies this, db
      ensures Valid() && old(hist) <= hist && run == old(run) + [l] && OnlyGrown(old(db.State()), db.State())
      ensures old(GoodPlan(hist)) && Safe(old(hist), l) ==> GoodPlan(hist)
      ensures var now, row := old(db.slots)[l.c], ReadRow(old(hist), l.rowAt, l.c).value;
        var host := old(db.hosts)[row.host.value];
        && (inserted <==> MayEnqueue(now, op, row, host))
        && Left(old(db.State()), db.State(), l.c, Enqueue(now, op, row, host), old(db.hosts))
    {
      hide GoodPlan, IsHistory, Safe, Apply, QueuedOp;
      var row := ReadRow(hist, l.rowAt, l.c).value;
      QueueStepIs(hist, l, op);
      inserted := db.EnqueueBatch(l.c, op, row, db.hosts[row.host.value]);
      Record(l);
      LastGrown(hist, run, |hist| - 2);
    }

    method MarkRunning(c: nat, k: nat)
      requires Valid() && c < |db.slots| && k < |db.slots[c].jobs|
      modifies this, db
      ensures Valid() && old(hist) <= hist && run == old(run) + [DispatchedStep(c, k)]
      ensures OnlyGrown(old(db.State()), db.State())
      ensures old(GoodPlan(hist)) ==> GoodPlan(hist)
      ensures Left(old(db.State()), db.State(), c, Dispatched(old(db.slots)[c], k), old(db.hosts))
    {
      hide GoodPlan, IsHistory;
      db.UpdateJob(c, k, db.slots[c].jobs[k].status.JobQueued?, JobRunning);
      assert db.slots == old(db.slots)[c := Dispatched(old(db.slots)[c], k)];
      Record(DispatchedStep(c, k));
      LastGrown(hist, run, |hist| - 2);
    }

    method MarkFailed(c: nat, k: nat, trAt: nat)
      requires Valid() && c < |db.slots| && k < |db.slots[c].jobs| && JobKnown(hist, trAt, c, k)
      modifies this, db
      ensures Valid() && old(hist) <= hist && run == old(run) + [JobFails(c, k, trAt)]
      ensures OnlyGrown(old(db.State()), db.State())
      ensures old(GoodPlan(hist)) ==> GoodPlan(hist)
      ensures Left(old(db.State()), db.State(), c, FailJob(old(db.slots)[c], k, ReadTr(old(hist), trAt, c)),
                   old(db.hosts))
    {
      hide GoodPlan, IsHistory;
      db.FailJobBatch(c, k, ReadTr(hist, trAt, c));
      Record(JobFails(c, k, trAt));
      LastGrown(hist, run, |hist| - 2);
    }

    method DispatchJob(c: nat, k: nat, accepts: bool, first: seq<Label>, second: seq<Label>)
      requires Valid() && c < |db.slots| && k < |db.slots[c].jobs|
      modifies this, db
      ensures Valid() && old(hist) <= hist && OnlyGrown(old(db.State()), db.State())
      ensures run == old(run) + DispatchSteps(c, k, accepts, first, second, |old(run)|)
      ensures old(GoodPlan(hist)) && first == [] && second == [] ==> GoodPlan(hist)
      ensures first == [] && second == [] ==>
        Left(old(db.State()), db.State(), c, Submitted(old(db.slots)[c], k, accepts), old(db.hosts))
    {
      hide GoodPlan, IsHistory, Dispatched, FailJob, Apply;
      Others(first, c, 0, 0);
      if accepts {
        MarkRunning(c, k);
      } else {
        var trAt := |hist| - 1;
        ghost var before := hist;
        Others(second, c, 0, 0);
        ReadStable(before, hist, trAt, c);
        MarkFailed(c, k, trAt);
      }
    }

    // enqueueJob: insertion, dispatch to the daemon, and the job's failure if the
    // daemon could not be reached.
    method EnqueueJob(l: Label, op: JobOp, accepts: bool, first: seq<Label>, second: seq<Label>)
      returns (inserted: bool)
      requires Valid() && Insertable(l, op)
      modifies this, db
      ensures Valid() && old(hist) <= hist && OnlyGrown(old(db.State()), db.State())
      ensures old(GoodPlan(hist)) && Safe(old(hist), l) && first == [] && second == [] ==> GoodPlan(hist)
      ensures run == old(run) + [l] + if !inserted then []
        else DispatchSteps(l.c, |old(db.slots)[l.c].jobs|, accepts, first, second, |old(run)| + 1)
      ensures var now, row := old(db.slots)[l.c], ReadRow(old(hist), l.rowAt, l.c).value;
        var host := old(db.hosts)[row.host.value];
        && (inserted <==> MayEnqueue(now, op, row, host))
        && (first == [] && second == [] ==>
              Left(old(db.State()), db.State(), l.c, Sent(now, op, row, host, accepts), old(db.hosts)))
    {
      hide GoodPlan, IsHistory, Safe, Submitted, MayEnqueue;
      inserted := InsertJob(l, op);
      if inserted { DispatchJob(l.c, |db.slots[l.c].jobs| - 1, accepts, first, second); }
    }

    // The steps of an insertion, in its turn.
    lemma EnqueuedInTurn(h: seq<Db>, r: seq<Label>, l: Label, k: nat, inserted: bool, accepts: bool,
                         first: seq<Label>, second: seq<Label>, start: nat, c: nat)
      requires GoesOn(h, r, hist, run)
      requires run == r + [l] + if inserted then DispatchSteps(c, k, accepts, first, second, |r| + 1) else []
      ensures Calm(first, c) && Calm(second, c) && InTurn(h, r, start, l, |r|, c) && Turns(h, r, start, c) ==>
        Turns(hist, run, start, c)
    {
      hide Turns, InTurn, DispatchSteps, GoesOn;
      if Calm(first, c) && Calm(second, c) {
        DispatchIsCalm(c, k, accepts, first, second, |r| + 1);
        StepTaken(h, r, l, if inserted then DispatchSteps(c, k, accepts, first, second, |r| + 1) else [], start, c);
      }
    }

    // enqueueJob as a step of a request.
    method EnqueueInTurn(l: Label, op: JobOp, accepts: bool, first: seq<Label>, second: seq<Label>, ghost start: nat)
      returns (inserted: bool)
      requires Valid() && Insertable(l, op)
      modifies this, db
      ensures Valid() && old(hist) <= hist && old(run) <= run && OnlyGrown(old(db.State()), db.State())
      ensures old(GoodPlan(hist)) && Safe(old(hist), l) && first == [] && second == [] ==> GoodPlan(hist)
      ensures Calm(first, l.c) && Calm(second, l.c) && InTurn(old(hist), old(run), start, l, |old(run)|, l.c)
              && Turns(old(hist), old(run), start, l.c) ==>
        Turns(hist, run, start, l.c)
      ensures var now, row := old(db.slots)[l.c], ReadRow(old(hist), l.rowAt, l.c).value;
        var host := old(db.hosts)[row.host.value];
        && (inserted <==> MayEnqueue(now, op, row, host))
        && (first == [] && second == [] ==>
              Left(old(db.State()), db.State(), l.c, Sent(now, op, row, host, accepts), old(db.hosts)))
    {
      hide GoodPlan, IsHistory, Safe, Sent, MayEnqueue, Calm, InTurn, Turns, Left, DispatchSteps;
      ghost var k := |db.slots[l.c].jobs|;
      inserted := EnqueueJob(l, op, accepts, first, second);
      EnqueuedInTurn(old(hist), old(run), l, k, inserted, accepts, first, second, start, l.c);
    }

    // --------------------------------------------------------- the whole request

    method DispatchResize(c: nat, rowAt: nat, trAt: nat, accepts: bool, others: nat -> seq<Label>,
                          ghost start: nat, ghost m: nat) returns (r: PlanResult)
      requires Valid() && c < |db.slots| && ReadRow(hist, rowAt, c).Some? && ReadTr(hist, trAt, c).Some?
      modifies this, db
      ensures Valid() && old(hist) <= hist && old(run) <= run && !r.Ineligible?
      ensures
        && AllCalm(others, c) && Turns(old(hist), old(run), start, c)
        && start <= m && Started(old(hist), old(run), m, c) && CalmIn(old(run), m + 1, |old(run)|, c)
        ==> Turns(hist, run, start, c)
      ensures old(GoodPlan(hist)) && IsResizing(old(db.slots)[c].tr) && Undisturbed(others) ==> GoodPlan(hist)
      ensures Undisturbed(others) && RowRead(old(hist), old(db.State()), c, rowAt) ==>
        var a := ResizeSent(old(db.slots)[c], old(db.hosts), accepts);
        r == a.result && Left(old(db.State()), db.State(), c, a.slot, a.hosts)
    {
      hide GoodPlan, IsHistory, Safe, Apply, MayEnqueue, Sent, Defer, Turns, Started, CalmIn, NoCreateIn, Calm;
      ghost var begun := hist;
      var row := ReadRow(hist, rowAt, c).value;
      Others(others(0), c, start, m + 1);
      ReadStable(begun, hist, rowAt, c);
      if row.host.None? {
        DeferInTurn(c, start);
        return WaitingForCapacity;
      }
      HostKnown(hist, run, rowAt, c);
      if !db.hosts[row.host.value].status.Active? {
        Others(others(1), c, start, m + 1);
        DeferInTurn(c, start);
        return WaitingForCapacity;
      }
      Others(others(2), c, start, m + 1);
      ReadStable(begun, hist, rowAt, c);
      ReadStable(begun, hist, trAt, c);
      if Started(old(hist), old(run), m, c) { StartedStays(old(hist), old(run), hist, run, m, c); }
      r := QueueResizeJob(c, rowAt, trAt, accepts, others, start, m);
    }

    // The claim is kept for a retry.
    method DeferInTurn(c: nat, ghost start: nat)
      requires Valid() && c < |db.slots|
      modifies this, db
      ensures Valid() && old(hist) <= hist && old(run) <= run && OnlyGrown(old(db.State()), db.State())
      ensures old(GoodPlan(hist)) ==> GoodPlan(hist)
      ensures Left(old(db.State()), db.State(), c, Defer(old(db.slots)[c]), old(db.hosts))
      ensures Turns(old(hist), old(run), start, c) ==> Turns(hist, run, start, c)
    {
      hide GoodPlan, IsHistory, Apply, Safe, Defer, Turns;
      DeferResize(c);
      StepTaken(old(hist), old(run), DeferStep(c), [], start, c);
    }

    method QueueResizeJob(c: nat, rowAt: nat, trAt: nat, accepts: bool, others: nat -> seq<Label>,
                          ghost start: nat, ghost m: nat) returns (r: PlanResult)
      requires Valid() && c < |db.slots| && ReadRow(hist, rowAt, c).Some? && ReadRow(hist, rowAt, c).value.host.Some?
      requires ReadRow(hist, rowAt, c).value.host.value < |db.hosts| && ReadTr(hist, trAt, c).Some?
      modifies this, db
      ensures Valid() && old(hist) <= hist && old(run) <= run && !r.Ineligible?
      ensures
        && AllCalm(others, c) && Turns(old(hist), old(run), start, c)
        && start <= m && Started(old(hist), old(run), m, c) && CalmIn(old(run), m + 1, |old(run)|, c)
        ==> Turns(hist, run, start, c)
      ensures old(GoodPlan(hist)) && IsResizing(old(db.slots)[c].tr) && Undisturbed(others) ==> GoodPlan(hist)
      ensures var now, row := old(db.slots)[c], ReadRow(old(hist), rowAt, c).value;
        var host := old(db.hosts)[row.host.value];
        Undisturbed(others) ==>
          if MayEnqueue(now, Resize, row, host) then
            r == ResizeQueued
            && Left(old(db.State()), db.State(), c, Sent(now, Resize, row, host, accepts), old(db.hosts))
          else
            r == Threw && Left(old(db.State()), db.State(), c, Defer(now), old(db.hosts))
    {
      hide GoodPlan, IsHistory, Safe, Apply, MayEnqueue, Submitted, Defer, Turns, Started, CalmIn, NoCreateIn, Calm;
      var l := QueueResize(c, rowAt, trAt);
      if GoodPlan(hist) && Fresh(hist, l) { FreshIsSafe(hist, l); }
      if start <= m && Started(old(hist), old(run), m, c) && CalmIn(old(run), m + 1, |old(run)|, c) {
        ResizeIsInTurn(old(hist), old(run), start, l, m, c);
      }
      var inserted := EnqueueInTurn(l, Resize, accepts, others(3), others(4), start);
      if inserted { return ResizeQueued; }
      Others(others(5), c, start, 0);
      DeferInTurn(c, start);
      r := Threw;
    }

    method QueueStop(c: nat, rowAt: nat, trAt: nat, accepts: bool, others: nat -> seq<Label>, ghost start: nat)
      returns (r: PlanResult)
      requires Valid() && c < |db.slots| && ReadRow(hist, rowAt, c).Some? && ReadRow(hist, rowAt, c).value.host.Some?
      requires ReadRow(hist, rowAt, c).value.host.value < |db.hosts| && ReadTr(hist, trAt, c).Some?
      requires ReadTr(hist, trAt, c).value.to.Free? && ReadTr(hist, trAt, c).value.prior.Running?
      modifies this, db
      ensures Valid() && old(hist) <= hist && old(run) <= run && OnlyGrown(old(db.State()), db.State())
      ensures AllCalm(others, c) && Turns(old(hist), old(run), start, c) && CalmIn(old(run), trAt, |old(run)|, c) ==>
        Turns(hist, run, start, c)
      ensures var row := ReadRow(old(hist), rowAt, c).value;
        var let := MayEnqueue(old(db.slots)[c], Stop, row, old(db.hosts)[row.host.value]);
        r == if let || db.hosts[row.host.value].status.Active? then StopQueued else WaitingForCapacity
      ensures old(GoodPlan(hist)) && ReadTr(old(hist), trAt, c) == old(db.slots)[c].tr && Undisturbed(others) ==>
        GoodPlan(hist)
      ensures var now, row := old(db.slots)[c], ReadRow(old(hist), rowAt, c).value;
        var host := old(db.hosts)[row.host.value];
        Undisturbed(others) && MayEnqueue(now, Stop, row, host) ==>
          r == StopQueued && Left(old(db.State()), db.State(), c, Sent(now, Stop, row, host, accepts), old(db.hosts))
    {
      hide GoodPlan, IsHistory, Apply, Safe, Sent, Turns, CalmIn, NoCreateIn, Calm;
      var host := ReadRow(hist, rowAt, c).value.host.value;
      var l := QueueDowngradeStop(c, rowAt, trAt);
      if GoodPlan(hist) && Fresh(hist, l) { FreshIsSafe(hist, l); }
      var inserted := EnqueueInTurn(l, Stop, accepts, others(2), others(3), start);
      if inserted { return StopQueued; }
      Others(others(4), c, start, 0);
      r := if db.hosts[host].status.Active? then StopQueued else WaitingForCapacity;
    }

    // None when there is no running workbench to stop first.
    method StopRunningDowngrade(c: nat, rowAt: nat, trAt: nat, accepts: bool, others: nat -> seq<Label>,
                                ghost start: nat) returns (r: Option<PlanResult>)
      requires Valid() && c < |db.slots| && ReadRow(hist, rowAt, c).Some? && ReadTr(hist, trAt, c).Some?
      modifies this, db
      ensures Valid() && old(hist) <= hist && old(run) <= run && OnlyGrown(old(db.State()), db.State())
      ensures AllCalm(others, c) && Turns(old(hist), old(run), start, c) && CalmIn(old(run), trAt, |old(run)|, c) ==>
        Turns(hist, run, start, c)
      ensures r.Some? ==> !r.value.Ineligible?
      ensures old(GoodPlan(hist)) && ReadTr(old(hist), trAt, c) == old(db.slots)[c].tr && Undisturbed(others) ==>
        GoodPlan(hist)
      ensures var tr := ReadTr(old(hist), trAt, c).value; r.None? <==> !(tr.to.Free? && tr.prior.Running?)
      ensures r.None? ==> hist == old(hist) && run == old(run) && db.State() == old(db.State())
      ensures r.Some? && Undisturbed(others) && RowRead(old(hist), old(db.State()), c, rowAt) ==>
        var a := StopSent(old(db.slots)[c], old(db.hosts), accepts);
        r.value == a.result && Left(old(db.State()), db.State(), c, a.slot, a.hosts)
    {
      hide GoodPlan, IsHistory, Apply, Fresh, Safe, Sent, Turns, CalmIn, NoCreateIn, Calm;
      ghost var begun := hist;
      LastGrown(hist, run, |hist| - 1);
      var row, tr := ReadRow(hist, rowAt, c).value, ReadTr(hist, trAt, c).value;
      if !tr.to.Free? || !tr.prior.Running? { return None; }
      Others(others(0), c, start, trAt);
      if Busy(db.slots[c].jobs) { return Some(StopQueued); }
      if row.host.None? { return Some(WaitingForCapacity); }
      ReadStable(begun, hist, rowAt, c);
      ReadStable(begun, hist, trAt, c);
      var sent := StopOnHost(c, rowAt, trAt, accepts, others, start);
      r := Some(sent);
    }

    method StopOnHost(c: nat, rowAt: nat, trAt: nat, accepts: bool, others: nat -> seq<Label>, ghost start: nat)
      returns (r: PlanResult)
      requires Valid() && c < |db.slots| && ReadRow(hist, rowAt, c).Some? && ReadRow(hist, rowAt, c).value.host.Some?
      requires ReadTr(hist, trAt, c).Some?
      requires ReadTr(hist, trAt, c).value.to.Free? && ReadTr(hist, trAt, c).value.prior.Running?
      modifies this, db
      ensures Valid() && old(hist) <= hist && old(run) <= run && OnlyGrown(old(db.State()), db.State())
      ensures AllCalm(others, c) && Turns(old(hist), old(run), start, c) && CalmIn(old(run), trAt, |old(run)|, c) ==>
        Turns(hist, run, start, c)
      ensures !r.Ineligible?
      ensures old(GoodPlan(hist)) && ReadTr(old(hist), trAt, c) == old(db.slots)[c].tr && Undisturbed(others) ==>
        GoodPlan(hist)
      ensures Undisturbed(others) && RowRead(old(hist), old(db.State()), c, rowAt) && !Busy(old(db.slots)[c].jobs) ==>
        var a := StopSent(old(db.slots)[c], old(db.hosts), accepts);
        r == a.result && Left(old(db.State()), db.State(), c, a.slot, a.hosts)
    {
      hide GoodPlan, IsHistory, Apply, Fresh, Safe, Sent, Turns, CalmIn, NoCreateIn, Calm;
      ghost var begun := hist;
      var row := ReadRow(hist, rowAt, c).value;
      LastGrown(hist, run, |hist| - 1);
      Others(others(1), c, start, trAt);
      ReadStable(begun, hist, rowAt, c);
      ReadStable(begun, hist, trAt, c);
      HostKnown(hist, run, rowAt, c);
      if !db.hosts[row.host.value].status.Active? { return WaitingForCapacity; }
      r := QueueStop(c, rowAt, trAt, accepts, others, start);
    }

    method CancelFound(c: nat, trAt: nat, others: seq<Label>, ghost start: nat, ghost rowAt: nat)
      returns (cancelled: bool)
      requires Valid() && c < |db.slots| && trAt == |hist| - 1 && Cancellable(db.slots[c].tr)
      modifies this, db
      ensures Valid() && old(hist) <= hist && OnlyGrown(old(db.State()), db.State())
      ensures run == old(run) + others + [CancelStep(c, trAt)]
      ensures Calm(others, c) ==>
        && (Turns(old(hist), old(run), start, c) ==> Turns(hist, run, start, c))
        && (NoCreateIn(old(run), rowAt, |old(run)|, c) ==> NoCreateIn(run, rowAt, |run|, c))
      ensures old(GoodPlan(hist)) && others == [] ==> GoodPlan(hist)
      ensures others == [] ==> var now := old(db.slots)[c];
        && (cancelled <==> !Busy(now.jobs))
        && Left(old(db.State()), db.State(), c, CancelUnreserved(now, now.tr.value.prior), old(db.hosts))
    {
      hide GoodPlan, IsHistory, Apply, CancelUnreserved, Turns, CalmIn, Calm;
      ghost var begun := hist;
      Others(others, c, start, rowAt);
      ReadStable(begun, hist, trAt, c);
      ghost var waited, steps := hist, run;
      cancelled := CancelUnreservedPlan(c, trAt);
      StepTaken(waited, steps, CancelStep(c, trAt), [], start, c);
      LastGrown(hist, run, |begun| - 1);
    }

    // Another target's plan row is cancelled while nothing is reserved for it.
    method CancelOther(c: nat, rowAt: nat, others: nat -> seq<Label>, ghost start: nat)
      returns (conflict: bool, row: nat)
      requires Valid() && c < |db.slots| && ReadRow(hist, rowAt, c).Some?
      modifies this, db
      ensures Valid() && old(hist) <= hist && old(run) <= run && OnlyGrown(old(db.State()), db.State())
      ensures old(GoodPlan(hist)) && Undisturbed(others) ==> GoodPlan(hist)
      ensures AllCalm(others, c) ==>
        && (Turns(old(hist), old(run), start, c) ==> Turns(hist, run, start, c))
        && (NoCreateIn(old(run), rowAt, |old(run)|, c) ==> NoCreateIn(run, row, |run|, c))
      ensures ReadRow(hist, row, c).Some?
      ensures Undisturbed(others) && old(db.slots)[c].row.Some? ==> var now := old(db.slots)[c];
        && (conflict <==> !(Cancellable(now.tr) && !Busy(now.jobs)))
        && (!conflict ==> ReadRow(hist, row, c) == db.slots[c].row)
        && Left(old(db.State()), db.State(), c,
                if conflict then now else CancelUnreserved(now, now.tr.value.prior), old(db.hosts))
    {
      hide GoodPlan, IsHistory, Apply, Turns, CalmIn, Calm;
      ghost var begun := hist;
      conflict, row := true, rowAt;
      Others(others(2), c, start, rowAt);
      ReadStable(begun, hist, rowAt, c);
      if Cancellable(db.slots[c].tr) { conflict, row := CancelAndReread(c, rowAt, others, start); }
    }

    method CancelAndReread(c: nat, rowAt: nat, others: nat -> seq<Label>, ghost start: nat)
      returns (conflict: bool, row: nat)
      requires Valid() && c < |db.slots| && ReadRow(hist, rowAt, c).Some? && Cancellable(db.slots[c].tr)
      modifies this, db
      ensures Valid() && old(hist) <= hist && old(run) <= run && OnlyGrown(old(db.State()), db.State())
      ensures old(GoodPlan(hist)) && Undisturbed(others) ==> GoodPlan(hist)
      ensures AllCalm(others, c) ==>
        && (Turns(old(hist), old(run), start, c) ==> Turns(hist, run, start, c))
        && (NoCreateIn(old(run), rowAt, |old(run)|, c) ==> NoCreateIn(run, row, |run|, c))
      ensures ReadRow(hist, row, c).Some?
      ensures Undisturbed(others) && old(db.slots)[c].row.Some? ==> var now := old(db.slots)[c];
        && (conflict <==> Busy(now.jobs))
        && (!conflict ==> ReadRow(hist, row, c) == db.slots[c].row)
        && Left(old(db.State()), db.State(), c, CancelUnreserved(now, now.tr.value.prior), old(db.hosts))
    {
      hide GoodPlan, IsHistory, Apply, Turns, CalmIn, Calm;
      ghost var begun := hist;
      conflict, row := true, rowAt;
      var cancelled := CancelFound(c, |hist| - 1, others(3), start, rowAt);
      ReadStable(begun, hist, rowAt, c);
      if !cancelled { return; }
      Others(others(4), c, start, rowAt);
      ReadStable(begun, hist, rowAt, c);
      conflict := false;
      if db.slots[c].row.Some? { row := |hist| - 1; }
    }

    method CreateInTurnStep(c: nat, to: Tier, rowAt: nat, others: seq<Label>, ghost start: nat)
      requires Valid() && c < |db.slots| && Creates(ReadRow(hist, rowAt, c), to)
      modifies this, db
      ensures Valid() && old(hist) <= hist && old(run) <= run && OnlyGrown(old(db.State()), db.State())
      ensures Calm(others, c) && NoCreateIn(old(run), rowAt, |old(run)|, c) && Turns(old(hist), old(run), start, c) ==>
        Turns(hist, run, start, c)
      ensures old(GoodPlan(hist)) && others == [] && ReadRow(old(hist), rowAt, c) == old(db.slots)[c].row ==>
        GoodPlan(hist)
      ensures others == [] ==>
        Left(old(db.State()), db.State(), c,
             CreateTransition(old(db.slots)[c], ReadRow(old(hist), rowAt, c).value, to), old(db.hosts))
    {
      hide GoodPlan, IsHistory, CreateTransition, Safe, Apply, Turns, CalmIn, NoCreateIn, Calm;
      ghost var begun := hist;
      Others(others, c, start, rowAt);
      ReadStable(begun, hist, rowAt, c);
      ghost var waited, steps := hist, run;
      CreatePlan(c, rowAt, to);
      StepTaken(waited, steps, CreateStep(c, to, rowAt), [], start, c);
      LastGrown(hist, run, |begun| - 1);
    }

    // createTransition: the plan row afterwards is whichever is there.
    method CreateAndRead(c: nat, to: Tier, rowAt: nat, others: nat -> seq<Label>, ghost start: nat)
      returns (planAt: nat)
      requires Valid() && c < |db.slots| && ReadRow(hist, rowAt, c).Some? && ReadRow(hist, rowAt, c).value.tier != to
      modifies this, db
      ensures Valid() && old(hist) <= hist && old(run) <= run && OnlyGrown(old(db.State()), db.State())
      ensures planAt == |run| && ReadRow(hist, rowAt, c).Some?
      ensures AllCalm(others, c) && NoCreateIn(old(run), rowAt, |old(run)|, c) ==>
        (Turns(old(hist), old(run), start, c) ==> Turns(hist, run, start, c))
      ensures old(GoodPlan(hist)) && Undisturbed(others) && ReadRow(old(hist), rowAt, c) == old(db.slots)[c].row ==>
        GoodPlan(hist)
      ensures Undisturbed(others) && ReadRow(old(hist), rowAt, c) == old(db.slots)[c].row ==>
        var now := old(db.slots)[c];
        Left(old(db.State()), db.State(), c,
             if Creates(now.row, to) then CreateTransition(now, now.row.value, to) else now, old(db.hosts))
    {
      hide GoodPlan, IsHistory, CreateTransition, Safe, Apply, Turns, CalmIn, NoCreateIn, Calm;
      ghost var begun := hist;
      LastGrown(hist, run, |hist| - 1);
      var row := ReadRow(hist, rowAt, c).value;
      if row.status.Running? || row.status.Stopped? { CreateInTurnStep(c, to, rowAt, others(5), start); }
      Others(others(6), c, start, 0);
      LastGrown(hist, run, |begun| - 1);
      ReadStable(begun, hist, rowAt, c);
      planAt := |hist| - 1;
    }

    method CreateIfNone(c: nat, to: Tier, planned: bool, rowAt: nat, trAt: nat, others: nat -> seq<Label>,
                        ghost start: nat)
      returns (r: Option<PlanResult>, planAt: nat)
      requires Valid() && c < |db.slots| && ReadRow(hist, rowAt, c).Some?
      requires planned ==> ReadTr(hist, trAt, c).Some?
      modifies this, db
      ensures Valid() && old(hist) <= hist && old(run) <= run && OnlyGrown(old(db.State()), db.State())
      ensures old(GoodPlan(hist)) && Undisturbed(others) && ReadRow(old(hist), rowAt, c) == old(db.slots)[c].row ==>
        GoodPlan(hist)
      ensures AllCalm(others, c) && NoCreateIn(old(run), rowAt, |old(run)|, c)
              && (planned ==> CalmIn(old(run), trAt, |old(run)|, c)) ==>
        && (Turns(old(hist), old(run), start, c) ==> Turns(hist, run, start, c))
        && (r.None? ==> CalmIn(run, planAt, |run|, c))
      ensures r.Some? ==> !r.value.Ineligible?
      ensures r.None? ==>
        ReadRow(hist, rowAt, c).Some? && ReadTr(hist, planAt, c).Some? && !ReadTr(hist, planAt, c).value.state.Resizing?
      ensures Undisturbed(others) && ReadRow(old(hist), rowAt, c) == old(db.slots)[c].row
              && (planned ==> ReadTr(old(hist), trAt, c) == old(db.slots)[c].tr) ==>
        var s := Planned(old(db.slots)[c], to, planned);
        && r == s.early && Left(old(db.State()), db.State(), c, s.slot, old(db.hosts))
        && (r.None? ==> ReadTr(hist, planAt, c) == db.slots[c].tr)
    {
      hide GoodPlan, IsHistory, CreateTransition, Safe, Apply, Turns, CalmIn, NoCreateIn, Calm, AllCalm;
      LastGrown(hist, run, |hist| - 1);
      var row := ReadRow(hist, rowAt, c).value;
      planAt := trAt;
      if row.tier == to { return Some(NotNeeded), planAt; }
      if !planned {
        planAt := CreateAndRead(c, to, rowAt, others, start);
        if db.slots[c].tr.None? { return Some(Conflict), planAt; }
      }
      CalmHere(run, c);
      r := if ReadTr(hist, planAt, c).value.state.Resizing? then Some(ResizeQueued) else None;
    }

    // Removes a finished plan row or cancels one for another target.
    method ClearPlan(c: nat, to: Tier, others: nat -> seq<Label>, ghost start: nat)
      returns (r: Option<PlanResult>, planned: bool, rowAt: nat, trAt: nat)
      requires Valid() && c < |db.slots|
      modifies this, db
      ensures Valid() && old(hist) <= hist && old(run) <= run && OnlyGrown(old(db.State()), db.State())
      ensures old(GoodPlan(hist)) && Undisturbed(others) ==> GoodPlan(hist)
      ensures AllCalm(others, c) ==>
        && (Turns(old(hist), old(run), start, c) ==> Turns(hist, run, start, c))
        && (r.None? ==> NoCreateIn(run, rowAt, |run|, c) && (planned ==> CalmIn(run, trAt, |run|, c)))
      ensures r.Some? ==> !r.value.Ineligible?
      ensures r.None? ==> ReadRow(hist, rowAt, c).Some? && (planned ==> ReadTr(hist, trAt, c).Some?)
      ensures Undisturbed(others) ==> var s := Cleared(old(db.slots)[c], to);
        && r == s.early && Left(old(db.State()), db.State(), c, s.slot, old(db.hosts))
        && (r.None? ==>
              && planned == PlannedFor(old(db.slots)[c], to) && ReadRow(hist, rowAt, c) == db.slots[c].row
              && (planned ==> ReadTr(hist, trAt, c) == db.slots[c].tr))
    {
      hide GoodPlan, IsHistory, CancelUnreserved, Turns, Calm;
      ghost var begun := hist;
      r, rowAt, trAt := None, |hist| - 1, |hist| - 1;
      LastGrown(hist, run, |hist| - 1);
      planned := false;
      if db.slots[c].row.None? {
        r := Some(NotNeeded);
        return;
      }
      Others(others(0), c, start, rowAt);
      trAt := |hist| - 1;
      ReadStable(begun, hist, rowAt, c);
      planned := db.slots[c].tr.Some?;
      if planned && Settled(db.slots[c].tr.value) {
        DeleteOld(c, trAt, others(1), start, rowAt);
        ReadStable(begun, hist, rowAt, c);
        planned := false;
      } else if planned && db.slots[c].tr.value.to != to {
        var conflict;
        conflict, rowAt := CancelOther(c, rowAt, others, start);
        if conflict { r := Some(Conflict); }
        planned := false;
      }
    }

    // The plan row to act on, created if need be; a result if there is nothing to do.
    method SettleOnPlan(c: nat, to: Tier, others: nat -> seq<Label>, ghost start: nat)
      returns (r: Option<PlanResult>, rowAt: nat, trAt: nat)
      requires Valid() && c < |db.slots|
      modifies this, db
      ensures Valid() && old(hist) <= hist && old(run) <= run && OnlyGrown(old(db.State()), db.State())
      ensures old(GoodPlan(hist)) && Undisturbed(others) ==> GoodPlan(hist)
      ensures AllCalm(others, c) ==>
        && (Turns(old(hist), old(run), start, c) ==> Turns(hist, run, start, c))
        && (r.None? ==> CalmIn(run, trAt, |run|, c))
      ensures r.Some? ==> !r.value.Ineligible?
      ensures r.None? ==>
        ReadRow(hist, rowAt, c).Some? && ReadTr(hist, trAt, c).Some? && !ReadTr(hist, trAt, c).value.state.Resizing?
      ensures Undisturbed(others) ==> var s := Begun(old(db.slots)[c], to);
        && r == s.early && Left(old(db.State()), db.State(), c, s.slot, old(db.hosts))
        && (r.None? ==> ReadTr(hist, trAt, c) == db.slots[c].tr)
    {
      hide GoodPlan, IsHistory, Cleared, Planned, PlannedFor, Turns, CalmIn, NoCreateIn;
      var planned;
      r, planned, rowAt, trAt := ClearPlan(c, to, others, start);
      if r.None? { r, trAt := CreateIfNone(c, to, planned, rowAt, trAt, others, start); }
    }

    method DeleteOld(c: nat, trAt: nat, others: seq<Label>, ghost start: nat, ghost rowAt: nat)
      requires Valid() && c < |db.slots| && trAt == |hist| - 1 && db.slots[c].tr.Some? && Settled(db.slots[c].tr.value)
      modifies this, db
      ensures Valid() && old(hist) <= hist && old(run) <= run && OnlyGrown(old(db.State()), db.State())
      ensures Calm(others, c) ==>
        && (Turns(old(hist), old(run), start, c) ==> Turns(hist, run, start, c))
        && (NoCreateIn(old(run), rowAt, |old(run)|, c) ==> NoCreateIn(run, rowAt, |run|, c))
      ensures old(GoodPlan(hist)) && others == [] ==> GoodPlan(hist)
      ensures others == [] ==>
        Left(old(db.State()), db.State(), c, DeleteTransition(old(db.slots)[c]), old(db.hosts))
    {
      hide GoodPlan, IsHistory, Safe, Apply, Turns, Calm;
      ghost var begun := hist;
      assert CalmIn(run, trAt, |run|, c);
      if Calm(others, c) { CalmGoesOn(run, others, rowAt, c); }
      Others(others, c, start, trAt);
      ReadStable(begun, hist, trAt, c);
      ghost var waited, steps := hist, run;
      DeleteSettled(c, trAt);
      StepTaken(waited, steps, DeleteSettledStep(c, trAt), [], start, c);
      LastGrown(hist, run, |begun| - 1);
    }

    // Reservations are never negative, so the request's sum test is a test for none.
    lemma NothingReservedIff(i: nat, c: nat)
      requires IsHistory(hist, run) && ReadTr(hist, i, c).Some?
      ensures var reserved := ReadTr(hist, i, c).value.reserved;
        Unreserved(ReadTr(hist, i, c).value) <==> reserved.cpu + reserved.ram + reserved.disk <= 0
    {
      RunsAreGood(hist[0], run);
      assert SlotInv(hist[i].slots[c]);
    }

    // A plan row has its container, and its container a known host if any.
    lemma PlanHasRow(c: nat)
      requires Valid() && c < |db.slots|
      ensures Hosted(db.slots[c], db.hosts) && (db.slots[c].tr.Some? ==> db.slots[c].row.Some?)
    {
      RunsAreGood(hist[0], run);
      assert Inv(Last(hist)) && SlotInv(Last(hist).slots[c]);
    }

    // The theorem about turns, for the run so far.
    lemma TurnsKept(h: seq<Db>, r: seq<Label>, c: nat)
      requires Valid() && IsHistory(h, r) && GoesOn(h, r, hist, run)
      requires Turns(hist, run, |r|, c) && PlanOf(h, c)
      ensures PlanOf(hist, c) <==> NoneOutdated(hist[0], run, |r|, |run|, c)
    {
      assert run[..|r|] == r && run[..|run|] == run && h[0] == hist[0];
      TurnsKeepPlanIff(hist[0], run, |r|, |run|, c);
    }

    // requestPlanTransition for the account's container, whose entitlement `eligible`
    // and `entitled` stand for.
    method RequestPlanTransition(c: nat, to: Tier, eligible: bool, entitled: bool, accepts: bool, at: int,
                                 others: nat -> seq<Label>) returns (r: PlanResult)
      requires Valid() && c < |db.slots|
      modifies this, db
      ensures Valid() && old(hist) <= hist && old(run) <= run
      ensures old(GoodPlan(hist)) && Undisturbed(others) ==> GoodPlan(hist)
      ensures AllCalm(others, c) ==>
        && (forall n | |old(run)| <= n < |run| :: TurnAt(hist, run, |old(run)|, n, c))
        && (old(PlanOf(hist, c)) ==>
              (PlanOf(hist, c) <==> NoneOutdated(hist[0], run, |old(run)|, |run|, c)))
      ensures r.Ineligible? <==> !eligible
      ensures !eligible ==> hist == old(hist) && run == old(run) && db.State() == old(db.State())
      ensures Hosted(old(db.slots)[c], old(db.hosts))
      ensures eligible && Undisturbed(others) ==>
        var a := AnswerTo(old(db.slots)[c], old(db.hosts), to, entitled, accepts, at);
        r == a.result && Left(old(db.State()), db.State(), c, a.slot, a.hosts)
    {
      hide GoodPlan, IsHistory, Begun, CarriedOut, PlanOf, NoneOutdated, TurnAt, CalmIn;
      ghost var start := |run|;
      PlanHasRow(c);
      if eligible {
        var early, rowAt, trAt := SettleOnPlan(c, to, others, start);
        if early.Some? { r := early.value; }
        else { r := CarryOutPlan(c, rowAt, trAt, entitled, accepts, at, others, start); }
      } else {
        r := Ineligible;
      }
      if AllCalm(others, c) && old(PlanOf(hist, c)) { TurnsKept(old(hist), old(run), c); }
    }

    method CarryOutPlan(c: nat, readAt: nat, trAt: nat, entitled: bool, accepts: bool, at: int,
                        others: nat -> seq<Label>, ghost start: nat) returns (r: PlanResult)
      requires start <= |run|
      requires Valid() && c < |db.slots| && ReadRow(hist, readAt, c).Some? && ReadTr(hist, trAt, c).Some?
      requires !ReadTr(hist, trAt, c).value.state.Resizing?
      modifies this, db
      ensures Valid() && old(hist) <= hist && old(run) <= run && !r.Ineligible?
      ensures AllCalm(others, c) && Turns(old(hist), old(run), start, c) && CalmIn(old(run), trAt, |old(run)|, c) ==>
        Turns(hist, run, start, c)
      ensures old(GoodPlan(hist)) && Undisturbed(others) && ReadTr(old(hist), trAt, c) == old(db.slots)[c].tr ==>
        GoodPlan(hist)
      ensures Hosted(old(db.slots)[c], old(db.hosts))
      ensures Undisturbed(others) && ReadTr(old(hist), trAt, c) == old(db.slots)[c].tr && old(db.slots)[c].row.Some? ==>
        var a := CarriedOut(old(db.slots)[c], old(db.hosts), entitled, accepts, at);
        r == a.result && Left(old(db.State()), db.State(), c, a.slot, a.hosts)
    {
      hide GoodPlan, IsHistory, StopSent, ResizeSent, ReservedAndSent, Turns, CalmIn, NoCreateIn, Calm;
      ghost var begun := hist;
      PlanHasRow(c);
      Others(others(7), c, start, trAt);
      ReadStable(begun, hist, readAt, c);
      ReadStable(begun, hist, trAt, c);
      var rowAt := if db.slots[c].row.Some? then |hist| - 1 else readAt;
      var tr := ReadTr(hist, trAt, c).value;
      PlanHasRow(c);
      var stopping := StopRunningDowngrade(c, rowAt, trAt, accepts, Shifted(others, 10), start);
      if stopping.Some? { return stopping.value; }
      NothingReservedIff(trAt, c);
      if tr.state.FailedRetryable? && tr.reserved.cpu + tr.reserved.ram + tr.reserved.disk > 0 {
        r := RetryAndDispatch(c, rowAt, trAt, accepts, others, start);
      } else {
        r := ReserveAndDispatch(c, rowAt, trAt, entitled, accepts, at, others, start);
      }
    }

    method RetryAndDispatch(c: nat, rowAt: nat, trAt: nat, accepts: bool, others: nat -> seq<Label>, ghost start: nat)
      returns (r: PlanResult)
      requires start <= |run|
      requires Valid() && c < |db.slots| && ReadRow(hist, rowAt, c).Some?
      requires ReadTr(hist, trAt, c).Some? && MayRetryResize(ReadTr(hist, trAt, c).value)
      modifies this, db
      ensures Valid() && old(hist) <= hist && old(run) <= run && !r.Ineligible?
      ensures AllCalm(others, c) && Turns(old(hist), old(run), start, c) && CalmIn(old(run), trAt, |old(run)|, c) ==>
        Turns(hist, run, start, c)
      ensures old(GoodPlan(hist)) && Undisturbed(others) && ReadTr(old(hist), trAt, c) == old(db.slots)[c].tr ==>
        GoodPlan(hist)
      ensures Undisturbed(others) && RowRead(old(hist), old(db.State()), c, rowAt) ==>
        var a := ResizeSent(RetryResize(old(db.slots)[c]), old(db.hosts), accepts);
        r == a.result && Left(old(db.State()), db.State(), c, a.slot, a.hosts)
    {
      hide GoodPlan, IsHistory, ResizeSent, Turns, Started, CalmIn, NoCreateIn, Calm;
      ghost var begun := hist;
      Others(others(20), c, start, trAt);
      ReadStable(begun, hist, trAt, c);
      ghost var waited, steps := hist, run;
      RetryPlan(c, trAt);
      StepTaken(waited, steps, RetryResizeStep(c, trAt), [], start, c);
      CalmHere(run, c);
      ReadStable(begun, hist, rowAt, c);
      ReadStable(begun, hist, trAt, c);
      r := DispatchResize(c, rowAt, trAt, accepts, Shifted(others, 30), start, |steps|);
    }

    method ReserveAndDispatch(c: nat, rowAt: nat, trAt: nat, entitled: bool, accepts: bool, at: int,
                              others: nat -> seq<Label>, ghost start: nat) returns (r: PlanResult)
      requires start <= |run|
      requires Valid() && c < |db.slots| && ReadRow(hist, rowAt, c).Some?
      requires ReadTr(hist, trAt, c).Some? && MayReserve(ReadTr(hist, trAt, c).value)
      modifies this, db
      ensures Valid() && old(hist) <= hist && old(run) <= run && !r.Ineligible?
      ensures AllCalm(others, c) && Turns(old(hist), old(run), start, c) && CalmIn(old(run), trAt, |old(run)|, c) ==>
        Turns(hist, run, start, c)
      ensures old(GoodPlan(hist)) && Undisturbed(others) && ReadTr(old(hist), trAt, c) == old(db.slots)[c].tr ==>
        GoodPlan(hist)
      ensures Undisturbed(others) && PlanRead(old(hist), old(db.State()), c, rowAt, trAt) ==>
        var a := ReservedAndSent(old(db.slots)[c], old(db.hosts), entitled, accepts, at);
        r == a.result && Left(old(db.State()), db.State(), c, a.slot, a.hosts)
    {
      hide GoodPlan, IsHistory, Safe, ResizeSent, Refused, Reserves, Wanted, Turns, Started, CalmIn, NoCreateIn, Calm;
      ghost var begun := hist;
      var row := ReadRow(hist, rowAt, c).value;
      if row.host.None? { return WaitingForCapacity; }
      Others(others(21), c, start, trAt);
      ReadStable(begun, hist, rowAt, c);
      ReadStable(begun, hist, trAt, c);
      HostKnown(hist, run, rowAt, c);
      r := ReserveOnHost(c, rowAt, trAt, entitled, accepts, at, others, start);
    }

    method ReserveOnHost(c: nat, rowAt: nat, trAt: nat, entitled: bool, accepts: bool, at: int,
                         others: nat -> seq<Label>, ghost start: nat) returns (r: PlanResult)
      requires Valid() && Reservable(hist, c, rowAt, trAt) && start <= |run|
      modifies this, db
      ensures Valid() && old(hist) <= hist && old(run) <= run && !r.Ineligible?
      ensures AllCalm(others, c) && Turns(old(hist), old(run), start, c) && CalmIn(old(run), trAt, |old(run)|, c) ==>
        Turns(hist, run, start, c)
      ensures old(GoodPlan(hist)) && Undisturbed(others) && ReadTr(old(hist), trAt, c) == old(db.slots)[c].tr ==>
        GoodPlan(hist)
      ensures Undisturbed(others) && PlanRead(old(hist), old(db.State()), c, rowAt, trAt) ==>
        var a := ReservedAndSent(old(db.slots)[c], old(db.hosts), entitled, accepts, at);
        r == a.result && Left(old(db.State()), db.State(), c, a.slot, a.hosts)
    {
      hide GoodPlan, IsHistory, Safe, ResizeSent, Refused, Reserves, Wanted, Turns, Started, CalmIn, NoCreateIn, Calm;
      ghost var begun := hist;
      if GoodPlan(hist) && ReadTr(hist, trAt, c) == db.slots[c].tr {
        FreshReserve(hist, c, rowAt, trAt, entitled, at);
      }
      var charged := ReservePlan(c, rowAt, trAt, entitled, at, others(22), start);
      if !charged { return WaitingForCapacity; }
      CalmHere(run, c);
      ReadStable(begun, hist, rowAt, c);
      ReadStable(begun, hist, trAt, c);
      r := DispatchResize(c, rowAt, trAt, accepts, Shifted(others, 30), start, |run| - 1);
    }

    // ---------------------------------------------------------------- a poller

    // failJob, after its decision to fail job k.
    method FailPolled(c: nat, k: nat, others: seq<Label>)
      requires Valid() && c < |db.slots| && k < |db.slots[c].jobs|
      modifies this, db
      ensures Valid() && old(hist) <= hist && run == old(run) + (others + [JobFails(c, k, |old(run)|)])
      ensures old(GoodPlan(hist)) && others == [] ==> GoodPlan(hist)
    {
      hide GoodPlan, IsHistory, Apply, Safe, Calm, CalmIn, NoCreateIn, Turns;
      var trAt := |hist| - 1;
      ghost var begun := hist;
      Others(others, c, 0, 0);
      ReadStable(begun, hist, trAt, c);
      MarkFailed(c, k, trAt);
    }

    // The batch of a success, with what the poller read of container and plan.
    method SettlePolled(c: nat, k: nat, rowAt: nat, checkAt: nat, trAt: nat, at: int)
      requires Valid() && Observed(hist, c, k, rowAt, checkAt, trAt)
      modifies this, db
      ensures Valid() && old(hist) <= hist && run == old(run) + [JobSucceeds(c, k, rowAt, checkAt, trAt, at)]
      ensures old(GoodPlan(hist)) ==> GoodPlan(hist)
    {
      hide GoodPlan, IsHistory;
      ghost var begun := db.State();
      var row := ReadRow(hist, rowAt, c).value;
      var checked, tr := ReadTr(hist, checkAt, c), ReadTr(hist, trAt, c);
      var op := db.slots[c].jobs[k].op;
      if op.Destroy? {
        db.FinalizeDestroyBatch(c, k, row, tr);
      } else if op.Stop? && StoppingDowngrade(checked) {
        var recorded := db.FinalizeDowngradeStopBatch(c, k);
      } else if op.Resize? && IsResizing(checked) {
        if IsResizing(tr) { db.FinalizePlanBatch(c, k, row, tr.value, at); }
      } else {
        var claimed := db.SettleSucceededBatch(c, k);
      }
      assert db.State() == Succeed(begun, c, k, row, checked, tr, at);
      Record(JobSucceeds(c, k, rowAt, checkAt, trAt, at));
    }

    // refreshJob for job k, whose row the poller holds: nothing for a settled job or a
    // container without a host, and otherwise exactly these steps.
    method RefreshJob(c: nat, k: nat, reply: DaemonReply, at: int, others: nat -> seq<Label>)
      requires Valid() && c < |db.slots| && k < |db.slots[c].jobs|
      modifies this, db
      ensures Valid() && old(hist) <= hist
      ensures old(GoodPlan(hist)) && Undisturbed(others) ==> GoodPlan(hist)
      ensures !IsActive(old(db.slots)[c].jobs[k].status) || HostOf(old(db.slots)[c]).None? ==>
        hist == old(hist) && run == old(run)
      ensures IsActive(old(db.slots)[c].jobs[k].status) && HostOf(old(db.slots)[c]).Some? ==>
        var rowAt := |old(run)|; var seen := rowAt + |others(0)|;
        && seen < |hist| && JobKnown(hist, seen, c, k)
        && run == old(run) + RefreshSteps(c, k, reply, at, others, rowAt, hist[seen].slots[c].jobs[k].status.JobQueued?)
    {
      hide GoodPlan, IsHistory, Apply, Safe, Calm, CalmIn, NoCreateIn, Turns;
      if !IsActive(db.slots[c].jobs[k].status) { return; }
      var rowAt := |hist| - 1;
      ghost var begun := hist;
      if db.slots[c].row.None? || db.slots[c].row.value.host.None? { return; }
      Others(others(0), c, 0, 0);
      ReadStable(begun, hist, rowAt, c);
      match reply
      case Unreachable =>
      case UnknownJob =>
        // The submitter owns a queued row until it has advanced it.
        if !db.slots[c].jobs[k].status.JobQueued? { FailPolled(c, k, others(1)); }
      case SaysFailed => FailPolled(c, k, others(1));
      case SaysActive(running) => RenewLease(c, k, if running then JobRunning else JobQueued);
      case SaysSucceeded =>
        PollSuccess(c, k, rowAt, at, others);
    }

    // The poller reads the plan row to choose the batch, and again to fill it.
    method PollSuccess(c: nat, k: nat, rowAt: nat, at: int, others: nat -> seq<Label>)
      requires Valid() && c < |db.slots| && k < |db.slots[c].jobs|
      requires JobKnown(hist, rowAt, c, k) && ReadRow(hist, rowAt, c).Some? && ReadRow(hist, rowAt, c).value.host.Some?
      modifies this, db
      ensures Valid() && old(hist) <= hist
      ensures old(GoodPlan(hist)) && Undisturbed(others) ==> GoodPlan(hist)
      ensures run == old(run) + (others(1) + others(2)
                + [JobSucceeds(c, k, rowAt, |old(run)|, |old(run)| + |others(1)|, at)])
    {
      hide GoodPlan, IsHistory, Apply, Safe, Calm, CalmIn, NoCreateIn, Turns;
      ghost var begun := hist;
      var checkAt := |hist| - 1;
      Others(others(1), c, 0, 0);
      ReadStable(begun, hist, rowAt, c);
      ReadStable(begun, hist, checkAt, c);
      var trAt := |hist| - 1;
      ghost var found := hist;
      Others(others(2), c, 0, 0);
      ReadStable(found, hist, rowAt, c);
      ReadStable(found, hist, checkAt, c);
      ReadStable(found, hist, trAt, c);
      HostKnown(hist, run, rowAt, c);
      SettlePolled(c, k, rowAt, checkAt, trAt, at);
    }

    // A positive heartbeat.
    method RenewLease(c: nat, k: nat, status: JobStatus)
      requires Valid() && c < |db.slots| && k < |db.slots[c].jobs| && IsActive(status)
      modifies this, db
      ensures Valid() && old(hist) <= hist && run == old(run) + [Heartbeat(c, k, status)]
      ensures old(GoodPlan(hist)) ==> GoodPlan(hist)
    {
      hide GoodPlan, IsHistory;
      db.UpdateJob(c, k, IsActive(db.slots[c].jobs[k].status), status);
      assert db.slots == old(db.slots)[c := Mark(old(db.slots)[c], k, status)];
      Record(Heartbeat(c, k, status));
    }
  }
}
