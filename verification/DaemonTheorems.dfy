// What the daemon promises its control plane, over every interleaving.
module DaemonTheorems {
  import opened Wrappers
  import Fleet = FleetState
  import opened DaemonJobs

  // ------------------------------------------------- serial within a container

  predicate InProgress(task: Task) { task.phase.Running? || task.phase.Ran? }

  // One job per container at a time, in submission order.
  lemma OneAtATimeInOrder(run: seq<Step>, u: Ticket, t: Ticket)
    requires u < t < |Exec(run).tasks| && Owner(Exec(run).tasks[u]) == Owner(Exec(run).tasks[t])
    ensures !(InProgress(Exec(run).tasks[u]) && InProgress(Exec(run).tasks[t]))
    ensures CanBegin(Exec(run), t) ==> Exec(run).tasks[u].phase.Done?
  {
    ExecInv(run);
    EarlierDone(Exec(run), u, t);
  }

  lemma EarlierDone(s: Runner, u: Ticket, t: Ticket)
    requires Serial(s.tasks) && u < t < |s.tasks| && Owner(s.tasks[u]) == Owner(s.tasks[t])
    ensures CanBegin(s, t) || InProgress(s.tasks[t]) ==> s.tasks[u].phase.Done?
  {
    assert Linked(s.tasks, t);
    var prev := s.tasks[t].prev;
    if CanBegin(s, t) && prev.Some? && u < prev.value {
      assert Owner(s.tasks[u]) == Owner(s.tasks[prev.value]);
    }
  }

  lemma {:induction false} OldestUnfinished(tasks: seq<Task>, c: ContainerId, t: Ticket) returns (first: Ticket)
    requires t < |tasks| && Owner(tasks[t]) == c && !tasks[t].phase.Done?
    ensures first <= t && Owner(tasks[first]) == c && !tasks[first].phase.Done?
    ensures forall u | 0 <= u < first && Owner(tasks[u]) == c :: tasks[u].phase.Done?
  {
    first := t;
    if u :| 0 <= u < t && Owner(tasks[u]) == c && !tasks[u].phase.Done? {
      first := OldestUnfinished(tasks, c, u);
    }
  }

  // A callback takes the job to its next phase.
  predicate Moves(s: Runner, step: Step, t: Ticket) {
    && t < |s.tasks| && !step.Arrive? && step.t == t
    && var next := Next(s, step);
    && t < |next.tasks|
    && match s.tasks[t].phase
       case Waiting => next.tasks[t].phase.Running? || next.tasks[t].phase.Ran?
       case Running => next.tasks[t].phase.Ran?
       case Ran => next.tasks[t].phase.Done?
       case Done => false
  }

  ghost predicate CanMove(s: Runner, t: Ticket) { exists step :: Moves(s, step, t) }

  // A chain entry stands exactly for unfinished work, and some of it can always move.
  lemma ChainsAreUnfinishedWork(run: seq<Step>, c: ContainerId)
    ensures c in Exec(run).chains <==>
      exists t :: 0 <= t < |Exec(run).tasks| && Owner(Exec(run).tasks[t]) == c && !Exec(run).tasks[t].phase.Done?
    ensures c in Exec(run).chains ==>
      exists t :: 0 <= t < |Exec(run).tasks| && Owner(Exec(run).tasks[t]) == c && CanMove(Exec(run), t)
  {
    ExecInv(run);
    var s := Exec(run);
    if c in s.chains {
      assert IsTail(s.tasks, c, s.chains[c]);
      var first := OldestUnfinished(s.tasks, c, s.chains[c]);
      assert Linked(s.tasks, first);
      UnfinishedMoves(s, first);
    }
  }

  lemma UnfinishedMoves(s: Runner, t: Ticket)
    requires t < |s.tasks| && (CanBegin(s, t) || InProgress(s.tasks[t]))
    ensures CanMove(s, t)
  {
    assert CanBegin(s, t) ==> Moves(s, BeginStep(t), t);
    assert s.tasks[t].phase.Running? ==> Moves(s, FinishStep(t, true), t);
    assert s.tasks[t].phase.Ran? ==> Moves(s, CleanupStep(t), t);
  }

  predicate IsCallback(step: Step) { !step.Arrive? }

  lemma LinkedTask(s: Runner, u: Ticket)
    requires Inv(s) && u < |s.tasks|
    ensures Linked(s.tasks, u)
  {
  }

  // A callback of one container neither enables, disables nor changes another's.
  lemma ContainersAreIndependent(s: Runner, step: Step, u: Ticket)
    requires Inv(s) && IsCallback(step) && step.t < |s.tasks| && u < |s.tasks|
    requires Owner(s.tasks[step.t]) != Owner(s.tasks[u])
    ensures var next := Next(s, step);
      && u < |next.tasks| && next.tasks[u] == s.tasks[u]
      && (CanBegin(next, u) <==> CanBegin(s, u))
      && (forall op :: Claimed(next.revisions, Owner(s.tasks[u]), op) == Claimed(s.revisions, Owner(s.tasks[u]), op))
      && (Owner(s.tasks[u]) in next.chains <==> Owner(s.tasks[u]) in s.chains)
  {
    hide Inv, Begin, Finish;
    LinkedTask(s, u);
    match step
    case BeginStep(t) => if CanBegin(s, t) { BeginIsLocal(s, t, u); }
    case FinishStep(t, ok) => if s.tasks[t].phase.Running? { FinishIsLocal(s, t, ok, u); }
    case CleanupStep(t) =>
  }

  lemma BeginIsLocal(s: Runner, t: Ticket, u: Ticket)
    requires t < |s.tasks| && u < |s.tasks| && Owner(s.tasks[t]) != Owner(s.tasks[u])
    ensures var next := Begin(s, t);
      && next.chains == s.chains && next.tasks == s.tasks[t := next.tasks[t]]
      && (forall op :: Claimed(next.revisions, Owner(s.tasks[u]), op) == Claimed(s.revisions, Owner(s.tasks[u]), op))
  {
  }

  lemma FinishIsLocal(s: Runner, t: Ticket, ok: bool, u: Ticket)
    requires t < |s.tasks| && u < |s.tasks| && Owner(s.tasks[t]) != Owner(s.tasks[u])
    ensures var next := Finish(s, t, ok);
      && next.chains == s.chains && next.tasks == s.tasks[t := next.tasks[t]]
      && (forall op :: Claimed(next.revisions, Owner(s.tasks[u]), op) == Claimed(s.revisions, Owner(s.tasks[u]), op))
  {
  }

  // -------------------------------------------------------------- the registry

  // A job that has not settled can always be looked up; beyond those there are at
  // most the limit.
  lemma RegistryBounded(run: seq<Step>)
    ensures |Exec(run).registry| <= REGISTRY_LIMIT + |Pending(Exec(run).tasks)|
    ensures forall t | 0 <= t < |Exec(run).tasks| && !Terminal(Exec(run).tasks[t].status) ::
      Find(Exec(run).tasks, Exec(run).registry, Exec(run).tasks[t].request.id) == Some(t)
  {
    ExecInv(run);
    var s := Exec(run);
    forall t | 0 <= t < |s.tasks| && !Terminal(s.tasks[t].status)
      ensures Find(s.tasks, s.registry, s.tasks[t].request.id) == Some(t)
    {
      FindSpec(s.tasks, s.registry, s.tasks[t].request.id);
      assert t in s.registry;
      var i :| 0 <= i < |s.registry| && s.registry[i] == t;
      var known := Find(s.tasks, s.registry, s.tasks[t].request.id).value;
      var j :| 0 <= j < |s.registry| && s.registry[j] == known;
      assert i == j;
    }
  }

  // A collection drops settled jobs only, oldest insertions first, and stops at
  // the target; below the limit it drops nothing.
  lemma CollectionDropsOldestSettled(tasks: seq<Task>, registry: seq<Ticket>) returns (n: nat)
    ensures n <= |registry|
    ensures Collect(tasks, registry) == Unsettled(tasks, registry[..n]) + registry[n..]
    ensures |registry| <= REGISTRY_LIMIT ==> n == 0
    ensures |registry| > REGISTRY_LIMIT ==>
      && |Collect(tasks, registry)| >= REGISTRY_TARGET
      && (|Collect(tasks, registry)| > REGISTRY_TARGET ==>
            forall t | t in Collect(tasks, registry) :: !Settled(tasks, t))
  {
    if |registry| <= REGISTRY_LIMIT {
      n := 0;
      assert registry[..0] == [] && registry[0..] == registry;
    } else {
      n := EvictSplits(tasks, [], registry);
      EvictSpec(tasks, [], registry);
      assert [] + Unsettled(tasks, registry[..n]) == Unsettled(tasks, registry[..n]);
    }
  }

  // A request is accepted as a new job or changes nothing. Delivering it again while its
  // job is registered changes nothing and answers with the same job; another operation
  // under its id is refused.
  lemma RedeliveryIsIdempotent(run: seq<Step>, request: Request, again: Request)
    requires request.id == again.id && Submit(Exec(run), request).1.Accepted?
    ensures var (first, reply) := Submit(Exec(run), request);
      && reply.ticket < |first.tasks| && SameJob(first.tasks[reply.ticket].request, request)
      && (if reply.ticket < |Exec(run).tasks| then first == Exec(run)
          else first.tasks[reply.ticket].request == request && first.tasks[reply.ticket].status.JobQueued?)
      && Submit(first, again) == (first, if SameJob(request, again) then reply else JobConflict)
  {
    ExecInv(run);
    NextInv(Exec(run), Arrive(request));
    var s := Exec(run);
    var (first, reply) := Submit(s, request);
    FindSpec(s.tasks, s.registry, request.id);
    FindSpec(first.tasks, first.registry, request.id);
    if Find(s.tasks, s.registry, request.id).None? {
      assert first.registry[|s.registry|] == |s.tasks|;
      var known := Find(first.tasks, first.registry, request.id).value;
      var i :| 0 <= i < |first.registry| && first.registry[i] == known;
      assert i == |s.registry|;
    }
  }

  // ---------------------------------------------------------- newest snapshot

  predicate NoDestroyIn(log: seq<Event>, c: ContainerId, from: nat, to: nat)
    requires from <= to <= |log|
  {
    forall k | from <= k < to :: !(log[k].Destroyed? && log[k].container == c)
  }

  lemma {:induction false} WatermarkBounds(log: seq<Event>, i: nat, c: ContainerId, op: Fleet.JobOp)
    requires Rising(log) && i < |log| && log[i].Attempted? && log[i].container == c && log[i].op == op
    requires NoDestroyIn(log, c, i, |log|)
    ensures log[i].revision <= Watermark(log, c, op)
  {
    var n := |log| - 1;
    if i < n {
      var before := log[..n];
      assert forall k | 0 <= k < n && before[k].Attempted? :: before[..k] == log[..k];
      WatermarkBounds(before, i, c, op);
      assert log[n].Attempted? && log[n].container == c && log[n].op == op ==>
        Watermark(before, c, op) < log[n].revision;
    }
  }

  // The watermark is the revision of the last attempt of the container's life.
  lemma {:induction false} WatermarkIsLastAttempt(log: seq<Event>, c: ContainerId, op: Fleet.JobOp) returns (i: nat)
    requires Watermark(log, c, op) > 0
    ensures i < |log| && log[i].Attempted? && log[i].container == c && log[i].op == op
    ensures log[i].revision == Watermark(log, c, op) && NoDestroyIn(log, c, i, |log|)
    ensures forall j | i < j < |log| && log[j].Attempted? :: !(log[j].container == c && log[j].op == op)
  {
    var n := |log| - 1;
    var e := log[n];
    if e.Attempted? && e.container == c && e.op == op {
      i := n;
    } else {
      i := WatermarkIsLastAttempt(log[..n], c, op);
    }
  }

  lemma RisingPrefix(log: seq<Event>, n: nat)
    requires Rising(log) && n <= |log|
    ensures Rising(log[..n])
  {
    assert forall k | 0 <= k < n :: log[..n][..k] == log[..k];
  }

  // Between two successful destroys the snapshots attempted for one container and
  // operation strictly increase.
  lemma AttemptsRise(run: seq<Step>, i: nat, j: nat)
    requires i < j < |Exec(run).log|
    requires var log := Exec(run).log;
      && log[i].Attempted? && log[j].Attempted?
      && log[i].container == log[j].container && log[i].op == log[j].op
      && NoDestroyIn(log, log[i].container, i, j)
    ensures Exec(run).log[i].revision < Exec(run).log[j].revision
  {
    ExecInv(run);
    var log := Exec(run).log;
    RisingPrefix(log, j);
    WatermarkBounds(log[..j], i, log[i].container, log[i].op);
  }

  // A snapshot skipped as stale is no newer than one already attempted since the
  // container was last destroyed.
  lemma SkippedOnlyWhenOvertaken(run: seq<Step>, t: Ticket) returns (i: nat)
    requires CanBegin(Exec(run), t) && Terminal(Begin(Exec(run), t).tasks[t].status)
    ensures var s := Exec(run); var r := s.tasks[t].request;
      && i < |s.log| && s.log[i].Attempted? && s.log[i].container == r.container && s.log[i].op == r.op
      && NoDestroyIn(s.log, r.container, i, |s.log|)
      && r.revision.Some? && r.revision.value <= s.log[i].revision
  {
    ExecInv(run);
    var s := Exec(run);
    var r := s.tasks[t].request;
    assert Claimed(s.revisions, r.container, r.op) == Watermark(s.log, r.container, r.op);
    i := WatermarkIsLastAttempt(s.log, r.container, r.op);
  }

  // Once a container's work has drained, the last snapshot attempted is the newest
  // submitted since its last destroy, in whatever order they arrived.
  lemma NewestSnapshotWins(run: seq<Step>, c: ContainerId, op: Fleet.JobOp, t: Ticket) returns (i: nat)
    requires c !in Exec(run).chains && t < |Exec(run).tasks|
    requires var s := Exec(run); var r := s.tasks[t].request;
      r.container == c && r.op == op && r.revision.Some? && SinceDestroyed(s.log, c, t)
    ensures var s := Exec(run);
      && i < |s.log| && s.log[i].Attempted? && s.log[i].container == c && s.log[i].op == op
      && (forall j | i < j < |s.log| && s.log[j].Attempted? :: !(s.log[j].container == c && s.log[j].op == op))
      && (forall u | 0 <= u < |s.tasks| ::
            IsRival(s, c, op, u) ==> s.tasks[u].request.revision.value <= s.log[i].revision)
      && s.log[i].ticket < |s.tasks|
      && s.tasks[s.log[i].ticket].request.revision == Some(s.log[i].revision)
  {
    ExecInv(run);
    var s := Exec(run);
    assert Covered(s, t);
    i := WatermarkIsLastAttempt(s.log, c, op);
    assert Matches(s.tasks, s.log[i]);
    forall u | 0 <= u < |s.tasks| && IsRival(s, c, op, u)
      ensures s.tasks[u].request.revision.value <= s.log[i].revision
    {
      assert Covered(s, u) && s.tasks[u].phase.Done?;
    }
  }

  // A snapshot for the same state, submitted in the same life of the container.
  predicate IsRival(s: Runner, c: ContainerId, op: Fleet.JobOp, u: Ticket)
    requires u < |s.tasks|
  {
    var r := s.tasks[u].request;
    r.container == c && r.op == op && r.revision.Some? && SinceDestroyed(s.log, c, u)
  }

  // ------------------------------------------------------- what became of a job

  // An equal or newer snapshot was attempted since the container was last destroyed.
  predicate HasNewer(log: seq<Event>, r: Request) {
    r.revision.Some? && exists k | 0 <= k < |log| ::
      && log[k].Attempted? && log[k].container == r.container && log[k].op == r.op
      && r.revision.value <= log[k].revision && NoDestroyIn(log, r.container, k, |log|)
  }

  // The step ends ticket t's provisioner call, begins its callback, or begins it only to
  // skip the call.
  predicate Ends(s: Runner, step: Step, t: Ticket, ok: bool) {
    step == FinishStep(t, ok) && t < |s.tasks| && s.tasks[t].phase.Running?
  }

  predicate Begins(s: Runner, step: Step, t: Ticket) { step == BeginStep(t) && CanBegin(s, t) }

  predicate Skips(s: Runner, step: Step, t: Ticket) {
    Begins(s, step, t) && HasNewer(s.log, s.tasks[t].request)
  }

  // Some step of the run did.
  predicate Ended(run: seq<Step>, t: Ticket, ok: bool) {
    run != [] && var n := |run| - 1; Ends(Exec(run[..n]), run[n], t, ok) || Ended(run[..n], t, ok)
  }

  predicate Began(run: seq<Step>, t: Ticket) {
    run != [] && var n := |run| - 1; Begins(Exec(run[..n]), run[n], t) || Began(run[..n], t)
  }

  predicate Skipped(run: seq<Step>, t: Ticket) {
    run != [] && var n := |run| - 1; Skips(Exec(run[..n]), run[n], t) || Skipped(run[..n], t)
  }

  lemma OvertakenIff(s: Runner, r: Request)
    requires SnapshotInv(s)
    ensures Overtaken(s, r) <==> HasNewer(s.log, r)
  {
    assert Claimed(s.revisions, r.container, r.op) == Watermark(s.log, r.container, r.op);
    if Overtaken(s, r) {
      var k := WatermarkIsLastAttempt(s.log, r.container, r.op);
      assert r.revision.value <= s.log[k].revision;
    }
    if HasNewer(s.log, r) {
      var k :| && 0 <= k < |s.log| && s.log[k].Attempted? && s.log[k].container == r.container && s.log[k].op == r.op
               && r.revision.value <= s.log[k].revision && NoDestroyIn(s.log, r.container, k, |s.log|);
      WatermarkBounds(s.log, k, r.container, r.op);
    }
  }

  // One step's effect on one job that exists.
  lemma StatusNext(s: Runner, step: Step, t: Ticket)
    requires Inv(s) && t < |s.tasks|
    ensures var next := Next(s, step);
      && t < |next.tasks| && next.tasks[t].request == s.tasks[t].request
      && next.tasks[t].status ==
         if step.FinishStep? && step.t == t && s.tasks[t].phase.Running?
         then if step.ok then Fleet.JobSucceeded else Fleet.JobFailed
         else if step.BeginStep? && step.t == t && CanBegin(s, t)
         then if HasNewer(s.log, s.tasks[t].request) then Fleet.JobSucceeded else Fleet.JobRunning
         else s.tasks[t].status
  {
    OvertakenIff(s, s.tasks[t].request);
    hide HasNewer, SnapshotInv, Serial, ChainsExact, RegistryInv;
  }

  lemma PhaseOfStatus(s: Runner, t: Ticket)
    requires Inv(s) && t < |s.tasks|
    ensures StatusOf(s.tasks[t])
  {
    assert Linked(s.tasks, t);
  }

  lemma NewTask(s: Runner, step: Step, t: Ticket)
    requires |s.tasks| <= t < |Next(s, step).tasks|
    ensures step.Arrive? && t == |s.tasks| && Next(s, step).tasks[t].status.JobQueued?
    ensures Next(s, step).tasks[t].request == step.request
  {
  }

  // Tickets are given out once, so no step names one before its job was submitted.
  lemma {:induction false} TasksGrow(run: seq<Step>, i: nat)
    requires i <= |run|
    ensures |Exec(run[..i]).tasks| <= |Exec(run).tasks|
  {
    if i == |run| {
      assert run[..i] == run;
    } else {
      var n := |run| - 1;
      TasksGrow(run[..n], i);
      assert run[..n][..i] == run[..i];
      NextGrows(Exec(run[..n]), run[n]);
      hide Next;
    }
  }

  lemma NextGrows(s: Runner, step: Step)
    ensures |s.tasks| <= |Next(s, step).tasks|
  {
  }

  predicate StatusTells(run: seq<Step>, t: Ticket, status: Fleet.JobStatus) {
    && (status.JobQueued? <==> !Began(run, t))
    && (status.JobFailed? <==> Ended(run, t, false))
    && (status.JobSucceeded? <==> Ended(run, t, true) || Skipped(run, t))
  }

  lemma {:induction false} NothingYet(run: seq<Step>, t: Ticket)
    requires t >= |Exec(run).tasks|
    ensures !Began(run, t) && !Skipped(run, t) && !Ended(run, t, true) && !Ended(run, t, false)
  {
    if run != [] {
      var n := |run| - 1;
      TasksGrow(run, n);
      NothingYet(run[..n], t);
    }
  }

  lemma StatusTellsNext(run: seq<Step>, t: Ticket)
    requires run != [] && t < |Exec(run[..|run| - 1]).tasks|
    requires StatusTells(run[..|run| - 1], t, Exec(run[..|run| - 1]).tasks[t].status)
    ensures t < |Exec(run).tasks| && StatusTells(run, t, Exec(run).tasks[t].status)
  {
    var n := |run| - 1;
    var s := Exec(run[..n]);
    ExecInv(run[..n]);
    PhaseOfStatus(s, t);
    StatusNext(s, run[n], t);
    hide HasNewer, Next, Inv;
  }

  // A job is queued until its callback begins; it has failed exactly if its provisioner
  // call threw, and succeeded exactly if that returned, or if the job was skipped for an
  // equal or newer snapshot attempted since the container was last destroyed.
  lemma {:induction false} StatusSaysHow(run: seq<Step>, t: Ticket)
    requires t < |Exec(run).tasks|
    ensures StatusTells(run, t, Exec(run).tasks[t].status)
  {
    var n := |run| - 1;
    if t < |Exec(run[..n]).tasks| {
      StatusSaysHow(run[..n], t);
      StatusTellsNext(run, t);
    } else {
      NewTask(Exec(run[..n]), run[n], t);
      NothingYet(run[..n], t);
    }
  }

  // Once settled, a job keeps its status, and at all times its request.
  lemma {:induction false} SettledForGood(run: seq<Step>, i: nat, t: Ticket)
    requires i <= |run| && t < |Exec(run[..i]).tasks|
    ensures t < |Exec(run).tasks| && Exec(run).tasks[t].request == Exec(run[..i]).tasks[t].request
    ensures Terminal(Exec(run[..i]).tasks[t].status) ==>
      Exec(run).tasks[t].status == Exec(run[..i]).tasks[t].status
  {
    if i == |run| {
      assert run[..i] == run;
    } else {
      var n := |run| - 1;
      assert run[..n][..i] == run[..i];
      SettledForGood(run[..n], i, t);
      ExecInv(run[..n]);
      PhaseOfStatus(Exec(run[..n]), t);
      StatusNext(Exec(run[..n]), run[n], t);
      hide Inv, Next, HasNewer;
    }
  }

  // What the history records of a step.
  predicate Records(s: Runner, step: Step, e: Event) {
    && e.ticket < |s.tasks| && e.container == Owner(s.tasks[e.ticket])
    && var r := s.tasks[e.ticket].request;
    if e.Destroyed? then r.op.Destroy? && Ends(s, step, e.ticket, true)
    else
      && e.op == r.op && r.revision == Some(e.revision)
      && Begins(s, step, e.ticket) && !Skips(s, step, e.ticket)
  }

  lemma LogNext(s: Runner, step: Step, e: Event)
    requires Inv(s)
    ensures e in Next(s, step).log <==> e in s.log || Records(s, step, e)
  {
    if step.BeginStep? && CanBegin(s, step.t) { OvertakenIff(s, s.tasks[step.t].request); }
    hide HasNewer, Inv, SnapshotInv, Serial, ChainsExact, RegistryInv;
  }

  predicate LogTells(run: seq<Step>, e: Event) {
    && e.ticket < |Exec(run).tasks| && e.container == Owner(Exec(run).tasks[e.ticket])
    && var r := Exec(run).tasks[e.ticket].request;
    if e.Destroyed? then r.op.Destroy? && Ended(run, e.ticket, true)
    else
      && e.op == r.op && r.revision == Some(e.revision)
      && Began(run, e.ticket) && !Skipped(run, e.ticket)
  }

  // The history holds exactly the snapshots handed to the provisioner, not those skipped,
  // and the destroys that succeeded.
  lemma {:induction false} HistoryIs(run: seq<Step>, e: Event)
    ensures e in Exec(run).log <==> LogTells(run, e)
  {
    if run != [] {
      var n := |run| - 1;
      var s := Exec(run[..n]);
      HistoryIs(run[..n], e);
      ExecInv(run[..n]);
      LogNext(s, run[n], e);
      if e.ticket < |s.tasks| {
        StatusSaysHow(run[..n], e.ticket);
        PhaseOfStatus(s, e.ticket);
        StatusNext(s, run[n], e.ticket);
        SkippedBegan(run[..n], e.ticket);
      } else {
        NothingYet(run[..n], e.ticket);
      }
      hide HasNewer, Inv, Next;
    }
  }

  lemma {:induction false} SkippedBegan(run: seq<Step>, t: Ticket)
    ensures Skipped(run, t) ==> Began(run, t)
  {
    if run != [] { SkippedBegan(run[..|run| - 1], t); }
  }
}
