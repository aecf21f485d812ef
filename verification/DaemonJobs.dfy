// The daemon's job runner: promise callbacks chained per container, snapshot
// watermarks, and a bounded registry in insertion order.
//
// The event loop may interleave submissions with callbacks anywhere between two
// awaits, so a job takes three steps after its submission: its callback begins,
// its provisioner call finishes, and its `finally` cleans up.
module DaemonJobs {
  import opened Wrappers
  import opened Plans
  import Fleet = FleetState

  type JobId = nat
  type ContainerId = nat
  type Ticket = nat
  type Revision = r: int | 0 < r witness 1

  datatype Request = Request(id: JobId, container: ContainerId, op: Fleet.JobOp, revision: Option<Revision>)

  // Waiting for `prev`, running, ran with its `finally` outstanding, done.
  datatype Phase = Waiting | Running | Ran | Done

  // A job's record and the promise its submission chained; its ticket is its index.
  datatype Task = Task(request: Request, prev: Option<Ticket>, phase: Phase, status: Fleet.JobStatus)

  // History: snapshots handed to the provisioner, and destroys that succeeded.
  datatype Event =
    | Attempted(ticket: Ticket, container: ContainerId, op: Fleet.JobOp, revision: Revision)
    | Destroyed(ticket: Ticket, container: ContainerId)

  type Watermarks = map<(ContainerId, Fleet.JobOp), Revision>

  datatype Runner = Runner(
    tasks: seq<Task>, registry: seq<Ticket>, chains: map<ContainerId, Ticket>,
    revisions: Watermarks, log: seq<Event>)

  const EMPTY := Runner([], [], map[], map[], [])
  const REGISTRY_LIMIT := 500
  const REGISTRY_TARGET := 400

  predicate Terminal(status: Fleet.JobStatus) { status.JobSucceeded? || status.JobFailed? }

  predicate Settled(tasks: seq<Task>, t: Ticket) { t < |tasks| && Terminal(tasks[t].status) }

  function Owner(task: Task): ContainerId { task.request.container }

  function Claimed(revisions: Watermarks, c: ContainerId, op: Fleet.JobOp): int {
    if (c, op) in revisions then revisions[(c, op)] else 0
  }

  // ---------------------------------------------------------------- the steps

  function Find(tasks: seq<Task>, registry: seq<Ticket>, id: JobId): Option<Ticket> {
    if registry == [] then None
    else if registry[0] < |tasks| && tasks[registry[0]].request.id == id then Some(registry[0])
    else Find(tasks, registry[1..], id)
  }

  datatype Reply = Accepted(ticket: Ticket) | JobConflict

  predicate SameJob(a: Request, b: Request) { a.container == b.container && a.op == b.op }

  function Chain(s: Runner, request: Request): Runner {
    var c := request.container;
    var prev := if c in s.chains then Some(s.chains[c]) else None;
    s.(tasks := s.tasks + [Task(request, prev, Waiting, Fleet.JobQueued)],
       registry := s.registry + [|s.tasks|],
       chains := s.chains[c := |s.tasks|])
  }

  function Submit(s: Runner, request: Request): (Runner, Reply) {
    var known := Find(s.tasks, s.registry, request.id);
    if known.None? then (Chain(s, request), Accepted(|s.tasks|))
    else if known.value < |s.tasks| && SameJob(s.tasks[known.value].request, request) then (s, Accepted(known.value))
    else (s, JobConflict)
  }

  predicate CanBegin(s: Runner, t: Ticket) {
    && t < |s.tasks| && s.tasks[t].phase.Waiting?
    && (s.tasks[t].prev.None?
        || (s.tasks[t].prev.value < |s.tasks| && s.tasks[s.tasks[t].prev.value].phase.Done?))
  }

  // `kept` is what the pass over the map has left behind, `rest` what it has yet to visit.
  function Evict(tasks: seq<Task>, kept: seq<Ticket>, rest: seq<Ticket>): seq<Ticket>
    decreases |rest|
  {
    if rest == [] then kept
    else if !Settled(tasks, rest[0]) then Evict(tasks, kept + [rest[0]], rest[1..])
    else if |kept| + |rest| - 1 <= REGISTRY_TARGET then kept + rest[1..]
    else Evict(tasks, kept, rest[1..])
  }

  function Collect(tasks: seq<Task>, registry: seq<Ticket>): seq<Ticket> {
    if |registry| <= REGISTRY_LIMIT then registry else Evict(tasks, [], registry)
  }

  function Settle(s: Runner, t: Ticket, status: Fleet.JobStatus): Runner
    requires t < |s.tasks|
  {
    var tasks := s.tasks[t := s.tasks[t].(phase := Ran, status := status)];
    s.(tasks := tasks, registry := Collect(tasks, s.registry))
  }

  predicate Overtaken(s: Runner, request: Request) {
    request.revision.Some? && request.revision.value <= Claimed(s.revisions, request.container, request.op)
  }

  // An overtaken snapshot succeeds without running; any other claims its watermark.
  function Begin(s: Runner, t: Ticket): Runner
    requires t < |s.tasks|
  {
    var r := s.tasks[t].request;
    if Overtaken(s, r) then Settle(s, t, Fleet.JobSucceeded)
    else
      var running := s.(tasks := s.tasks[t := s.tasks[t].(phase := Running, status := Fleet.JobRunning)]);
      if r.revision.None? then running
      else
        var claimed: Revision := Max(r.revision.value, Claimed(s.revisions, r.container, r.op));
        running.(revisions := s.revisions[(r.container, r.op) := claimed],
                 log := s.log + [Attempted(t, r.container, r.op, r.revision.value)])
  }

  function Pruned(revisions: Watermarks, c: ContainerId): Watermarks {
    map k | k in revisions && k.0 != c :: revisions[k]
  }

  function Finish(s: Runner, t: Ticket, ok: bool): Runner
    requires t < |s.tasks|
  {
    var r := s.tasks[t].request;
    var applied :=
      if ok && r.op.Destroy?
      then s.(revisions := Pruned(s.revisions, r.container), log := s.log + [Destroyed(t, r.container)])
      else s;
    Settle(applied, t, if ok then Fleet.JobSucceeded else Fleet.JobFailed)
  }

  // Only the tail of the chain may remove the chain's entry.
  function Cleanup(s: Runner, t: Ticket): Runner
    requires t < |s.tasks|
  {
    var c := Owner(s.tasks[t]);
    s.(tasks := s.tasks[t := s.tasks[t].(phase := Done)],
       chains := if c in s.chains && s.chains[c] == t then s.chains - {c} else s.chains)
  }

  datatype Step =
    Arrive(request: Request) | BeginStep(t: Ticket) | FinishStep(t: Ticket, ok: bool) | CleanupStep(t: Ticket)

  // A step that is not enabled does not happen.
  function Next(s: Runner, step: Step): Runner {
    match step
    case Arrive(request) => Submit(s, request).0
    case BeginStep(t) => if CanBegin(s, t) then Begin(s, t) else s
    case FinishStep(t, ok) => if t < |s.tasks| && s.tasks[t].phase.Running? then Finish(s, t, ok) else s
    case CleanupStep(t) => if t < |s.tasks| && s.tasks[t].phase.Ran? then Cleanup(s, t) else s
  }

  function Exec(run: seq<Step>): Runner {
    if run == [] then EMPTY else Next(Exec(run[..|run| - 1]), run[|run| - 1])
  }

  // -------------------------------------------------------------- the history

  // The newest snapshot attempted since the container was last destroyed; 0 if none.
  function Watermark(log: seq<Event>, c: ContainerId, op: Fleet.JobOp): int {
    if log == [] then 0
    else
      var e := log[|log| - 1];
      if e.container != c then Watermark(log[..|log| - 1], c, op)
      else if e.Destroyed? then 0
      else if e.op == op then e.revision
      else Watermark(log[..|log| - 1], c, op)
  }

  // Every destroy of c succeeded before ticket t began.
  predicate SinceDestroyed(log: seq<Event>, c: ContainerId, t: Ticket) {
    forall i | 0 <= i < |log| :: log[i].Destroyed? && log[i].container == c ==> log[i].ticket < t
  }

  // ----------------------------------------------------------- the invariants

  predicate StatusOf(task: Task) {
    match task.phase
    case Waiting => task.status.JobQueued?
    case Running => task.status.JobRunning?
    case _ => Terminal(task.status)
  }

  // What a promise was chained on, and what had finished if it was chained on nothing.
  predicate Linked(tasks: seq<Task>, t: Ticket)
    requires t < |tasks|
  {
    && StatusOf(tasks[t])
    && (tasks[t].prev.Some? ==> tasks[t].prev.value < t && Owner(tasks[tasks[t].prev.value]) == Owner(tasks[t]))
    && (forall u | 0 <= u < t && Owner(tasks[u]) == Owner(tasks[t]) ::
          (tasks[t].prev.Some? && u <= tasks[t].prev.value) || tasks[u].phase.Done?)
  }

  predicate Serial(tasks: seq<Task>) {
    && (forall t | 0 <= t < |tasks| :: Linked(tasks, t))
    && (forall u, t | 0 <= u < t < |tasks| && Owner(tasks[u]) == Owner(tasks[t]) ::
          tasks[t].phase.Waiting? || tasks[u].phase.Done?)
  }

  predicate IsTail(tasks: seq<Task>, c: ContainerId, t: Ticket) {
    && t < |tasks| && Owner(tasks[t]) == c && !tasks[t].phase.Done?
    && forall u | t < u < |tasks| :: Owner(tasks[u]) != c
  }

  predicate ChainsExact(tasks: seq<Task>, chains: map<ContainerId, Ticket>) {
    && (forall c | c in chains :: IsTail(tasks, c, chains[c]))
    && (forall t | 0 <= t < |tasks| :: tasks[t].phase.Done? || Owner(tasks[t]) in chains)
  }

  predicate Ordered(tasks: seq<Task>, registry: seq<Ticket>) {
    && (forall i | 0 <= i < |registry| :: registry[i] < |tasks|)
    && (forall i, j | 0 <= i < j < |registry| ::
          registry[i] < registry[j] && tasks[registry[i]].request.id != tasks[registry[j]].request.id)
  }

  predicate KeepsPending(tasks: seq<Task>, registry: seq<Ticket>) {
    forall t | 0 <= t < |tasks| :: Terminal(tasks[t].status) || t in registry
  }

  function Pending(tasks: seq<Task>): set<Ticket> {
    set t | 0 <= t < |tasks| && !Terminal(tasks[t].status)
  }

  predicate RegistryInv(tasks: seq<Task>, registry: seq<Ticket>) {
    && Ordered(tasks, registry)
    && KeepsPending(tasks, registry)
    && |registry| <= REGISTRY_LIMIT + |Pending(tasks)|
  }

  predicate Matches(tasks: seq<Task>, e: Event) {
    && e.ticket < |tasks| && Owner(tasks[e.ticket]) == e.container && !tasks[e.ticket].phase.Waiting?
    && (e.Attempted? ==> tasks[e.ticket].request.op == e.op && tasks[e.ticket].request.revision == Some(e.revision))
  }

  // A snapshot that has begun is no newer than the watermark of its container's life.
  predicate Covered(s: Runner, t: Ticket)
    requires t < |s.tasks|
  {
    var r := s.tasks[t].request;
    !s.tasks[t].phase.Waiting? && r.revision.Some? && SinceDestroyed(s.log, r.container, t) ==>
      r.revision.value <= Watermark(s.log, r.container, r.op)
  }

  predicate Rising(log: seq<Event>) {
    forall i | 0 <= i < |log| && log[i].Attempted? ::
      Watermark(log[..i], log[i].container, log[i].op) < log[i].revision
  }

  ghost predicate SnapshotInv(s: Runner) {
    && (forall c, op :: Claimed(s.revisions, c, op) == Watermark(s.log, c, op))
    && Rising(s.log)
    && (forall i | 0 <= i < |s.log| :: Matches(s.tasks, s.log[i]))
    && (forall t | 0 <= t < |s.tasks| :: Covered(s, t))
  }

  ghost predicate Inv(s: Runner) {
    Serial(s.tasks) && ChainsExact(s.tasks, s.chains) && RegistryInv(s.tasks, s.registry) && SnapshotInv(s)
  }

  // ---------------------------------------------------------- serial chains

  // Steps on a task change its phase and status only.
  predicate Advances(tasks: seq<Task>, next: seq<Task>, t: Ticket, phase: Phase) {
    && t < |tasks| == |next|
    && next == tasks[t := next[t]]
    && next[t].request == tasks[t].request && next[t].prev == tasks[t].prev
    && next[t].phase == phase && StatusOf(next[t])
  }

  lemma AdvanceSerial(tasks: seq<Task>, next: seq<Task>, t: Ticket, phase: Phase)
    requires Serial(tasks) && Advances(tasks, next, t, phase)
    requires tasks[t].phase.Waiting? ==>
      tasks[t].prev.None? || (tasks[t].prev.value < |tasks| && tasks[tasks[t].prev.value].phase.Done?)
    requires !tasks[t].phase.Done?
    ensures Serial(next)
  {
    forall u, v | 0 <= u < v < |next| && Owner(next[u]) == Owner(next[v])
      ensures next[v].phase.Waiting? || next[u].phase.Done?
    {
      if v == t && tasks[t].phase.Waiting? {
        assert Linked(tasks, t);
        if tasks[t].prev.Some? && u < tasks[t].prev.value {
          assert Owner(tasks[u]) == Owner(tasks[tasks[t].prev.value]);
        }
      }
    }
    forall v | 0 <= v < |next| ensures Linked(next, v) {
      assert Linked(tasks, v);
    }
  }

  lemma ChainSerial(s: Runner, request: Request)
    requires Serial(s.tasks) && ChainsExact(s.tasks, s.chains)
    ensures var next := Chain(s, request); Serial(next.tasks) && ChainsExact(next.tasks, next.chains)
  {
    var next := Chain(s, request);
    var n := |s.tasks|;
    forall t | 0 <= t < |next.tasks| ensures Linked(next.tasks, t) {
      if t < n { assert Linked(s.tasks, t); }
    }
    forall c | c in next.chains ensures IsTail(next.tasks, c, next.chains[c]) {
      if c != request.container { assert IsTail(s.tasks, c, s.chains[c]); }
    }
  }

  // Advancing a task that stays unfinished leaves the chains as they were.
  lemma AdvanceChains(tasks: seq<Task>, next: seq<Task>, t: Ticket, phase: Phase, chains: map<ContainerId, Ticket>)
    requires ChainsExact(tasks, chains) && Advances(tasks, next, t, phase)
    requires !tasks[t].phase.Done? && !phase.Done?
    ensures ChainsExact(next, chains)
  {
    forall c | c in chains ensures IsTail(next, c, chains[c]) {
      assert IsTail(tasks, c, chains[c]);
    }
  }

  lemma CleanupChains(s: Runner, t: Ticket)
    requires Serial(s.tasks) && ChainsExact(s.tasks, s.chains) && t < |s.tasks| && s.tasks[t].phase.Ran?
    ensures ChainsExact(Cleanup(s, t).tasks, Cleanup(s, t).chains)
  {
    var next := Cleanup(s, t);
    forall c | c in next.chains ensures IsTail(next.tasks, c, next.chains[c]) {
      assert IsTail(s.tasks, c, s.chains[c]);
    }
    forall u | 0 <= u < |next.tasks| ensures next.tasks[u].phase.Done? || Owner(next.tasks[u]) in next.chains {
      if Owner(s.tasks[u]) == Owner(s.tasks[t]) && u != t && s.chains[Owner(s.tasks[t])] == t {
        assert IsTail(s.tasks, Owner(s.tasks[t]), t);
      }
    }
  }

  // -------------------------------------------------------------- collection

  // What one pass leaves: everything it had passed, every unsettled job, a settled
  // job only after the target size was reached, and nothing settled above it.
  lemma {:induction false} EvictSpec(tasks: seq<Task>, kept: seq<Ticket>, rest: seq<Ticket>)
    requires forall i | 0 <= i < |kept| :: !Settled(tasks, kept[i])
    requires |kept| + |rest| > REGISTRY_TARGET
    ensures var left := Evict(tasks, kept, rest);
      && kept <= left
      && (forall t | t in left :: t in kept || t in rest)
      && (forall t | t in rest && !Settled(tasks, t) :: t in left)
      && |left| >= REGISTRY_TARGET
      && (|left| > REGISTRY_TARGET ==> forall t | t in left :: !Settled(tasks, t))
    decreases |rest|
  {
    if rest == [] {
    } else if !Settled(tasks, rest[0]) {
      EvictSpec(tasks, kept + [rest[0]], rest[1..]);
      assert rest[0] in kept + [rest[0]];
    } else if |kept| + |rest| - 1 > REGISTRY_TARGET {
      EvictSpec(tasks, kept, rest[1..]);
    }
  }

  // Jobs leave in insertion order: whatever settled job stays, no later settled
  // job has left, and the order of those that stay is unchanged.
  lemma {:induction false} EvictSplits(tasks: seq<Task>, kept: seq<Ticket>, rest: seq<Ticket>) returns (n: nat)
    ensures n <= |rest|
    ensures Evict(tasks, kept, rest) == kept + Unsettled(tasks, rest[..n]) + rest[n..]
    decreases |rest|
  {
    if rest == [] {
      n := 0;
    } else if !Settled(tasks, rest[0]) {
      n := EvictSplits(tasks, kept + [rest[0]], rest[1..]);
      UnsettledFirst(tasks, rest[..n + 1]);
      assert rest[..n + 1][1..] == rest[1..][..n];
      assert rest[n + 1..] == rest[1..][n..];
      n := n + 1;
    } else if |kept| + |rest| - 1 <= REGISTRY_TARGET {
      n := 1;
      UnsettledFirst(tasks, rest[..1]);
      assert rest[..1][1..] == [];
    } else {
      n := EvictSplits(tasks, kept, rest[1..]);
      UnsettledFirst(tasks, rest[..n + 1]);
      assert rest[..n + 1][1..] == rest[1..][..n];
      assert rest[n + 1..] == rest[1..][n..];
      n := n + 1;
    }
  }

  function Unsettled(tasks: seq<Task>, tickets: seq<Ticket>): seq<Ticket> {
    if tickets == [] then []
    else (if Settled(tasks, tickets[0]) then [] else [tickets[0]]) + Unsettled(tasks, tickets[1..])
  }

  lemma UnsettledFirst(tasks: seq<Task>, tickets: seq<Ticket>)
    requires tickets != []
    ensures Unsettled(tasks, tickets) ==
      (if Settled(tasks, tickets[0]) then [] else [tickets[0]]) + Unsettled(tasks, tickets[1..])
  {
  }

  lemma RemoveOrdered(tasks: seq<Task>, registry: seq<Ticket>, i: nat)
    requires Ordered(tasks, registry) && i < |registry|
    ensures Ordered(tasks, registry[..i] + registry[i + 1..])
  {
  }

  lemma {:induction false} EvictOrdered(tasks: seq<Task>, kept: seq<Ticket>, rest: seq<Ticket>)
    requires Ordered(tasks, kept + rest)
    ensures Ordered(tasks, Evict(tasks, kept, rest))
    decreases |rest|
  {
    if rest == [] {
      assert kept + rest == kept;
    } else if !Settled(tasks, rest[0]) {
      assert kept + rest == kept + [rest[0]] + rest[1..];
      EvictOrdered(tasks, kept + [rest[0]], rest[1..]);
    } else {
      RemoveOrdered(tasks, kept + rest, |kept|);
      assert (kept + rest)[..|kept|] + (kept + rest)[|kept| + 1..] == kept + rest[1..];
      if |kept| + |rest| - 1 > REGISTRY_TARGET { EvictOrdered(tasks, kept, rest[1..]); }
    }
  }

  lemma {:induction false} DistinctFits(tickets: seq<Ticket>, bound: set<Ticket>)
    requires forall i | 0 <= i < |tickets| :: tickets[i] in bound
    requires forall i, j | 0 <= i < j < |tickets| :: tickets[i] < tickets[j]
    ensures |tickets| <= |bound|
  {
    if tickets != [] {
      var n := |tickets| - 1;
      DistinctFits(tickets[..n], bound - {tickets[n]});
    }
  }

  // The registry holds at most the limit plus the jobs that have yet to settle.
  lemma CollectKeepsRegistry(tasks: seq<Task>, registry: seq<Ticket>)
    requires Ordered(tasks, registry) && KeepsPending(tasks, registry)
    ensures RegistryInv(tasks, Collect(tasks, registry))
    ensures |registry| > REGISTRY_LIMIT ==>
      |Collect(tasks, registry)| <= REGISTRY_TARGET + |Pending(tasks)|
  {
    if |registry| > REGISTRY_LIMIT {
      var left := Collect(tasks, registry);
      assert [] + registry == registry;
      EvictSpec(tasks, [], registry);
      EvictOrdered(tasks, [], registry);
      if |left| > REGISTRY_TARGET {
        forall i | 0 <= i < |left| ensures left[i] in Pending(tasks) {
          assert left[i] in left;
        }
        DistinctFits(left, Pending(tasks));
      }
    }
  }

  lemma {:induction false} FindSpec(tasks: seq<Task>, registry: seq<Ticket>, id: JobId)
    ensures var known := Find(tasks, registry, id);
      if known.Some? then known.value < |tasks| && known.value in registry && tasks[known.value].request.id == id
      else forall i | 0 <= i < |registry| :: registry[i] < |tasks| ==> tasks[registry[i]].request.id != id
  {
    if registry != [] { FindSpec(tasks, registry[1..], id); }
  }

  lemma AppendOrdered(tasks: seq<Task>, registry: seq<Ticket>, task: Task)
    requires Ordered(tasks, registry)
    requires forall i | 0 <= i < |registry| :: tasks[registry[i]].request.id != task.request.id
    ensures Ordered(tasks + [task], registry + [|tasks|])
  {
  }

  lemma AppendPending(tasks: seq<Task>, registry: seq<Ticket>, task: Task)
    requires KeepsPending(tasks, registry) && !Terminal(task.status)
    ensures KeepsPending(tasks + [task], registry + [|tasks|])
    ensures |Pending(tasks + [task])| == |Pending(tasks)| + 1
  {
    var next, longer := tasks + [task], registry + [|tasks|];
    assert Pending(next) == Pending(tasks) + {|tasks|};
    forall t | 0 <= t < |next| ensures Terminal(next[t].status) || t in longer {
      if t < |tasks| {
        assert Terminal(tasks[t].status) || t in registry;
      } else {
        assert longer[|registry|] == t;
      }
    }
  }

  lemma ChainRegistry(s: Runner, request: Request)
    requires RegistryInv(s.tasks, s.registry) && Find(s.tasks, s.registry, request.id).None?
    ensures var next := Chain(s, request); RegistryInv(next.tasks, next.registry)
  {
    var task := Chain(s, request).tasks[|s.tasks|];
    FindSpec(s.tasks, s.registry, request.id);
    AppendOrdered(s.tasks, s.registry, task);
    AppendPending(s.tasks, s.registry, task);
  }

  // --------------------------------------------------------------- snapshots

  lemma WatermarkSnoc(log: seq<Event>, e: Event, c: ContainerId, op: Fleet.JobOp)
    ensures Watermark(log + [e], c, op) ==
      if e.container != c then Watermark(log, c, op)
      else if e.Destroyed? then 0
      else if e.op == op then e.revision
      else Watermark(log, c, op)
  {
    assert (log + [e])[..|log|] == log;
  }

  lemma RisingSnoc(log: seq<Event>, e: Event)
    requires Rising(log) && (e.Attempted? ==> Watermark(log, e.container, e.op) < e.revision)
    ensures Rising(log + [e])
  {
    var longer := log + [e];
    forall i | 0 <= i < |longer| && longer[i].Attempted?
      ensures Watermark(longer[..i], longer[i].container, longer[i].op) < longer[i].revision
    {
      if i < |log| { assert longer[..i] == log[..i]; } else { assert longer[..i] == log; }
    }
  }

  // The phase of one task moves on; nothing is attempted or destroyed.
  lemma QuietSnapshots(s: Runner, next: Runner, t: Ticket, phase: Phase)
    requires SnapshotInv(s) && Advances(s.tasks, next.tasks, t, phase) && !phase.Waiting?
    requires next.revisions == s.revisions && next.log == s.log
    requires s.tasks[t].phase.Waiting? ==> s.tasks[t].request.revision.None? || Overtaken(s, s.tasks[t].request)
    ensures SnapshotInv(next)
  {
    forall u | 0 <= u < |next.tasks| ensures Covered(next, u) {
      assert Covered(s, u);
      if u == t && s.tasks[t].phase.Waiting? {
        var r := s.tasks[t].request;
        assert Claimed(s.revisions, r.container, r.op) == Watermark(s.log, r.container, r.op);
      }
    }
    forall i | 0 <= i < |next.log| ensures Matches(next.tasks, next.log[i]) {
      assert Matches(s.tasks, s.log[i]);
    }
  }

  lemma ChainSnapshots(s: Runner, request: Request)
    requires SnapshotInv(s)
    ensures SnapshotInv(Chain(s, request))
  {
    var next := Chain(s, request);
    forall u | 0 <= u < |next.tasks| ensures Covered(next, u) {
      if u < |s.tasks| { assert Covered(s, u); }
    }
    forall i | 0 <= i < |next.log| ensures Matches(next.tasks, next.log[i]) {
      assert Matches(s.tasks, s.log[i]);
    }
  }

  // A snapshot that runs is newer than everything its container's life attempted.
  lemma AttemptSnapshots(s: Runner, t: Ticket)
    requires SnapshotInv(s) && t < |s.tasks| && s.tasks[t].phase.Waiting?
    requires s.tasks[t].request.revision.Some? && !Overtaken(s, s.tasks[t].request)
    ensures SnapshotInv(Begin(s, t))
  {
    var r := s.tasks[t].request;
    var next := Begin(s, t);
    var e := Attempted(t, r.container, r.op, r.revision.value);
    assert next.log == s.log + [e];
    assert Claimed(s.revisions, r.container, r.op) == Watermark(s.log, r.container, r.op);
    forall c, op ensures Claimed(next.revisions, c, op) == Watermark(next.log, c, op) {
      WatermarkSnoc(s.log, e, c, op);
      assert Claimed(s.revisions, c, op) == Watermark(s.log, c, op);
    }
    RisingSnoc(s.log, e);
    forall i | 0 <= i < |next.log| ensures Matches(next.tasks, next.log[i]) {
      if i < |s.log| { assert Matches(s.tasks, s.log[i]); }
    }
    forall u | 0 <= u < |next.tasks| ensures Covered(next, u) {
      assert Covered(s, u);
      var q := s.tasks[u].request;
      WatermarkSnoc(s.log, e, q.container, q.op);
      assert SinceDestroyed(next.log, q.container, u) ==> SinceDestroyed(s.log, q.container, u) by {
        SinceSnoc(s.log, e, q.container, u);
      }
    }
  }

  lemma SinceSnoc(log: seq<Event>, e: Event, c: ContainerId, t: Ticket)
    ensures SinceDestroyed(log + [e], c, t) <==>
      SinceDestroyed(log, c, t) && (e.Destroyed? && e.container == c ==> e.ticket < t)
  {
    var longer := log + [e];
    assert longer[|log|] == e;
    assert forall i | 0 <= i < |log| :: longer[i] == log[i];
  }

  lemma DestroySnapshots(s: Runner, t: Ticket)
    requires Serial(s.tasks) && SnapshotInv(s) && t < |s.tasks| && s.tasks[t].phase.Running?
    requires s.tasks[t].request.op.Destroy?
    ensures SnapshotInv(Finish(s, t, true))
  {
    var r := s.tasks[t].request;
    var next := Finish(s, t, true);
    var e := Destroyed(t, r.container);
    assert next.log == s.log + [e];
    forall c, op ensures Claimed(next.revisions, c, op) == Watermark(next.log, c, op) {
      WatermarkSnoc(s.log, e, c, op);
      assert Claimed(s.revisions, c, op) == Watermark(s.log, c, op);
    }
    RisingSnoc(s.log, e);
    forall i | 0 <= i < |next.log| ensures Matches(next.tasks, next.log[i]) {
      if i < |s.log| { assert Matches(s.tasks, s.log[i]); }
    }
    forall u | 0 <= u < |next.tasks| ensures Covered(next, u) {
      assert Covered(s, u);
      var q := s.tasks[u].request;
      WatermarkSnoc(s.log, e, q.container, q.op);
      SinceSnoc(s.log, e, q.container, u);
      if u > t && q.container == r.container { assert Owner(s.tasks[u]) == Owner(s.tasks[t]); }
    }
  }

  // -------------------------------------------------------------------- runs

  lemma SamePending(tasks: seq<Task>, next: seq<Task>, registry: seq<Ticket>, t: Ticket, phase: Phase)
    requires RegistryInv(tasks, registry) && Advances(tasks, next, t, phase)
    requires Terminal(next[t].status) <==> Terminal(tasks[t].status)
    ensures RegistryInv(next, registry)
  {
    assert Pending(next) == Pending(tasks);
  }

  lemma SettleRegistry(tasks: seq<Task>, next: seq<Task>, registry: seq<Ticket>, t: Ticket, phase: Phase)
    requires RegistryInv(tasks, registry) && Advances(tasks, next, t, phase) && Terminal(next[t].status)
    ensures RegistryInv(next, Collect(next, registry))
  {
    CollectKeepsRegistry(next, registry);
  }

  lemma BeginInv(s: Runner, t: Ticket)
    requires Inv(s) && CanBegin(s, t)
    ensures Inv(Begin(s, t))
  {
    var next := Begin(s, t);
    var r := s.tasks[t].request;
    assert Linked(s.tasks, t);
    var phase := next.tasks[t].phase;
    assert Advances(s.tasks, next.tasks, t, phase);
    AdvanceSerial(s.tasks, next.tasks, t, phase);
    AdvanceChains(s.tasks, next.tasks, t, phase, s.chains);
    if Overtaken(s, r) {
      SettleRegistry(s.tasks, next.tasks, s.registry, t, phase);
      QuietSnapshots(s, next, t, phase);
    } else {
      SamePending(s.tasks, next.tasks, s.registry, t, phase);
      if r.revision.Some? { AttemptSnapshots(s, t); } else { QuietSnapshots(s, next, t, phase); }
    }
  }

  lemma FinishInv(s: Runner, t: Ticket, ok: bool)
    requires Inv(s) && t < |s.tasks| && s.tasks[t].phase.Running?
    ensures Inv(Finish(s, t, ok))
  {
    var next := Finish(s, t, ok);
    assert Advances(s.tasks, next.tasks, t, Ran);
    AdvanceSerial(s.tasks, next.tasks, t, Ran);
    AdvanceChains(s.tasks, next.tasks, t, Ran, s.chains);
    SettleRegistry(s.tasks, next.tasks, s.registry, t, Ran);
    if ok && s.tasks[t].request.op.Destroy? { DestroySnapshots(s, t); } else { QuietSnapshots(s, next, t, Ran); }
  }

  lemma CleanupInv(s: Runner, t: Ticket)
    requires Inv(s) && t < |s.tasks| && s.tasks[t].phase.Ran?
    ensures Inv(Cleanup(s, t))
  {
    var next := Cleanup(s, t);
    assert Linked(s.tasks, t);
    assert Advances(s.tasks, next.tasks, t, Done);
    AdvanceSerial(s.tasks, next.tasks, t, Done);
    CleanupChains(s, t);
    SamePending(s.tasks, next.tasks, s.registry, t, Done);
    QuietSnapshots(s, next, t, Done);
  }

  lemma NextInv(s: Runner, step: Step)
    requires Inv(s)
    ensures Inv(Next(s, step))
  {
    match step
    case Arrive(request) =>
      if Find(s.tasks, s.registry, request.id).None? {
        ChainSerial(s, request);
        ChainRegistry(s, request);
        ChainSnapshots(s, request);
      }
    case BeginStep(t) => if CanBegin(s, t) { BeginInv(s, t); }
    case FinishStep(t, ok) => if t < |s.tasks| && s.tasks[t].phase.Running? { FinishInv(s, t, ok); }
    case CleanupStep(t) => if t < |s.tasks| && s.tasks[t].phase.Ran? { CleanupInv(s, t); }
  }

  // Every interleaving of submissions and callbacks keeps the invariant.
  lemma {:induction false} ExecInv(run: seq<Step>)
    ensures Inv(Exec(run))
  {
    if run != [] {
      ExecInv(run[..|run| - 1]);
      NextInv(Exec(run[..|run| - 1]), run[|run| - 1]);
    }
  }
}
