// The runner object itself: its methods update its maps in place and are proved
// to take exactly the steps whose runs DaemonTheorems speaks about.
module DaemonRunner {
  import opened Wrappers
  import opened Plans
  import Fleet = FleetState
  import opened DaemonJobs

  class JobRunner {
    var tasks: seq<Task>
    var registry: seq<Ticket>
    var chains: map<ContainerId, Ticket>
    var revisions: Watermarks
    ghost var log: seq<Event>

    ghost function State(): Runner
      reads this
    {
      Runner(tasks, registry, chains, revisions, log)
    }

    ghost predicate Valid()
      reads this
    {
      Inv(State())
    }

    constructor ()
      ensures Valid() && State() == EMPTY
    {
      tasks, registry, chains, revisions, log := [], [], map[], map[], [];
    }

    method Get(id: JobId) returns (known: Option<Ticket>)
      requires Valid()
      ensures known == Find(tasks, registry, id)
    {
      var i := 0;
      while i < |registry|
        invariant i <= |registry|
        invariant Find(tasks, registry, id) == Find(tasks, registry[i..], id)
      {
        if tasks[registry[i]].request.id == id { return Some(registry[i]); }
        assert registry[i..][1..] == registry[i + 1..];
        i := i + 1;
      }
      known := None;
    }

    method SubmitJob(request: Request) returns (reply: Reply)
      requires Valid()
      modifies this
      ensures Valid() && (State(), reply) == Submit(old(State()), request)
    {
      NextInv(State(), Arrive(request));
      FindSpec(tasks, registry, request.id);
      var known := Get(request.id);
      if known.Some? {
        var existing := tasks[known.value].request;
        if existing.container != request.container || existing.op != request.op { return JobConflict; }
        return Accepted(known.value);
      }
      var ticket := |tasks|;
      registry := registry + [ticket];
      var prev := if request.container in chains then Some(chains[request.container]) else None;
      tasks := tasks + [Task(request, prev, Waiting, Fleet.JobQueued)];
      chains := chains[request.container := ticket];
      reply := Accepted(ticket);
    }

    method SetStatus(t: Ticket, phase: Phase, status: Fleet.JobStatus)
      requires t < |tasks|
      modifies this`tasks
      ensures tasks == old(tasks)[t := old(tasks)[t].(phase := phase, status := status)]
    {
      tasks := tasks[t := tasks[t].(phase := phase, status := status)];
    }

    // The job's callback up to its provisioner call.
    method Callback(t: Ticket) returns (skipped: bool)
      requires Valid() && CanBegin(State(), t)
      modifies this
      ensures Valid() && State() == Begin(old(State()), t)
      ensures skipped <==> Overtaken(old(State()), old(tasks[t]).request)
    {
      BeginInv(State(), t);
      var request := tasks[t].request;
      var key := (request.container, request.op);
      var highest := if key in revisions then revisions[key] else 0;
      if request.revision.Some? && request.revision.value <= highest {
        SetStatus(t, Ran, Fleet.JobSucceeded);
        Gc();
        return true;
      }
      SetStatus(t, Running, Fleet.JobRunning);
      if request.revision.Some? {
        revisions := revisions[key := Max(request.revision.value, highest)];
        log := log + [Attempted(t, request.container, request.op, request.revision.value)];
      }
      skipped := false;
    }

    // The rest of the callback, once the provisioner call returned or threw.
    method Finished(t: Ticket, ok: bool)
      requires Valid() && t < |tasks| && tasks[t].phase.Running?
      modifies this
      ensures Valid() && State() == Finish(old(State()), t, ok)
    {
      FinishInv(State(), t, ok);
      SettleJob(t, ok);
    }

    method SettleJob(t: Ticket, ok: bool)
      requires t < |tasks| && forall k | 0 <= k < |registry| :: registry[k] < |tasks|
      modifies this
      ensures State() == Finish(old(State()), t, ok)
    {
      var c := tasks[t].request.container;
      if ok {
        SetStatus(t, Ran, Fleet.JobSucceeded);
        if tasks[t].request.op.Destroy? {
          PruneRevisions(c);
          log := log + [Destroyed(t, c)];
        }
      } else {
        SetStatus(t, Ran, Fleet.JobFailed);
      }
      Gc();
    }

    method Finally(t: Ticket)
      requires Valid() && t < |tasks| && tasks[t].phase.Ran?
      modifies this
      ensures Valid() && State() == Cleanup(old(State()), t)
    {
      CleanupInv(State(), t);
      var c := tasks[t].request.container;
      tasks := tasks[t := tasks[t].(phase := Done)];
      if c in chains && chains[c] == t {
        chains := chains - {c};
      }
    }

    method PruneRevisions(c: ContainerId)
      modifies this`revisions
      ensures revisions == Pruned(old(revisions), c)
    {
      var left := revisions.Keys;
      while left != {}
        invariant left <= old(revisions).Keys
        invariant revisions.Keys == old(revisions).Keys - set k | k in old(revisions) && k !in left && k.0 == c
        invariant forall k | k in revisions :: revisions[k] == old(revisions)[k]
        decreases |left|
      {
        var key :| key in left;
        left := left - {key};
        if key.0 == c { revisions := revisions - {key}; }
      }
    }

    method Gc()
      requires forall k | 0 <= k < |registry| :: registry[k] < |tasks|
      modifies this`registry
      ensures registry == Collect(tasks, old(registry))
    {
      if |registry| <= REGISTRY_LIMIT { return; }
      var i := 0;
      assert registry[..0] == [] && registry[0..] == registry;
      while i < |registry|
        invariant i <= |registry| && forall k | 0 <= k < |registry| :: registry[k] < |tasks|
        invariant Evict(tasks, registry[..i], registry[i..]) == Evict(tasks, [], old(registry))
        decreases |registry| - i
      {
        ghost var kept, rest := registry[..i], registry[i..];
        if tasks[registry[i]].status.JobSucceeded? || tasks[registry[i]].status.JobFailed? {
          registry := registry[..i] + registry[i + 1..];
          assert registry[..i] == kept && registry[i..] == rest[1..];
          if |registry| <= REGISTRY_TARGET { assert registry == kept + rest[1..]; return; }
        } else {
          assert registry[..i + 1] == kept + [rest[0]] && registry[i + 1..] == rest[1..];
          i := i + 1;
        }
      }
      assert registry[..i] == registry && registry[i..] == [];
    }
  }
}
