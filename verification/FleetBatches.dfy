// The batches themselves, statement by statement. `changes` is what SQL's changes()
// reports to the next statement: whether the previous one hit its row. Each batch is
// proved to be the atomic step of the same name.
module FleetBatches {
  import opened Wrappers
  import opened Plans
  import opened FleetState
  import opened FleetSteps

  lemma MarkKeepsNewest(jobs: seq<Job>, k: nat, status: JobStatus)
    requires k < |jobs|
    ensures NewestLifecycle(jobs[k := jobs[k].(status := status)], k) <==> NewestLifecycle(jobs, k)
  {
    var marked := jobs[k := jobs[k].(status := status)];
    assert forall j | 0 <= j < |jobs| :: marked[j].op == jobs[j].op;
  }

  class Database {
    var hosts: seq<Host>
    var slots: seq<Slot>
    var lost: seq<Res>
    var changes: bool

    function State(): Db
      reads this
    {
      Db(hosts, slots, lost)
    }

    constructor (db: Db)
      ensures State() == db
    {
      hosts, slots, lost, changes := db.hosts, db.slots, db.lost, false;
    }

    // ------------------------------------------------------------ statements

    method UpdateHost(h: HostId, matches: bool, charged: Res)
      requires h < |hosts|
      modifies this`hosts, this`changes
      ensures changes == matches
      ensures hosts == if matches then old(hosts)[h := old(hosts)[h].(charged := charged)] else old(hosts)
    {
      changes := matches;
      if matches { hosts := hosts[h := hosts[h].(charged := charged)]; }
    }

    method UpdateStatus(c: nat, matches: bool, status: ContainerStatus)
      requires c < |slots|
      modifies this`slots, this`changes
      ensures changes == (matches && old(slots)[c].row.Some?)
      ensures slots == if matches then old(slots)[c := SetStatus(old(slots)[c], status)] else old(slots)
    {
      changes := matches && slots[c].row.Some?;
      if changes { slots := slots[c := slots[c].(row := Some(slots[c].row.value.(status := status)))]; }
    }

    method UpdateTransition(c: nat, matches: bool, state: TransitionState)
      requires c < |slots| && (matches ==> slots[c].tr.Some?)
      modifies this`slots, this`changes
      ensures changes == matches
      ensures slots == if matches then old(slots)[c := SetState(old(slots)[c], state)] else old(slots)
    {
      changes := matches;
      if matches { slots := slots[c := slots[c].(tr := Some(slots[c].tr.value.(state := state)))]; }
    }

    method UpdateJob(c: nat, k: nat, matches: bool, status: JobStatus)
      requires c < |slots| && (matches ==> ActiveAt(slots[c].jobs, k))
      modifies this`slots, this`changes
      ensures changes == matches
      ensures slots == if matches then old(slots)[c := Mark(old(slots)[c], k, status)] else old(slots)
    {
      changes := matches;
      if matches {
        var jobs := slots[c].jobs;
        slots := slots[c := slots[c].(jobs := jobs[k := jobs[k].(status := status)])];
      }
    }

    // -------------------------------------------------------------- placement

    // The insertion of a container, and the host's counters if it was inserted. A
    // second row for the account aborts the batch.
    method PlaceNewBatch(user: UserId, tier: Tier, mode: Tenancy, h: HostId, port: int, at: int) returns (aborted: bool)
      requires WellFormed(State()) && h < |hosts|
      modifies this
      ensures State() == PlaceNew(old(State()), user, tier, mode, h, port, at)
    {
      var need := TierFootprint(tier);
      var selected := Admits(hosts[h], Tenants(slots, h), user, mode, need, at);
      aborted := selected && HasContainer(slots, user);
      if aborted { return; }
      changes := selected && !PortTaken(slots, h, port);
      if changes { slots := slots + [NewSlot(user, Some(h), Some(port), tier, mode, Provisioning)]; }
      UpdateHost(h, changes, hosts[h].charged.Plus(need));
    }

    // The claim of the waiting row; the counters move by the row read before.
    method PlaceWaitlistedBatch(c: nat, read: Container, h: HostId, port: int, at: int) returns (claimed: bool)
      requires WellFormed(State()) && c < |slots| && h < |hosts|
      modifies this
      ensures State() == PlaceWaitlisted(old(State()), c, read, h, port, at)
      ensures claimed <==> State() != old(State())
    {
      var now := slots[c];
      claimed :=
        && StillWaiting(now.row) && !PortTaken(slots, h, port)
        && Admits(hosts[h], Tenants(slots, h), now.row.value.user, now.row.value.mode, Base(now.row.value), at);
      changes := claimed;
      if changes {
        var placed := now.row.value.(host := Some(h), sshPort := Some(port), status := Provisioning);
        slots := slots[c := now.(row := Some(placed), dropped := ZERO, overcharged := Base(read).Minus(Base(placed)))];
      }
      UpdateHost(h, changes, hosts[h].charged.Plus(Base(read)));
      assert claimed ==> slots[c] != now;
      assert lost[h := lost[h]] == lost;
    }

    // ------------------------------------------------------------------- jobs

    // The insertion of a lifecycle job and, for operations that have one, the pending
    // status; refused before any statement when the host's tenancy does not fit.
    method EnqueueBatch(c: nat, op: JobOp, read: Container, host: Host) returns (inserted: bool)
      requires c < |slots|
      modifies this`slots, this`changes
      ensures slots == old(slots)[c := Enqueue(old(slots)[c], op, read, host)]
      ensures inserted <==> |slots[c].jobs| > |old(slots)[c].jobs|
    {
      inserted := false;
      if SpecBearing(op) && read.mode != host.tenancy { return; }
      var now := slots[c];
      changes :=
        && now.row.Some? && now.row.value.status == read.status && now.row.value.host == read.host
        && host.status.Active? && !Busy(now.jobs);
      inserted := changes;
      if changes { slots := slots[c := now.(jobs := now.jobs + [Job(op, JobQueued)])]; }
      var pending := PendingStatusFor(op);
      if pending.Some? { UpdateStatus(c, changes, pending.value); }
    }

    method FailJobBatch(c: nat, k: nat, readTr: Option<Transition>)
      requires c < |slots| && k < |slots[c].jobs|
      modifies this`slots, this`changes
      ensures slots == old(slots)[c := FailJob(old(slots)[c], k, readTr)]
    {
      var now := slots[c];
      var op := now.jobs[k].op;
      MarkKeepsNewest(now.jobs, k, JobFailed);
      UpdateJob(c, k, IsActive(now.jobs[k].status), JobFailed);
      if !IsLifecycle(op) { return; }
      if op.Resize? && IsResizing(readTr) {
        UpdateTransition(c, IsResizing(now.tr) && changes, FailedRetryable);
        UpdateStatus(c, changes, UpgradePending);
      } else if op.Stop? && StoppingDowngrade(readTr) {
        UpdateTransition(c, now.tr.Some? && now.tr.value.to.Free? && Waiting(now.tr.value.state) && changes,
                         FailedRetryable);
        // A plan change has its container: the foreign key.
        UpdateStatus(c, changes, UpgradePending);
      } else {
        UpdateStatus(c, changes && NewestLifecycle(slots[c].jobs, k), Error);
      }
    }

    method SettleSucceededBatch(c: nat, k: nat) returns (claimed: bool)
      requires c < |slots| && k < |slots[c].jobs|
      modifies this`slots, this`changes
      ensures slots == old(slots)[c := SettleSucceeded(old(slots)[c], k)]
      ensures claimed <==> IsActive(old(slots)[c].jobs[k].status)
    {
      claimed := IsActive(slots[c].jobs[k].status);
      var next := SuccessStatusFor(slots[c].jobs[k].op);
      MarkKeepsNewest(slots[c].jobs, k, JobSucceeded);
      UpdateJob(c, k, claimed, JobSucceeded);
      if next.Some? { UpdateStatus(c, changes && NewestLifecycle(slots[c].jobs, k), next.value); }
    }

    method FinalizeDowngradeStopBatch(c: nat, k: nat) returns (recorded: bool)
      requires c < |slots|
      modifies this`slots, this`changes
      ensures slots == old(slots)[c := FinalizeDowngradeStop(old(slots)[c], k)]
      ensures recorded <==>
        ActiveAt(old(slots)[c].jobs, k) && NewestLifecycle(old(slots)[c].jobs, k) && StoppingDowngrade(old(slots)[c].tr)
    {
      var now := slots[c];
      UpdateJob(c, k, ActiveAt(now.jobs, k) && NewestLifecycle(now.jobs, k), JobSucceeded);
      changes := changes && StoppingDowngrade(now.tr);
      recorded := changes;
      if changes { slots := slots[c := slots[c].(tr := Some(now.tr.value.(prior := Stopped)))]; }
      UpdateStatus(c, changes, UpgradePending);
    }

    // Job, host, container, plan row: each only if the one before was hit.
    method FinalizePlanBatch(c: nat, k: nat, read: Container, readTr: Transition, at: int)
      requires WellFormed(State()) && c < |slots| && read.host.Some? && read.host.value < |hosts|
      modifies this
      ensures State() == FinalizePlan(old(State()), c, k, read, readTr, at)
    {
      var now := slots[c];
      var h := read.host.value;
      UpdateJob(c, k, ActiveAt(now.jobs, k) && NewestLifecycle(now.jobs, k), JobSucceeded);
      var claimed := changes;
      UpdateHost(h, changes, hosts[h].charged.Plus(Adjustment(read, readTr)).AtLeastZero());
      changes := changes && slots[c].row.Some?;
      if changes {
        var row := slots[c].row.value.(tier := readTr.to, mode := Shared, ramMb := RamMb(readTr.to),
                                       diskGb := readTr.targetDiskGb,
                                       status := if readTr.to.Free? then Stopped else readTr.prior,
                                       lastUpgradedAt := Some(at));
        slots := slots[c := slots[c].(row := Some(row))];
      }
      UpdateTransition(c, changes && IsResizing(now.tr), Complete);
      if claimed {
        // History: what the subtraction took beyond the row's own reservation.
        var recovered := readTr.reserved.Minus(FleetState.Reserved(now.tr)).Plus(FleetState.Reserved(slots[c].tr));
        slots := slots[c := slots[c].(dropped := slots[c].dropped.Minus(recovered))];
      }
      assert lost[h := lost[h]] == lost;
    }

    // Counters, row, job: each on its own finds the destroy job newest and active.
    method FinalizeDestroyBatch(c: nat, k: nat, read: Container, readTr: Option<Transition>)
      requires WellFormed(State()) && c < |slots| && read.host.Some? && read.host.value < |hosts|
      modifies this
      ensures State() == FinalizeDestroy(old(State()), c, k, read, readTr)
    {
      var now := slots[c];
      var h := read.host.value;
      var charge := Base(read).Plus(FleetState.Reserved(readTr));
      UpdateHost(h, now.row.Some? && LatestActive(c, k), hosts[h].charged.Minus(charge).AtLeastZero());
      var destroyed := slots[c].row.Some? && LatestActive(c, k);
      if destroyed {
        // The plan row goes with the container; what is left of its charge is lost.
        slots := slots[c := Slot(None, None, now.jobs, ZERO, ZERO)];
        lost := lost[h := lost[h].Plus(Held(now).Minus(charge))];
      }
      UpdateJob(c, k, LatestActive(c, k), JobSucceeded);
      if !destroyed { assert slots == old(slots) || slots == old(slots)[c := Mark(now, k, JobSucceeded)]; }
    }

    function LatestActive(c: nat, k: nat): bool
      requires c < |slots|
      reads this`slots
    {
      ActiveAt(slots[c].jobs, k) && NewestLifecycle(slots[c].jobs, k)
    }

    // ------------------------------------------------------------ plan changes

    method CreateTransitionBatch(c: nat, read: Container, to: Tier)
      requires c < |slots|
      modifies this`slots, this`changes
      ensures slots == old(slots)[c := CreateTransition(old(slots)[c], read, to)]
    {
      var now := slots[c];
      // The plan row refers to its container, so there is none to insert without it.
      changes := !Busy(now.jobs) && now.tr.None? && now.row.Some?;
      if changes {
        slots := slots[c := now.(tr := Some(Transition(read.tier, to, TargetDiskGb(read, to), read.status,
                                                       TransitionState.Requested, ZERO)))];
      }
      UpdateStatus(c, changes && now.row.value.status == read.status, UpgradePending);
    }

    method CancelUnreservedBatch(c: nat, prior: ContainerStatus) returns (cancelled: bool)
      requires c < |slots|
      modifies this`slots, this`changes
      ensures slots == old(slots)[c := CancelUnreserved(old(slots)[c], prior)]
      ensures cancelled <==> Cancellable(old(slots)[c].tr) && !Busy(old(slots)[c].jobs)
    {
      var now := slots[c];
      UpdateTransition(c, Cancellable(now.tr) && !Busy(now.jobs), Cancelled);
      cancelled := changes;
      UpdateStatus(c, changes && now.row.Some? && now.row.value.status.UpgradePending?, prior);
    }

    method CancelForDestroyBatch(c: nat) returns (cancelled: bool)
      requires c < |slots|
      modifies this`slots, this`changes
      ensures slots == old(slots)[c := CancelForDestroy(old(slots)[c])]
      ensures cancelled <==> slots[c] != old(slots)[c]
    {
      var now := slots[c];
      UpdateTransition(c,
        && CancellableForDestroy(now.tr)
        && now.row.Some? && now.row.value.status.UpgradePending?
        && !Busy(now.jobs), Cancelled);
      UpdateStatus(c, changes && now.row.Some? && now.row.value.status.UpgradePending?, Error);
      cancelled := changes;
    }

    // Claim the plan row, charge the host if it has the disk, record the reservation;
    // the row stays claimed when the host refuses.
    method ReserveBatch(c: nat, read: Container, readTr: Transition, entitled: bool, at: int) returns (charged: bool)
      requires WellFormed(State()) && c < |slots| && read.host.Some? && read.host.value < |hosts|
      modifies this
      ensures State() == FleetSteps.Reserve(old(State()), c, read, readTr, entitled, at)
      ensures charged <==>
        && old(slots)[c].tr.Some? && Waiting(old(slots)[c].tr.value.state) && !Busy(old(slots)[c].jobs) && entitled
        && HostReserves(old(hosts)[read.host.value], RequestedAmount(read, readTr).disk, at)
    {
      var now := slots[c];
      var h := read.host.value;
      var amount := RequestedAmount(read, readTr);
      UpdateTransition(c, now.tr.Some? && Waiting(now.tr.value.state) && !Busy(now.jobs) && entitled, Reserving);
      UpdateHost(h, changes && HostReserves(hosts[h], amount.disk, at), hosts[h].charged.Plus(amount));
      charged := changes;
      changes := changes && slots[c].tr.value.state.Reserving?;
      if changes {
        var tr := slots[c].tr.value;
        slots := slots[c := slots[c].(tr := Some(tr.(state := Resizing, reserved := tr.reserved.Plus(amount))))];
      }
      assert lost[h := lost[h]] == lost;
    }
  }
}
