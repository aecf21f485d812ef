// What holds in every state of every run, whatever the interleaving and however
// old the rows its steps acted on.
module FleetTheorems {
  import opened Wrappers
  import opened Plans
  import opened FleetState
  import opened FleetSteps
  import opened FleetLedger
  import opened FleetRun

  // The states of a run, the initial one first.
  function Exec(init: Db, run: seq<Label>): (hist: seq<Db>)
    requires WellFormed(init)
    ensures |hist| == |run| + 1 && hist[0] == init && WellFormed(Last(hist))
  {
    if run == [] then [init]
    else
      var before := Exec(init, run[..|run| - 1]);
      before + [Apply(before, run[|run| - 1])]
  }

  // Every state of every run satisfies the invariant and is later than those before it.
  lemma {:induction false} RunsAreGood(init: Db, run: seq<Label>)
    requires Inv(init)
    ensures Good(Exec(init, run))
  {
    if run == [] {
    } else {
      var before := Exec(init, run[..|run| - 1]);
      RunsAreGood(init, run[..|run| - 1]);
      StepOk(before, run[|run| - 1]);
    }
  }

  lemma ExecLast(init: Db, run: seq<Label>, before: seq<Db>)
    requires WellFormed(init) && run != [] && before == Exec(init, run[..|run| - 1])
    ensures Exec(init, run) == before + [Apply(before, run[|run| - 1])]
  {
  }

  // The states of a prefix of a run are a prefix of its states.
  lemma {:induction false} ExecPrefix(init: Db, run: seq<Label>, n: nat)
    requires WellFormed(init) && n <= |run|
    ensures Exec(init, run[..n]) == Exec(init, run)[..n + 1]
  {
    if n == |run| {
      assert run[..n] == run;
    } else {
      ExecPrefix(init, run[..|run| - 1], n);
      assert run[..|run| - 1][..n] == run[..n];
      ExecLast(init, run, Exec(init, run[..|run| - 1]));
    }
  }

  // The step between two neighbouring states of a run.
  lemma ExecNext(init: Db, run: seq<Label>, n: nat)
    requires WellFormed(init) && n < |run|
    ensures Exec(init, run)[n] == Last(Exec(init, run[..n]))
    ensures Exec(init, run)[n + 1] == Apply(Exec(init, run[..n]), run[n])
  {
    ExecPrefix(init, run, n);
    ExecPrefix(init, run, n + 1);
    assert run[..n + 1][..n] == run[..n];
    ExecLast(init, run[..n + 1], Exec(init, run[..n]));
  }

  // Hosts without containers; what their counters start with is counted as lost.
  function NewFleet(hosts: seq<Host>): Db {
    Db(hosts, [], seq(|hosts|, h requires 0 <= h < |hosts| => hosts[h].charged))
  }

  // Every such fleet is a first state the theorems apply to.
  lemma NewFleetIsSound(hosts: seq<Host>)
    requires forall h | 0 <= h < |hosts| ::
      hosts[h].charged.Nonneg() && Capacity(hosts[h]).Nonneg() && hosts[h].maxTenants >= 0
    ensures Inv(NewFleet(hosts))
  {
    var db := NewFleet(hosts);
    assert forall h: HostId, m: Measure :: Shares(db.slots, h, m) == [];
  }

  // ------------------------------------------------------------ conservation

  // Every unit a host has charged is a hosted container's base or reservation, a
  // reservation dropped with its row, an overcharge, or lost with a destroyed
  // container; so a counter never undercounts.
  lemma LedgerConserved(init: Db, run: seq<Label>, i: nat, h: HostId)
    requires Inv(init) && i <= |run| && h < |init.hosts|
    ensures var db := Exec(init, run)[i];
      && h < |db.hosts| == |db.lost|
      && db.hosts[h].charged == Sum(db.slots, h, HeldBy).Plus(db.lost[h])
      && Sum(db.slots, h, UsedBy).AtMost(db.hosts[h].charged)
  {
    var hist := Exec(init, run);
    RunsAreGood(init, run);
    SumOrder(hist[i].slots, h);
    assert i == 0 || Later(hist[0], hist[i]);
  }

  predicate IsNothing(r: Res) { r.cpu == 0 && r.ram == 0 && r.disk == 0 }

  // Host h has nothing unaccounted for.
  predicate CleanOn(db: Db, h: HostId)
    requires h < |db.lost|
  {
    && IsNothing(db.lost[h])
    && forall c | 0 <= c < |db.slots| :: OnHost(db.slots[c], h) ==>
         IsNothing(db.slots[c].dropped) && IsNothing(db.slots[c].overcharged)
  }

  predicate ExactOn(db: Db, h: HostId)
    requires h < |db.hosts|
  {
    db.hosts[h].charged == Sum(db.slots, h, UsedBy)
  }

  lemma {:induction false} TotalEqual(a: seq<Res>, b: seq<Res>)
    requires |a| == |b|
    requires forall i | 0 <= i < |a| :: a[i].AtMost(b[i])
    ensures Total(a).AtMost(Total(b))
    ensures Total(b).AtMost(Total(a)) ==> forall i | 0 <= i < |a| :: a[i] == b[i]
  {
    if a != [] {
      var n := |a| - 1;
      TotalEqual(a[..n], b[..n]);
      if Total(b).AtMost(Total(a)) {
        forall i | 0 <= i < |a| ensures a[i] == b[i] {
          if i < n { assert a[..n][i] == b[..n][i]; }
        }
      }
    }
  }

  // The counter equals base plus reservations exactly when nothing was dropped,
  // overcharged or lost there.
  lemma ExactIffClean(db: Db, h: HostId)
    requires Inv(db) && h < |db.hosts|
    ensures ExactOn(db, h) <==> CleanOn(db, h)
  {
    var used, held := Shares(db.slots, h, UsedBy), Shares(db.slots, h, HeldBy);
    forall c | 0 <= c < |db.slots|
      ensures used[c].AtMost(held[c])
      ensures used[c] == held[c] <==>
        (OnHost(db.slots[c], h) ==> IsNothing(db.slots[c].dropped) && IsNothing(db.slots[c].overcharged))
    {
      ShareOrder(db.slots[c], h);
    }
    TotalEqual(used, held);
    if CleanOn(db, h) {
      assert used == held;
    }
  }

  // -------------------------------------------------------- bounded overcommit

  lemma UsageSplits(s: Slot, h: HostId)
    requires SlotInv(s)
    ensures Share(s, h, UsedBy).WithinPlus(
              Share(s, h, AdmittedBy), Share(s, h, ReservedBy), Share(s, h, UpgradedBy))
  {
  }

  lemma {:induction false} TotalWithinPlus(a: seq<Res>, b: seq<Res>, c: seq<Res>, d: seq<Res>)
    requires |a| == |b| == |c| == |d|
    requires forall i | 0 <= i < |a| :: a[i].WithinPlus(b[i], c[i], d[i])
    ensures Total(a).WithinPlus(Total(b), Total(c), Total(d))
  {
    if a != [] {
      var n := |a| - 1;
      TotalWithinPlus(a[..n], b[..n], c[..n], d[..n]);
    }
  }

  lemma UsageWithinCapacity(db: Db, h: HostId)
    requires Inv(db) && h < |db.hosts|
    ensures Sum(db.slots, h, UsedBy).WithinPlus(
              Capacity(db.hosts[h]), Sum(db.slots, h, ReservedBy), Sum(db.slots, h, UpgradedBy))
  {
    var used, admitted := Shares(db.slots, h, UsedBy), Shares(db.slots, h, AdmittedBy);
    var reserved, upgraded := Shares(db.slots, h, ReservedBy), Shares(db.slots, h, UpgradedBy);
    forall c | 0 <= c < |db.slots| ensures used[c].WithinPlus(admitted[c], reserved[c], upgraded[c]) {
      UsageSplits(db.slots[c], h);
    }
    TotalWithinPlus(used, admitted, reserved, upgraded);
  }

  // Placement alone never overcommits: beyond capacity there are only outstanding
  // reservations and the deltas of upgrades taken in place. Disk is never oversold,
  // and no host exceeds its tenant ceiling.
  lemma OvercommitBounded(init: Db, run: seq<Label>, i: nat, h: HostId)
    requires Inv(init) && i <= |run| && h < |init.hosts|
    ensures var db := Exec(init, run)[i];
      && h < |db.hosts|
      && Capacity(db.hosts[h]) == Capacity(init.hosts[h])
      && Sum(db.slots, h, UsedBy).WithinPlus(
           Capacity(db.hosts[h]), Sum(db.slots, h, ReservedBy), Sum(db.slots, h, UpgradedBy))
      && Tenants(db.slots, h) <= db.hosts[h].maxTenants
  {
    var hist := Exec(init, run);
    RunsAreGood(init, run);
    assert i == 0 || Later(hist[0], hist[i]);
    UsageWithinCapacity(hist[i], h);
  }

  // What host h has charged beyond what its containers use.
  function Drift(db: Db, h: HostId): Res
    requires h < |db.hosts|
  {
    db.hosts[h].charged.Minus(Sum(db.slots, h, UsedBy))
  }

  // In every state of every run the CPU and RAM counters exceed capacity by no more than
  // outstanding reservations, upgrades taken in place and the drift, which is nothing
  // exactly where nothing was dropped, overcharged or lost.
  lemma CountersBounded(init: Db, run: seq<Label>, i: nat, h: HostId)
    requires Inv(init) && i <= |run| && h < |init.hosts|
    ensures var db := Exec(init, run)[i];
      && h < |db.hosts| == |db.lost| && Drift(db, h).Nonneg() && (IsNothing(Drift(db, h)) <==> CleanOn(db, h))
      && db.hosts[h].charged.cpu <=
           db.hosts[h].vcpuCapacity + Sum(db.slots, h, ReservedBy).cpu + Sum(db.slots, h, UpgradedBy).cpu
           + Drift(db, h).cpu
      && db.hosts[h].charged.ram <=
           RamCapacityMb(db.hosts[h]) + Sum(db.slots, h, ReservedBy).ram + Sum(db.slots, h, UpgradedBy).ram
           + Drift(db, h).ram
  {
    LedgerConserved(init, run, i, h);
    OvercommitBounded(init, run, i, h);
    RunsAreGood(init, run);
    assert Inv(Exec(init, run)[i]);
    ExactIffClean(Exec(init, run)[i], h);
    hide Inv, CleanOn;
  }

  // ------------------------------------------------------------------- jobs

  // At most one lifecycle job is active, it is the newest, and a settled job
  // keeps its result for the rest of the run.
  lemma JobsSettleOnce(init: Db, run: seq<Label>, i: nat, j: nat, c: nat, k: nat)
    requires Inv(init) && i <= j <= |run|
    requires c < |Exec(init, run)[i].slots| && k < |Exec(init, run)[i].slots[c].jobs|
    ensures var before, after := Exec(init, run)[i], Exec(init, run)[j];
      && c < |after.slots| && k < |after.slots[c].jobs|
      && after.slots[c].jobs[k].op == before.slots[c].jobs[k].op
      && (!IsActive(before.slots[c].jobs[k].status) ==> after.slots[c].jobs[k] == before.slots[c].jobs[k])
      && (IsActive(after.slots[c].jobs[k].status) && IsLifecycle(after.slots[c].jobs[k].op) ==>
            && NewestLifecycle(after.slots[c].jobs, k)
            && forall m | 0 <= m < |after.slots[c].jobs| && m != k && IsLifecycle(after.slots[c].jobs[m].op) ::
                 !IsActive(after.slots[c].jobs[m].status))
  {
    var hist := Exec(init, run);
    RunsAreGood(init, run);
    assert Inv(hist[j]) && Inv(hist[i]);
    if i < j { assert Later(hist[i], hist[j]); }
  }

  // The steps that settle job k of container c.
  predicate Settles(l: Label, c: nat, k: nat) {
    (l.JobFails? && l.c == c && l.k == k) || (l.JobSucceeds? && l.c == c && l.k == k)
  }

  // Whoever comes second, with whatever reads, changes nothing: no counter, no
  // status, no row.
  lemma SecondSettlementIsInert(hist: seq<Db>, l: Label, c: nat, k: nat)
    requires hist != [] && WellFormed(Last(hist)) && Settles(l, c, k)
    requires c < |Last(hist).slots| && k < |Last(hist).slots[c].jobs|
    requires !IsActive(Last(hist).slots[c].jobs[k].status)
    ensures Apply(hist, l) == Last(hist)
  {
    var db := Last(hist);
    assert db.slots[c := db.slots[c]] == db.slots;
  }

  lemma SucceedSettles(db: Db, c: nat, k: nat, read: Container, checked: Option<Transition>, tr: Option<Transition>,
                       at: int)
    requires WellFormed(db) && c < |db.slots| && k < |db.slots[c].jobs|
    requires read.host.Some? && read.host.value < |db.hosts|
    ensures var next := Succeed(db, c, k, read, checked, tr, at);
      next == db || (c < |next.slots| && k < |next.slots[c].jobs| && !IsActive(next.slots[c].jobs[k].status))
  {
    assert db.slots[c := db.slots[c]] == db.slots;
  }

  // A settlement that changes anything at all settles its job.
  lemma ChangingSettles(hist: seq<Db>, l: Label, c: nat, k: nat)
    requires hist != [] && WellFormed(Last(hist)) && Settles(l, c, k) && Apply(hist, l) != Last(hist)
    ensures var next := Apply(hist, l);
      c < |next.slots| && k < |next.slots[c].jobs| && !IsActive(next.slots[c].jobs[k].status)
  {
    hide Succeed;
    var db := Last(hist);
    if c < |db.slots| { assert db.slots[c := db.slots[c]] == db.slots; }
    if l.JobSucceeds? && Observed(hist, c, k, l.rowAt, l.checkAt, l.trAt) {
      SucceedSettles(db, c, k, ReadRow(hist, l.rowAt, c).value,
        ReadTr(hist, l.checkAt, c), ReadTr(hist, l.trAt, c), l.at);
    }
  }

  // Of all the callers that settle one job in a run, pollers and timeouts alike, only
  // the first to change anything changes anything.
  lemma AtMostOneSettlement(init: Db, run: seq<Label>, i: nat, j: nat, c: nat, k: nat)
    requires Inv(init) && i < j < |run| && Settles(run[i], c, k) && Settles(run[j], c, k)
    requires Exec(init, run)[i + 1] != Exec(init, run)[i]
    ensures Exec(init, run)[j + 1] == Exec(init, run)[j]
  {
    RunsAreGood(init, run[..i]);
    ExecNext(init, run, i);
    ExecNext(init, run, j);
    ChangingSettles(Exec(init, run[..i]), run[i], c, k);
    JobsSettleOnce(init, run, i + 1, j, c, k);
    SecondSettlementIsInert(Exec(init, run[..j]), run[j], c, k);
  }

  // ----------------------------------------------------------------- destroying

  lemma DestroyingHasItsJob(init: Db, run: seq<Label>, i: nat, c: nat)
    requires Inv(init) && i <= |run| && c < |Exec(init, run)[i].slots|
    requires var row := Exec(init, run)[i].slots[c].row; row.Some? && row.value.status.Destroying?
    ensures ActiveDestroy(Exec(init, run)[i].slots[c].jobs)
  {
    RunsAreGood(init, run);
    assert Inv(Exec(init, run)[i]);
  }
}
