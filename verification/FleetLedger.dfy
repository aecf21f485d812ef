// The invariant of every reachable state, the relation between a state and any
// later one, and what a change of one slot does to the sums over a host.
module FleetLedger {
  import opened Wrappers
  import opened Plans
  import opened FleetState
  import opened FleetSteps

  // ---------------------------------------------------------- slot invariant

  // No lifecycle job is active but the newest one.
  predicate OneActive(jobs: seq<Job>) {
    forall i, j | 0 <= i < j < |jobs| ::
      IsLifecycle(jobs[i].op) && IsLifecycle(jobs[j].op) ==> !IsActive(jobs[i].status)
  }

  predicate ActiveDestroy(jobs: seq<Job>) {
    exists k | 0 <= k < |jobs| :: jobs[k].op.Destroy? && IsActive(jobs[k].status)
  }

  predicate RowInv(c: Container) {
    && c.ramMb == RamMb(c.tier)
    && (c.diskGb == DiskGb(Free) || c.diskGb == DiskGb(Paid))
    && (c.tier.Paid? ==> c.diskGb == DiskGb(Paid))
    && (c.host.None? ==>
          c.status.Waitlisted? && c.diskGb == DiskGb(c.tier) && c.lastUpgradedAt.None?)
  }

  // A resize never has to find disk it did not reserve, even when it was
  // reserved from rows read long before.
  predicate TransitionInv(tr: Transition, c: Container) {
    && c.host.Some?
    && tr.reserved.Nonneg()
    && tr.targetDiskGb == DiskGb(Paid)
    && (tr.prior.Running? || tr.prior.Stopped?)
    && (c.diskGb == DiskGb(Free) ==> tr.to.Paid?)
    && (tr.to.Paid? && (tr.state.Resizing? || tr.state.FailedRetryable?) ==>
          tr.reserved.disk >= DiskReservationGb(tr.targetDiskGb) - DiskReservationGb(c.diskGb))
  }

  predicate SlotInv(s: Slot) {
    && OneActive(s.jobs)
    && (Busy(s.jobs) ==> s.row.Some? && s.row.value.host.Some?)
    && (s.row.Some? ==> RowInv(s.row.value))
    && (s.row.Some? && s.row.value.status.Destroying? ==> ActiveDestroy(s.jobs))
    && (s.tr.Some? ==> s.row.Some? && TransitionInv(s.tr.value, s.row.value))
    && s.dropped.Nonneg() && s.overcharged.Nonneg()
  }

  // ---------------------------------------------------------- what stays put

  predicate JobsLater(a: seq<Job>, b: seq<Job>) {
    && |a| <= |b|
    && forall k | 0 <= k < |a| ::
         b[k].op == a[k].op && (!IsActive(a[k].status) ==> b[k].status == a[k].status)
  }

  predicate RowLater(a: Option<Container>, b: Option<Container>) {
    && (b.Some? ==> a.Some?)
    && (b.Some? && a.value.host.Some? ==>
          b.value.host == a.value.host && a.value.diskGb <= b.value.diskGb)
    && (b.Some? && b.value.host.None? ==> a.value.host.None? && (a.value.tier == b.value.tier || a.value.tier.Paid?))
  }

  // Some lifecycle job of `a` is still active in `b`.
  predicate Spans(a: seq<Job>, b: seq<Job>) {
    exists k | 0 <= k < |a| && k < |b| :: IsLifecycle(b[k].op) && IsActive(b[k].status)
  }

  predicate SameRequest(a: Transition, b: Transition) {
    && a.from == b.from && a.to == b.to && a.targetDiskGb == b.targetDiskGb
    && a.reserved == b.reserved
    && (a.state.Resizing? ==> b.state.Resizing? && a.prior == b.prior)
    && (Settled(a) <==> Settled(b))
    && (a.state.Complete? <==> b.state.Complete?)
  }

  // While a lifecycle job is active nobody else touches the plan's numbers:
  // the row survives as it is, or a deletion moves its reservation to `dropped`.
  predicate Stable(a: Slot, b: Slot) {
    && (a.row.Some? && b.row.Some? ==>
          a.row.value.tier == b.row.value.tier && a.row.value.ramMb == b.row.value.ramMb
          && a.row.value.diskGb == b.row.value.diskGb)
    && (a.tr.None? ==> b.tr.None?)
    && (if a.tr.Some? && b.tr.Some?
        then SameRequest(a.tr.value, b.tr.value) && a.dropped.AtMost(b.dropped)
        else a.dropped.Plus(Reserved(a.tr)).AtMost(b.dropped))
  }

  predicate SlotLater(a: Slot, b: Slot) {
    && JobsLater(a.jobs, b.jobs)
    && RowLater(a.row, b.row)
    && (Spans(a.jobs, b.jobs) ==> Stable(a, b))
  }

  lemma SlotLaterTransitive(a: Slot, b: Slot, c: Slot)
    requires SlotLater(a, b) && SlotLater(b, c) && SlotInv(b) && SlotInv(c)
    ensures SlotLater(a, c)
  {
    if Spans(a.jobs, c.jobs) {
      var k :| 0 <= k < |a.jobs| && IsLifecycle(c.jobs[k].op) && IsActive(c.jobs[k].status);
      assert IsActive(b.jobs[k].status) && IsLifecycle(b.jobs[k].op);
      assert Spans(a.jobs, b.jobs) && Spans(b.jobs, c.jobs);
      assert Busy(b.jobs) && Busy(c.jobs);
    }
  }

  // ------------------------------------------------------ the state invariant

  predicate Conserved(db: Db)
    requires WellFormed(db)
  {
    forall h | 0 <= h < |db.hosts| ::
      db.hosts[h].charged == Sum(db.slots, h, HeldBy).Plus(db.lost[h])
  }

  predicate WithinCapacity(db: Db) {
    forall h | 0 <= h < |db.hosts| ::
      && Sum(db.slots, h, AdmittedBy).AtMost(Capacity(db.hosts[h]))
      && Tenants(db.slots, h) <= db.hosts[h].maxTenants
  }

  predicate Inv(db: Db) {
    && WellFormed(db)
    && (forall c | 0 <= c < |db.slots| ::
          SlotInv(db.slots[c]) && (HostOf(db.slots[c]).Some? ==> HostOf(db.slots[c]).value < |db.hosts|))
    && Conserved(db)
    && (forall h | 0 <= h < |db.lost| :: db.lost[h].Nonneg())
    && WithinCapacity(db)
  }

  predicate Later(a: Db, b: Db) {
    && |a.hosts| == |b.hosts|
    && (forall h | 0 <= h < |a.hosts| ::
          Capacity(a.hosts[h]) == Capacity(b.hosts[h]) && a.hosts[h].maxTenants == b.hosts[h].maxTenants)
    && |a.slots| <= |b.slots|
    && forall c | 0 <= c < |a.slots| :: SlotLater(a.slots[c], b.slots[c])
  }

  // -------------------------------------------------------------------- sums

  lemma {:induction false} TotalUpdate(rs: seq<Res>, c: nat, r: Res)
    requires c < |rs|
    ensures Total(rs[c := r]) == Total(rs).Minus(rs[c]).Plus(r)
  {
    var n := |rs| - 1;
    if c == n {
      assert rs[c := r][..n] == rs[..n];
    } else {
      assert rs[c := r][..n] == rs[..n][c := r];
      TotalUpdate(rs[..n], c, r);
    }
  }

  lemma SumUpdate(slots: seq<Slot>, c: nat, s: Slot, h: HostId, m: Measure)
    requires c < |slots|
    ensures Sum(slots[c := s], h, m) == Sum(slots, h, m).Minus(Share(slots[c], h, m)).Plus(Share(s, h, m))
  {
    assert Shares(slots[c := s], h, m) == Shares(slots, h, m)[c := Share(s, h, m)];
    TotalUpdate(Shares(slots, h, m), c, Share(s, h, m));
  }

  lemma SumAppend(slots: seq<Slot>, s: Slot, h: HostId, m: Measure)
    ensures Sum(slots + [s], h, m) == Sum(slots, h, m).Plus(Share(s, h, m))
  {
    assert Shares(slots + [s], h, m) == Shares(slots, h, m) + [Share(s, h, m)];
    assert (Shares(slots, h, m) + [Share(s, h, m)])[..|slots|] == Shares(slots, h, m);
  }

  lemma {:induction false} TotalMonotone(a: seq<Res>, b: seq<Res>)
    requires |a| == |b|
    requires forall i | 0 <= i < |a| :: a[i].AtMost(b[i])
    ensures Total(a).AtMost(Total(b))
  {
    if a != [] {
      var n := |a| - 1;
      TotalMonotone(a[..n], b[..n]);
    }
  }

  lemma {:induction false} TotalNonnegative(rs: seq<Res>)
    requires forall i | 0 <= i < |rs| :: rs[i].Nonneg()
    ensures Total(rs).Nonneg()
    ensures forall i | 0 <= i < |rs| :: rs[i].AtMost(Total(rs))
  {
    if rs != [] {
      var n := |rs| - 1;
      TotalNonnegative(rs[..n]);
      forall i | 0 <= i < |rs| ensures rs[i].AtMost(Total(rs)) {
        if i < n { assert rs[..n][i] == rs[i]; }
      }
    }
  }

  lemma ShareOrder(s: Slot, h: HostId)
    requires SlotInv(s)
    ensures Share(s, h, AdmittedBy).Nonneg() && Share(s, h, AdmittedBy).AtMost(Share(s, h, HeldBy))
    ensures Share(s, h, UsedBy).Nonneg() && Share(s, h, UsedBy).AtMost(Share(s, h, HeldBy))
  {
  }

  // No share is negative, and what was admitted, like what is used, is part of
  // what is held.
  lemma SumOrder(slots: seq<Slot>, h: HostId)
    requires forall c | 0 <= c < |slots| :: SlotInv(slots[c])
    ensures Sum(slots, h, UsedBy).Nonneg()
    ensures Sum(slots, h, AdmittedBy).AtMost(Sum(slots, h, HeldBy))
    ensures Sum(slots, h, UsedBy).AtMost(Sum(slots, h, HeldBy))
    ensures forall c | 0 <= c < |slots| :: Share(slots[c], h, HeldBy).AtMost(Sum(slots, h, HeldBy))
  {
    var held, used, admitted := Shares(slots, h, HeldBy), Shares(slots, h, UsedBy), Shares(slots, h, AdmittedBy);
    forall c | 0 <= c < |slots|
      ensures used[c].Nonneg() && used[c].AtMost(held[c])
      ensures admitted[c].AtMost(held[c]) && held[c].Nonneg() && held[c] == Share(slots[c], h, HeldBy)
    {
      ShareOrder(slots[c], h);
    }
    TotalNonnegative(held);
    TotalNonnegative(used);
    TotalMonotone(used, held);
    TotalMonotone(admitted, held);
  }

  // ------------------------------------------------- changing one slot safely

  // The slot's host, holdings and admission stay within what they were.
  predicate Quiet(s: Slot, t: Slot) {
    && HostOf(t) == HostOf(s)
    && (HostOf(s).Some? ==> Held(t) == Held(s) && Admitted(t).AtMost(Admitted(s)))
  }

  lemma PutKeepsInv(db: Db, c: nat, s: Slot)
    requires Inv(db) && c < |db.slots|
    requires SlotInv(s) && SlotLater(db.slots[c], s) && Quiet(db.slots[c], s)
    ensures Inv(Put(db, c, s)) && Later(db, Put(db, c, s))
  {
    var next := Put(db, c, s);
    forall h | 0 <= h < |db.hosts|
      ensures next.hosts[h].charged == Sum(next.slots, h, HeldBy).Plus(next.lost[h])
      ensures Sum(next.slots, h, AdmittedBy).AtMost(Capacity(next.hosts[h]))
      ensures Tenants(next.slots, h) <= next.hosts[h].maxTenants
    {
      SumUpdate(db.slots, c, s, h, HeldBy);
      SumUpdate(db.slots, c, s, h, AdmittedBy);
      SumUpdate(db.slots, c, s, h, One);
    }
    LaterByOne(db, next, c);
  }

  lemma LaterByOne(db: Db, next: Db, c: nat)
    requires c < |db.slots| == |next.slots| && |db.hosts| == |next.hosts|
    requires forall h | 0 <= h < |db.hosts| ::
      Capacity(db.hosts[h]) == Capacity(next.hosts[h]) && db.hosts[h].maxTenants == next.hosts[h].maxTenants
    requires forall i | 0 <= i < |db.slots| && i != c :: next.slots[i] == db.slots[i]
    requires forall i | 0 <= i < |db.slots| :: SlotInv(db.slots[i])
    requires SlotLater(db.slots[c], next.slots[c])
    ensures Later(db, next)
  {
    forall i | 0 <= i < |db.slots| ensures SlotLater(db.slots[i], next.slots[i]) {
      if i != c { SlotLaterReflexive(db.slots[i]); }
    }
  }

  lemma SlotLaterReflexive(s: Slot)
    ensures SlotLater(s, s) || (Spans(s.jobs, s.jobs) && !Stable(s, s))
    ensures SlotInv(s) ==> SlotLater(s, s)
  {
  }

  // One dimension of admission: it does not grow, or the host's counter had room.
  predicate Fits(was: int, next: int, charged: int, capacity: int) {
    next <= was || charged + next - was <= capacity
  }

  predicate AdmissionFits(was: Res, next: Res, host: Host) {
    && Fits(was.cpu, next.cpu, host.charged.cpu, Capacity(host).cpu)
    && Fits(was.ram, next.ram, host.charged.ram, Capacity(host).ram)
    && Fits(was.disk, next.disk, host.charged.disk, Capacity(host).disk)
  }

  predicate Balanced(db: Db, c: nat, s: Slot, h: HostId, charged: Res, lost: Res)
    requires c < |db.slots| && h < |db.hosts| == |db.lost|
  {
    var was := db.slots[c];
    && (HostOf(was).Some? ==> HostOf(was).value == h)
    && (HostOf(s).Some? ==> HostOf(s).value == h)
    && db.lost[h].AtMost(lost)
    && charged == db.hosts[h].charged.Minus(Share(was, h, HeldBy)).Plus(Share(s, h, HeldBy))
                    .Plus(lost.Minus(db.lost[h]))
    && AdmissionFits(Share(was, h, AdmittedBy), Share(s, h, AdmittedBy), db.hosts[h])
    && (Share(s, h, One) == Share(was, h, One) || Share(s, h, One) == ZERO
        || Tenants(db.slots, h) < db.hosts[h].maxTenants)
  }

  // The admission sum stays within capacity because the counter was above it.
  lemma AdmissionStep(admitted: Res, was: Res, next: Res, host: Host)
    requires admitted.AtMost(Capacity(host)) && admitted.AtMost(host.charged)
    requires AdmissionFits(was, next, host)
    ensures admitted.Minus(was).Plus(next).AtMost(Capacity(host))
  {
  }

  lemma MoveOnHost(db: Db, c: nat, s: Slot, h: HostId, charged: Res, lost: Res, g: HostId)
    requires Inv(db) && c < |db.slots| && h < |db.hosts| && g < |db.hosts|
    requires Balanced(db, c, s, h, charged, lost)
    ensures var next := Move(db, c, s, h, charged, lost);
      && next.hosts[g].charged == Sum(next.slots, g, HeldBy).Plus(next.lost[g])
      && Sum(next.slots, g, AdmittedBy).AtMost(Capacity(next.hosts[g]))
      && Tenants(next.slots, g) <= next.hosts[g].maxTenants
  {
    SumUpdate(db.slots, c, s, g, HeldBy);
    SumUpdate(db.slots, c, s, g, AdmittedBy);
    SumUpdate(db.slots, c, s, g, One);
    SumOrder(db.slots, g);
    if g == h {
      AdmissionStep(Sum(db.slots, g, AdmittedBy), Share(db.slots[c], g, AdmittedBy),
                    Share(s, g, AdmittedBy), db.hosts[g]);
    } else {
      assert !OnHost(db.slots[c], g) && !OnHost(s, g);
    }
  }

  lemma MoveKeepsInv(db: Db, c: nat, s: Slot, h: HostId, charged: Res, lost: Res)
    requires Inv(db) && c < |db.slots| && h < |db.hosts|
    requires SlotInv(s) && SlotLater(db.slots[c], s)
    requires Balanced(db, c, s, h, charged, lost)
    ensures Inv(Move(db, c, s, h, charged, lost)) && Later(db, Move(db, c, s, h, charged, lost))
  {
    var next := Move(db, c, s, h, charged, lost);
    forall g | 0 <= g < |db.hosts|
      ensures next.hosts[g].charged == Sum(next.slots, g, HeldBy).Plus(next.lost[g])
      ensures Sum(next.slots, g, AdmittedBy).AtMost(Capacity(next.hosts[g]))
      ensures Tenants(next.slots, g) <= next.hosts[g].maxTenants
    {
      MoveOnHost(db, c, s, h, charged, lost, g);
    }
    LaterByOne(db, next, c);
  }

  lemma AppendKeepsInv(db: Db, s: Slot, hosts: seq<Host>)
    requires Inv(db) && SlotInv(s) && |hosts| == |db.hosts|
    requires HostOf(s).Some? ==> HostOf(s).value < |hosts|
    requires forall h | 0 <= h < |hosts| ::
      && hosts[h] == db.hosts[h].(charged := db.hosts[h].charged.Plus(Share(s, h, HeldBy)))
      && AdmissionFits(ZERO, Share(s, h, AdmittedBy), db.hosts[h])
      && (Share(s, h, One) == ZERO || Tenants(db.slots, h) < db.hosts[h].maxTenants)
    ensures Inv(Db(hosts, db.slots + [s], db.lost)) && Later(db, Db(hosts, db.slots + [s], db.lost))
  {
    var next := Db(hosts, db.slots + [s], db.lost);
    forall h | 0 <= h < |hosts|
      ensures next.hosts[h].charged == Sum(next.slots, h, HeldBy).Plus(next.lost[h])
      ensures Sum(next.slots, h, AdmittedBy).AtMost(Capacity(next.hosts[h]))
      ensures Tenants(next.slots, h) <= next.hosts[h].maxTenants
    {
      SumAppend(db.slots, s, h, HeldBy);
      SumAppend(db.slots, s, h, AdmittedBy);
      SumAppend(db.slots, s, h, One);
      SumOrder(db.slots, h);
    }
    forall i | 0 <= i < |db.slots| ensures SlotLater(db.slots[i], next.slots[i]) {
      SlotLaterReflexive(db.slots[i]);
    }
  }

  // A host's counter covers each slot it hosts, so the clamps at zero are idle.
  lemma ClampIdle(db: Db, c: nat, h: HostId, adjustment: Res)
    requires Inv(db) && c < |db.slots| && h < |db.hosts|
    requires Share(db.slots[c], h, HeldBy).Plus(adjustment).Nonneg()
    ensures db.hosts[h].charged.Plus(adjustment).AtLeastZero() == db.hosts[h].charged.Plus(adjustment)
  {
    SumOrder(db.slots, h);
  }
}
