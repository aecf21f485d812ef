// Which host a new container goes to: among those that can take it, the one whose
// tightest dimension is least tight afterwards.
module HostSelection {
  import opened Wrappers
  import opened Plans
  import opened FleetState
  import opened FleetSteps
  import opened FleetLedger
  import FleetEffects

  datatype PlacementRequest = PlacementRequest(user: UserId, mode: Tenancy, need: Res)

  predicate Feasible(db: Db, h: HostId, r: PlacementRequest, at: int) {
    h < |db.hosts| && Admits(db.hosts[h], Tenants(db.slots, h), r.user, r.mode, r.need, at)
  }

  // A dimension's headroom in hundred-thousandths of its capacity.
  function Part(free: int, capacity: int): int {
    if capacity > 0 then SqlQuotient(free * 100000, capacity) else 0
  }

  datatype Headroom = Headroom(cpu: int, ram: int, disk: int, slots: int) {
    function Worst(): int {
      var a, b := if cpu < ram then cpu else ram, if disk < slots then disk else slots;
      if a < b then a else b
    }

    function Sum(): int { cpu + ram + disk + slots }
  }

  function HeadroomOf(h: Host, tenants: int): Headroom {
    var free, capacity := Available(h), Capacity(h);
    Headroom(Part(free.cpu, capacity.cpu), Part(free.ram, capacity.ram), Part(free.disk, capacity.disk),
             Part(h.maxTenants - tenants, h.maxTenants))
  }

  // What the ordering looks at: the host as the placement would leave it.
  function Score(db: Db, h: HostId, need: Res): Headroom
    requires h < |db.hosts|
  {
    HeadroomOf(db.hosts[h].(charged := db.hosts[h].charged.Plus(need)), Tenants(db.slots, h) + 1)
  }

  // `ORDER BY MIN(...) DESC, (sum) DESC, id`: a comes before b.
  predicate Before(db: Db, need: Res, a: HostId, b: HostId)
    requires a < |db.hosts| && b < |db.hosts|
  {
    var x, y := Score(db, a, need), Score(db, b, need);
    || x.Worst() > y.Worst()
    || (x.Worst() == y.Worst() && (x.Sum() > y.Sum() || (x.Sum() == y.Sum() && a < b)))
  }

  predicate Candidate(db: Db, h: HostId, r: PlacementRequest, at: int, excluded: set<HostId>) {
    Feasible(db, h, r, at) && h !in excluded
  }

  // The first of the ordering among hosts below n.
  function Pick(db: Db, r: PlacementRequest, at: int, excluded: set<HostId>, n: nat): (best: Option<HostId>)
    requires n <= |db.hosts|
    ensures best.Some? ==> best.value < n && Candidate(db, best.value, r, at, excluded)
  {
    if n == 0 then None
    else
      var best := Pick(db, r, at, excluded, n - 1);
      if Candidate(db, n - 1, r, at, excluded) && (best.None? || Before(db, r.need, n - 1, best.value))
      then Some(n - 1)
      else best
  }

  function PickHost(db: Db, r: PlacementRequest, at: int, excluded: set<HostId>): Option<HostId> {
    Pick(db, r, at, excluded, |db.hosts|)
  }

  lemma {:induction false} PickIsFirst(db: Db, r: PlacementRequest, at: int, excluded: set<HostId>, n: nat, h: HostId)
    requires h < n <= |db.hosts| && Candidate(db, h, r, at, excluded)
    ensures var best := Pick(db, r, at, excluded, n);
      best.Some? && (best.value == h || Before(db, r.need, best.value, h))
  {
    if h < n - 1 { PickIsFirst(db, r, at, excluded, n - 1, h); }
  }

  // The worst part is the tightest.
  lemma WorstIsTightest(x: Headroom)
    ensures x.Worst() <= x.cpu && x.Worst() <= x.ram && x.Worst() <= x.disk && x.Worst() <= x.slots
    ensures x.Worst() == x.cpu || x.Worst() == x.ram || x.Worst() == x.disk || x.Worst() == x.slots
  {
  }

  // No host is found exactly when none can take the request, and the host found leaves
  // at least as much room in its tightest dimension as any other would; where that is a
  // tie, in total; and where that is, too, it has the first id.
  lemma PickHostIsMaxMin(db: Db, r: PlacementRequest, at: int, excluded: set<HostId>)
    ensures PickHost(db, r, at, excluded).None? <==>
      forall h | 0 <= h < |db.hosts| :: Feasible(db, h, r, at) ==> h in excluded
    ensures PickHost(db, r, at, excluded).Some? ==>
      var best := PickHost(db, r, at, excluded).value;
      && Feasible(db, best, r, at) && best !in excluded
      && (forall h | 0 <= h < |db.hosts| && Feasible(db, h, r, at) && h !in excluded && h != best ::
            var x, y := Score(db, best, r.need), Score(db, h, r.need);
            && y.Worst() <= x.Worst()
            && (y.Worst() == x.Worst() ==> y.cpu + y.ram + y.disk + y.slots <= x.cpu + x.ram + x.disk + x.slots)
            && (y.Worst() == x.Worst() && y.cpu + y.ram + y.disk + y.slots == x.cpu + x.ram + x.disk + x.slots ==>
                  best < h))
  {
    hide Pick, Feasible, Score;
    forall h | 0 <= h < |db.hosts| && Feasible(db, h, r, at) && h !in excluded
      ensures PickHost(db, r, at, excluded).Some?
      ensures var best := PickHost(db, r, at, excluded).value; best == h || Before(db, r.need, best, h)
    {
      assert Candidate(db, h, r, at, excluded);
      PickIsFirst(db, r, at, excluded, |db.hosts|, h);
    }
  }

  // The chosen host's score is its headroom once the container is placed there.
  lemma ScoreIsHeadroomAfterwards(db: Db, user: UserId, tier: Tier, mode: Tenancy, h: HostId, port: int, at: int)
    requires WellFormed(db) && h < |db.hosts| && PlaceNew(db, user, tier, mode, h, port, at) != db
    ensures var next := PlaceNew(db, user, tier, mode, h, port, at);
      h < |next.hosts| && HeadroomOf(next.hosts[h], Tenants(next.slots, h)) == Score(db, h, TierFootprint(tier))
  {
    SumAppend(db.slots, NewSlot(user, Some(h), Some(port), tier, mode, Provisioning), h, One);
  }

  // A host is feasible exactly if it is active, alive, of the kind asked for, its own
  // account's if dedicated, and has the room.
  lemma FeasibleIff(db: Db, h: HostId, r: PlacementRequest, at: int)
    requires Inv(db) && r.need.ram > 0
    ensures Feasible(db, h, r, at) <==> FleetEffects.Takes(db, h, r.user, r.mode, r.need, at)
  {
    if h < |db.hosts| { FleetEffects.AdmitsIff(db, h, r.user, r.mode, r.need, at); }
  }

  // A feasible host's capacities are positive, so no division in the ordering is by zero.
  lemma FeasibleHasCapacity(db: Db, h: HostId, r: PlacementRequest, at: int)
    requires Inv(db) && Feasible(db, h, r, at) && r.need.cpu > 0 && r.need.ram > 0 && r.need.disk > 0
    ensures var capacity := Capacity(db.hosts[h]);
      capacity.cpu > 0 && capacity.ram > 0 && capacity.disk > 0 && db.hosts[h].maxTenants > 0
  {
    SumOrder(db.slots, h);
    TenantsNonnegative(db.slots, h);
  }

  // So many hundred-thousandths of the capacity are free, and not one more.
  predicate IsShare(part: int, free: int, capacity: int) {
    capacity > 0 && part * capacity <= free * 100000 < (part + 1) * capacity
  }

  lemma PartIsShare(free: int, capacity: int)
    requires free >= 0 && capacity > 0
    ensures IsShare(Part(free, capacity), free, capacity)
  {
  }

  // What the ordering compares of a feasible host: the share of each dimension that the
  // container would leave free, of RAM sold at five quarters of what is not reserved.
  lemma ScoreIs(db: Db, h: HostId, r: PlacementRequest, at: int)
    requires Inv(db) && Feasible(db, h, r, at) && r.need.cpu > 0 && r.need.ram > 0 && r.need.disk > 0
    ensures var score, host, ram := Score(db, h, r.need), db.hosts[h], Capacity(db.hosts[h]).ram;
      && 4 * ram <= 5 * (host.ramTotalMb - host.ramReserveMb) < 4 * (ram + 1)
      && IsShare(score.cpu, host.vcpuCapacity - host.charged.cpu - r.need.cpu, host.vcpuCapacity)
      && IsShare(score.ram, ram - host.charged.ram - r.need.ram, ram)
      && IsShare(score.disk, host.diskTotalGb - host.charged.disk - r.need.disk, host.diskTotalGb)
      && IsShare(score.slots, host.maxTenants - Tenants(db.slots, h) - 1, host.maxTenants)
  {
    FeasibleHasCapacity(db, h, r, at);
    var host := db.hosts[h];
    var free, capacity := Available(host).Minus(r.need), Capacity(host);
    hide Part, IsShare, Tenants, Inv;
    PartIsShare(free.cpu, capacity.cpu);
    PartIsShare(free.ram, capacity.ram);
    PartIsShare(free.disk, capacity.disk);
    PartIsShare(host.maxTenants - Tenants(db.slots, h) - 1, host.maxTenants);
  }

  lemma TenantsNonnegative(slots: seq<Slot>, h: HostId)
    ensures Tenants(slots, h) >= 0
  {
    TotalNonnegative(Shares(slots, h, One));
  }
}
