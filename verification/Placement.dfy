// Placing one container: choose a host, find it a free SSH port, and reserve both in
// one batch that checks everything again; retry, or give up to the waitlist.
//
// What the program reads at its t-th access is `world(t)`: other requests may have
// changed anything in between.
module Placement {
  import opened Wrappers
  import opened Plans
  import opened FleetState
  import opened FleetSteps
  import opened HostSelection

  datatype Quarantined = Quarantined(host: HostId, port: int, releasedAt: int)
  datatype View = View(db: Db, quarantine: seq<Quarantined>, now: int)

  const QUARANTINE_MS := 30 * 24 * 3600 * 1000
  const MAX_PROBES := 200
  const MAX_ATTEMPTS := 4

  // ------------------------------------------------------------------- ports

  datatype PortRange = PortRange(first: int, last: int)

  predicate ValidRange(range: PortRange) { 1024 <= range.first <= range.last <= 65535 }

  predicate InRange(range: PortRange, port: int) { range.first <= port <= range.last }

  predicate QuarantinedOn(q: seq<Quarantined>, h: HostId, port: int, now: int) {
    exists i | 0 <= i < |q| :: q[i].host == h && q[i].port == port && q[i].releasedAt > now - QUARANTINE_MS
  }

  predicate Taken(v: View, h: HostId, port: int) {
    PortTaken(v.db.slots, h, port) || QuarantinedOn(v.quarantine, h, port, v.now)
  }

  ghost predicate NoFreePort(v: View, h: HostId, range: PortRange) {
    forall port | InRange(range, port) :: Taken(v, h, port)
  }

  datatype PortResult = Port(port: int) | NoFreePorts | InvalidRange

  function RangeSet(range: PortRange): (ports: set<int>)
    ensures forall p :: p in ports <==> InRange(range, p)
  {
    set p | range.first <= p <= range.last && InRange(range, p)
  }

  lemma {:induction false} RangeSize(range: PortRange)
    requires range.first <= range.last + 1
    ensures |RangeSet(range)| == range.last - range.first + 1
    decreases range.last - range.first
  {
    if range.first <= range.last {
      var shorter := PortRange(range.first, range.last - 1);
      RangeSize(shorter);
      assert RangeSet(range) == RangeSet(shorter) + {range.last};
    } else {
      assert RangeSet(range) == {};
    }
  }

  lemma SubsetSize(a: set<int>, b: set<int>)
    requires a <= b
    ensures |a| <= |b|
    ensures |a| == |b| ==> a == b
  {
    assert b == a + (b - a) && |b| == |a| + |b - a|;
    assert |b - a| == 0 ==> b - a == {};
  }

  lemma FullRange(taken: set<int>, range: PortRange)
    requires taken <= RangeSet(range) && forall p | range.first <= p <= range.last :: p in taken
    requires range.first <= range.last
    ensures |taken| == range.last - range.first + 1
  {
    assert taken == RangeSet(range);
    RangeSize(range);
  }

  // The ports in range that a container or a recent destroy still holds.
  method TakenPorts(v: View, h: HostId, range: PortRange) returns (taken: set<int>)
    ensures forall p :: p in taken <==> InRange(range, p) && Taken(v, h, p)
  {
    taken := {};
    var i := 0;
    while i < |v.db.slots|
      invariant i <= |v.db.slots|
      invariant forall p :: p in taken <==> InRange(range, p) && PortTaken(v.db.slots[..i], h, p)
    {
      var s := v.db.slots[i];
      if OnHost(s, h) && s.row.value.sshPort.Some? && InRange(range, s.row.value.sshPort.value) {
        taken := taken + {s.row.value.sshPort.value};
      }
      forall p ensures PortTaken(v.db.slots[..i + 1], h, p) <==>
        PortTaken(v.db.slots[..i], h, p) || (OnHost(s, h) && s.row.value.sshPort == Some(p))
      {
        PortTakenSnoc(v.db.slots, i, h, p);
      }
      i := i + 1;
    }
    assert v.db.slots[..i] == v.db.slots;
    ghost var used := taken;
    i := 0;
    while i < |v.quarantine|
      invariant i <= |v.quarantine|
      invariant forall p ::
        p in taken <==> p in used || (InRange(range, p) && QuarantinedOn(v.quarantine[..i], h, p, v.now))
    {
      var q := v.quarantine[i];
      if q.host == h && q.releasedAt > v.now - QUARANTINE_MS && InRange(range, q.port) { taken := taken + {q.port}; }
      forall p ensures QuarantinedOn(v.quarantine[..i + 1], h, p, v.now) <==>
        QuarantinedOn(v.quarantine[..i], h, p, v.now)
        || (q.host == h && q.port == p && q.releasedAt > v.now - QUARANTINE_MS)
      {
        QuarantineSnoc(v.quarantine, i, h, p, v.now);
      }
      i := i + 1;
    }
    assert v.quarantine[..i] == v.quarantine;
  }

  lemma PortTakenSnoc(slots: seq<Slot>, i: nat, h: HostId, port: int)
    requires i < |slots|
    ensures PortTaken(slots[..i + 1], h, port) <==>
      PortTaken(slots[..i], h, port) || (OnHost(slots[i], h) && slots[i].row.value.sshPort == Some(port))
  {
    assert forall k | 0 <= k < i :: slots[..i + 1][k] == slots[..i][k];
    assert slots[..i + 1][i] == slots[i];
  }

  lemma QuarantineSnoc(q: seq<Quarantined>, i: nat, h: HostId, port: int, now: int)
    requires i < |q|
    ensures QuarantinedOn(q[..i + 1], h, port, now) <==>
      QuarantinedOn(q[..i], h, port, now)
      || (q[i].host == h && q[i].port == port && q[i].releasedAt > now - QUARANTINE_MS)
  {
    assert forall k | 0 <= k < i :: q[..i + 1][k] == q[..i][k];
    assert q[..i + 1][i] == q[i];
  }

  function Probe(range: PortRange, random: nat): int
    requires range.first <= range.last
  {
    range.first + random % (range.last - range.first + 1)
  }

  // Fails exactly when every port of the range is taken, whatever the random draws;
  // otherwise the first free draw, or the lowest free port if none of them was.
  method AllocatePort(v: View, h: HostId, range: PortRange, random: nat -> nat) returns (r: PortResult)
    ensures r.InvalidRange? <==> !ValidRange(range)
    ensures r.NoFreePorts? <==> ValidRange(range) && NoFreePort(v, h, range)
    ensures r.Port? ==> InRange(range, r.port) && !Taken(v, h, r.port)
    ensures r.Port? ==>
      || (exists i | 0 <= i < 200 :: r.port == Probe(range, random(i))
            && forall j | 0 <= j < i :: Taken(v, h, Probe(range, random(j))))
      || ((forall i | 0 <= i < 200 :: Taken(v, h, Probe(range, random(i))))
          && forall p | range.first <= p < r.port :: Taken(v, h, p))
  {
    var taken := TakenPorts(v, h, range);
    if !ValidRange(range) { return InvalidRange; }
    var span := range.last - range.first + 1;
    RangeSize(range);
    SubsetSize(taken, RangeSet(range));
    if |taken| >= span {
      assert taken == RangeSet(range);
      return NoFreePorts;
    }
    var i := 0;
    while i < MAX_PROBES
      invariant 0 <= i <= MAX_PROBES
      invariant forall j | 0 <= j < i :: Probe(range, random(j)) in taken
    {
      var port := range.first + random(i) % span;
      assert port == Probe(range, random(i));
      if port !in taken { return Port(port); }
      i := i + 1;
    }
    var p := range.first;
    while p <= range.last
      invariant range.first <= p <= range.last + 1
      invariant forall q | range.first <= q < p :: q in taken
    {
      if p !in taken { return Port(p); }
      p := p + 1;
    }
    // The scan cannot come to its end: some port was free.
    FullRange(taken, range);
    assert false;
  }

  // -------------------------------------------------------- a new container

  datatype Outcome = Placed(h: HostId, port: int, t: nat) | AlreadyThere(t: nat) | Waitlist(t: nat) | Misconfigured

  ghost predicate StableHosts(world: nat -> View, hosts: nat) {
    forall t :: WellFormed(world(t).db) && |world(t).db.hosts| == hosts
  }

  predicate Known(h: HostId, hosts: nat) { h < hosts }

  function Hosts(hosts: nat): set<HostId> { set h: HostId | h < hosts && Known(h, hosts) }

  lemma NoneFeasible(db: Db, r: PlacementRequest, at: int, excluded: set<HostId>)
    requires PickHost(db, r, at, excluded).None?
    ensures forall h | 0 <= h < |db.hosts| :: h in excluded || !Feasible(db, h, r, at)
  {
    PickHostIsMaxMin(db, r, at, excluded);
    forall h | 0 <= h < |db.hosts| ensures h in excluded || !Feasible(db, h, r, at) {
      assert !Candidate(db, h, r, at, excluded);
    }
  }

  // Nothing changes while the request runs.
  ghost predicate Quiet(world: nat -> View) { forall t :: world(t) == world(0) }

  predicate Wins(v: View, user: UserId, tier: Tier, mode: Tenancy, h: HostId, port: int) {
    && h < |v.db.hosts| && !HasContainer(v.db.slots, user) && !PortTaken(v.db.slots, h, port)
    && Feasible(v.db, h, PlacementRequest(user, mode, TierFootprint(tier)), v.now)
  }

  // The host was the first of the ordering when it was picked, and the port free when it
  // was allocated, each just before the batch at access t.
  predicate Chosen(world: nat -> View, t: nat, r: PlacementRequest, excluded: set<HostId>, h: HostId, port: int) {
    && t >= 2 && PickHost(world(t - 2).db, r, world(t - 2).now, excluded) == Some(h)
    && !Taken(world(t - 1), h, port)
  }

  // Every host left out had no free port when it was tried.
  ghost predicate Exhausted(world: nat -> View, excluded: set<HostId>, range: PortRange, t: nat) {
    forall h | h in excluded :: exists u | 0 <= u < t :: NoFreePort(world(u), h, range)
  }

  // Placed only by a batch that met every condition when it ran; given up only after
  // four lost batches, or when every host that could take the container had been
  // found without a free port. Each round leaves out one more host or uses up one
  // attempt, so however the world changes the loop ends.
  method StartProvision(world: nat -> View, hosts: nat, user: UserId, tier: Tier, mode: Tenancy,
                        range: PortRange, random: nat -> nat)
    returns (outcome: Outcome, ghost lost: nat, ghost excluded: set<HostId>)
    requires StableHosts(world, hosts)
    ensures match outcome
      case Placed(h, port, t) =>
        && Wins(world(t), user, tier, mode, h, port) && InRange(range, port) && lost < 4
        && Chosen(world, t, PlacementRequest(user, mode, TierFootprint(tier)), excluded, h, port)
      case AlreadyThere(t) => HasContainer(world(t).db.slots, user)
      case Waitlist(t) =>
        && Exhausted(world, excluded, range, t)
        && (lost == 4 ||
              forall h | 0 <= h < hosts :: h in excluded ||
                !Feasible(world(t).db, h, PlacementRequest(user, mode, TierFootprint(tier)), world(t).now))
      case Misconfigured => !ValidRange(range)
    ensures Quiet(world) && !HasContainer(world(0).db.slots, user) && ValidRange(range) ==>
      (outcome.Waitlist? <==>
         forall h | 0 <= h < hosts ::
           Feasible(world(0).db, h, PlacementRequest(user, mode, TierFootprint(tier)), world(0).now) ==>
             NoFreePort(world(0), h, range))
  {
    hide Admits, QuarantinedOn, PortTaken, HasContainer, TierFootprint, Tenants;
    var request := PlacementRequest(user, mode, TierFootprint(tier));
    ghost var absent := !HasContainer(world(0).db.slots, user);
    excluded := {};
    var hostsWithoutPorts: set<HostId> := {};
    var attempts, t := 0, 0;
    while attempts < MAX_ATTEMPTS
      invariant attempts <= MAX_ATTEMPTS
      invariant forall h | h in hostsWithoutPorts :: h < hosts
      invariant Exhausted(world, hostsWithoutPorts, range, t)
      invariant Quiet(world) && absent ==> attempts == 0
      decreases MAX_ATTEMPTS - attempts, Hosts(hosts) - hostsWithoutPorts
    {
      ghost var atPick := t;
      var host := PickHost(world(t).db, request, world(t).now, hostsWithoutPorts);
      if host.None? {
        NoneFeasible(world(t).db, request, world(t).now, hostsWithoutPorts);
        return Waitlist(t), attempts, hostsWithoutPorts;
      }
      t := t + 1;
      var port := AllocatePort(world(t), host.value, range, random);
      if port.InvalidRange? { return Misconfigured, attempts, hostsWithoutPorts; }
      if port.NoFreePorts? {
        hostsWithoutPorts := hostsWithoutPorts + {host.value};
        t := t + 1;
        continue;
      }
      attempts := attempts + 1;
      t := t + 1;
      if Wins(world(t), user, tier, mode, host.value, port.port) {
        return Placed(host.value, port.port, t), attempts - 1, hostsWithoutPorts;
      }
      t := t + 1;
      if HasContainer(world(t).db.slots, user) {
        return AlreadyThere(t), attempts, hostsWithoutPorts;
      }
      t := t + 1;
      assert !(Quiet(world) && absent);
    }
    return Waitlist(t), attempts, hostsWithoutPorts;
  }

  // -------------------------------------------------- a container on the waitlist

  datatype Admission =
    Queued(h: HostId, port: int, t: nat) | PlacedNotQueued(h: HostId, port: int, t: nat) | NotPlaced(t: nat)

  // The claim of the waiting row succeeds: all of it is judged on the row as it is.
  predicate Claims(v: View, c: nat, h: HostId, port: int) {
    && h < |v.db.hosts| && c < |v.db.slots| && StillWaiting(v.db.slots[c].row) && !PortTaken(v.db.slots, h, port)
    && Feasible(v.db, h, RequestOf(v.db.slots[c].row.value), v.now)
  }

  function RequestOf(row: Container): PlacementRequest { PlacementRequest(row.user, row.mode, Base(row)) }

  // Chosen, found a free port, and lost to someone else before the batch ran.
  predicate LostClaim(world: nat -> View, t: nat, c: nat, r: PlacementRequest, h: HostId, port: int)
    requires t >= 2
  {
    && Feasible(world(t - 2).db, h, r, world(t - 2).now)
    && !Taken(world(t - 1), h, port)
    && !Claims(world(t), c, h, port)
  }

  // The conditions are those under which the batches change anything.
  lemma BatchesPlaceIff(v: View, user: UserId, tier: Tier, mode: Tenancy, c: nat, read: Container, h: HostId, port: int)
    requires WellFormed(v.db) && h < |v.db.hosts|
    ensures PlaceNew(v.db, user, tier, mode, h, port, v.now) != v.db <==> Wins(v, user, tier, mode, h, port)
    ensures c < |v.db.slots| ==> (PlaceWaitlisted(v.db, c, read, h, port, v.now) != v.db <==> Claims(v, c, h, port))
  {
    if Wins(v, user, tier, mode, h, port) {
      assert |PlaceNew(v.db, user, tier, mode, h, port, v.now).slots| > |v.db.slots|;
    }
    if c < |v.db.slots| && Claims(v, c, h, port) {
      assert PlaceWaitlisted(v.db, c, read, h, port, v.now).slots[c] != v.db.slots[c];
    }
  }

  function PlacedRow(row: Container, h: HostId, port: int): Container {
    row.(host := Some(h), sshPort := Some(port), status := Provisioning)
  }

  predicate ProvisionQueues(v: View, c: nat, h: HostId, placed: Container) {
    && h < |v.db.hosts| && c < |v.db.slots|
    && Enqueue(v.db.slots[c], Provision, placed, v.db.hosts[h]) != v.db.slots[c]
  }

  // A candidate of a cron pass, with the row the pass read. The loop has no attempt
  // limit; each round leaves out one more host.
  method TryAdmission(world: nat -> View, hosts: nat, c: nat, read: Container, range: PortRange, random: nat -> nat)
    returns (admission: Admission, ghost excluded: set<HostId>)
    requires StableHosts(world, hosts) && ValidRange(range)
    ensures match admission
      case Queued(h, port, t) =>
        && Claims(world(t), c, h, port) && InRange(range, port)
        && ProvisionQueues(world(t + 1), c, h, PlacedRow(world(t).db.slots[c].row.value, h, port))
        && Chosen(world, t, RequestOf(read), excluded, h, port)
      case PlacedNotQueued(h, port, t) =>
        && Claims(world(t), c, h, port) && InRange(range, port)
        && !ProvisionQueues(world(t + 1), c, h, PlacedRow(world(t).db.slots[c].row.value, h, port))
        && Chosen(world, t, RequestOf(read), excluded, h, port)
      case NotPlaced(t) =>
        && Exhausted(world, excluded, range, t)
        && ((forall h | 0 <= h < hosts :: h in excluded ||
               !Feasible(world(t).db, h, RequestOf(read), world(t).now))
            || (t >= 2 && exists h: HostId, port :: LostClaim(world, t, c, RequestOf(read), h, port)))
    ensures Quiet(world) && c < |world(0).db.slots| && world(0).db.slots[c].row == Some(read)
            && StillWaiting(Some(read)) ==>
      (admission.NotPlaced? <==>
         forall h | 0 <= h < hosts && Feasible(world(0).db, h, RequestOf(read), world(0).now) ::
           NoFreePort(world(0), h, range))
  {
    hide Admits, Enqueue;
    var request := RequestOf(read);
    excluded := {};
    var hostsWithoutPorts: set<HostId> := {};
    var t := 0;
    while true
      invariant forall h | h in hostsWithoutPorts :: h < hosts
      invariant Exhausted(world, hostsWithoutPorts, range, t)
      decreases Hosts(hosts) - hostsWithoutPorts
    {
      ghost var atPick := t;
      var host := PickHost(world(t).db, request, world(t).now, hostsWithoutPorts);
      if host.None? {
        NoneFeasible(world(t).db, request, world(t).now, hostsWithoutPorts);
        return NotPlaced(t), hostsWithoutPorts;
      }
      t := t + 1;
      var port := AllocatePort(world(t), host.value, range, random);
      if port.NoFreePorts? {
        hostsWithoutPorts := hostsWithoutPorts + {host.value};
        t := t + 1;
        continue;
      }
      t := t + 1;
      if !Claims(world(t), c, host.value, port.port) {
        assert LostClaim(world, t, c, request, host.value, port.port);
        return NotPlaced(t), hostsWithoutPorts;
      }
      var placed := PlacedRow(world(t).db.slots[c].row.value, host.value, port.port);
      if ProvisionQueues(world(t + 1), c, host.value, placed) {
        return Queued(host.value, port.port, t), hostsWithoutPorts;
      }
      return PlacedNotQueued(host.value, port.port, t), hostsWithoutPorts;
    }
  }
}
