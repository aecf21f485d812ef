// The rows of the control plane: hosts, containers, plan transitions and jobs.
//
// A slot holds one container's row, its plan-transition row (deleted with the
// container by the foreign key) and its job rows in rowid order. A container's
// id is the index of its slot and a job's id its index in the slot, so neither
// is ever reused, as with the UUIDs and rowids of the database.
module FleetState {
  import opened Wrappers
  import opened Plans

  type HostId = nat
  type UserId = nat

  datatype JobOp = Provision | Start | Stop | Resize | Rebuild | Destroy
                 | RefreshCredentials | SyncKeys | ExportWindow
  datatype JobStatus = JobQueued | JobRunning | JobSucceeded | JobFailed
  datatype Job = Job(op: JobOp, status: JobStatus)

  datatype ContainerStatus = Waitlisted | Provisioning | Running | Stopped | Suspended
                           | UpgradePending | Error | Destroying

  datatype Container = Container(
    user: UserId, host: Option<HostId>, sshPort: Option<int>, tier: Tier, mode: Tenancy,
    ramMb: int, diskGb: int, status: ContainerStatus, lastUpgradedAt: Option<int>)

  datatype TransitionState = Requested | Reserving | Resizing | WaitingCapacity
                           | FailedRetryable | Complete | Cancelled
  datatype Transition = Transition(
    from: Tier, to: Tier, targetDiskGb: int, prior: ContainerStatus,
    state: TransitionState, reserved: Res)

  // `dropped` and `overcharged` are history variables: the reservations deleted
  // with a transition row that still held them, and what placement charged
  // beyond the row it placed.
  datatype Slot = Slot(
    row: Option<Container>, tr: Option<Transition>, jobs: seq<Job>,
    dropped: Res, overcharged: Res)

  datatype HostStatus = Active | Draining | Unhealthy | Dead
  datatype Host = Host(
    status: HostStatus, tenancy: Tenancy, dedicatedUser: Option<UserId>,
    vcpuCapacity: int, ramTotalMb: int, ramReserveMb: int, diskTotalGb: int, maxTenants: int,
    charged: Res, lastSeenAt: Option<int>, consecutiveFailures: nat, reporting: bool)

  // `lost` is a history variable: per host, what destroyed containers left charged.
  datatype Db = Db(hosts: seq<Host>, slots: seq<Slot>, lost: seq<Res>)

  // ---------------------------------------------------------------- job rules

  predicate IsLifecycle(op: JobOp) {
    op.Provision? || op.Rebuild? || op.Start? || op.Stop? || op.Destroy? || op.Resize?
  }

  predicate IsActive(status: JobStatus) { status.JobQueued? || status.JobRunning? }

  function PendingStatusFor(op: JobOp): Option<ContainerStatus> {
    match op
    case Provision | Rebuild => Some(Provisioning)
    case Destroy => Some(Destroying)
    case _ => None
  }

  function SuccessStatusFor(op: JobOp): Option<ContainerStatus> {
    match op
    case Provision | Rebuild | Start | Resize => Some(Running)
    case Stop => Some(Stopped)
    case _ => None
  }

  function AllowedUserOps(status: ContainerStatus): set<JobOp> {
    match status
    case Running => {Stop, Rebuild, Destroy}
    case Stopped => {Start, Rebuild, Destroy}
    case Error => {Destroy}
    case _ => {}
  }

  // A queued or running lifecycle job exists: the negated guard of every insertion.
  predicate Busy(jobs: seq<Job>) {
    exists k | 0 <= k < |jobs| :: IsLifecycle(jobs[k].op) && IsActive(jobs[k].status)
  }

  predicate ActiveAt(jobs: seq<Job>, k: nat) {
    k < |jobs| && IsActive(jobs[k].status)
  }

  // Job k is the newest lifecycle job by rowid.
  predicate NewestLifecycle(jobs: seq<Job>, k: nat) {
    && k < |jobs|
    && IsLifecycle(jobs[k].op)
    && forall j | k < j < |jobs| :: !IsLifecycle(jobs[j].op)
  }

  // ------------------------------------------------------------- transitions

  predicate Settled(tr: Transition) { tr.state.Complete? || tr.state.Cancelled? }

  predicate Waiting(state: TransitionState) {
    state.Requested? || state.WaitingCapacity? || state.FailedRetryable?
  }

  // A downgrade whose running workbench has still to be stopped.
  predicate StoppingDowngrade(tr: Option<Transition>) {
    tr.Some? && tr.value.to.Free? && tr.value.prior.Running? && Waiting(tr.value.state)
  }

  predicate IsResizing(tr: Option<Transition>) { tr.Some? && tr.value.state.Resizing? }

  // The reservation the destroy accounting reads: a complete row counts nothing.
  function Reserved(tr: Option<Transition>): Res {
    if tr.Some? && !tr.value.state.Complete? then tr.value.reserved else ZERO
  }

  // -------------------------------------------------------------------- sums

  function Base(c: Container): Res { Footprint(c.tier, c.ramMb, c.diskGb) }

  function HostOf(s: Slot): Option<HostId> { if s.row.Some? then s.row.value.host else None }

  predicate OnHost(s: Slot, h: HostId) { HostOf(s) == Some(h) }

  // Paid reached by an in-place upgrade rather than by placement.
  predicate UpgradedInPlace(c: Container) { c.tier.Paid? && c.lastUpgradedAt.Some? }

  // Everything a host is charged for the slot.
  function Held(s: Slot): Res
    requires s.row.Some?
  {
    var b, r := Base(s.row.value), Reserved(s.tr);
    Res(b.cpu + r.cpu + s.dropped.cpu + s.overcharged.cpu,
        b.ram + r.ram + s.dropped.ram + s.overcharged.ram,
        b.disk + r.disk + s.dropped.disk + s.overcharged.disk)
  }

  // What admission control, not an in-place upgrade, let the slot have. Disk is
  // checked for upgrades too, so all of it was admitted.
  function Admitted(s: Slot): Res
    requires s.row.Some?
  {
    var b := Base(s.row.value);
    var upgraded := UpgradedInPlace(s.row.value);
    Res(b.cpu - (if upgraded then CpuReservation(Paid) - CpuReservation(Free) else 0),
        b.ram - (if upgraded then RamMb(Paid) - RamMb(Free) else 0),
        b.disk + Reserved(s.tr).disk + s.dropped.disk)
  }

  // Base plus live reservation: what the container uses or may soon use.
  function Usage(s: Slot): Res
    requires s.row.Some?
  {
    var b, r := Base(s.row.value), Reserved(s.tr);
    Res(b.cpu + r.cpu, b.ram + r.ram, b.disk + r.disk)
  }

  // An upgrade's delta in CPU and RAM, for a container that took one in place.
  function UpgradeDelta(s: Slot): Res
    requires s.row.Some?
  {
    if UpgradedInPlace(s.row.value)
    then Res(CpuReservation(Paid) - CpuReservation(Free), RamMb(Paid) - RamMb(Free), 0)
    else Res(0, 0, 0)
  }

  datatype Measure = HeldBy | AdmittedBy | UsedBy | ReservedBy | UpgradedBy | One

  function Share(s: Slot, h: HostId, m: Measure): Res {
    if !OnHost(s, h) then ZERO
    else match m
      case HeldBy => Held(s)
      case AdmittedBy => Admitted(s)
      case UsedBy => Usage(s)
      case ReservedBy => Reserved(s.tr)
      case UpgradedBy => UpgradeDelta(s)
      case One => Res(1, 1, 1)
  }

  function Total(rs: seq<Res>): Res {
    if rs == [] then ZERO else Total(rs[..|rs| - 1]).Plus(rs[|rs| - 1])
  }

  function Shares(slots: seq<Slot>, h: HostId, m: Measure): seq<Res> {
    seq(|slots|, i requires 0 <= i < |slots| => Share(slots[i], h, m))
  }

  function Sum(slots: seq<Slot>, h: HostId, m: Measure): Res { Total(Shares(slots, h, m)) }

  function Tenants(slots: seq<Slot>, h: HostId): int { Sum(slots, h, One).cpu }

  // --------------------------------------------------------- host projection

  // SQL integer division truncates toward zero.
  function SqlQuotient(a: int, b: int): int
    requires b > 0
  {
    if a >= 0 then a / b else -(-a / b)
  }

  function RamCapacityMb(h: Host): int { SqlQuotient((h.ramTotalMb - h.ramReserveMb) * 5, 4) }

  function Capacity(h: Host): Res { Res(h.vcpuCapacity, RamCapacityMb(h), h.diskTotalGb) }

  function Available(h: Host): Res { Capacity(h).Minus(h.charged) }

  const HOST_HEARTBEAT_MAX_AGE_MS := 15 * 60 * 1000

  predicate Healthy(h: Host, at: int) {
    && h.lastSeenAt.Some? && h.lastSeenAt.value >= at - HOST_HEARTBEAT_MAX_AGE_MS
    && h.consecutiveFailures == 0
    && h.reporting
  }

  // The placement predicate repeated by every admission statement.
  predicate Admits(h: Host, tenants: int, user: UserId, mode: Tenancy, need: Res, at: int) {
    && h.status.Active?
    && h.tenancy == mode
    && (h.tenancy.Dedicated? ==> h.dedicatedUser == Some(user))
    && h.maxTenants - tenants > 0
    && need.AtMost(Available(h))
    && Healthy(h, at)
  }

  predicate PortTaken(slots: seq<Slot>, h: HostId, port: int) {
    exists i | 0 <= i < |slots| :: OnHost(slots[i], h) && slots[i].row.value.sshPort == Some(port)
  }

  predicate HasContainer(slots: seq<Slot>, user: UserId) {
    exists i | 0 <= i < |slots| :: slots[i].row.Some? && slots[i].row.value.user == user
  }
}
