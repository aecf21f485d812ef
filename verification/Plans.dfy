// Plan sizes, and the three resources the fleet accounts for.

module Wrappers {
  datatype Option<+T> = None | Some(value: T)
}

module Plans {

  datatype Tier = Free | Paid
  datatype Tenancy = Shared | Dedicated

  function CpuReservation(tier: Tier): int { if tier.Free? then 1 else 2 }

  function RamMb(tier: Tier): int { if tier.Free? then 1536 else 4096 }

  function DiskGb(tier: Tier): int { if tier.Free? then 5 else 8 }

  // The home volume and the disposable root file system each get the disk cap.
  function DiskReservationGb(homeDiskGb: int): int { homeDiskGb * 2 }

  function Max(a: int, b: int): int { if a < b then b else a }

  datatype Res = Res(cpu: int, ram: int, disk: int) {
    function Plus(o: Res): Res { Res(cpu + o.cpu, ram + o.ram, disk + o.disk) }

    function Minus(o: Res): Res { Res(cpu - o.cpu, ram - o.ram, disk - o.disk) }

    // SQL's `MAX(0, ...)` in each dimension.
    function AtLeastZero(): Res { Res(Max(0, cpu), Max(0, ram), Max(0, disk)) }

    predicate Nonneg() { 0 <= cpu && 0 <= ram && 0 <= disk }

    predicate Nonpositive() { cpu <= 0 && ram <= 0 && disk <= 0 }

    // At most a, plus what b and c add in CPU and RAM; disk at most a alone.
    predicate WithinPlus(a: Res, b: Res, c: Res) {
      cpu <= a.cpu + b.cpu + c.cpu && ram <= a.ram + b.ram + c.ram && disk <= a.disk
    }

    predicate AtMost(o: Res) { cpu <= o.cpu && ram <= o.ram && disk <= o.disk }
  }

  const ZERO := Res(0, 0, 0)

  // What one workbench of a tier with this disk holds on its host.
  function Footprint(tier: Tier, ramMb: int, diskGb: int): Res {
    Res(CpuReservation(tier), ramMb, DiskReservationGb(diskGb))
  }

  function TierFootprint(tier: Tier): Res {
    Footprint(tier, RamMb(tier), DiskGb(tier))
  }
}
