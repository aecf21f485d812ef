// Exactly which step can take a host's disk counter past its disk, in runs whose
// ledger may have drifted in any way.
module FleetDisk {
  import opened Wrappers
  import opened FleetState
  import opened FleetSteps
  import opened FleetLedger
  import opened FleetAccounting
  import opened FleetRun
  import opened FleetTheorems
  import opened FleetExact
  import opened FleetStories

  predicate DiskWithin(db: Db, h: HostId) {
    h < |db.hosts| && db.hosts[h].charged.disk <= db.hosts[h].diskTotalGb
  }

  // A placement from the waitlist takes hold at h, and the disk of the row it read,
  // which it charges, is more than the host has left.
  predicate Oversells(hist: seq<Db>, l: Label, h: HostId)
    requires hist != []
  {
    var db := Last(hist);
    && l.PlaceWaitlistedStep? && l.h == h && PlacesWaiting(db, l.c, h, l.port, l.at)
    && ReadRow(hist, l.rowAt, l.c).Some?
    && db.hosts[h].charged.disk + Base(ReadRow(hist, l.rowAt, l.c).value).disk > db.hosts[h].diskTotalGb
  }

  // The reservation a finishing resize gives back is at least the disk it takes,
  // however old its reads and whatever became of the plan row.
  lemma ResizeTakesNoDisk(db: Db, c: nat, k: nat, pastRow: Slot, pastTr: Slot, at: int, h: HostId)
    requires Inv(db) && c < |db.slots| && h < |db.hosts|
    requires SlotInv(pastRow) && SlotLater(pastRow, db.slots[c]) && k < |pastRow.jobs|
    requires SlotInv(pastTr) && SlotLater(pastTr, db.slots[c]) && k < |pastTr.jobs|
    requires HostOf(pastRow).Some? && HostOf(pastRow).value < |db.hosts|
    requires IsResizing(pastTr.tr) && pastTr.jobs[k].op.Resize?
    ensures var next := FinalizePlan(db, c, k, pastRow.row.value, pastTr.tr.value, at);
      DiskWithin(db, h) ==> DiskWithin(next, h)
  {
    var now := db.slots[c];
    FinalizePlanOk(db, c, k, pastRow, pastTr, at);
    if ActiveAt(now.jobs, k) && NewestLifecycle(now.jobs, k) {
      ReadIsCovered(pastRow, now, k);
      ReadIsCovered(pastTr, now, k);
      assert Adjustment(pastRow.row.value, pastTr.tr.value).disk <= 0;
    }
  }

  lemma SettlingTakesNoDisk(hist: seq<Db>, l: Label, h: HostId)
    requires Good(hist) && l.JobSucceeds? && Observed(hist, l.c, l.k, l.rowAt, l.checkAt, l.trAt)
    requires DiskWithin(Last(hist), h)
    ensures DiskWithin(Apply(hist, l), h)
  {
    PastOf(hist, l.rowAt, l.c);
    PastOf(hist, l.trAt, l.c);
    assert Inv(Last(hist));
    SucceedTakesNoDisk(Last(hist), l.c, l.k, ReadSlot(hist, l.rowAt, l.c).value, ReadTr(hist, l.checkAt, l.c),
                       ReadSlot(hist, l.trAt, l.c).value, l.at, h);
    hide Good, Inv, DiskWithin;
  }

  lemma SucceedTakesNoDisk(db: Db, c: nat, k: nat, pastRow: Slot, checked: Option<Transition>, pastTr: Slot, at: int,
                           h: HostId)
    requires Inv(db) && c < |db.slots| && k < |db.slots[c].jobs| && DiskWithin(db, h)
    requires SlotInv(pastRow) && SlotLater(pastRow, db.slots[c]) && k < |pastRow.jobs|
    requires SlotInv(pastTr) && SlotLater(pastTr, db.slots[c]) && k < |pastTr.jobs|
    requires HostOf(pastRow).Some? && HostOf(pastRow).value < |db.hosts|
    ensures DiskWithin(Succeed(db, c, k, pastRow.row.value, checked, pastTr.tr, at), h)
  {
    assert pastTr.jobs[k].op == db.slots[c].jobs[k].op && WellFormed(db);
    hide Inv, SlotInv, SlotLater, FinalizePlan, FinalizeDestroy;
    var op := db.slots[c].jobs[k].op;
    if op.Destroy? {
      DestroyNeverCharges(db, c, k, pastRow, pastTr, h);
    } else if op.Resize? && IsResizing(checked) && IsResizing(pastTr.tr) {
      ResizeTakesNoDisk(db, c, k, pastRow, pastTr, at, h);
    } else {
      OtherwiseSameHosts(db, c, k, pastRow.row.value, checked, pastTr.tr, at);
    }
  }

  lemma OthersKeepDiskIff(hist: seq<Db>, l: Label, h: HostId)
    requires hist != [] && WellFormed(Last(hist)) && DiskWithin(Last(hist), h)
    requires !(l.JobSucceeds? && Observed(hist, l.c, l.k, l.rowAt, l.checkAt, l.trAt))
    ensures DiskWithin(Apply(hist, l), h) <==> !Oversells(hist, l, h)
  {
  }

  // Disk allocated stays within the disk after a step exactly when the step is not a
  // placement that charges, for a row read before it shrank, more than is left.
  lemma StepKeepsDiskIff(hist: seq<Db>, l: Label, h: HostId)
    requires Good(hist) && DiskWithin(Last(hist), h)
    ensures DiskWithin(Apply(hist, l), h) <==> !Oversells(hist, l, h)
  {
    assert Inv(Last(hist));
    if l.JobSucceeds? && Observed(hist, l.c, l.k, l.rowAt, l.checkAt, l.trAt) {
      SettlingTakesNoDisk(hist, l, h);
    } else {
      OthersKeepDiskIff(hist, l, h);
    }
  }

  // Step n of the run does not oversell h.
  predicate SellsWithin(init: Db, run: seq<Label>, h: HostId, n: nat)
    requires WellFormed(init) && n < |run|
  {
    !Oversells(Exec(init, run[..n]), run[n], h)
  }

  predicate WithinAt(init: Db, run: seq<Label>, h: HostId, i: nat)
    requires WellFormed(init) && i <= |run|
  {
    DiskWithin(Exec(init, run)[i], h)
  }

  lemma NextKeepsDiskIff(init: Db, run: seq<Label>, h: HostId, n: nat)
    requires Inv(init) && n < |run| && WithinAt(init, run, h, n)
    ensures WithinAt(init, run, h, n + 1) <==> SellsWithin(init, run, h, n)
  {
    RunsAreGood(init, run[..n]);
    ExecNext(init, run, n);
    StepKeepsDiskIff(Exec(init, run[..n]), run[n], h);
  }

  lemma {:induction false} DiskStaysWithin(init: Db, run: seq<Label>, h: HostId, i: nat)
    requires Inv(init) && i <= |run| && DiskWithin(init, h)
    requires forall n | 0 <= n < i :: SellsWithin(init, run, h, n)
    ensures WithinAt(init, run, h, i)
  {
    if i > 0 {
      DiskStaysWithin(init, run, h, i - 1);
      NextKeepsDiskIff(init, run, h, i - 1);
    }
  }

  // Disk allocated is within the disk in every state of a run exactly when it was at
  // first and no placement of the run oversells it.
  lemma RunKeepsDiskIff(init: Db, run: seq<Label>, h: HostId)
    requires Inv(init)
    ensures (forall i | 0 <= i <= |run| :: WithinAt(init, run, h, i)) <==>
      DiskWithin(init, h) && forall n | 0 <= n < |run| :: SellsWithin(init, run, h, n)
  {
    assert WithinAt(init, run, h, 0) <==> DiskWithin(init, h);
    hide SellsWithin, WithinAt, Exec;
    if forall i | 0 <= i <= |run| :: WithinAt(init, run, h, i) {
      forall n | 0 <= n < |run| ensures SellsWithin(init, run, h, n) {
        NextKeepsDiskIff(init, run, h, n);
      }
    }
    if DiskWithin(init, h) && forall n | 0 <= n < |run| :: SellsWithin(init, run, h, n) {
      forall i | 0 <= i <= |run| ensures WithinAt(init, run, h, i) {
        DiskStaysWithin(init, run, h, i);
      }
    }
  }
}
