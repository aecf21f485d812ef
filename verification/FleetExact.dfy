// Exactly which steps make a host's counter drift from what it hosts.
module FleetExact {
  import opened Wrappers
  import opened FleetState
  import opened FleetSteps
  import opened FleetLedger
  import opened FleetAccounting
  import opened FleetRun
  import opened FleetTheorems

  // The batch that places waiting container c takes hold.
  predicate PlacesWaiting(db: Db, c: nat, h: HostId, port: int, at: int) {
    && c < |db.slots| && h < |db.hosts|
    && StillWaiting(db.slots[c].row)
    && !PortTaken(db.slots, h, port)
    && Admits(db.hosts[h], Tenants(db.slots, h), db.slots[c].row.value.user, db.slots[c].row.value.mode,
              Base(db.slots[c].row.value), at)
  }

  // The deletion of a plan row meets one that still holds a reservation, or a
  // placement charges for a row that has shrunk since it was read.
  predicate Leaks(hist: seq<Db>, l: Label, h: HostId)
    requires hist != [] && WellFormed(Last(hist))
  {
    var db := Last(hist);
    match l
    case DeleteSettledStep(c, trAt) =>
      && c < |db.slots| && OnHost(db.slots[c], h)
      && ReadTr(hist, trAt, c).Some? && Settled(ReadTr(hist, trAt, c).value)
      && !IsNothing(Reserved(db.slots[c].tr))
    case PlaceWaitlistedStep(c, to, port, at, rowAt) =>
      && to == h && PlacesWaiting(db, c, h, port, at) && ReadRow(hist, rowAt, c).Some?
      && Base(ReadRow(hist, rowAt, c).value) != Base(db.slots[c].row.value)
    case _ => false
  }

  predicate CleanSlot(s: Slot, h: HostId) {
    OnHost(s, h) ==> IsNothing(s.dropped) && IsNothing(s.overcharged)
  }

  // With slot c replaced and nothing lost at h, the host stays clean exactly when
  // the new slot is clean.
  lemma ReplaceCleanIff(db: Db, next: Db, c: nat, s: Slot, h: HostId)
    requires c < |db.slots| && h < |db.lost| && CleanOn(db, h)
    requires next.slots == db.slots[c := s] && h < |next.lost| && IsNothing(next.lost[h])
    ensures CleanOn(next, h) <==> CleanSlot(s, h)
  {
    if CleanSlot(s, h) {
      forall i | 0 <= i < |next.slots| ensures CleanSlot(next.slots[i], h) {
        if i != c { assert CleanSlot(db.slots[i], h); }
      }
    } else {
      assert next.slots[c] == s;
    }
  }

  predicate SameHistory(now: Slot, next: Slot) {
    HostOf(next) == HostOf(now) && next.dropped == now.dropped && next.overcharged == now.overcharged
  }

  lemma PutSame(db: Db, c: nat, s: Slot, h: HostId)
    requires WellFormed(db) && c < |db.slots| && h < |db.hosts| && CleanOn(db, h) && SameHistory(db.slots[c], s)
    ensures CleanOn(Put(db, c, s), h)
  {
    assert CleanSlot(db.slots[c], h);
    ReplaceCleanIff(db, Put(db, c, s), c, s, h);
  }

  lemma AppendClean(db: Db, next: Db, s: Slot, h: HostId)
    requires WellFormed(db) && h < |db.hosts| && CleanOn(db, h)
    requires next.slots == db.slots + [s] && next.lost == db.lost && CleanSlot(s, h)
    ensures CleanOn(next, h)
  {
    forall i | 0 <= i < |next.slots| ensures CleanSlot(next.slots[i], h) {
      if i < |db.slots| { assert CleanSlot(db.slots[i], h); }
    }
  }

  // Only deletion moves a reservation into the history of its slot.
  lemma SlotNextHistory(hist: seq<Db>, hosts: seq<Host>, l: Label, now: Slot)
    requires IsSlotStep(l) && !l.DeleteSettledStep?
    ensures var next := SlotNext(hist, hosts, l, now);
      next.dropped == now.dropped && next.overcharged == now.overcharged
  {
    if IsRowStep(l) { RowNextHistory(hist, l, now); }
    else if IsQueueStep(l) { }
    else if IsJobStep(l) { JobNextHistory(hist, hosts, l, now); }
    else { PlanNextHistory(hist, l, now); }
  }

  lemma RowNextHistory(hist: seq<Db>, l: Label, now: Slot)
    requires IsRowStep(l)
    ensures var next := RowNext(hist, l, now); next.dropped == now.dropped && next.overcharged == now.overcharged
  {
  }

  lemma JobNextHistory(hist: seq<Db>, hosts: seq<Host>, l: Label, now: Slot)
    requires IsJobStep(l)
    ensures var next := JobNext(hist, hosts, l, now);
      next.dropped == now.dropped && next.overcharged == now.overcharged
  {
  }

  lemma PlanNextHistory(hist: seq<Db>, l: Label, now: Slot)
    requires IsPlanStep(l) && !l.DeleteSettledStep?
    ensures var next := PlanNext(hist, l, now); next.dropped == now.dropped && next.overcharged == now.overcharged
  {
  }

  lemma SlotStepExact(hist: seq<Db>, l: Label, h: HostId)
    requires Good(hist) && IsSlotStep(l) && h < |Last(hist).hosts| && CleanOn(Last(hist), h)
    ensures var next := Apply(hist, l);
      h < |next.hosts| == |next.lost| && (CleanOn(next, h) <==> !Leaks(hist, l, h))
  {
    var db := Last(hist);
    if l.c < |db.slots| {
      var now := db.slots[l.c];
      SlotNextOk(hist, l);
      assert CleanSlot(now, h) && SlotInv(now);
      if !l.DeleteSettledStep? { SlotNextHistory(hist, db.hosts, l, now); }
      SlotPutExact(hist, l, now, SlotNext(hist, db.hosts, l, now), h);
    }
  }

  lemma SlotPutExact(hist: seq<Db>, l: Label, now: Slot, next: Slot, h: HostId)
    requires hist != [] && WellFormed(Last(hist)) && IsSlotStep(l) && l.c < |Last(hist).slots|
    requires h < |Last(hist).hosts| && CleanOn(Last(hist), h)
    requires now == Last(hist).slots[l.c] && CleanSlot(now, h) && SlotInv(now)
    requires next == SlotNext(hist, Last(hist).hosts, l, now) && HostOf(next) == HostOf(now)
    requires !l.DeleteSettledStep? ==> next.dropped == now.dropped && next.overcharged == now.overcharged
    ensures h < |Apply(hist, l).hosts| == |Apply(hist, l).lost|
    ensures CleanOn(Apply(hist, l), h) <==> !Leaks(hist, l, h)
  {
    ReplaceCleanIff(Last(hist), Apply(hist, l), l.c, next, h);
  }

  lemma LedgerStepExact(hist: seq<Db>, l: Label, h: HostId)
    requires Good(hist) && !IsSlotStep(l) && h < |Last(hist).hosts| && CleanOn(Last(hist), h)
    ensures var next := Apply(hist, l);
      h < |next.hosts| == |next.lost| && (CleanOn(next, h) <==> !Leaks(hist, l, h))
  {
    var db := Last(hist);
    match l
    case HostReport(g, status, seenAt, failures, reports) =>
    case PlaceNewStep(user, tier, mode, g, port, at) =>
      var next := Apply(hist, l);
      if next != db { AppendClean(db, next, NewSlot(user, Some(g), Some(port), tier, mode, Provisioning), h); }
    case JoinWaitlistStep(user, tier, mode) =>
      var next := Apply(hist, l);
      if next != db { AppendClean(db, next, NewSlot(user, None, None, tier, mode, Waitlisted), h); }
    case PlaceWaitlistedStep(c, g, port, at, rowAt) =>
      var row := ReadRow(hist, rowAt, c);
      if c < |db.slots| && row.Some? && g < |db.hosts| { PlaceWaitlistedExact(db, c, row.value, g, port, at, h); }
    case JobSucceeds(c, k, rowAt, checkAt, trAt, at) =>
      if Observed(hist, c, k, rowAt, checkAt, trAt) { JobSucceedsExact(hist, c, k, rowAt, checkAt, trAt, at, h); }
    case ReserveStep(c, rowAt, trAt, entitled, at) =>
      if Reservable(hist, c, rowAt, trAt) {
        ReserveExact(db, c, ReadRow(hist, rowAt, c).value, ReadTr(hist, trAt, c).value, entitled, at, h);
      }
  }

  lemma PlaceWaitlistedExact(db: Db, c: nat, read: Container, g: HostId, port: int, at: int, h: HostId)
    requires Inv(db) && c < |db.slots| && g < |db.hosts| && h < |db.hosts| && CleanOn(db, h)
    ensures var next := PlaceWaitlisted(db, c, read, g, port, at);
      CleanOn(next, h) <==> next == db || g != h || Base(read) == Base(db.slots[c].row.value)
    ensures (PlaceWaitlisted(db, c, read, g, port, at) != db) <==> PlacesWaiting(db, c, g, port, at)
  {
    var next := PlaceWaitlisted(db, c, read, g, port, at);
    if PlacesWaiting(db, c, g, port, at) {
      assert next.slots[c] != db.slots[c];
      ReplaceCleanIff(db, next, c, next.slots[c], h);
    }
  }

  // On a clean host what a finishing poller read is what it subtracts from.
  lemma JobSucceedsExact(hist: seq<Db>, c: nat, k: nat, rowAt: nat, checkAt: nat, trAt: nat, at: int, h: HostId)
    requires Good(hist) && h < |Last(hist).hosts| && CleanOn(Last(hist), h)
    requires Observed(hist, c, k, rowAt, checkAt, trAt)
    ensures var next := Succeed(Last(hist), c, k, ReadRow(hist, rowAt, c).value, ReadTr(hist, checkAt, c),
                                ReadTr(hist, trAt, c), at);
      h < |next.hosts| == |next.lost| && CleanOn(next, h)
  {
    var db := Last(hist);
    var now := db.slots[c];
    var pastRow, pastTr := ReadSlot(hist, rowAt, c).value, ReadSlot(hist, trAt, c).value;
    var checked := ReadTr(hist, checkAt, c);
    PastOf(hist, rowAt, c);
    PastOf(hist, trAt, c);
    assert CleanSlot(now, h);
    if now.jobs[k].op.Destroy? {
      DestroyExact(db, c, k, pastRow, pastTr, h);
    } else if now.jobs[k].op.Stop? && StoppingDowngrade(checked) {
      PutSame(db, c, FinalizeDowngradeStop(now, k), h);
    } else if now.jobs[k].op.Resize? && IsResizing(checked) {
      if IsResizing(pastTr.tr) { ResizeExact(db, c, k, pastRow, pastTr, at, h); }
    } else {
      PutSame(db, c, SettleSucceeded(now, k), h);
    }
  }

  lemma ReadMatches(past: Slot, now: Slot, k: nat, h: HostId)
    requires SlotInv(past) && SlotInv(now) && SlotLater(past, now) && CleanSlot(now, h) && OnHost(now, h)
    requires k < |past.jobs| && ActiveAt(now.jobs, k) && IsLifecycle(now.jobs[k].op)
    ensures Reserved(past.tr).AtMost(Reserved(now.tr)) && Reserved(now.tr).AtMost(Reserved(past.tr))
  {
    ReadIsCovered(past, now, k);
  }

  lemma DestroyExact(db: Db, c: nat, k: nat, pastRow: Slot, pastTr: Slot, h: HostId)
    requires Inv(db) && c < |db.slots| && h < |db.hosts| && CleanOn(db, h) && CleanSlot(db.slots[c], h)
    requires SlotInv(pastRow) && SlotLater(pastRow, db.slots[c]) && k < |pastRow.jobs|
    requires SlotInv(pastTr) && SlotLater(pastTr, db.slots[c]) && k < |pastTr.jobs|
    requires HostOf(pastRow).Some? && HostOf(pastRow).value < |db.hosts|
    ensures var next := FinalizeDestroy(db, c, k, pastRow.row.value, pastTr.tr); h < |next.lost| && CleanOn(next, h)
  {
    var now := db.slots[c];
    var g := HostOf(pastRow).value;
    var charge := Base(pastRow.row.value).Plus(Reserved(pastTr.tr));
    if ActiveAt(now.jobs, k) && NewestLifecycle(now.jobs, k) {
      ReadIsCovered(pastRow, now, k);
      if g == h { ReadMatches(pastTr, now, k, h); }
      var next := FinalizeDestroy(db, c, k, pastRow.row.value, pastTr.tr);
      ReplaceCleanIff(db, next, c, next.slots[c], h);
    }
  }

  lemma ResizeExact(db: Db, c: nat, k: nat, pastRow: Slot, pastTr: Slot, at: int, h: HostId)
    requires Inv(db) && c < |db.slots| && h < |db.hosts| && CleanOn(db, h) && CleanSlot(db.slots[c], h)
    requires SlotInv(pastRow) && SlotLater(pastRow, db.slots[c]) && k < |pastRow.jobs|
    requires SlotInv(pastTr) && SlotLater(pastTr, db.slots[c]) && k < |pastTr.jobs|
    requires HostOf(pastRow).Some? && HostOf(pastRow).value < |db.hosts| && IsResizing(pastTr.tr)
    ensures var next := FinalizePlan(db, c, k, pastRow.row.value, pastTr.tr.value, at);
      h < |next.lost| && CleanOn(next, h)
  {
    var now := db.slots[c];
    var g := HostOf(pastRow).value;
    var next := FinalizePlan(db, c, k, pastRow.row.value, pastTr.tr.value, at);
    if ActiveAt(now.jobs, k) && NewestLifecycle(now.jobs, k) {
      ReadIsCovered(pastRow, now, k);
      ReadIsCovered(pastTr, now, k);
      if OnHost(now, h) { ReadMatches(pastTr, now, k, h); }
      ReplaceCleanIff(db, next, c, next.slots[c], h);
    }
  }

  lemma ReserveExact(db: Db, c: nat, read: Container, readTr: Transition, entitled: bool, at: int, h: HostId)
    requires Inv(db) && c < |db.slots| && h < |db.hosts| && CleanOn(db, h)
    requires read.host.Some? && read.host.value < |db.hosts|
    ensures var next := Reserve(db, c, read, readTr, entitled, at); h < |next.lost| && CleanOn(next, h)
  {
    var next := Reserve(db, c, read, readTr, entitled, at);
    var g := read.host.value;
    assert CleanSlot(db.slots[c], h);
    if next.hosts == db.hosts && next.slots != db.slots {
      ReplaceCleanIff(db, next, c, next.slots[c], h);
    } else if next != db {
      ReplaceCleanIff(db, next, c, next.slots[c], h);
    }
  }

  // The counter of a host that hosts exactly what it charged stays so exactly
  // when the step does not leak there.
  lemma StepExactIff(hist: seq<Db>, l: Label, h: HostId)
    requires Good(hist) && h < |Last(hist).hosts| && ExactOn(Last(hist), h)
    ensures var next := Apply(hist, l);
      h < |next.hosts| && (ExactOn(next, h) <==> !Leaks(hist, l, h))
  {
    ExactIffClean(Last(hist), h);
    StepOk(hist, l);
    if IsSlotStep(l) { SlotStepExact(hist, l, h); } else { LedgerStepExact(hist, l, h); }
    ExactIffClean(Apply(hist, l), h);
  }

  // Over a whole run: no leaking step, no drift.
  lemma {:induction false} RunStaysExact(init: Db, run: seq<Label>, h: HostId, n: nat)
    requires Inv(init) && h < |init.hosts| && ExactOn(init, h) && n <= |run|
    requires forall m | 0 <= m < n :: !Leaks(Exec(init, run[..m]), run[m], h)
    ensures h < |Last(Exec(init, run[..n])).hosts| && ExactOn(Last(Exec(init, run[..n])), h)
  {
    if n > 0 {
      var before := Exec(init, run[..n - 1]);
      RunsAreGood(init, run[..n - 1]);
      RunStaysExact(init, run, h, n - 1);
      StepExactIff(before, run[n - 1], h);
      assert run[..n][..n - 1] == run[..n - 1];
      ExecLast(init, run[..n], before);
    }
  }
}
