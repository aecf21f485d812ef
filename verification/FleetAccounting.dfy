// The batches that move host counters: each moves exactly what it means to, even
// when the amounts come from rows read before other requests changed them.
module FleetAccounting {
  import opened Wrappers
  import opened Plans
  import opened FleetState
  import opened FleetSteps
  import opened FleetLedger
  import opened FleetSlotProofs

  lemma PlaceNewOk(db: Db, user: UserId, tier: Tier, mode: Tenancy, h: HostId, port: int, at: int)
    requires Inv(db) && h < |db.hosts|
    ensures var next := PlaceNew(db, user, tier, mode, h, port, at); Inv(next) && Later(db, next)
  {
    var need := TierFootprint(tier);
    if || HasContainer(db.slots, user) || PortTaken(db.slots, h, port)
       || !Admits(db.hosts[h], Tenants(db.slots, h), user, mode, need, at) {
      InvLaterReflexive(db);
    } else {
      var s := NewSlot(user, Some(h), Some(port), tier, mode, Provisioning);
      NewSlotOk(s, user, h, port, tier, mode, db.hosts[h]);
      AppendKeepsInv(db, s, db.hosts[h := db.hosts[h].(charged := db.hosts[h].charged.Plus(need))]);
    }
  }

  lemma NewSlotOk(s: Slot, user: UserId, h: HostId, port: int, tier: Tier, mode: Tenancy, host: Host)
    requires s == NewSlot(user, Some(h), Some(port), tier, mode, Provisioning)
    requires TierFootprint(tier).AtMost(Available(host))
    ensures SlotInv(s) && HostOf(s) == Some(h)
    ensures Share(s, h, HeldBy) == TierFootprint(tier)
    ensures AdmissionFits(ZERO, Share(s, h, AdmittedBy), host)
    ensures forall g, m | g != h :: Share(s, g, m) == ZERO
  {
  }

  lemma InvLaterReflexive(db: Db)
    requires Inv(db)
    ensures Later(db, db)
  {
    forall c | 0 <= c < |db.slots| ensures SlotLater(db.slots[c], db.slots[c]) {
      SlotLaterReflexive(db.slots[c]);
    }
  }

  lemma JoinWaitlistOk(db: Db, user: UserId, tier: Tier, mode: Tenancy)
    requires Inv(db)
    ensures var next := JoinWaitlist(db, user, tier, mode); Inv(next) && Later(db, next)
  {
    if HasContainer(db.slots, user) {
      InvLaterReflexive(db);
    } else {
      AppendKeepsInv(db, NewSlot(user, None, None, tier, mode, Waitlisted), db.hosts);
    }
  }

  // A waiting row only ever shrinks, so charging the row as it was read can
  // overcharge the host but never undercharge it.
  lemma PlaceWaitlistedOk(db: Db, c: nat, past: Slot, h: HostId, port: int, at: int)
    requires Inv(db) && c < |db.slots| && h < |db.hosts|
    requires SlotInv(past) && past.row.Some? && SlotLater(past, db.slots[c])
    ensures var next := PlaceWaitlisted(db, c, past.row.value, h, port, at); Inv(next) && Later(db, next)
  {
    var now := db.slots[c];
    var next := PlaceWaitlisted(db, c, past.row.value, h, port, at);
    if next == db {
      InvLaterReflexive(db);
    } else {
      SpansSelf(now.jobs);
      MoveKeepsInv(db, c, next.slots[c], h, db.hosts[h].charged.Plus(Base(past.row.value)), db.lost[h]);
    }
  }

  // What is added to the host is added to the row's reservation, whoever's row it
  // is by then, and the disk it covers is the disk the resize will need.
  lemma ReserveOk(db: Db, c: nat, pastRow: Slot, pastTr: Slot, entitled: bool, at: int)
    requires Inv(db) && c < |db.slots|
    requires SlotInv(pastRow) && SlotLater(pastRow, db.slots[c]) && HostOf(pastRow).Some?
    requires SlotInv(pastTr) && SlotLater(pastTr, db.slots[c]) && pastTr.tr.Some?
    requires HostOf(pastRow).value < |db.hosts|
    ensures var next := Reserve(db, c, pastRow.row.value, pastTr.tr.value, entitled, at);
      Inv(next) && Later(db, next)
  {
    var now := db.slots[c];
    var next := Reserve(db, c, pastRow.row.value, pastTr.tr.value, entitled, at);
    var h := HostOf(pastRow).value;
    var amount := RequestedAmount(pastRow.row.value, pastTr.tr.value);
    if !(Claimable(now) && entitled) {
      InvLaterReflexive(db);
    } else if !HostReserves(db.hosts[h], amount.disk, at) {
      SpansSelf(now.jobs);
      PutKeepsInv(db, c, SetState(now, Reserving));
    } else {
      SpansSelf(now.jobs);
      ReservedSlotOk(now, pastRow, pastTr, amount);
      MoveKeepsInv(db, c, next.slots[c], h, db.hosts[h].charged.Plus(amount), db.lost[h]);
    }
  }

  lemma ReservedSlotOk(now: Slot, pastRow: Slot, pastTr: Slot, amount: Res)
    requires SlotInv(now) && now.tr.Some? && Waiting(now.tr.value.state) && !Busy(now.jobs)
    requires SlotInv(pastRow) && SlotLater(pastRow, now) && HostOf(pastRow).Some?
    requires SlotInv(pastTr) && SlotLater(pastTr, now) && pastTr.tr.Some?
    requires amount == RequestedAmount(pastRow.row.value, pastTr.tr.value)
    ensures var tr := now.tr.value.(state := Resizing, reserved := now.tr.value.reserved.Plus(amount));
      Kept(now, now.(tr := Some(tr)))
  {
  }

  // ---------------------------------------------------------- resize completion

  // What the finishing poller read is still what the slot holds, or was dropped
  // since: either way subtracting it is covered.
  lemma ReadIsCovered(past: Slot, now: Slot, k: nat)
    requires SlotInv(past) && SlotInv(now) && SlotLater(past, now)
    requires k < |past.jobs| && ActiveAt(now.jobs, k) && IsLifecycle(now.jobs[k].op)
    ensures Stable(past, now) && past.row.Some? && now.row.Some? && HostOf(now).Some?
    ensures Reserved(past.tr).AtMost(Reserved(now.tr).Plus(now.dropped))
    ensures IsResizing(past.tr) && now.tr.Some? ==> IsResizing(now.tr)
  {
    assert Spans(past.jobs, now.jobs);
    assert Busy(now.jobs);
  }

  lemma FinalizePlanMoves(db: Db, c: nat, k: nat, read: Container, tr: Transition, at: int)
    requires WellFormed(db) && c < |db.slots| && read.host.Some? && read.host.value < |db.hosts|
    requires ActiveAt(db.slots[c].jobs, k) && NewestLifecycle(db.slots[c].jobs, k)
    ensures var h := read.host.value; var next := FinalizePlan(db, c, k, read, tr, at);
      && |next.slots| == |db.slots|
      && next == Move(db, c, next.slots[c], h, db.hosts[h].charged.Plus(Adjustment(read, tr)).AtLeastZero(), db.lost[h])
  {
    hide Adjustment, NewestLifecycle;
  }

  lemma ResizedBalanced(db: Db, c: nat, s: Slot, h: HostId, adjustment: Res)
    requires Inv(db) && c < |db.slots| && h < |db.hosts| && HostOf(db.slots[c]) == Some(h) && HostOf(s) == Some(h)
    requires Held(s) == Held(db.slots[c]).Plus(adjustment) && Held(s).Nonneg()
    requires Admitted(s).AtMost(Admitted(db.slots[c]))
    ensures var charged := db.hosts[h].charged.Plus(adjustment);
      charged.AtLeastZero() == charged && Balanced(db, c, s, h, charged, db.lost[h])
  {
    ClampIdle(db, c, h, adjustment);
    hide Inv;
  }

  lemma HeldNonneg(s: Slot)
    requires SlotInv(s) && s.row.Some?
    ensures Held(s).Nonneg()
  {
  }

  lemma FinalizePlanOk(db: Db, c: nat, k: nat, pastRow: Slot, pastTr: Slot, at: int)
    requires Inv(db) && c < |db.slots|
    requires SlotInv(pastRow) && SlotLater(pastRow, db.slots[c]) && k < |pastRow.jobs|
    requires SlotInv(pastTr) && SlotLater(pastTr, db.slots[c]) && k < |pastTr.jobs|
    requires HostOf(pastRow).Some? && HostOf(pastRow).value < |db.hosts|
    requires IsResizing(pastTr.tr) && pastTr.jobs[k].op.Resize?
    ensures var next := FinalizePlan(db, c, k, pastRow.row.value, pastTr.tr.value, at);
      Inv(next) && Later(db, next)
    ensures var h := HostOf(pastRow).value;
      ActiveAt(db.slots[c].jobs, k) && NewestLifecycle(db.slots[c].jobs, k) ==>
        FinalizePlan(db, c, k, pastRow.row.value, pastTr.tr.value, at).hosts ==
        db.hosts[h := db.hosts[h].(charged := db.hosts[h].charged.Plus(Adjustment(pastRow.row.value, pastTr.tr.value)))]
  {
    SlotIsInv(db, c);
    if ActiveAt(db.slots[c].jobs, k) && NewestLifecycle(db.slots[c].jobs, k) {
      FinalizeActiveOk(db, c, k, pastRow, pastTr, at);
    } else {
      InvLaterReflexive(db);
    }
  }

  lemma FinalizeActiveOk(db: Db, c: nat, k: nat, pastRow: Slot, pastTr: Slot, at: int)
    requires Inv(db) && WellFormed(db) && c < |db.slots| && SlotInv(db.slots[c])
    requires SlotInv(pastRow) && SlotLater(pastRow, db.slots[c]) && k < |pastRow.jobs|
    requires SlotInv(pastTr) && SlotLater(pastTr, db.slots[c]) && k < |pastTr.jobs|
    requires HostOf(pastRow).Some? && HostOf(pastRow).value < |db.hosts|
    requires IsResizing(pastTr.tr) && pastTr.jobs[k].op.Resize?
    requires ActiveAt(db.slots[c].jobs, k) && NewestLifecycle(db.slots[c].jobs, k) && db.slots[c].row.Some?
    ensures var h := HostOf(pastRow).value; var read, tr := pastRow.row.value, pastTr.tr.value;
      var next := FinalizePlan(db, c, k, read, tr, at);
      && Inv(next) && Later(db, next)
      && next.hosts == db.hosts[h := db.hosts[h].(charged := db.hosts[h].charged.Plus(Adjustment(read, tr)))]
  {
    hide Inv, Later, SlotInv, SlotLater, FinalizePlan, Balanced, Resized, Adjustment, Held, Admitted;
    var now, h := db.slots[c], HostOf(pastRow).value;
    var read, tr := pastRow.row.value, pastTr.tr.value;
    var next, adjustment := FinalizePlan(db, c, k, read, tr, at), Adjustment(read, tr);
    FinalizePlanMoves(db, c, k, read, tr, at);
    FinalizeIsResized(db, c, k, read, tr, at);
    ResizedSlotOk(now, next.slots[c], k, pastRow, pastTr, at, adjustment);
    HasRowOf(next.slots[c]);
    HeldNonneg(next.slots[c]);
    ResizedBalanced(db, c, next.slots[c], h, adjustment);
    MoveKeepsInv(db, c, next.slots[c], h, db.hosts[h].charged.Plus(adjustment), db.lost[h]);
  }

  lemma HasRowOf(s: Slot)
    ensures HostOf(s).Some? ==> s.row.Some?
  {
  }

  // The slot after the batch, without the host.
  predicate Resized(now: Slot, next: Slot, k: nat, read: Container, tr: Transition, at: int) {
    && k < |now.jobs|
    && next.jobs == now.jobs[k := now.jobs[k].(status := JobSucceeded)]
    && next.overcharged == now.overcharged
    && next.row.Some? && now.row.Some?
    && next.row.value == now.row.value.(
         tier := tr.to, mode := Shared, ramMb := RamMb(tr.to), diskGb := tr.targetDiskGb,
         status := if tr.to.Free? then Stopped else tr.prior, lastUpgradedAt := Some(at))
    && next.tr == (if IsResizing(now.tr) then Some(now.tr.value.(state := Complete)) else now.tr)
    && next.dropped == now.dropped.Minus(tr.reserved.Minus(Reserved(now.tr)).Plus(Reserved(next.tr)))
  }

  lemma FinalizeIsResized(db: Db, c: nat, k: nat, read: Container, tr: Transition, at: int)
    requires WellFormed(db) && c < |db.slots| && read.host.Some? && read.host.value < |db.hosts|
    requires ActiveAt(db.slots[c].jobs, k) && NewestLifecycle(db.slots[c].jobs, k) && db.slots[c].row.Some?
    ensures var next := FinalizePlan(db, c, k, read, tr, at);
      && |next.slots| == |db.slots| && Resized(db.slots[c], next.slots[c], k, read, tr, at)
      && forall i | 0 <= i < |db.slots| && i != c :: next.slots[i] == db.slots[i]
  {
  }

  // What the slot holds moves by exactly the adjustment the batch computed from
  // its reads, and what it was admitted for does not grow.
  lemma ResizedSlotOk(now: Slot, next: Slot, k: nat, pastRow: Slot, pastTr: Slot, at: int, adjustment: Res)
    requires SlotInv(now) && ActiveAt(now.jobs, k) && NewestLifecycle(now.jobs, k)
    requires SlotInv(pastRow) && SlotLater(pastRow, now) && k < |pastRow.jobs|
    requires SlotInv(pastTr) && SlotLater(pastTr, now) && k < |pastTr.jobs|
    requires HostOf(pastRow).Some? && IsResizing(pastTr.tr) && pastTr.jobs[k].op.Resize?
    requires Resized(now, next, k, pastRow.row.value, pastTr.tr.value, at)
    requires adjustment == Adjustment(pastRow.row.value, pastTr.tr.value)
    ensures Kept(now, next) && HostOf(next) == HostOf(now) == HostOf(pastRow)
    ensures Held(next) == Held(now).Plus(adjustment)
    ensures Admitted(next).AtMost(Admitted(now))
  {
    ReadIsCovered(pastRow, now, k);
    ReadIsCovered(pastTr, now, k);
    ResizedKept(now, next, k, pastTr, at, pastRow.row.value);
    ResizedArithmetic(now, next, k, pastRow.row.value, pastTr.tr.value, at);
  }

  lemma ResizedKept(now: Slot, next: Slot, k: nat, pastTr: Slot, at: int, read: Container)
    requires SlotInv(now) && ActiveAt(now.jobs, k) && NewestLifecycle(now.jobs, k)
    requires SlotInv(pastTr) && Stable(pastTr, now) && IsResizing(pastTr.tr) && HostOf(now).Some?
    requires now.jobs[k].op.Resize?
    requires Resized(now, next, k, read, pastTr.tr.value, at)
    requires Reserved(pastTr.tr).AtMost(Reserved(now.tr).Plus(now.dropped))
    requires now.tr.Some? ==> IsResizing(now.tr)
    ensures Kept(now, next)
  {
    MarkFacts(now.jobs, k, JobSucceeded);
  }

  lemma ResizedArithmetic(now: Slot, next: Slot, k: nat, read: Container, tr: Transition, at: int)
    requires SlotInv(now) && Resized(now, next, k, read, tr, at)
    requires tr.targetDiskGb == DiskGb(Paid) && tr.state.Resizing? && tr.reserved.Nonneg()
    requires tr.to.Free? ==> now.row.value.diskGb == DiskGb(Paid)
    requires tr.to.Paid? ==>
      tr.reserved.disk >= DiskReservationGb(tr.targetDiskGb) - DiskReservationGb(now.row.value.diskGb)
    requires tr.reserved.AtMost(Reserved(now.tr).Plus(now.dropped))
    requires now.tr.Some? ==> IsResizing(now.tr)
    requires Base(read) == Base(now.row.value)
    ensures Held(next) == Held(now).Plus(Adjustment(read, tr))
    ensures Admitted(next).AtMost(Admitted(now))
  {
  }

  // -------------------------------------------------------------------- destroy

  lemma FinalizeDestroyMoves(db: Db, c: nat, k: nat, read: Container, tr: Option<Transition>)
    requires WellFormed(db) && c < |db.slots| && read.host.Some? && read.host.value < |db.hosts|
    requires ActiveAt(db.slots[c].jobs, k) && NewestLifecycle(db.slots[c].jobs, k) && db.slots[c].row.Some?
    ensures var h, charge := read.host.value, Base(read).Plus(Reserved(tr));
      FinalizeDestroy(db, c, k, read, tr) ==
        Move(db, c, Slot(None, None, Mark(db.slots[c], k, JobSucceeded).jobs, ZERO, ZERO), h,
             db.hosts[h].charged.Minus(charge).AtLeastZero(), db.lost[h].Plus(Held(db.slots[c]).Minus(charge)))
  {
  }

  // What is given back is covered by what the slot holds.
  lemma DestroyedBalanced(db: Db, c: nat, s: Slot, h: HostId, charge: Res)
    requires Inv(db) && c < |db.slots| && h < |db.hosts| && HostOf(db.slots[c]) == Some(h) && HostOf(s) == None
    requires charge.AtMost(Held(db.slots[c]))
    ensures var charged := db.hosts[h].charged.Minus(charge);
      && charged.AtLeastZero() == charged
      && Balanced(db, c, s, h, charged, db.lost[h].Plus(Held(db.slots[c]).Minus(charge)))
  {
    SlotIsInv(db, c);
    ClampIdle(db, c, h, ZERO.Minus(charge));
    AdmittedNonneg(db.slots[c]);
    hide Inv;
  }

  lemma SlotIsInv(db: Db, c: nat)
    requires Inv(db) && c < |db.slots|
    ensures SlotInv(db.slots[c]) && WellFormed(db)
  {
  }

  lemma AdmittedNonneg(s: Slot)
    requires SlotInv(s) && s.row.Some?
    ensures Admitted(s).Nonneg()
  {
  }

  lemma ReadChargeCovered(pastRow: Slot, pastTr: Slot, now: Slot, k: nat)
    requires SlotInv(pastRow) && SlotLater(pastRow, now) && k < |pastRow.jobs| && HostOf(pastRow).Some?
    requires SlotInv(pastTr) && SlotLater(pastTr, now) && k < |pastTr.jobs| && SlotInv(now)
    requires ActiveAt(now.jobs, k) && NewestLifecycle(now.jobs, k)
    ensures now.row.Some? && HostOf(now) == HostOf(pastRow)
    ensures Base(pastRow.row.value).Plus(Reserved(pastTr.tr)).AtMost(Held(now))
  {
    ReadIsCovered(pastRow, now, k);
    ReadIsCovered(pastTr, now, k);
  }

  lemma DestroyedSlotOk(now: Slot, k: nat)
    requires SlotInv(now) && ActiveAt(now.jobs, k) && NewestLifecycle(now.jobs, k)
    ensures Kept(now, Slot(None, None, Mark(now, k, JobSucceeded).jobs, ZERO, ZERO))
  {
    MarkFacts(now.jobs, k, JobSucceeded);
  }

  lemma FinalizeDestroyOk(db: Db, c: nat, k: nat, pastRow: Slot, pastTr: Slot)
    requires Inv(db) && c < |db.slots|
    requires SlotInv(pastRow) && SlotLater(pastRow, db.slots[c]) && k < |pastRow.jobs|
    requires SlotInv(pastTr) && SlotLater(pastTr, db.slots[c]) && k < |pastTr.jobs|
    requires HostOf(pastRow).Some? && HostOf(pastRow).value < |db.hosts|
    ensures var next := FinalizeDestroy(db, c, k, pastRow.row.value, pastTr.tr);
      Inv(next) && Later(db, next)
  {
    SlotIsInv(db, c);
    if ActiveAt(db.slots[c].jobs, k) && NewestLifecycle(db.slots[c].jobs, k) {
      DestroyActiveOk(db, c, k, pastRow, pastTr);
    } else {
      InvLaterReflexive(db);
    }
  }

  lemma DestroyActiveOk(db: Db, c: nat, k: nat, pastRow: Slot, pastTr: Slot)
    requires Inv(db) && WellFormed(db) && c < |db.slots| && SlotInv(db.slots[c])
    requires SlotInv(pastRow) && SlotLater(pastRow, db.slots[c]) && k < |pastRow.jobs|
    requires SlotInv(pastTr) && SlotLater(pastTr, db.slots[c]) && k < |pastTr.jobs|
    requires HostOf(pastRow).Some? && HostOf(pastRow).value < |db.hosts|
    requires ActiveAt(db.slots[c].jobs, k) && NewestLifecycle(db.slots[c].jobs, k)
    ensures var next := FinalizeDestroy(db, c, k, pastRow.row.value, pastTr.tr); Inv(next) && Later(db, next)
  {
    hide Inv, Later, SlotInv, SlotLater, FinalizeDestroy, Balanced, Held, Mark, Base, Reserved, NewestLifecycle;
    var now, h := db.slots[c], HostOf(pastRow).value;
    var charge := Base(pastRow.row.value).Plus(Reserved(pastTr.tr));
    ReadChargeCovered(pastRow, pastTr, now, k);
    FinalizeDestroyMoves(db, c, k, pastRow.row.value, pastTr.tr);
    var gone := Slot(None, None, Mark(now, k, JobSucceeded).jobs, ZERO, ZERO);
    DestroyedSlotOk(now, k);
    DestroyedBalanced(db, c, gone, h, charge);
    MoveKeepsInv(db, c, gone, h, db.hosts[h].charged.Minus(charge), db.lost[h].Plus(Held(now).Minus(charge)));
  }
}
