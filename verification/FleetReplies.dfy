// Which answer an undisturbed plan request gets, and what it reserves, exactly, in the
// fields of the rows it meets.
module FleetReplies {
  import opened Wrappers
  import opened Plans
  import opened FleetState
  import opened FleetSteps
  import opened FleetLedger
  import opened FleetPlans
  import opened FleetAnswers
  import opened FleetEffects

  // The plan change to carry out: the live one, or the one it would create.
  function ToCarry(now: Slot, to: Tier): Transition
    requires now.row.Some?
  {
    if now.tr.Some? && !now.tr.value.state.Complete? && !now.tr.value.state.Cancelled? then now.tr.value
    else Transition(now.row.value.tier, to, 8, now.row.value.status, Requested, Res(0, 0, 0))
  }

  // What is decided before anything is carried out.
  function Decided(now: Slot, to: Tier): Option<PlanResult> {
    if now.row.None? then Some(NotNeeded)
    else
      var live, row := Live(now.tr), now.row.value;
      if live && now.tr.value.to != to && !(Unstarted(now.tr) && IsIdle(now)) then Some(Conflict)
      else if row.tier == to then Some(NotNeeded)
      else if !live && !(IsIdle(now) && (row.status.Running? || row.status.Stopped?)) then Some(Conflict)
      else if live && now.tr.value.state.Resizing? then Some(ResizeQueued)
      else None
  }

  lemma BegunIs(now: Slot, to: Tier)
    requires SlotInv(now) && PlanInv(now)
    ensures Begun(now, to).early == Decided(now, to)
    ensures Decided(now, to).None? ==>
      var ready := Begun(now, to).slot;
      && ready.row == Some(now.row.value.(status := UpgradePending)) && ready.jobs == now.jobs
      && ready.tr == Some(ToCarry(now, to))
  {
    IdleIff(now);
    hide IsIdle, Busy, PlanJobs, OneActive, ActiveDestroy;
    if Live(now.tr) { BegunLive(now, to); } else { BegunBare(now, to); }
  }

  lemma BegunLive(now: Slot, to: Tier)
    requires SlotInv(now) && PlanInv(now) && Live(now.tr) && (IsIdle(now) <==> !Busy(now.jobs))
    ensures Begun(now, to).early == Decided(now, to)
    ensures Decided(now, to).None? ==>
      Begun(now, to).slot == now && now.row.value.status.UpgradePending?
  {
    hide IsIdle, Busy, PlanJobs, OneActive, ActiveDestroy;
  }

  lemma BegunBare(now: Slot, to: Tier)
    requires SlotInv(now) && PlanInv(now) && !Live(now.tr) && (IsIdle(now) <==> !Busy(now.jobs))
    ensures Begun(now, to).early == Decided(now, to)
    ensures Decided(now, to).None? ==>
      var ready := Begun(now, to).slot;
      && ready.row == Some(now.row.value.(status := UpgradePending)) && ready.jobs == now.jobs
      && ready.tr == Some(ToCarry(now, to))
  {
    hide IsIdle, Busy, PlanJobs, OneActive, ActiveDestroy;
  }

  // ------------------------------------------------------------- carrying it out

  function Missing(tr: Transition, row: Container): Res {
    Res(if tr.to.Paid? then 1 else 0, if tr.to.Paid? then 2560 else 0, 2 * (8 - row.diskGb))
  }

  // A failed change that still holds its reservation is resumed and reserves nothing; one
  // that another request has claimed is not claimed again.
  predicate Resumes(tr: Transition) { tr.state.FailedRetryable? && !HoldsNothing(tr) }

  predicate Granted(tr: Transition, row: Container, host: Host, entitled: bool, at: int) {
    Resumes(tr) || (!tr.state.Reserving? && entitled && LetsReserve(host, Missing(tr, row).disk, at))
  }

  // The answer for this plan change: a running workbench is stopped before a downgrade; a
  // resize needs an active host, what it reserves, and a container of the host's kind.
  function Due(tr: Transition, row: Container, host: Host, idle: bool, entitled: bool, at: int): PlanResult {
    if tr.to.Free? && tr.prior.Running? then
      if !idle || host.status.Active? then StopQueued else WaitingForCapacity
    else if !host.status.Active? || !Granted(tr, row, host, entitled, at) then WaitingForCapacity
    else if row.mode != host.tenancy then Threw
    else ResizeQueued
  }

  // A reservation is made only for an answer of a resize, and only if none is resumed.
  predicate Takes(tr: Transition, r: PlanResult) { (r.ResizeQueued? || r.Threw?) && !Resumes(tr) }

  // The state in which a change waits: no claim outlasts the request.
  function WaitsIn(tr: Transition, entitled: bool): TransitionState {
    if (tr.to.Free? && tr.prior.Running?) || Resumes(tr) || (!entitled && !tr.state.Reserving?) then tr.state
    else WaitingCapacity
  }

  predicate Replied(ready: Slot, hosts: seq<Host>, entitled: bool, at: int, a: Answer)
    requires ready.row.Some? && ready.tr.Some? && ready.row.value.host.Some? && ready.row.value.host.value < |hosts|
  {
    var h, row, tr := ready.row.value.host.value, ready.row.value, ready.tr.value;
    && a.result == Due(tr, row, hosts[h], IsIdle(ready), entitled, at)
    && a.slot.tr.Some?
    && (if Takes(tr, a.result)
        then a.hosts == Charging(hosts, h, Missing(tr, row))
             && a.slot.tr.value.reserved == tr.reserved.Plus(Missing(tr, row))
        else a.hosts == hosts && a.slot.tr.value.reserved == tr.reserved)
    && (a.result.WaitingForCapacity? ==> a.slot.tr.value.state == WaitsIn(tr, entitled))
  }

  lemma WantedIs(ready: Slot)
    requires SlotInv(ready) && PlanInv(ready) && ready.row.Some? && Live(ready.tr)
    ensures Wanted(ready) == Missing(ready.tr.value, ready.row.value)
    ensures Unreserved(ready.tr.value) <==> HoldsNothing(ready.tr.value)
  {
    hide PlanJobs, OneActive, ActiveDestroy, Busy;
  }

  lemma SentKeeps(now: Slot, op: JobOp, read: Container, host: Host, accepts: bool)
    ensures var s := Sent(now, op, read, host, accepts);
      && (s.tr.Some? <==> now.tr.Some?)
      && (s.tr.Some? ==> s.tr.value.reserved == now.tr.value.reserved)
  {
    hide Busy;
  }

  lemma ResizeReplied(ready: Slot, hosts: seq<Host>, accepts: bool)
    requires ready.row.Some? && IsResizing(ready.tr) && Hosted(ready, hosts) && ready.row.value.host.Some?
    requires !Busy(ready.jobs)
    ensures var a, host := ResizeSent(ready, hosts, accepts), hosts[ready.row.value.host.value];
      && a.result == (if !host.status.Active? then WaitingForCapacity
                      else if ready.row.value.mode != host.tenancy then Threw else ResizeQueued)
      && a.hosts == hosts && a.slot.tr.Some? && a.slot.tr.value.reserved == ready.tr.value.reserved
      && (a.result.WaitingForCapacity? ==> a.slot.tr.value.state.FailedRetryable?)
  {
    SentKeeps(ready, Resize, ready.row.value, hosts[ready.row.value.host.value], accepts);
    hide Sent, Busy;
  }

  lemma StopReplied(ready: Slot, hosts: seq<Host>, entitled: bool, accepts: bool, at: int)
    requires ready.row.Some? && ready.tr.Some? && Hosted(ready, hosts) && ready.row.value.host.Some?
    requires ready.tr.value.to.Free? && ready.tr.value.prior.Running?
    ensures Replied(ready, hosts, entitled, at, StopSent(ready, hosts, accepts))
  {
    IdleIff(ready);
    SentKeeps(ready, Stop, ready.row.value, hosts[ready.row.value.host.value], accepts);
    hide Sent, IsIdle, Busy;
  }

  lemma WaitingIsIdle(ready: Slot)
    requires SlotInv(ready) && PlanInv(ready) && ready.row.Some? && Live(ready.tr) && !IsResizing(ready.tr)
    requires !(ready.tr.value.to.Free? && ready.tr.value.prior.Running?)
    ensures !Busy(ready.jobs)
  {
  }

  lemma ResumeReplied(ready: Slot, hosts: seq<Host>, entitled: bool, accepts: bool, at: int)
    requires SlotInv(ready) && PlanInv(ready) && ready.row.Some? && Live(ready.tr) && !Busy(ready.jobs)
    requires Hosted(ready, hosts) && ready.row.value.host.Some?
    requires !(ready.tr.value.to.Free? && ready.tr.value.prior.Running?) && Resumes(ready.tr.value)
    ensures Replied(ready, hosts, entitled, at, ResizeSent(RetryResize(ready), hosts, accepts))
  {
    ResizeReplied(RetryResize(ready), hosts, accepts);
    hide ResizeSent, SlotInv, PlanInv, Busy, IsIdle;
  }

  lemma ReserveReplied(ready: Slot, hosts: seq<Host>, entitled: bool, accepts: bool, at: int)
    requires SlotInv(ready) && PlanInv(ready) && ready.row.Some? && Live(ready.tr) && !Busy(ready.jobs)
    requires !IsResizing(ready.tr)
    requires Hosted(ready, hosts) && ready.row.value.host.Some?
    requires !(ready.tr.value.to.Free? && ready.tr.value.prior.Running?) && !Resumes(ready.tr.value)
    ensures Replied(ready, hosts, entitled, at, ReservedAndSent(ready, hosts, entitled, accepts, at))
  {
    WantedIs(ready);
    var h := ready.row.value.host.value;
    if Reserves(ready, hosts, entitled, at) {
      ResizeReplied(Charged(ready, Wanted(ready)), HostCharged(hosts, h, Wanted(ready)), accepts);
    }
    hide ResizeSent, SlotInv, PlanInv, Busy, IsIdle, Wanted, Missing;
  }

  // Undisturbed, a plan request answers what is decided at once, and else what is due for
  // its plan change; and it reserves exactly what the answer says, and nothing otherwise.
  lemma RequestRepliesExactly(now: Slot, hosts: seq<Host>, to: Tier, entitled: bool, accepts: bool, at: int)
    requires SlotInv(now) && PlanInv(now) && Hosted(now, hosts)
    ensures var a := AnswerTo(now, hosts, to, entitled, accepts, at);
      if Decided(now, to).Some? then a.result == Decided(now, to).value && a.hosts == hosts
      else
        && now.row.Some? && now.row.value.host.Some?
        && Replied(now.(tr := Some(ToCarry(now, to))), hosts, entitled, at, a)
  {
    hide SlotInv, PlanInv, Begun, CarriedOut, Replied, Decided, ToCarry;
    BegunIs(now, to);
    BegunReady(now, hosts, to);
    if Decided(now, to).None? {
      var ready := Begun(now, to).slot;
      CarriedReplied(ready, hosts, entitled, accepts, at);
      StatusAside(ready, now.(tr := Some(ToCarry(now, to))), hosts, entitled, at,
                  CarriedOut(ready, hosts, entitled, accepts, at));
    }
    EarlyHosts(now, hosts, to, entitled, accepts, at);
  }

  lemma EarlyHosts(now: Slot, hosts: seq<Host>, to: Tier, entitled: bool, accepts: bool, at: int)
    requires Hosted(now, hosts)
    ensures Begun(now, to).early.Some? ==>
      AnswerTo(now, hosts, to, entitled, accepts, at) == Answer(Begun(now, to).slot, hosts, Begun(now, to).early.value)
  {
    hide CarriedOut;
  }

  // The row's status plays no part in what is due.
  lemma StatusAside(ready: Slot, now: Slot, hosts: seq<Host>, entitled: bool, at: int, a: Answer)
    requires ready.row.Some? && ready.tr.Some? && ready.row.value.host.Some? && ready.row.value.host.value < |hosts|
    requires now.row.Some? && ready.row == Some(now.row.value.(status := UpgradePending))
    requires now.tr == ready.tr && now.jobs == ready.jobs
    ensures Replied(ready, hosts, entitled, at, a) <==> Replied(now, hosts, entitled, at, a)
  {
    assert IsIdle(ready) == IsIdle(now);
  }

  lemma BegunReady(now: Slot, hosts: seq<Host>, to: Tier)
    requires SlotInv(now) && PlanInv(now) && Hosted(now, hosts)
    ensures Begun(now, to).early.None? ==>
      var ready := Begun(now, to).slot;
      && SlotInv(ready) && PlanInv(ready) && Live(ready.tr) && !IsResizing(ready.tr) && Hosted(ready, hosts)
      && ready.row.Some? && ready.row.value.host.Some?
  {
    BegunPromise(now, hosts, to, true);
    if Begun(now, to).early.None? { PlanHasHost(Begun(now, to).slot); }
    hide Begun, PlanInv, SlotInv;
  }

  lemma PlanHasHost(s: Slot)
    requires SlotInv(s) && s.tr.Some?
    ensures s.row.Some? && s.row.value.host.Some?
  {
  }

  lemma CarriedReplied(ready: Slot, hosts: seq<Host>, entitled: bool, accepts: bool, at: int)
    requires SlotInv(ready) && PlanInv(ready) && ready.row.Some? && Live(ready.tr) && !IsResizing(ready.tr)
    requires Hosted(ready, hosts) && ready.row.value.host.Some?
    ensures Replied(ready, hosts, entitled, at, CarriedOut(ready, hosts, entitled, accepts, at))
  {
    hide SlotInv, PlanInv, Replied, StopSent, ResizeSent, ReservedAndSent, RetryResize, Busy;
    var tr := ready.tr.value;
    if tr.to.Free? && tr.prior.Running? {
      StopReplied(ready, hosts, entitled, accepts, at);
    } else {
      WaitingIsIdle(ready);
      WantedIs(ready);
      if Resumes(tr) { ResumeReplied(ready, hosts, entitled, accepts, at); }
      else { ReserveReplied(ready, hosts, entitled, accepts, at); }
    }
  }
}
