// What a plan request leaves behind and answers when nothing comes between its reads
// and its batches, as a function of the container's slot and the hosts it meets.
module FleetAnswers {
  import opened Wrappers
  import opened Plans
  import opened FleetState
  import opened FleetSteps
  import opened FleetLedger
  import opened FleetSlotProofs
  import opened FleetPlans

  datatype PlanResult = NotNeeded | Ineligible | Conflict | StopQueued | WaitingForCapacity | ResizeQueued | Threw

  // The plan row to act on, or the answer if there is nothing left to do.
  datatype Stage = Stage(slot: Slot, early: Option<PlanResult>)

  datatype Answer = Answer(slot: Slot, hosts: seq<Host>, result: PlanResult)

  predicate Hosted(now: Slot, hosts: seq<Host>) { HostOf(now).Some? ==> HostOf(now).value < |hosts| }

  predicate OnActiveHost(now: Slot, hosts: seq<Host>)
    requires Hosted(now, hosts)
  {
    HostOf(now).Some? && hosts[HostOf(now).value].status.Active?
  }

  // A plan change for this target is under way.
  predicate PlannedFor(now: Slot, to: Tier) { Live(now.tr) && now.tr.value.to == to }

  // ------------------------------------------------------------------- stages

  // A finished plan row goes; one for another target is cancelled or in the way.
  function Cleared(now: Slot, to: Tier): Stage {
    if now.row.None? then Stage(now, Some(NotNeeded))
    else if now.tr.Some? && Settled(now.tr.value) then Stage(DeleteTransition(now), None)
    else if now.tr.Some? && now.tr.value.to != to then
      if Cancellable(now.tr) && !Busy(now.jobs) then Stage(CancelUnreserved(now, now.tr.value.prior), None)
      else Stage(now, Some(Conflict))
    else Stage(now, None)
  }

  // `planned` if a plan row for the target was found.
  function Planned(now: Slot, to: Tier, planned: bool): Stage
    requires now.row.Some?
  {
    if now.row.value.tier == to then Stage(now, Some(NotNeeded))
    else
      var slot := if planned || !Creates(now.row, to) then now else CreateTransition(now, now.row.value, to);
      Stage(slot, if slot.tr.None? then Some(Conflict)
                  else if slot.tr.value.state.Resizing? then Some(ResizeQueued)
                  else None)
  }

  function Begun(now: Slot, to: Tier): (s: Stage)
    ensures s.early.None? ==> s.slot.row.Some? && s.slot.tr.Some? && HostOf(s.slot) == HostOf(now)
  {
    var cleared := Cleared(now, to);
    if cleared.early.Some? then cleared else Planned(cleared.slot, to, PlannedFor(now, to))
  }

  // What the daemon's answer to the submission of job k leaves.
  function Submitted(now: Slot, k: nat, accepts: bool): Slot {
    if accepts then Dispatched(now, k) else FailJob(now, k, now.tr)
  }

  function Sent(now: Slot, op: JobOp, read: Container, host: Host, accepts: bool): Slot {
    if MayEnqueue(now, op, read, host) then Submitted(Enqueue(now, op, read, host), |now.jobs|, accepts) else now
  }

  function StopSent(now: Slot, hosts: seq<Host>, accepts: bool): Answer
    requires now.row.Some? && Hosted(now, hosts)
  {
    if Busy(now.jobs) then Answer(now, hosts, StopQueued)
    else if !OnActiveHost(now, hosts) then Answer(now, hosts, WaitingForCapacity)
    else Answer(Sent(now, Stop, now.row.value, hosts[HostOf(now).value], accepts), hosts, StopQueued)
  }

  function ResizeSent(now: Slot, hosts: seq<Host>, accepts: bool): Answer
    requires now.row.Some? && Hosted(now, hosts)
  {
    if !OnActiveHost(now, hosts) then Answer(Defer(now), hosts, WaitingForCapacity)
    else
      var row, host := now.row.value, hosts[HostOf(now).value];
      if MayEnqueue(now, Resize, row, host) then Answer(Sent(now, Resize, row, host, accepts), hosts, ResizeQueued)
      else Answer(Defer(now), hosts, Threw)
  }

  function Wanted(now: Slot): Res
    requires now.row.Some? && now.tr.Some?
  {
    RequestedAmount(now.row.value, now.tr.value)
  }

  predicate Reserves(now: Slot, hosts: seq<Host>, entitled: bool, at: int)
    requires now.row.Some? && now.tr.Some? && HostOf(now).Some? && Hosted(now, hosts)
  {
    Claimable(now) && entitled && HostReserves(hosts[HostOf(now).value], Wanted(now).disk, at)
  }

  // The claim, if it was made, is released when the host refuses.
  function Refused(now: Slot, entitled: bool): Slot {
    ReserveFallback(if Claimable(now) && entitled then SetState(now, Reserving) else now)
  }

  function HostCharged(hosts: seq<Host>, h: HostId, amount: Res): seq<Host>
    requires h < |hosts|
  {
    hosts[h := hosts[h].(charged := hosts[h].charged.Plus(amount))]
  }

  function ReservedAndSent(now: Slot, hosts: seq<Host>, entitled: bool, accepts: bool, at: int): Answer
    requires now.row.Some? && now.tr.Some? && Hosted(now, hosts)
  {
    if HostOf(now).None? then Answer(now, hosts, WaitingForCapacity)
    else if !Reserves(now, hosts, entitled, at) then Answer(Refused(now, entitled), hosts, WaitingForCapacity)
    else ResizeSent(Charged(now, Wanted(now)), HostCharged(hosts, HostOf(now).value, Wanted(now)), accepts)
  }

  function CarriedOut(now: Slot, hosts: seq<Host>, entitled: bool, accepts: bool, at: int): Answer
    requires now.row.Some? && now.tr.Some? && Hosted(now, hosts)
  {
    var tr := now.tr.value;
    if tr.to.Free? && tr.prior.Running? then StopSent(now, hosts, accepts)
    else if tr.state.FailedRetryable? && !Unreserved(tr) then ResizeSent(RetryResize(now), hosts, accepts)
    else ReservedAndSent(now, hosts, entitled, accepts, at)
  }

  function AnswerTo(now: Slot, hosts: seq<Host>, to: Tier, entitled: bool, accepts: bool, at: int): Answer
    requires Hosted(now, hosts)
  {
    var begun := Begun(now, to);
    if begun.early.Some? then Answer(begun.slot, hosts, begun.early.value)
    else CarriedOut(begun.slot, hosts, entitled, accepts, at)
  }

  // ----------------------------------------------------------------- promises

  // The container waits for a plan change to the target.
  predicate Pending(s: Slot, to: Tier) {
    s.row.Some? && s.row.value.status.UpgradePending? && PlannedFor(s, to)
  }

  // Job k is the last one, under way if the daemon took it and otherwise failed.
  predicate LastJob(jobs: seq<Job>, was: seq<Job>, op: JobOp, accepts: bool) {
    jobs == was + [Job(op, if accepts then JobRunning else JobFailed)]
  }

  // What each answer says about plan row, container, jobs and hosts.
  predicate Promised(now: Slot, hosts: seq<Host>, to: Tier, accepts: bool, a: Answer)
    requires Hosted(now, hosts)
  {
    var s := a.slot;
    match a.result
    case Ineligible => false
    case NotNeeded =>
      a.hosts == hosts && s.jobs == now.jobs && !Live(s.tr) && (s.row.Some? ==> s.row.value.tier == to)
    case Conflict =>
      && a.hosts == hosts && s.jobs == now.jobs && s.row == now.row && s.row.Some?
      && (if Live(now.tr) then s == now && now.tr.value.to != to && !(Cancellable(now.tr) && !Busy(now.jobs))
          else s.tr.None? && (Busy(now.jobs) || !(now.row.value.status.Running? || now.row.value.status.Stopped?)))
    case StopQueued =>
      && a.hosts == hosts && Pending(s, to) && to.Free? && s.tr.value.prior.Running?
      && (Busy(now.jobs) || LastJob(s.jobs, now.jobs, Stop, accepts))
      && (!Busy(now.jobs) && !accepts ==> s.tr.value.state.FailedRetryable?)
    case ResizeQueued =>
      && Pending(s, to)
      && (IsResizing(now.tr) ==> s == now && a.hosts == hosts)
      && (!IsResizing(now.tr) ==>
            && LastJob(s.jobs, now.jobs, Resize, accepts) && OnActiveHost(now, hosts)
            && (if accepts then IsResizing(s.tr) else s.tr.value.state.FailedRetryable?))
    case WaitingForCapacity =>
      && a.hosts == hosts && s.jobs == now.jobs && Pending(s, to) && Waiting(s.tr.value.state)
    case Threw =>
      && s.jobs == now.jobs && Pending(s, to) && s.tr.value.state.FailedRetryable?
      && HostOf(now).Some? && now.row.Some? && now.row.value.mode != hosts[HostOf(now).value].tenancy
  }

  // The slot keeps its host, its jobs and its kind; a plan row the request goes on with
  // is for the target, live and not resizing.
  predicate BegunWell(now: Slot, hosts: seq<Host>, to: Tier, accepts: bool)
    requires Hosted(now, hosts)
  {
    var s := Begun(now, to);
    if s.early.Some? then Promised(now, hosts, to, accepts, Answer(s.slot, hosts, s.early.value))
    else
      && SlotInv(s.slot) && PlanInv(s.slot) && PlannedFor(s.slot, to) && !IsResizing(s.slot.tr)
      && s.slot.jobs == now.jobs && HostOf(s.slot) == HostOf(now) && s.slot.row.value.mode == now.row.value.mode
      && !IsResizing(now.tr)
  }

  lemma BegunPromise(now: Slot, hosts: seq<Host>, to: Tier, accepts: bool)
    requires SlotInv(now) && PlanInv(now) && Hosted(now, hosts)
    ensures BegunWell(now, hosts, to, accepts)
  {
    if Live(now.tr) {
      if now.tr.value.to == to { BegunPlanned(now, hosts, to, accepts); } else { BegunOther(now, hosts, to, accepts); }
    } else {
      BegunAnew(now, hosts, to, accepts);
    }
  }

  lemma BegunPlanned(now: Slot, hosts: seq<Host>, to: Tier, accepts: bool)
    requires SlotInv(now) && PlanInv(now) && Hosted(now, hosts) && PlannedFor(now, to)
    ensures BegunWell(now, hosts, to, accepts)
  {
  }

  lemma BegunOther(now: Slot, hosts: seq<Host>, to: Tier, accepts: bool)
    requires SlotInv(now) && PlanInv(now) && Hosted(now, hosts) && Live(now.tr) && !PlannedFor(now, to)
    ensures BegunWell(now, hosts, to, accepts)
  {
  }

  lemma BegunAnew(now: Slot, hosts: seq<Host>, to: Tier, accepts: bool)
    requires SlotInv(now) && PlanInv(now) && Hosted(now, hosts) && !Live(now.tr)
    ensures BegunWell(now, hosts, to, accepts)
  {
    if now.row.Some? {
      var bare := if now.tr.Some? then DeleteTransition(now) else now;
      assert SlotInv(bare) && PlanInv(bare) && bare.tr.None?;
      if Creates(now.row, to) { CreatedInv(bare, to); }
      hide SlotInv, PlanInv, CreateTransition;
    }
  }

  lemma CreatedInv(now: Slot, to: Tier)
    requires SlotInv(now) && PlanInv(now) && now.tr.None? && Creates(now.row, to)
    ensures var s := CreateTransition(now, now.row.value, to);
      && SlotInv(s) && PlanInv(s) && s.jobs == now.jobs && s.row.Some? && s.row.value.host == now.row.value.host
      && s.row.value.mode == now.row.value.mode
      && (if Busy(now.jobs) then s == now else PlannedFor(s, to) && !IsResizing(s.tr))
  {
    CreateKeepsPlanIff(now, now.row.value, to);
  }

  // A job sent for a live plan change's own stage: the stop of a running downgrade or
  // the resize of a reserved change.
  lemma SentPromise(now: Slot, op: JobOp, host: Host, accepts: bool)
    requires SlotInv(now) && PlanInv(now) && Live(now.tr) && now.row.Some?
    requires (op.Stop? && StoppingDowngrade(now.tr)) || (op.Resize? && IsResizing(now.tr))
    requires MayEnqueue(now, op, now.row.value, host)
    ensures var s := Sent(now, op, now.row.value, host, accepts);
      && Pending(s, now.tr.value.to) && LastJob(s.jobs, now.jobs, op, accepts)
      && s.tr.value.prior == now.tr.value.prior
      && s.tr.value.state == if accepts then now.tr.value.state else FailedRetryable
  {
    var queued := Enqueue(now, op, now.row.value, host);
    var k := |now.jobs|;
    assert queued.jobs[k] == Job(op, JobQueued);
    assert queued.jobs[k := Job(op, JobRunning)] == now.jobs + [Job(op, JobRunning)];
    assert queued.jobs[k := Job(op, JobFailed)] == now.jobs + [Job(op, JobFailed)];
  }

  lemma StopPromise(now: Slot, hosts: seq<Host>, accepts: bool)
    requires SlotInv(now) && PlanInv(now) && Hosted(now, hosts) && Live(now.tr) && !IsResizing(now.tr)
    requires now.tr.value.to.Free? && now.tr.value.prior.Running?
    ensures Promised(now, hosts, Free, accepts, StopSent(now, hosts, accepts))
  {
    if !Busy(now.jobs) && OnActiveHost(now, hosts) {
      assert StoppingDowngrade(now.tr);
      SentPromise(now, Stop, hosts[HostOf(now).value], accepts);
    }
  }

  // `now` is the slot the request found, `ready` the one it reserved or retries.
  lemma ResizePromise(now: Slot, ready: Slot, were: seq<Host>, hosts: seq<Host>, to: Tier, accepts: bool)
    requires SlotInv(ready) && PlanInv(ready) && IsResizing(ready.tr) && ready.tr.value.to == to && !Busy(ready.jobs)
    requires Hosted(now, were) && Hosted(ready, hosts) && HostOf(ready) == HostOf(now) && ready.jobs == now.jobs
    requires now.row.Some? && ready.row.Some? && ready.row.value.mode == now.row.value.mode && !IsResizing(now.tr)
    requires HostOf(now).Some? ==>
      var h := HostOf(now).value; hosts[h].status == were[h].status && hosts[h].tenancy == were[h].tenancy
    requires hosts == were || OnActiveHost(now, were)
    ensures Promised(now, were, to, accepts, ResizeSent(ready, hosts, accepts))
  {
    if OnActiveHost(ready, hosts) && MayEnqueue(ready, Resize, ready.row.value, hosts[HostOf(ready).value]) {
      SentPromise(ready, Resize, hosts[HostOf(ready).value], accepts);
    }
  }

  lemma ReservePromise(now: Slot, ready: Slot, hosts: seq<Host>, to: Tier, entitled: bool, accepts: bool, at: int)
    requires SlotInv(ready) && PlanInv(ready) && PlannedFor(ready, to) && !IsResizing(ready.tr)
    requires ready.tr.value.to.Free? ==> !ready.tr.value.prior.Running?
    requires Hosted(now, hosts) && HostOf(ready) == HostOf(now) && ready.jobs == now.jobs
    requires now.row.Some? && ready.row.Some? && ready.row.value.mode == now.row.value.mode && !IsResizing(now.tr)
    ensures Promised(now, hosts, to, accepts, ReservedAndSent(ready, hosts, entitled, accepts, at))
  {
    if HostOf(ready).Some? && Reserves(ready, hosts, entitled, at) {
      ChargedInv(ready);
      ResizePromise(now, Charged(ready, Wanted(ready)), hosts, HostCharged(hosts, HostOf(ready).value, Wanted(ready)),
                    to, accepts);
    }
  }

  lemma ChargedInv(now: Slot)
    requires SlotInv(now) && PlanInv(now) && Claimable(now) && (now.tr.value.to.Free? ==> !now.tr.value.prior.Running?)
    ensures var s := Charged(now, RequestedAmount(now.row.value, now.tr.value)); SlotInv(s) && PlanInv(s)
  {
    ChargeCoversIff(now, now.row.value, now.tr.value);
    ChargeKeepsPlanIff(now, RequestedAmount(now.row.value, now.tr.value));
  }

  lemma RetriedInv(now: Slot)
    requires SlotInv(now) && PlanInv(now)
    requires now.tr.Some? && now.tr.value.state.FailedRetryable? && !Unreserved(now.tr.value)
    requires now.tr.value.to.Free? ==> !now.tr.value.prior.Running?
    ensures SlotInv(RetryResize(now)) && PlanInv(RetryResize(now)) && IsResizing(RetryResize(now).tr) && !Busy(now.jobs)
  {
    RetryKeepsPlanIff(now);
    StateOnlyOk(now);
  }

  // Undisturbed, a plan request answers what it has done: nothing to do and no plan
  // change left; another change or a job in the way, and nothing touched; the stop, or
  // the resize of a change that is paid for, under way or failed and retryable; or no
  // capacity, the change waiting and no counter moved.
  lemma RequestKeepsPromise(now: Slot, hosts: seq<Host>, to: Tier, entitled: bool, accepts: bool, at: int)
    requires SlotInv(now) && PlanInv(now) && Hosted(now, hosts)
    ensures Promised(now, hosts, to, accepts, AnswerTo(now, hosts, to, entitled, accepts, at))
  {
    BegunPromise(now, hosts, to, accepts);
    var s := Begun(now, to).slot;
    if Begun(now, to).early.None? {
      hide SlotInv, PlanInv, Begun, Promised;
      CarriedPromise(now, s, hosts, to, entitled, accepts, at);
    }
  }

  lemma CarriedPromise(now: Slot, ready: Slot, hosts: seq<Host>, to: Tier, entitled: bool, accepts: bool, at: int)
    requires SlotInv(ready) && PlanInv(ready) && PlannedFor(ready, to) && !IsResizing(ready.tr)
    requires Hosted(now, hosts) && HostOf(ready) == HostOf(now) && ready.jobs == now.jobs
    requires now.row.Some? && ready.row.Some? && ready.row.value.mode == now.row.value.mode && !IsResizing(now.tr)
    ensures Promised(now, hosts, to, accepts, CarriedOut(ready, hosts, entitled, accepts, at))
  {
    var tr := ready.tr.value;
    if tr.to.Free? && tr.prior.Running? {
      StopPromise(ready, hosts, accepts);
    } else if tr.state.FailedRetryable? && !Unreserved(tr) {
      RetriedInv(ready);
      ResizePromise(now, RetryResize(ready), hosts, hosts, to, accepts);
    } else {
      ReservePromise(now, ready, hosts, to, entitled, accepts, at);
    }
  }
}
