// When an account has paid access: the projection of Stripe's facts, the access
// function the pages use, and the guard that capacity reservation repeats in SQL.
// Times are milliseconds; every function takes the instant it is asked about.
module Entitlements {
  import opened Wrappers
  import opened Plans

  type Time = int
  type Deadline = Option<Time>

  datatype StripeStatus = Incomplete | IncompleteExpired | Trialing | PastDue | Unpaid | Paused
                        | Canceled | InForce | OtherStatus

  datatype Facts = Facts(
    status: StripeStatus, cancelAtPeriodEnd: bool, cancelAt: Deadline,
    trialEnd: Deadline, serviceUntil: Deadline, graceUntil: Deadline)

  datatype State = PendingState | TrialingState | ActiveState | CancelScheduled | PastDueState
                 | GraceState | Expired | ManualState

  datatype Projection = Projection(state: State, accessUntil: Deadline)

  datatype PaidPlan = PaidPlan | DedicatedPlan
  datatype Source = FromStripe | Manual
  datatype Entitlement = Entitlement(
    plan: PaidPlan, source: Source, state: State,
    trialUntil: Deadline, serviceUntil: Deadline, graceUntil: Deadline, sourceRef: Option<nat>)

  datatype Method = WorldId | Invite | Development | OtherMethod
  datatype User = User(verifiedAt: Deadline, verification: Option<Method>)

  datatype Access = PaidAccess(plan: PaidPlan, source: Source, state: State, until: Deadline)
                  | FreeAccess(verification: Method)
                  | Ineligible

  predicate Beyond(d: Deadline, now: Time) { d.Some? && d.value > now }

  function Later(a: Deadline, b: Deadline): Deadline {
    if a.None? then b else if b.None? then a else Some(Max(a.value, b.value))
  }

  function PaidOrGrace(facts: Facts, now: Time, state: State, otherwise: State): Projection {
    if Beyond(facts.serviceUntil, now) then Projection(state, facts.serviceUntil)
    else if Beyond(facts.graceUntil, now) then Projection(GraceState, facts.graceUntil)
    else Projection(otherwise, None)
  }

  function ProjectStripe(facts: Facts, now: Time): Projection {
    match facts.status
    case Incomplete | IncompleteExpired => Projection(PendingState, None)
    case Trialing =>
      if facts.cancelAtPeriodEnd || facts.cancelAt.Some? then Projection(Expired, None)
      else if Beyond(facts.trialEnd, now) then Projection(TrialingState, facts.trialEnd)
      else Projection(Expired, None)
    case PastDue | Unpaid | Paused => PaidOrGrace(facts, now, PastDueState, Expired)
    case Canceled =>
      if Beyond(facts.serviceUntil, now) then Projection(CancelScheduled, facts.serviceUntil)
      else Projection(Expired, None)
    case InForce =>
      var scheduled := facts.cancelAtPeriodEnd || Beyond(facts.cancelAt, now);
      PaidOrGrace(facts, now, if scheduled then CancelScheduled else ActiveState, PendingState)
    case OtherStatus => Projection(PendingState, None)
  }

  predicate PermanentlyFree(user: User) {
    user.verifiedAt.Some? && user.verification.Some? && !user.verification.value.OtherMethod?
  }

  predicate ManualGrants(e: Entitlement, now: Time) {
    var until := Later(e.serviceUntil, e.graceUntil);
    until.None? || until.value > now
  }

  predicate StripeGrants(e: Entitlement, now: Time) {
    && e.plan.PaidPlan?
    && Beyond(Later(e.trialUntil, Later(e.serviceUntil, e.graceUntil)), now)
    && !e.state.PendingState? && !e.state.Expired?
  }

  function Effective(user: User, entitlement: Option<Entitlement>, now: Time): Access {
    if entitlement.Some? && entitlement.value.source.Manual? && ManualGrants(entitlement.value, now) then
      PaidAccess(entitlement.value.plan, Manual, ManualState,
                 Later(entitlement.value.serviceUntil, entitlement.value.graceUntil))
    else if entitlement.Some? && entitlement.value.source.FromStripe? && StripeGrants(entitlement.value, now) then
      var e := entitlement.value;
      PaidAccess(PaidPlan, FromStripe, e.state, Later(e.trialUntil, Later(e.serviceUntil, e.graceUntil)))
    else if PermanentlyFree(user) then FreeAccess(user.verification.value)
    else Ineligible
  }

  // The stored entitlement brought up to date with its subscription row.
  function Refreshed(e: Entitlement, facts: Facts, now: Time): Entitlement {
    e.(state := ProjectStripe(facts, now).state, trialUntil := facts.trialEnd,
       serviceUntil := facts.serviceUntil, graceUntil := facts.graceUntil)
  }

  // `subscription` is the row the entitlement refers to, if it refers to one.
  function EffectiveForUser(user: User, entitlement: Option<Entitlement>, subscription: Option<Facts>,
                            now: Time): Access
  {
    if entitlement.None? || entitlement.value.source.Manual? then Effective(user, entitlement, now)
    else if subscription.None? then
      Effective(user, Some(entitlement.value.(state := Expired, serviceUntil := None, graceUntil := None)), now)
    else Effective(user, Some(Refreshed(entitlement.value, subscription.value, now)), now)
  }

  // The condition a paid reservation repeats in SQL on the stored row.
  predicate ReservationGuard(e: Entitlement, now: Time) {
    || (e.source.Manual? && (e.serviceUntil.None? || e.serviceUntil.value > now))
    || (e.source.FromStripe? && !e.state.PendingState? && !e.state.Expired?
        && (Beyond(e.trialUntil, now) || Beyond(e.serviceUntil, now) || Beyond(e.graceUntil, now)))
  }

  datatype AccountState = Unverified | Verified | Premium | VerifiedPremium

  function AccountStateOf(user: User, access: Access): AccountState {
    if PermanentlyFree(user) then (if access.PaidAccess? then VerifiedPremium else Verified)
    else if access.PaidAccess? then Premium else Unverified
  }

  // ------------------------------------------------------------ one deadline

  // The instant at which fixed facts stop granting paid access; None if they never do.
  function AccessEnds(facts: Facts): Deadline {
    match facts.status
    case Trialing => if facts.cancelAtPeriodEnd || facts.cancelAt.Some? then None else facts.trialEnd
    case PastDue | Unpaid | Paused | InForce => Later(facts.serviceUntil, facts.graceUntil)
    case Canceled => facts.serviceUntil
    case _ => None
  }

  predicate HasAccess(facts: Facts, now: Time) { Beyond(AccessEnds(facts), now) }

  predicate Grants(p: Projection) { !p.state.PendingState? && !p.state.Expired? }

  // Labels never decide access: the projection grants, with a deadline ahead, up to
  // one instant and never from it on.
  lemma ProjectionHasOneDeadline(facts: Facts, now: Time)
    ensures Grants(ProjectStripe(facts, now)) <==> HasAccess(facts, now)
    ensures Beyond(ProjectStripe(facts, now).accessUntil, now) <==> HasAccess(facts, now)
    ensures HasAccess(facts, now) ==> ProjectStripe(facts, now).accessUntil.value <= AccessEnds(facts).value
  {
  }

  // Grace is what is left when paid time has run out: the label says so, and the date
  // reported with any other label than a trial's is the paid one.
  lemma GraceComesLast(facts: Facts, now: Time)
    ensures ProjectStripe(facts, now).state.GraceState? <==>
      && HasAccess(facts, now) && !facts.status.Trialing?
      && !Beyond(facts.serviceUntil, now)
    ensures HasAccess(facts, now) && !ProjectStripe(facts, now).state.GraceState? ==>
      ProjectStripe(facts, now).accessUntil == if facts.status.Trialing? then facts.trialEnd else facts.serviceUntil
  {
  }

  // Each label's one cause. Access without a label of its own does not occur, nor a
  // label of access without access.
  lemma LabelsSayWhy(facts: Facts, now: Time)
    ensures var state, status := ProjectStripe(facts, now).state, facts.status;
      var paid := Beyond(facts.serviceUntil, now);
      var scheduled := facts.cancelAtPeriodEnd || Beyond(facts.cancelAt, now);
      && (state.TrialingState? <==> status.Trialing? && HasAccess(facts, now))
      && (state.ActiveState? <==> status.InForce? && paid && !scheduled)
      && (state.CancelScheduled? <==> paid && (status.Canceled? || (status.InForce? && scheduled)))
      && (state.PastDueState? <==> paid && (status.PastDue? || status.Unpaid? || status.Paused?))
      && (state.Expired? <==>
            && !HasAccess(facts, now)
            && (status.Trialing? || status.PastDue? || status.Unpaid? || status.Paused? || status.Canceled?))
      && (state.PendingState? <==>
            && !HasAccess(facts, now)
            && (status.Incomplete? || status.IncompleteExpired? || status.InForce? || status.OtherStatus?))
      && !state.ManualState?
  {
  }

  // The access function agrees with the projection at every instant, whatever the
  // stored row says of its own state and deadlines; with the subscription gone there is
  // no paid access, and none for a dedicated plan.
  lemma EffectiveFollowsSubscription(user: User, e: Entitlement, subscription: Option<Facts>, now: Time)
    requires e.source.FromStripe?
    ensures var access := EffectiveForUser(user, Some(e), subscription, now);
      && (access.PaidAccess? <==> e.plan.PaidPlan? && subscription.Some? && HasAccess(subscription.value, now))
      && (access.PaidAccess? ==>
            && access.plan.PaidPlan? && access.source.FromStripe?
            && access.state == ProjectStripe(subscription.value, now).state)
  {
    if subscription.Some? { ProjectionHasOneDeadline(subscription.value, now); }
  }

  // Without paid access, as without entitlement, a verified account is free, by the way it
  // was verified, and any other ineligible: whatever entitlement and subscription it has.
  lemma FreeOtherwise(user: User, entitlement: Option<Entitlement>, subscription: Option<Facts>, now: Time)
    ensures var access := EffectiveForUser(user, entitlement, subscription, now);
      !access.PaidAccess? || entitlement.None? ==>
        if user.verifiedAt.Some?
           && (user.verification == Some(WorldId) || user.verification == Some(Invite)
               || user.verification == Some(Development))
        then access == FreeAccess(user.verification.value)
        else access == Ineligible
  {
  }

  // A manual grant lasts until the later of its service and grace dates, or for good if
  // it has neither; plan and date are reported as granted, and no subscription matters.
  lemma ManualGrantIs(user: User, e: Entitlement, subscription: Option<Facts>, now: Time)
    requires e.source.Manual?
    ensures var access := EffectiveForUser(user, Some(e), subscription, now);
      var endless := e.serviceUntil.None? && e.graceUntil.None?;
      && (access.PaidAccess? <==> endless || Beyond(e.serviceUntil, now) || Beyond(e.graceUntil, now))
      && (access.PaidAccess? ==>
            && access.plan == e.plan && access.source.Manual? && access.state.ManualState?
            && (access.until.None? <==> endless)
            && (access.until.Some? ==> access.until == e.serviceUntil || access.until == e.graceUntil)
            && (access.until.Some? ==> !Beyond(e.serviceUntil, access.until.value)
                                       && !Beyond(e.graceUntil, access.until.value)))
  {
  }

  // With the stored row fresh at this instant, the reservation guard agrees too.
  lemma GuardFollowsSubscription(e: Entitlement, facts: Facts, now: Time)
    requires e.source.FromStripe? && e == Refreshed(e, facts, now)
    ensures ReservationGuard(e, now) <==> HasAccess(facts, now)
  {
    ProjectionHasOneDeadline(facts, now);
  }

  // On the stored row as it is, fresh or not, access function and guard agree about a
  // paid plan: a label of access, and one of the three dates ahead.
  lemma StoredRowDecides(user: User, e: Entitlement, now: Time)
    requires e.source.FromStripe?
    ensures Effective(user, Some(e), now).PaidAccess? <==> e.plan.PaidPlan? && ReservationGuard(e, now)
    ensures ReservationGuard(e, now) <==>
      && !e.state.PendingState? && !e.state.Expired?
      && (Beyond(e.trialUntil, now) || Beyond(e.serviceUntil, now) || Beyond(e.graceUntil, now))
  {
  }

  function Latest(facts: Facts): Deadline { Later(facts.trialEnd, Later(facts.serviceUntil, facts.graceUntil)) }

  // Stored earlier, the row can only make the guard too generous: it admits until
  // the latest recorded date, not until access ends.
  lemma StaleGuardNeverRefuses(e: Entitlement, facts: Facts, stored: Time, now: Time)
    requires e.source.FromStripe? && e == Refreshed(e, facts, stored) && stored <= now
    ensures HasAccess(facts, now) ==> ReservationGuard(e, now)
    ensures ReservationGuard(e, now) <==> HasAccess(facts, stored) && Beyond(Latest(facts), now)
  {
    ProjectionHasOneDeadline(facts, stored);
    ProjectionHasOneDeadline(facts, now);
  }

  // A manual grant is where guard and access part: the guard looks at the service
  // date alone, the access function at the later of service and grace.
  lemma ManualGuardAgreesIff(user: User, e: Entitlement, now: Time)
    requires e.source.Manual?
    ensures (ReservationGuard(e, now) <==> Effective(user, Some(e), now).PaidAccess?) <==>
      (if e.serviceUntil.None? then e.graceUntil.None? || e.graceUntil.value > now
       else e.serviceUntil.value > now || !Beyond(e.graceUntil, now))
  {
  }

  // Extending what was paid for, or the grace, never takes access away.
  lemma LaterDeadlinesKeepAccess(facts: Facts, service: Deadline, grace: Deadline, now: Time)
    requires facts.serviceUntil.Some? ==> service.Some? && service.value >= facts.serviceUntil.value
    requires facts.graceUntil.Some? ==> grace.Some? && grace.value >= facts.graceUntil.value
    ensures HasAccess(facts, now) ==> HasAccess(facts.(serviceUntil := service, graceUntil := grace), now)
  {
  }

  function OrZero(d: Deadline): Time { if d.Some? then d.value else 0 }

  // With the grace the biller sets, access ends by the trial's end or by the paid
  // period's end plus that grace.
  lemma AccessEndsByGrace(facts: Facts, graceMs: nat)
    requires facts.graceUntil.Some? ==>
      facts.serviceUntil.Some? && facts.graceUntil.value <= facts.serviceUntil.value + graceMs
    ensures AccessEnds(facts).Some? ==>
      || (facts.trialEnd.Some? && AccessEnds(facts).value <= facts.trialEnd.value)
      || (facts.serviceUntil.Some? && AccessEnds(facts).value <= facts.serviceUntil.value + graceMs)
  {
  }

  // The date shown with paid access is the real end exactly when no other recorded
  // date lies beyond it; otherwise it is later than the real end.
  lemma ShownDateIsTheEndIff(user: User, e: Entitlement, facts: Facts, now: Time)
    requires e.source.FromStripe? && e.plan.PaidPlan? && HasAccess(facts, now)
    ensures var shown := EffectiveForUser(user, Some(e), Some(facts), now).until;
      && shown.Some? && shown.value >= AccessEnds(facts).value
      && (shown == AccessEnds(facts) <==>
            match facts.status
            case Trialing => !Beyond(Later(facts.serviceUntil, facts.graceUntil), facts.trialEnd.value)
            case Canceled => !Beyond(Later(facts.trialEnd, facts.graceUntil), facts.serviceUntil.value)
            case _ => !Beyond(facts.trialEnd, Later(facts.serviceUntil, facts.graceUntil).value))
  {
    ProjectionHasOneDeadline(facts, now);
  }

  // An account is premium exactly until its facts' deadline, and verified for good.
  lemma PremiumUntilDeadline(user: User, e: Entitlement, facts: Facts, now: Time)
    requires e.source.FromStripe? && e.plan.PaidPlan?
    ensures var state := AccountStateOf(user, EffectiveForUser(user, Some(e), Some(facts), now));
      && (state.Premium? || state.VerifiedPremium? <==> HasAccess(facts, now))
      && (state.Verified? || state.VerifiedPremium? <==> PermanentlyFree(user))
  {
    EffectiveFollowsSubscription(user, e, Some(facts), now);
  }
}
