// All of one account's subscription rows and its entitlement: the whole batch of a
// Stripe event, built as a list of statements and executed in order.
module Accounts {
  import opened Wrappers
  import opened Plans
  import opened Entitlements
  import opened Billing

  datatype Account = Account(subs: map<SubId, Subscription>, entitlement: Option<Entitlement>)

  datatype Reply = Applied | DuplicateLiveSubscriptions

  predicate LiveStatus(status: StripeStatus) { !status.Canceled? && !status.IncompleteExpired? }

  predicate LiveIn(subs: map<SubId, Subscription>, s: SubId) { s in subs && LiveStatus(subs[s].snapshot.status) }

  predicate OtherLive(subs: map<SubId, Subscription>, s: SubId) {
    exists o | o in subs :: o != s && LiveIn(subs, o)
  }

  function Row(subs: map<SubId, Subscription>, s: SubId): Option<Subscription> {
    if s in subs then Some(subs[s]) else None
  }

  function PutEntitlement(stored: Option<Entitlement>, x: Entitlement): Entitlement {
    if stored.None? then x
    else if stored.value.source.Manual? then stored.value
    else x.(serviceUntil := Larger(stored.value.serviceUntil, x.serviceUntil),
            graceUntil := Larger(stored.value.graceUntil, x.graceUntil))
  }

  function EntitlementFor(x: Subscription, s: SubId, now: Time): Entitlement {
    Entitlement(PaidPlan, FromStripe, ProjectStripe(FactsOf(x), now).state,
                x.snapshot.trialEnd, x.serviceUntil, x.graceUntil, Some(s))
  }

  // An event that read the account as `read` commits on it as it is now.
  function Apply(read: Account, account: Account, p: Payload, graceMs: nat, now: Time): (Account, Reply) {
    var other := OtherLive(read.subs, p.sub);
    if LiveStatus(p.snapshot.status) && other then (account, DuplicateLiveSubscriptions)
    else
      var x := Incoming(Row(read.subs, p.sub), p, graceMs);
      var subs := account.subs[p.sub := Upsert(Row(account.subs, p.sub), x)];
      var entitlement :=
        if other then account.entitlement
        else Some(PutEntitlement(account.entitlement, EntitlementFor(x, p.sub, now)));
      (Account(subs, entitlement), Applied)
  }

  // An event is refused exactly if it and another row it read are neither canceled nor
  // expired before they began.
  lemma RefusedIff(read: Account, account: Account, p: Payload, graceMs: nat, now: Time)
    ensures Apply(read, account, p, graceMs, now).1.DuplicateLiveSubscriptions? <==>
      && p.snapshot.status != Canceled && p.snapshot.status != IncompleteExpired
      && exists o | o in read.subs ::
           && o != p.sub
           && read.subs[o].snapshot.status != Canceled && read.subs[o].snapshot.status != IncompleteExpired
  {
    if o :| o in read.subs && o != p.sub && read.subs[o].snapshot.status != Canceled
            && read.subs[o].snapshot.status != IncompleteExpired
    {
      assert LiveIn(read.subs, o);
    }
  }

  // ---------------------------------------------------------- events in turn

  datatype Arrival = Arrival(payload: Payload, graceMs: nat, now: Time)

  function InTurn(init: Account, arrivals: seq<Arrival>): Account {
    if arrivals == [] then init
    else
      var before := InTurn(init, arrivals[..|arrivals| - 1]);
      var a := arrivals[|arrivals| - 1];
      Apply(before, before, a.payload, a.graceMs, a.now).0
  }

  predicate AtMostOneLive(subs: map<SubId, Subscription>) {
    forall a, b | a in subs && b in subs :: LiveIn(subs, a) && LiveIn(subs, b) ==> a == b
  }

  // At most one subscription is live, and an entitlement that is not a manual grant
  // names it.
  predicate AccountInv(account: Account) {
    && AtMostOneLive(account.subs)
    && (forall s | s in account.subs && LiveIn(account.subs, s) ::
          account.entitlement.Some?
          && (account.entitlement.value.source.FromStripe? ==> account.entitlement.value.sourceRef == Some(s)))
  }

  lemma ApplyKeepsInv(account: Account, p: Payload, graceMs: nat, now: Time)
    requires AccountInv(account)
    ensures AccountInv(Apply(account, account, p, graceMs, now).0)
  {
    var next := Apply(account, account, p, graceMs, now).0;
    forall s | s in next.subs && s != p.sub && LiveIn(next.subs, s) ensures OtherLive(account.subs, p.sub) {
      assert LiveIn(account.subs, s);
    }
  }

  // A late event of an old subscription never displaces the live one.
  lemma {:induction false} OneLiveSubscriptionNamed(init: Account, arrivals: seq<Arrival>)
    requires AccountInv(init)
    ensures AccountInv(InTurn(init, arrivals))
  {
    if arrivals != [] {
      var n := |arrivals| - 1;
      OneLiveSubscriptionNamed(init, arrivals[..n]);
      ApplyKeepsInv(InTurn(init, arrivals[..n]), arrivals[n].payload, arrivals[n].graceMs, arrivals[n].now);
    }
  }

  // ------------------------------------------------- events from old reads

  // Whether the event's own row is live once it has committed.
  predicate LiveAfter(account: Account, p: Payload) {
    LiveStatus(if p.sub in account.subs && account.subs[p.sub].lastEventCreated > p.created
               then account.subs[p.sub].snapshot.status else p.snapshot.status)
  }

  lemma LiveAfterwards(read: Account, account: Account, p: Payload, graceMs: nat, now: Time)
    requires Apply(read, account, p, graceMs, now).1.Applied?
    ensures var next := Apply(read, account, p, graceMs, now).0.subs;
      && (LiveIn(next, p.sub) <==> LiveAfter(account, p))
      && (forall s | s != p.sub :: LiveIn(next, s) <==> LiveIn(account.subs, s))
  {
  }

  // Exactly when an event that read the account earlier leaves one live row: its own
  // row is not live in the end, or no other row has become live meanwhile.
  lemma StaleEventDuplicatesIff(read: Account, account: Account, p: Payload, graceMs: nat, now: Time)
    requires AccountInv(account) && Apply(read, account, p, graceMs, now).1.Applied?
    ensures AtMostOneLive(Apply(read, account, p, graceMs, now).0.subs) <==>
      !OtherLive(account.subs, p.sub) || !LiveAfter(account, p)
  {
    var next := Apply(read, account, p, graceMs, now).0.subs;
    LiveAfterwards(read, account, p, graceMs, now);
    if OtherLive(account.subs, p.sub) {
      var o :| o in account.subs && o != p.sub && LiveIn(account.subs, o);
      assert LiveIn(next, o);
      if LiveIn(next, p.sub) { assert !AtMostOneLive(next); }
    } else {
      forall s | s in next && LiveIn(next, s) ensures s == p.sub {
        assert s != p.sub ==> LiveIn(account.subs, s);
      }
    }
  }

  // Where an event from an old read leaves the account in order: it saw another live
  // subscription, and left the entitlement alone; or there is none now; or a manual
  // grant stands and the event's own row is not live in the end.
  predicate InOrder(read: Account, account: Account, p: Payload) {
    || OtherLive(read.subs, p.sub)
    || !OtherLive(account.subs, p.sub)
    || (account.entitlement.Some? && account.entitlement.value.source.Manual? && !LiveAfter(account, p))
  }

  lemma StaleEventKeepsAccountIff(read: Account, account: Account, p: Payload, graceMs: nat, now: Time)
    requires AccountInv(account) && Apply(read, account, p, graceMs, now).1.Applied?
    ensures AccountInv(Apply(read, account, p, graceMs, now).0) <==> InOrder(read, account, p)
  {
    var next := Apply(read, account, p, graceMs, now).0;
    LiveAfterwards(read, account, p, graceMs, now);
    StaleEventDuplicatesIff(read, account, p, graceMs, now);
    if OtherLive(account.subs, p.sub) {
      var o :| o in account.subs && o != p.sub && LiveIn(account.subs, o);
      assert LiveIn(next.subs, o) && o in next.subs;
    } else {
      forall s | s in next.subs && LiveIn(next.subs, s) ensures s == p.sub {
        assert s != p.sub ==> LiveIn(account.subs, s);
      }
    }
  }

  // The account's states when each event read it as it was `readAt` events in.
  datatype Stale = Stale(arrival: Arrival, readAt: nat)

  function States(init: Account, events: seq<Stale>): (states: seq<Account>)
    ensures |states| == |events| + 1 && states[0] == init
  {
    if events == [] then [init]
    else
      var before := States(init, events[..|events| - 1]);
      before + [Committed(before, events[|events| - 1]).0]
  }

  function ReadOf(before: seq<Account>, e: Stale): Account
    requires before != []
  {
    if e.readAt < |before| then before[e.readAt] else before[|before| - 1]
  }

  function Committed(before: seq<Account>, e: Stale): (Account, Reply)
    requires before != []
  {
    Apply(ReadOf(before, e), before[|before| - 1], e.arrival.payload, e.arrival.graceMs, e.arrival.now)
  }

  predicate StepInOrder(before: seq<Account>, e: Stale)
    requires before != []
  {
    Committed(before, e).1.Applied? ==> InOrder(ReadOf(before, e), before[|before| - 1], e.arrival.payload)
  }

  // The account after i events is in order; event m was.
  predicate KeptAt(init: Account, events: seq<Stale>, i: nat)
    requires i <= |events|
  {
    AccountInv(States(init, events[..i])[i])
  }

  predicate OrderlyAt(init: Account, events: seq<Stale>, m: nat)
    requires m < |events|
  {
    StepInOrder(States(init, events[..m]), events[m])
  }

  // Over any run of events from old reads: one live subscription, rightly named, in
  // every state exactly if every event was in order.
  lemma {:induction false} AccountKeptIff(init: Account, events: seq<Stale>, n: nat)
    requires AccountInv(init) && n <= |events|
    ensures (forall i | 0 <= i <= n :: KeptAt(init, events, i)) <==>
      (forall m | 0 <= m < n :: OrderlyAt(init, events, m))
  {
    assert KeptAt(init, events, 0);
    hide KeptAt, OrderlyAt, AccountInv;
    if n > 0 {
      AccountKeptIff(init, events, n - 1);
      if KeptAt(init, events, n - 1) { NextKeptIff(init, events, n); }
    }
  }

  lemma NextKeptIff(init: Account, events: seq<Stale>, n: nat)
    requires 0 < n <= |events| && KeptAt(init, events, n - 1)
    ensures KeptAt(init, events, n) <==> OrderlyAt(init, events, n - 1)
  {
    assert events[..n][..n - 1] == events[..n - 1];
    hide AccountInv, StepInOrder, Committed;
    LastKeptIff(States(init, events[..n - 1]), events[n - 1]);
  }

  lemma LastKeptIff(before: seq<Account>, e: Stale)
    requires before != [] && AccountInv(before[|before| - 1])
    ensures AccountInv(Committed(before, e).0) <==> StepInOrder(before, e)
  {
    if Committed(before, e).1.Applied? {
      StaleEventKeepsAccountIff(ReadOf(before, e), before[|before| - 1], e.arrival.payload, e.arrival.graceMs,
                                e.arrival.now);
    }
  }

  // ------------------------------------------------ what the entitlement holds

  predicate IsManual(account: Account) { account.entitlement.Some? && account.entitlement.value.source.Manual? }

  // What the event would record of its subscription alone, from what it read.
  function Own(read: Account, p: Payload, graceMs: nat): Subscription { Incoming(Row(read.subs, p.sub), p, graceMs) }

  // An event that saw another live subscription, or meets a manual grant, leaves the
  // entitlement alone. Any other stores a paid grant in its subscription's name, with its
  // trial date, on which reservations are guarded exactly as its own facts grant access.
  lemma StoredGrantIs(read: Account, account: Account, p: Payload, graceMs: nat, now: Time)
    requires Apply(read, account, p, graceMs, now).1.Applied? && now >= 0
    ensures var stored := Apply(read, account, p, graceMs, now).0.entitlement;
      if OtherLive(read.subs, p.sub) || IsManual(account) then stored == account.entitlement
      else
        && stored.Some? && stored.value.plan.PaidPlan? && stored.value.source.FromStripe?
        && stored.value.sourceRef == Some(p.sub) && stored.value.trialUntil == p.snapshot.trialEnd
        && stored.value.state == ProjectStripe(FactsOf(Own(read, p, graceMs)), now).state
        && (ReservationGuard(stored.value, now) <==> HasAccess(FactsOf(Own(read, p, graceMs)), now))
  {
    ProjectionHasOneDeadline(FactsOf(Own(read, p, graceMs)), now);
  }

  // An event that is applied, from whatever read, changes its own row only: each date to
  // the later of the row's and its own, the snapshot to that of the later of the two
  // events, and the invoice if it has one. Any other changes nothing.
  lemma StoredRowIs(read: Account, account: Account, p: Payload, graceMs: nat, now: Time)
    ensures var (next, reply) := Apply(read, account, p, graceMs, now);
      var own := Own(read, p, graceMs);
      if reply.DuplicateLiveSubscriptions? then
        next == account && OtherLive(read.subs, p.sub) && LiveStatus(p.snapshot.status)
      else
        && (forall s | s != p.sub :: Row(next.subs, s) == Row(account.subs, s))
        && p.sub in next.subs
        && var after := next.subs[p.sub];
        if p.sub !in account.subs then after == own
        else
          var row := account.subs[p.sub];
          && OrZero(after.serviceUntil) == Max(OrZero(row.serviceUntil), OrZero(own.serviceUntil))
          && OrZero(after.graceUntil) == Max(OrZero(row.graceUntil), OrZero(own.graceUntil))
          && after.lastEventCreated == Max(row.lastEventCreated, p.created)
          && after.snapshot == (if p.created >= row.lastEventCreated then p.snapshot else row.snapshot)
          && after.lastPaidInvoice == (if own.lastPaidInvoice.Some? then own.lastPaidInvoice else row.lastPaidInvoice)
  {
  }

  // The row an event leaves has the event's dates, and its snapshot unless the row had
  // recorded a later event.
  lemma OwnRowIs(account: Account, p: Payload, graceMs: nat, now: Time)
    requires RowInv(Row(account.subs, p.sub), graceMs) && Apply(account, account, p, graceMs, now).1.Applied?
    ensures var next, own := Apply(account, account, p, graceMs, now).0, Own(account, p, graceMs);
      && p.sub in next.subs
      && FactsOf(next.subs[p.sub]) == FactsOf(own.(snapshot :=
           if p.sub in account.subs && account.subs[p.sub].lastEventCreated > p.created
           then account.subs[p.sub].snapshot else p.snapshot))
  {
  }

  // Guard and stored row agree after an event that read the account as it is: always for
  // the newest event, and for a late one exactly when its snapshot and the one the row
  // keeps grant access alike.
  lemma GuardFollowsRowIff(account: Account, p: Payload, graceMs: nat, now: Time)
    requires RowInv(Row(account.subs, p.sub), graceMs) && now >= 0
    requires !OtherLive(account.subs, p.sub) && !IsManual(account)
    ensures var next := Apply(account, account, p, graceMs, now).0;
      && next.entitlement.Some? && p.sub in next.subs
      && ((ReservationGuard(next.entitlement.value, now) <==> HasAccess(FactsOf(next.subs[p.sub]), now)) <==>
            p.sub !in account.subs || account.subs[p.sub].lastEventCreated <= p.created ||
            var own := Own(account, p, graceMs);
            HasAccess(FactsOf(own), now) == HasAccess(FactsOf(own.(snapshot := account.subs[p.sub].snapshot)), now))
  {
    StoredGrantIs(account, account, p, graceMs, now);
    OwnRowIs(account, p, graceMs, now);
    hide ReservationGuard, HasAccess;
  }

  // The snapshot of a trial, taken before it was canceled and committed after, opens the
  // guard again while the row, and with it the access function, stays without access.
  lemma LateEventReopensGuard(canceled: Subscription, late: Payload, graceMs: nat, now: Time)
    requires canceled.snapshot.status.Canceled? && canceled.serviceUntil.None? && now >= 0
    requires late.created < canceled.lastEventCreated && !late.kind.InvoicePaid?
    requires HasAccess(FactsOf(Own(Account(map[], None), late, graceMs)), now) && late.snapshot.status.Trialing?
    ensures var account := Account(map[late.sub := canceled], None);
      var (next, reply) := Apply(account, account, late, graceMs, now);
      && reply.Applied? && next.entitlement.Some? && late.sub in next.subs
      && ReservationGuard(next.entitlement.value, now) && !HasAccess(FactsOf(next.subs[late.sub]), now)
  {
    var account := Account(map[late.sub := canceled], None);
    StoredGrantIs(account, account, late, graceMs, now);
  }

  // Event m of the run was applied, having seen no other live subscription.
  predicate IsOwn(init: Account, events: seq<Stale>, m: nat)
    requires m < |events|
  {
    var before := States(init, events[..m]);
    && Committed(before, events[m]).1.Applied?
    && !OtherLive(ReadOf(before, events[m]).subs, events[m].arrival.payload.sub)
  }

  function OwnAt(init: Account, events: seq<Stale>, m: nat): Subscription
    requires m < |events|
  {
    var e := events[m];
    Own(ReadOf(States(init, events[..m]), e), e.arrival.payload, e.arrival.graceMs)
  }

  // The stored grant has the furthest service and grace date of the first row's and
  // those of the first n events that were the account's own.
  predicate FurthestStored(init: Account, events: seq<Stale>, n: nat, stored: Option<Entitlement>)
    requires n <= |events|
  {
    && (stored.None? <==> init.entitlement.None? && forall m | 0 <= m < n :: !IsOwn(init, events, m))
    && (stored.Some? ==>
          && (init.entitlement.Some? ==>
                && OrZero(init.entitlement.value.serviceUntil) <= OrZero(stored.value.serviceUntil)
                && OrZero(init.entitlement.value.graceUntil) <= OrZero(stored.value.graceUntil))
          && (forall m | 0 <= m < n && IsOwn(init, events, m) ::
                && OrZero(OwnAt(init, events, m).serviceUntil) <= OrZero(stored.value.serviceUntil)
                && OrZero(OwnAt(init, events, m).graceUntil) <= OrZero(stored.value.graceUntil))
          && ((init.entitlement.Some? && stored.value.serviceUntil == init.entitlement.value.serviceUntil)
              || exists m | 0 <= m < n :: IsOwn(init, events, m)
                                          && stored.value.serviceUntil == OwnAt(init, events, m).serviceUntil)
          && ((init.entitlement.Some? && stored.value.graceUntil == init.entitlement.value.graceUntil)
              || exists m | 0 <= m < n :: IsOwn(init, events, m)
                                          && stored.value.graceUntil == OwnAt(init, events, m).graceUntil))
  }

  // What the next event leaves of a stored grant.
  predicate Follows(stored: Option<Entitlement>, next: Option<Entitlement>, isOwn: bool, own: Subscription) {
    if !isOwn || (stored.Some? && stored.value.source.Manual?) then next == stored
    else
      && next.Some? && next.value.source.FromStripe?
      && next.value.serviceUntil ==
         (if stored.Some? then Larger(stored.value.serviceUntil, own.serviceUntil) else own.serviceUntil)
      && next.value.graceUntil ==
         (if stored.Some? then Larger(stored.value.graceUntil, own.graceUntil) else own.graceUntil)
  }

  lemma NextStored(init: Account, events: seq<Stale>, n: nat)
    requires n < |events|
    ensures |States(init, events[..n])| == n + 1 && |States(init, events[..n + 1])| == n + 2
    ensures Follows(States(init, events[..n])[n].entitlement, States(init, events[..n + 1])[n + 1].entitlement,
                    IsOwn(init, events, n), OwnAt(init, events, n))
  {
    assert events[..n + 1][..n] == events[..n];
  }

  lemma FurthestNext(init: Account, events: seq<Stale>, n: nat, stored: Option<Entitlement>, next: Option<Entitlement>)
    requires n < |events| && FurthestStored(init, events, n, stored)
    requires stored.Some? ==> stored.value.source.FromStripe?
    requires Follows(stored, next, IsOwn(init, events, n), OwnAt(init, events, n))
    ensures FurthestStored(init, events, n + 1, next) && (next.Some? ==> next.value.source.FromStripe?)
  {
    hide IsOwn, OwnAt;
  }

  // Over any run of events from old reads a manual grant stays as it was, and any other
  // keeps the furthest dates recorded.
  lemma {:induction false} FurthestDatesAreKept(init: Account, events: seq<Stale>, n: nat)
    requires n <= |events|
    ensures var stored := States(init, events[..n])[n].entitlement;
      if IsManual(init) then stored == init.entitlement
      else (stored.Some? ==> stored.value.source.FromStripe?) && FurthestStored(init, events, n, stored)
  {
    if n > 0 {
      FurthestDatesAreKept(init, events, n - 1);
      NextStored(init, events, n - 1);
      hide States, FurthestStored, IsOwn, OwnAt;
      if !IsManual(init) {
        FurthestNext(init, events, n - 1, States(init, events[..n - 1])[n - 1].entitlement,
                     States(init, events[..n])[n].entitlement);
      }
    }
  }

  // Two first events of two subscriptions, processed at once, both become live.
  lemma ConcurrentEventsDuplicate(a: Payload, b: Payload, graceMs: nat, now: Time)
    requires a.sub != b.sub && LiveStatus(a.snapshot.status) && LiveStatus(b.snapshot.status)
    ensures var empty := Account(map[], None);
      var first := Apply(empty, empty, a, graceMs, now).0;
      var both := Apply(empty, first, b, graceMs, now).0;
      LiveIn(both.subs, a.sub) && LiveIn(both.subs, b.sub) && AccountInv(first) && !AccountInv(both)
  {
  }

  // A late cancellation that read no live subscription takes the entitlement's name
  // from the one that has become live since.
  lemma LateCancellationDisplaces(account: Account, late: Payload, live: SubId, graceMs: nat, now: Time)
    requires AccountInv(account) && live in account.subs && LiveIn(account.subs, live) && late.sub != live
    requires late.sub !in account.subs && late.snapshot.status.Canceled?
    requires account.entitlement.value.source.FromStripe?
    ensures var (next, reply) := Apply(Account(map[], None), account, late, graceMs, now);
      && reply.Applied? && AtMostOneLive(next.subs) && LiveIn(next.subs, live)
      && next.entitlement.Some? && next.entitlement.value.sourceRef == Some(late.sub)
  {
    StaleEventDuplicatesIff(Account(map[], None), account, late, graceMs, now);
  }

  // ------------------------------------------------------- the batch of an event

  datatype Statement =
    | UpsertSubscription(sub: SubId, x: Subscription)
    | UpsertEntitlement(e: Entitlement)
    | UpdateUser(plan: bool)

  class BillingTables {
    var subs: map<SubId, Subscription>
    var entitlement: Option<Entitlement>
    // Whether the account's compatibility column says paid.
    var userPaid: bool

    function Value(): Account
      reads this
    {
      Account(subs, entitlement)
    }

    constructor (account: Account)
      ensures Value() == account
    {
      subs, entitlement, userPaid := account.subs, account.entitlement, false;
    }

    method AnyOtherLive(s: SubId) returns (found: bool)
      ensures found <==> OtherLive(subs, s)
    {
      var left := subs.Keys;
      while left != {}
        invariant left <= subs.Keys
        invariant forall o | o in subs && o !in left :: o == s || !LiveIn(subs, o)
        decreases |left|
      {
        var o :| o in left;
        if o != s && LiveStatus(subs[o].snapshot.status) {
          assert LiveIn(subs, o);
          return true;
        }
        left := left - {o};
      }
      found := false;
    }

    method ExecuteStatement(st: Statement)
      modifies this
      ensures match st
        case UpsertSubscription(s, x) =>
          && subs == old(subs)[s := Upsert(Row(old(subs), s), x)]
          && entitlement == old(entitlement) && userPaid == old(userPaid)
        case UpsertEntitlement(e) =>
          entitlement == Some(PutEntitlement(old(entitlement), e)) && subs == old(subs) && userPaid == old(userPaid)
        case UpdateUser(plan) =>
          subs == old(subs) && entitlement == old(entitlement)
          && userPaid == if entitlement.Some? && entitlement.value.source.Manual? then old(userPaid) else plan
    {
      match st
      case UpsertSubscription(s, x) => subs := subs[s := Upsert(Row(subs, s), x)];
      case UpsertEntitlement(e) => entitlement := Some(PutEntitlement(entitlement, e));
      case UpdateUser(plan) =>
        if entitlement.None? || !entitlement.value.source.Manual? { userPaid := plan; }
    }

    // The reads, the list of statements, and their execution, with no event between.
    method ApplyCanonicalSubscription(p: Payload, graceMs: nat, now: Time) returns (reply: Reply)
      modifies this
      ensures (Value(), reply) == Apply(old(Value()), old(Value()), p, graceMs, now)
      ensures old(AccountInv(Value())) ==> AccountInv(Value())
      ensures reply.DuplicateLiveSubscriptions? <==> LiveStatus(p.snapshot.status) && OtherLive(old(subs), p.sub)
      ensures userPaid ==
        if OtherLive(old(subs), p.sub) || IsManual(old(Value())) then old(userPaid)
        else HasAccess(FactsOf(Own(old(Value()), p, graceMs)), now)
    {
      if AccountInv(Value()) { ApplyKeepsInv(Value(), p, graceMs, now); }
      var existing := Row(subs, p.sub);
      var other := AnyOtherLive(p.sub);
      if LiveStatus(p.snapshot.status) && other { return DuplicateLiveSubscriptions; }
      var x := Incoming(existing, p, graceMs);
      ProjectionHasOneDeadline(FactsOf(x), now);
      var statements := [UpsertSubscription(p.sub, x)];
      if !other {
        statements := statements + [UpsertEntitlement(EntitlementFor(x, p.sub, now))];
        statements := statements + [UpdateUser(Beyond(ProjectStripe(FactsOf(x), now).accessUntil, now))];
      }
      var i := 0;
      while i < |statements|
        invariant i <= |statements|
        invariant subs == if i > 0 then old(subs)[p.sub := Upsert(existing, x)] else old(subs)
        invariant entitlement ==
          if i > 1 then Some(PutEntitlement(old(entitlement), EntitlementFor(x, p.sub, now))) else old(entitlement)
        invariant userPaid ==
          if i > 2 && !IsManual(old(Value())) then Beyond(ProjectStripe(FactsOf(x), now).accessUntil, now)
          else old(userPaid)
      {
        ExecuteStatement(statements[i]);
        i := i + 1;
      }
      reply := Applied;
    }
  }
}
