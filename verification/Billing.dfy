// Stripe events folded into subscription rows: some fields follow the newest
// event, some only grow, and every event starts from rows it read earlier.
module Billing {
  import opened Wrappers
  import opened Plans
  import opened Entitlements

  type SubId = nat
  type PeriodEnd = t: int | 0 < t witness 1

  // What the newest event decides.
  datatype Snapshot = Snapshot(
    status: StripeStatus, cancelAtPeriodEnd: bool, cancelAt: Deadline,
    trialStart: Deadline, trialEnd: Deadline, endedAt: Deadline)

  datatype Subscription = Subscription(
    snapshot: Snapshot, serviceUntil: Deadline, graceUntil: Deadline,
    lastPaidInvoice: Option<nat>, lastEventCreated: int)

  datatype EventKind = InvoicePaid | PaymentFailed | OtherEvent
  datatype Payload = Payload(
    sub: SubId, kind: EventKind, created: int, snapshot: Snapshot, periodEnd: PeriodEnd, invoice: Option<nat>)

  predicate PaysInvoice(p: Payload) { p.kind.InvoicePaid? && p.snapshot.status.InForce? }

  function PaidThrough(p: Payload): int { if PaysInvoice(p) then p.periodEnd else 0 }

  // JavaScript's `value || null`.
  function NullIfZero(t: int): Deadline { if t == 0 then None else Some(t) }

  function ServiceOf(row: Option<Subscription>): int { if row.Some? then OrZero(row.value.serviceUntil) else 0 }

  // The row an event would insert, computed from the row it read.
  function Incoming(read: Option<Subscription>, p: Payload, graceMs: nat): Subscription {
    var service := NullIfZero(Max(ServiceOf(read), PaidThrough(p)));
    var grace :=
      if p.kind.PaymentFailed? && service.Some? && graceMs > 0 then Some(service.value + graceMs)
      else if read.Some? then read.value.graceUntil else None;
    var invoice := if PaysInvoice(p) then p.invoice else if read.Some? then read.value.lastPaidInvoice else None;
    Subscription(p.snapshot, service, grace, invoice, p.created)
  }

  function Larger(stored: Deadline, incoming: Deadline): Deadline {
    if OrZero(incoming) > OrZero(stored) then incoming else stored
  }

  function Upsert(row: Option<Subscription>, x: Subscription): Subscription {
    if row.None? then x
    else
      var r := row.value;
      Subscription(
        if x.lastEventCreated >= r.lastEventCreated then x.snapshot else r.snapshot,
        Larger(r.serviceUntil, x.serviceUntil),
        Larger(r.graceUntil, x.graceUntil),
        if x.lastPaidInvoice.Some? then x.lastPaidInvoice else r.lastPaidInvoice,
        Max(r.lastEventCreated, x.lastEventCreated))
  }

  function FactsOf(row: Subscription): Facts {
    Facts(row.snapshot.status, row.snapshot.cancelAtPeriodEnd, row.snapshot.cancelAt,
          row.snapshot.trialEnd, row.serviceUntil, row.graceUntil)
  }

  // ------------------------------------------------------ one row, many events

  // An event commits with the row as it was `readAt` commits into the run.
  datatype Commit = Commit(payload: Payload, readAt: nat)

  function Rows(init: Option<Subscription>, run: seq<Commit>, graceMs: nat): (rows: seq<Option<Subscription>>)
    ensures |rows| == |run| + 1 && rows[0] == init
  {
    if run == [] then [init]
    else
      var before := Rows(init, run[..|run| - 1], graceMs);
      before + [Some(Committed(before, run[|run| - 1], graceMs))]
  }

  function Committed(before: seq<Option<Subscription>>, commit: Commit, graceMs: nat): Subscription
    requires before != []
  {
    var read := if commit.readAt < |before| then before[commit.readAt] else before[|before| - 1];
    Upsert(before[|before| - 1], Incoming(read, commit.payload, graceMs))
  }

  function Final(init: Option<Subscription>, run: seq<Commit>, graceMs: nat): Option<Subscription> {
    Rows(init, run, graceMs)[|run|]
  }

  // No deadline is zero, and grace extends a paid period by no more than the setting.
  predicate RowInv(row: Option<Subscription>, graceMs: nat) {
    row.Some? ==>
      && (row.value.serviceUntil.Some? ==> row.value.serviceUntil.value > 0)
      && (row.value.graceUntil.Some? ==>
            && row.value.serviceUntil.Some?
            && 0 < row.value.graceUntil.value <= row.value.serviceUntil.value + graceMs)
  }

  // What a row may have become.
  predicate Grew(a: Option<Subscription>, b: Option<Subscription>) {
    a.Some? ==>
      && b.Some?
      && (a.value.serviceUntil.Some? ==> b.value.serviceUntil.Some?)
      && OrZero(a.value.serviceUntil) <= OrZero(b.value.serviceUntil)
  }

  lemma CommitOk(read: Option<Subscription>, row: Option<Subscription>, p: Payload, graceMs: nat)
    requires RowInv(read, graceMs) && RowInv(row, graceMs) && Grew(read, row)
    ensures var next := Some(Upsert(row, Incoming(read, p, graceMs)));
      && RowInv(next, graceMs) && Grew(row, next)
      && ServiceOf(next) == Max(ServiceOf(row), PaidThrough(p))
  {
  }

  predicate GoodRows(rows: seq<Option<Subscription>>, graceMs: nat) {
    && rows != []
    && (forall i | 0 <= i < |rows| :: RowInv(rows[i], graceMs))
    && (forall i, j | 0 <= i < j < |rows| :: Grew(rows[i], rows[j]))
  }

  lemma {:induction false} RowsOk(init: Option<Subscription>, run: seq<Commit>, graceMs: nat)
    requires RowInv(init, graceMs)
    ensures GoodRows(Rows(init, run, graceMs), graceMs)
  {
    if run != [] {
      var n := |run| - 1;
      RowsOk(init, run[..n], graceMs);
      ExtendRows(Rows(init, run[..n], graceMs), run[n], graceMs);
    }
  }

  lemma ExtendRows(before: seq<Option<Subscription>>, commit: Commit, graceMs: nat)
    requires GoodRows(before, graceMs)
    ensures GoodRows(before + [Some(Committed(before, commit, graceMs))], graceMs)
    ensures ServiceOf(Some(Committed(before, commit, graceMs))) ==
      Max(ServiceOf(before[|before| - 1]), PaidThrough(commit.payload))
  {
    var last := before[|before| - 1];
    var read := if commit.readAt < |before| then before[commit.readAt] else last;
    CommitOk(read, last, commit.payload, graceMs);
  }

  function NewestPaid(from: int, run: seq<Commit>): int {
    if run == [] then from else Max(NewestPaid(from, run[..|run| - 1]), PaidThrough(run[|run| - 1].payload))
  }

  // Paid time is never lost: in any interleaving, with any old reads, the row ends
  // at the furthest date any event paid for.
  lemma {:induction false} ServiceIsNewestPaid(init: Option<Subscription>, run: seq<Commit>, graceMs: nat)
    requires RowInv(init, graceMs)
    ensures ServiceOf(Final(init, run, graceMs)) == NewestPaid(ServiceOf(init), run)
  {
    if run != [] {
      var n := |run| - 1;
      ServiceIsNewestPaid(init, run[..n], graceMs);
      RowsOk(init, run[..n], graceMs);
      ExtendRows(Rows(init, run[..n], graceMs), run[n], graceMs);
    }
  }

  // Grace never outlasts the paid period by more than the setting, so neither does access.
  lemma AccessBoundedInEveryRun(init: Option<Subscription>, run: seq<Commit>, graceMs: nat, i: nat)
    requires RowInv(init, graceMs) && i <= |run| && Rows(init, run, graceMs)[i].Some?
    ensures var facts := FactsOf(Rows(init, run, graceMs)[i].value);
      AccessEnds(facts).Some? ==>
        || (facts.trialEnd.Some? && AccessEnds(facts).value <= facts.trialEnd.value)
        || (facts.serviceUntil.Some? && AccessEnds(facts).value <= facts.serviceUntil.value + graceMs)
  {
    RowsOk(init, run, graceMs);
    AccessEndsByGrace(FactsOf(Rows(init, run, graceMs)[i].value), graceMs);
  }

  // ------------------------------------------------------------- convergence

  predicate Delivered(run: seq<Commit>, p: Payload) { exists i | 0 <= i < |run| :: run[i].payload == p }

  // Event times tell events apart, redeliveries of the same event excepted: of one in
  // the run, and of the one the first row records.
  predicate TimesDistinct(init: Option<Subscription>, run: seq<Commit>) {
    && (init.Some? ==> forall i | 0 <= i < |run| ::
          run[i].payload.created == init.value.lastEventCreated ==> run[i].payload.snapshot == init.value.snapshot)
    && (forall i, j | 0 <= i < |run| && 0 <= j < |run| ::
          run[i].payload.created == run[j].payload.created ==> run[i].payload == run[j].payload)
  }

  predicate Unmoved(init: Option<Subscription>, row: Subscription) {
    init.Some? && row.snapshot == init.value.snapshot && row.lastEventCreated == init.value.lastEventCreated
  }

  predicate SetBy(p: Payload, row: Subscription) {
    p.snapshot == row.snapshot && p.created == row.lastEventCreated
  }

  // The row's snapshot and time are those of one event, and no event is newer.
  predicate Newest(init: Option<Subscription>, run: seq<Commit>, row: Subscription) {
    && (init.Some? ==> init.value.lastEventCreated <= row.lastEventCreated)
    && (forall i | 0 <= i < |run| :: run[i].payload.created <= row.lastEventCreated)
    && (Unmoved(init, row) || exists i | 0 <= i < |run| :: SetBy(run[i].payload, row))
  }

  lemma {:induction false} NewestEventDecides(init: Option<Subscription>, run: seq<Commit>, graceMs: nat)
    requires init.Some? || run != []
    ensures Final(init, run, graceMs).Some?
    ensures Newest(init, run, Final(init, run, graceMs).value)
  {
    if run != [] {
      var n := |run| - 1;
      var row, next := Final(init, run[..n], graceMs), Final(init, run, graceMs).value;
      if init.Some? || n > 0 {
        NewestEventDecides(init, run[..n], graceMs);
        if run[n].payload.created < row.value.lastEventCreated && !Unmoved(init, row.value) {
          var i :| 0 <= i < n && SetBy(run[..n][i].payload, row.value);
          assert SetBy(run[i].payload, next);
        }
      }
      assert run[n].payload.created >= next.lastEventCreated ==> SetBy(run[n].payload, next);
      forall i | 0 <= i < |run| ensures run[i].payload.created <= next.lastEventCreated {
        if i < n { assert run[..n][i] == run[i]; }
      }
    }
  }

  lemma {:induction false} NewestPaidBounds(from: int, run: seq<Commit>)
    ensures from <= NewestPaid(from, run)
    ensures forall i | 0 <= i < |run| :: PaidThrough(run[i].payload) <= NewestPaid(from, run)
    ensures NewestPaid(from, run) == from
      || exists i :: 0 <= i < |run| && PaidThrough(run[i].payload) == NewestPaid(from, run)
  {
    if run != [] {
      var n := |run| - 1;
      NewestPaidBounds(from, run[..n]);
      forall i | 0 <= i < |run| ensures PaidThrough(run[i].payload) <= NewestPaid(from, run) {
        if i < n { assert run[..n][i] == run[i]; }
      }
    }
  }

  lemma PaidBySame(from: int, a: seq<Commit>, b: seq<Commit>)
    requires forall i | 0 <= i < |a| :: Delivered(b, a[i].payload)
    ensures NewestPaid(from, a) <= NewestPaid(from, b)
  {
    NewestPaidBounds(from, a);
    NewestPaidBounds(from, b);
    if i :| 0 <= i < |a| && PaidThrough(a[i].payload) == NewestPaid(from, a) {
      assert Delivered(b, a[i].payload);
    }
  }

  // The same events, in whatever order, delivered however often and processed from
  // whatever old rows, leave the same status, cancellation, trial, end, paid-through
  // date and event time.
  lemma DeliveryOrderDoesNotMatter(init: Option<Subscription>, a: seq<Commit>, b: seq<Commit>, graceMs: nat)
    requires RowInv(init, graceMs) && TimesDistinct(init, a) && (init.Some? || a != [])
    requires forall i | 0 <= i < |a| :: Delivered(b, a[i].payload)
    requires forall i | 0 <= i < |b| :: Delivered(a, b[i].payload)
    ensures Final(init, a, graceMs).Some? && Final(init, b, graceMs).Some?
    ensures var x, y := Final(init, a, graceMs).value, Final(init, b, graceMs).value;
      && x.snapshot == y.snapshot
      && x.lastEventCreated == y.lastEventCreated
      && OrZero(x.serviceUntil) == OrZero(y.serviceUntil)
  {
    if a != [] { assert Delivered(b, a[0].payload); }
    NewestEventDecides(init, a, graceMs);
    NewestEventDecides(init, b, graceMs);
    ServiceIsNewestPaid(init, a, graceMs);
    ServiceIsNewestPaid(init, b, graceMs);
    PaidBySame(ServiceOf(init), a, b);
    PaidBySame(ServiceOf(init), b, a);
    SameNewest(init, a, b, Final(init, a, graceMs).value, Final(init, b, graceMs).value);
  }

  lemma SameNewest(init: Option<Subscription>, a: seq<Commit>, b: seq<Commit>, x: Subscription, y: Subscription)
    requires Newest(init, a, x) && Newest(init, b, y) && TimesDistinct(init, a)
    requires forall i | 0 <= i < |a| :: Delivered(b, a[i].payload)
    requires forall i | 0 <= i < |b| :: Delivered(a, b[i].payload)
    ensures x.snapshot == y.snapshot && x.lastEventCreated == y.lastEventCreated
  {
    if i :| 0 <= i < |a| && SetBy(a[i].payload, x) { assert Delivered(b, a[i].payload); }
    if j :| 0 <= j < |b| && SetBy(b[j].payload, y) { assert Delivered(a, b[j].payload); }
  }

  // The zero-value invoice that opens a trial buys no service, whatever its period.
  lemma TrialInvoiceBuysNothing(read: Option<Subscription>, row: Option<Subscription>, p: Payload, graceMs: nat)
    requires RowInv(read, graceMs) && RowInv(row, graceMs) && Grew(read, row)
    requires p.kind.InvoicePaid? && p.snapshot.status.Trialing?
    ensures ServiceOf(Some(Upsert(row, Incoming(read, p, graceMs)))) == ServiceOf(row)
  {
    CommitOk(read, row, p, graceMs);
  }

  // ------------------------------------------ what does depend on the order

  // Only a failed payment sets a grace date, if the setting gives any and something was
  // ever paid for: so long after the service date as it was read. Any other event has the
  // grace it read.
  lemma OnlyFailuresGiveGrace(read: Option<Subscription>, p: Payload, graceMs: nat)
    ensures var own := Incoming(read, p, graceMs);
      own.graceUntil ==
        if p.kind.PaymentFailed? && graceMs > 0 && ServiceOf(read) > 0 then Some(ServiceOf(read) + graceMs)
        else if read.Some? then read.value.graceUntil else None
  {
  }

  // A failed payment extends access by the whole grace exactly when the paid date it
  // read is still the row's, unless the row had that grace already.
  lemma FailedPaymentGraceIff(read: Option<Subscription>, row: Subscription, p: Payload, graceMs: nat)
    requires RowInv(read, graceMs) && RowInv(Some(row), graceMs) && Grew(read, Some(row))
    requires p.kind.PaymentFailed? && graceMs > 0 && row.serviceUntil.Some?
    ensures var full := Some(row.serviceUntil.value + graceMs);
      Upsert(Some(row), Incoming(read, p, graceMs)).graceUntil == full <==>
        ServiceOf(read) == row.serviceUntil.value || row.graceUntil == full
  {
  }

  function InvoiceOf(row: Option<Subscription>): Option<nat> {
    if row.Some? then row.value.lastPaidInvoice else None
  }

  // The invoice of the last event that settled one.
  function LastSettled(from: Option<nat>, run: seq<Commit>): Option<nat> {
    if run == [] then from
    else
      var last := run[|run| - 1].payload;
      if PaysInvoice(last) && last.invoice.Some? then last.invoice else LastSettled(from, run[..|run| - 1])
  }

  // The row commit n read, and the row it met.
  function ReadBy(rows: seq<Option<Subscription>>, commit: Commit, n: nat): Option<Subscription>
    requires n < |rows|
  {
    if commit.readAt <= n then rows[commit.readAt] else rows[n]
  }

  // An event that settles no invoice had read none, or the one that is stored.
  predicate CarriesInvoice(rows: seq<Option<Subscription>>, commit: Commit, n: nat)
    requires n < |rows|
  {
    PaysInvoice(commit.payload) || InvoiceOf(ReadBy(rows, commit, n)).None?
    || InvoiceOf(ReadBy(rows, commit, n)) == InvoiceOf(rows[n])
  }

  lemma InvoiceKeptIff(read: Option<Subscription>, row: Option<Subscription>, p: Payload, graceMs: nat)
    ensures InvoiceOf(Some(Upsert(row, Incoming(read, p, graceMs)))) ==
            (if PaysInvoice(p) && p.invoice.Some? then p.invoice else InvoiceOf(row)) <==>
      PaysInvoice(p) || InvoiceOf(read).None? || InvoiceOf(read) == InvoiceOf(row)
  {
  }

  lemma {:induction false} RowsPrefix(init: Option<Subscription>, run: seq<Commit>, graceMs: nat, n: nat)
    requires n <= |run|
    ensures Rows(init, run[..n], graceMs) == Rows(init, run, graceMs)[..n + 1]
  {
    if n == |run| {
      assert run[..n] == run;
    } else {
      RowsPrefix(init, run[..|run| - 1], graceMs, n);
      assert run[..|run| - 1][..n] == run[..n];
    }
  }

  predicate StoredAt(init: Option<Subscription>, run: seq<Commit>, graceMs: nat, i: nat)
    requires i <= |run|
  {
    InvoiceOf(Rows(init, run, graceMs)[i]) == LastSettled(InvoiceOf(init), run[..i])
  }

  predicate CarriesAt(init: Option<Subscription>, run: seq<Commit>, graceMs: nat, n: nat)
    requires n < |run|
  {
    CarriesInvoice(Rows(init, run, graceMs), run[n], n)
  }

  lemma NextStoredIff(init: Option<Subscription>, run: seq<Commit>, graceMs: nat, n: nat)
    requires n < |run| && StoredAt(init, run, graceMs, n)
    ensures StoredAt(init, run, graceMs, n + 1) <==> CarriesAt(init, run, graceMs, n)
  {
    var rows, before := Rows(init, run, graceMs), Rows(init, run[..n], graceMs);
    RowsPrefix(init, run, graceMs, n);
    RowsPrefix(init, run, graceMs, n + 1);
    assert run[..n + 1][..n] == run[..n];
    assert rows[n + 1] == Some(Committed(before, run[n], graceMs));
    InvoiceKeptIff(ReadBy(rows, run[n], n), rows[n], run[n].payload, graceMs);
  }

  lemma {:induction false} StoredSoFar(init: Option<Subscription>, run: seq<Commit>, graceMs: nat, i: nat)
    requires i <= |run| && forall n | 0 <= n < i :: CarriesAt(init, run, graceMs, n)
    ensures StoredAt(init, run, graceMs, i)
  {
    if i > 0 {
      StoredSoFar(init, run, graceMs, i - 1);
      NextStoredIff(init, run, graceMs, i - 1);
    }
  }

  // In every state of a run the stored invoice is the last one settled, exactly when no
  // event that settles none brings back another one it had read before.
  lemma LastInvoiceStoredIff(init: Option<Subscription>, run: seq<Commit>, graceMs: nat)
    ensures (forall i | 0 <= i <= |run| :: StoredAt(init, run, graceMs, i)) <==>
            (forall n | 0 <= n < |run| :: CarriesAt(init, run, graceMs, n))
  {
    if forall i | 0 <= i <= |run| :: StoredAt(init, run, graceMs, i) {
      forall n | 0 <= n < |run| ensures CarriesAt(init, run, graceMs, n) {
        NextStoredIff(init, run, graceMs, n);
      }
    }
    if forall n | 0 <= n < |run| :: CarriesAt(init, run, graceMs, n) {
      forall i | 0 <= i <= |run| ensures StoredAt(init, run, graceMs, i) {
        StoredSoFar(init, run, graceMs, i);
      }
    }
  }

  function Billed(status: StripeStatus, kind: EventKind, created: int, periodEnd: PeriodEnd,
                  invoice: Option<nat>): Payload
  {
    Payload(0, kind, created, Snapshot(status, false, None, None, None, None), periodEnd, invoice)
  }

  // The same two events, each reading the newest row, leave grace or none.
  lemma GraceDependsOnOrder(periodEnd: PeriodEnd, graceMs: nat)
    requires graceMs > 0
    ensures
      var paid := Billed(InForce, InvoicePaid, 1, periodEnd, Some(7));
      var failed := Billed(PastDue, PaymentFailed, 2, periodEnd, None);
      && Final(None, [Commit(paid, 0)] + [Commit(failed, 1)], graceMs).value.graceUntil == Some(periodEnd + graceMs)
      && Final(None, [Commit(failed, 0)] + [Commit(paid, 1)], graceMs).value.graceUntil == None
  {
    var paid := Billed(InForce, InvoicePaid, 1, periodEnd, Some(7));
    var failed := Billed(PastDue, PaymentFailed, 2, periodEnd, None);
    TwoCommits(Commit(paid, 0), Commit(failed, 1), graceMs);
    TwoCommits(Commit(failed, 0), Commit(paid, 1), graceMs);
  }

  // Two commits on no row, the second reading what the first left.
  lemma TwoCommits(a: Commit, b: Commit, graceMs: nat)
    requires a.readAt == 0 && b.readAt == 1
    ensures var first := Some(Incoming(None, a.payload, graceMs));
      Final(None, [a] + [b], graceMs) == Some(Upsert(first, Incoming(first, b.payload, graceMs)))
  {
    var run := [a] + [b];
    assert run[..1] == [a] && [a][..0] == [];
    assert Rows(None, [a], graceMs) == [None] + [Some(Committed([None], a, graceMs))];
  }
}
