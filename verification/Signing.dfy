// The replay window of signed requests between the Worker and its daemons. The
// signature itself is opaque: a request arrives with the answer whether it verifies.
module Signing {
  type Nonce = string

  const TIMESTAMP_WINDOW_SEC := 300
  const STORE_LIMIT := 10_000

  // ------------------------------------------------------- the signed string

  function Line(fields: seq<string>): string
    requires fields != []
  {
    if |fields| == 1 then fields[0] else fields[0] + "\n" + Line(fields[1..])
  }

  // The body enters as the hexadecimal digits of its hash.
  function CanonicalString(verb: string, path: string, timestamp: string, nonce: string, bodyHash: string): string {
    Line([verb, path, timestamp, nonce, bodyHash])
  }

  predicate OneLine(s: string) { '\n' !in s }

  lemma SplitAtNewline(a: string, rest: string, b: string, other: string)
    requires OneLine(a) && OneLine(b) && a + "\n" + rest == b + "\n" + other
    ensures a == b && rest == other
  {
    var s := a + "\n" + rest;
    assert s[|a|] == '\n' && s[|b|] == '\n';
    assert forall i | 0 <= i < |a| :: s[i] == a[i] != '\n';
    assert forall i | 0 <= i < |b| :: s[i] == b[i] != '\n';
    assert |a| == |b|;
    assert s[..|a|] == a && s[..|b|] == b;
    assert s[|a| + 1..] == rest && s[|b| + 1..] == other;
  }

  // Two field lists without line breaks share their signed string only if they are
  // the same: what is signed fixes method, path, time, nonce and body.
  lemma {:induction false} LineInjective(a: seq<string>, b: seq<string>)
    requires |a| == |b| > 0
    requires forall i | 0 <= i < |a| :: OneLine(a[i]) && OneLine(b[i])
    requires Line(a) == Line(b)
    ensures a == b
  {
    if |a| > 1 {
      SplitAtNewline(a[0], Line(a[1..]), b[0], Line(b[1..]));
      LineInjective(a[1..], b[1..]);
      assert a == [a[0]] + a[1..] && b == [b[0]] + b[1..];
    }
  }

  // A signature over one canonical string is a signature over no other method, path,
  // time, nonce or body hash.
  lemma CanonicalStringFixesFields(verb: string, path: string, timestamp: string, nonce: string, hash: string,
                                   verb': string, path': string, timestamp': string, nonce': string, hash': string)
    requires OneLine(verb) && OneLine(path) && OneLine(timestamp) && OneLine(nonce) && OneLine(hash)
    requires OneLine(verb') && OneLine(path') && OneLine(timestamp') && OneLine(nonce') && OneLine(hash')
    ensures CanonicalString(verb, path, timestamp, nonce, hash) ==
            CanonicalString(verb', path', timestamp', nonce', hash') <==>
      verb == verb' && path == path' && timestamp == timestamp' && nonce == nonce' && hash == hash'
  {
    var a, b := [verb, path, timestamp, nonce, hash], [verb', path', timestamp', nonce', hash'];
    if Line(a) == Line(b) {
      LineInjective(a, b);
      assert a[0] == b[0] && a[1] == b[1] && a[2] == b[2] && a[3] == b[3] && a[4] == b[4];
    }
  }

  // ------------------------------------------------------------- verification

  datatype Request = Request(nonce: Nonce, timestamp: int)
  datatype Outcome = Accepted | StaleTimestamp | BadSignature | ReplayedNonce

  // One delivery: the clock is read when verification starts and again by the store.
  datatype Delivery = Delivery(request: Request, signed: bool, verifyMs: int, storeMs: int)

  type Seen = map<Nonce, int>

  // `Math.floor` of milliseconds over a thousand.
  function Seconds(ms: int): int { ms / 1000 }

  function Collected(seen: Seen, nowSec: int): Seen {
    map n | n in seen && seen[n] >= nowSec :: seen[n]
  }

  function BeforeCheck(seen: Seen, nowSec: int): Seen {
    if |seen| > STORE_LIMIT then Collected(seen, nowSec) else seen
  }

  function Record(seen: Seen, nonce: Nonce, expiresAtSec: int, nowSec: int): (Seen, bool) {
    var kept := BeforeCheck(seen, nowSec);
    if nonce in kept then (kept, false) else (kept[nonce := expiresAtSec], true)
  }

  predicate InWindow(timestamp: int, nowSec: int) {
    -TIMESTAMP_WINDOW_SEC <= nowSec - timestamp <= TIMESTAMP_WINDOW_SEC
  }

  function Expiry(timestamp: int): int { timestamp + TIMESTAMP_WINDOW_SEC * 2 }

  function Verify(seen: Seen, d: Delivery): (Seen, Outcome) {
    if !InWindow(d.request.timestamp, Seconds(d.verifyMs)) then (seen, StaleTimestamp)
    else if !d.signed then (seen, BadSignature)
    else
      var (next, unseen) := Record(seen, d.request.nonce, Expiry(d.request.timestamp), Seconds(d.storeMs));
      (next, if unseen then Accepted else ReplayedNonce)
  }

  // Each answer's exact cause, and what it leaves of every nonce: only signed requests in
  // time reach the store, and only a full one forgets, what has expired.
  lemma AnswersSayWhy(seen: Seen, d: Delivery, verifySec: int, storeSec: int, n: Nonce)
    requires verifySec * 1000 <= d.verifyMs < (verifySec + 1) * 1000
    requires storeSec * 1000 <= d.storeMs < (storeSec + 1) * 1000
    ensures var (next, outcome) := Verify(seen, d);
      var age := verifySec - d.request.timestamp;
      var kept := (nonce: Nonce) => nonce in seen && (|seen| <= 10000 || seen[nonce] >= storeSec);
      && (outcome.StaleTimestamp? <==> age > 300 || age < -300)
      && (outcome.BadSignature? <==> -300 <= age <= 300 && !d.signed)
      && (outcome.ReplayedNonce? <==> -300 <= age <= 300 && d.signed && kept(d.request.nonce))
      && (outcome.StaleTimestamp? || outcome.BadSignature? ==> next == seen)
      && (outcome.Accepted? ==> d.request.nonce in next && next[d.request.nonce] == d.request.timestamp + 600)
      && (outcome.ReplayedNonce? || (outcome.Accepted? && n != d.request.nonce) ==>
            (n in next <==> kept(n)) && (n in next ==> next[n] == seen[n]))
  {
  }

  // ---------------------------------------------------------------- whole runs

  function Store(init: Seen, run: seq<Delivery>): Seen {
    if run == [] then init else Verify(Store(init, run[..|run| - 1]), run[|run| - 1]).0
  }

  function OutcomeAt(init: Seen, run: seq<Delivery>, i: nat): Outcome
    requires i < |run|
  {
    Verify(Store(init, run[..i]), run[i]).1
  }

  // Between the acceptance at i and delivery j no store's clock ran more than the
  // window ahead of the clock that judges j.
  predicate ClockSteady(run: seq<Delivery>, i: nat, j: nat)
    requires i < j < |run|
  {
    forall k | i < k <= j :: Seconds(run[k].storeMs) <= Seconds(run[j].verifyMs) + TIMESTAMP_WINDOW_SEC
  }

  predicate Remembers(seen: Seen, request: Request) {
    request.nonce in seen && seen[request.nonce] >= Expiry(request.timestamp)
  }

  lemma {:induction false} RememberedUntil(init: Seen, run: seq<Delivery>, request: Request, i: nat, n: nat)
    requires i < n <= |run| && Remembers(Store(init, run[..i + 1]), request)
    requires forall k | i < k < n :: Seconds(run[k].storeMs) <= Expiry(request.timestamp)
    ensures Remembers(Store(init, run[..n]), request)
  {
    if n > i + 1 {
      RememberedUntil(init, run, request, i, n - 1);
      assert run[..n][..n - 1] == run[..n - 1];
    }
  }

  // No signed request is accepted twice, however many deliveries and collections lie
  // between, unless the clock moved back by more than the window.
  lemma NoReplay(init: Seen, run: seq<Delivery>, i: nat, j: nat)
    requires i < j < |run| && run[i].request == run[j].request
    requires OutcomeAt(init, run, i).Accepted? && ClockSteady(run, i, j)
    ensures !OutcomeAt(init, run, j).Accepted?
  {
    var request := run[i].request;
    if InWindow(request.timestamp, Seconds(run[j].verifyMs)) {
      assert run[..i + 1][..i] == run[..i];
      assert forall k | i < k <= j :: Seconds(run[k].storeMs) <= Expiry(request.timestamp);
      RememberedUntil(init, run, request, i, j);
    }
  }

  // A clock that never reads more than the window behind an earlier reading is steady.
  lemma SteadyIfNeverFarBack(run: seq<Delivery>, i: nat, j: nat)
    requires i < j < |run|
    requires forall k | i < k < j :: Seconds(run[j].verifyMs) >= Seconds(run[k].storeMs) - TIMESTAMP_WINDOW_SEC
    requires Seconds(run[j].storeMs) <= Seconds(run[j].verifyMs) + TIMESTAMP_WINDOW_SEC
    ensures ClockSteady(run, i, j)
  {
  }

  // A delivery that reaches the store while it is over its limit, with the store's clock
  // past this expiry.
  predicate Collects(seen: Seen, d: Delivery, expiry: int) {
    && InWindow(d.request.timestamp, Seconds(d.verifyMs)) && d.signed
    && |seen| > STORE_LIMIT && Seconds(d.storeMs) > expiry
  }

  predicate Sweeps(init: Seen, run: seq<Delivery>, k: nat, expiry: int)
    requires k < |run|
  {
    Collects(Store(init, run[..k]), run[k], expiry)
  }

  lemma SweptOrKept(seen: Seen, d: Delivery, nonce: Nonce, expiry: int)
    requires d.request.nonce != nonce && (nonce in seen ==> seen[nonce] == expiry)
    ensures var next := Verify(seen, d).0;
      && (nonce in next ==> next[nonce] == expiry)
      && (nonce in next <==> nonce in seen && !Collects(seen, d, expiry))
  {
  }

  // A recorded nonce is in the store until, and only until, a collection past its expiry.
  lemma {:induction false} RecordedUntilSwept(init: Seen, run: seq<Delivery>, nonce: Nonce, expiry: int, i: nat, n: nat)
    requires i < n <= |run| && nonce in Store(init, run[..i + 1]) && Store(init, run[..i + 1])[nonce] == expiry
    requires forall k | i < k < n :: run[k].request.nonce != nonce
    ensures var store := Store(init, run[..n]);
      && (nonce in store <==> forall k | i < k < n :: !Sweeps(init, run, k, expiry))
      && (nonce in store ==> store[nonce] == expiry)
  {
    if n > i + 1 {
      RecordedUntilSwept(init, run, nonce, expiry, i, n - 1);
      assert run[..n][..n - 1] == run[..n - 1];
      SweptOrKept(Store(init, run[..n - 1]), run[n - 1], nonce, expiry);
      assert nonce in Store(init, run[..n]) <==>
        nonce in Store(init, run[..n - 1]) && !Sweeps(init, run, n - 1, expiry);
    }
  }

  lemma StoredOnAcceptance(seen: Seen, d: Delivery)
    requires Verify(seen, d).1.Accepted?
    ensures var next := Verify(seen, d).0;
      d.request.nonce in next && next[d.request.nonce] == Expiry(d.request.timestamp)
  {
  }

  lemma NextAcceptedIff(seen: Seen, d: Delivery)
    requires d.request.nonce in seen ==> seen[d.request.nonce] == Expiry(d.request.timestamp)
    ensures Verify(seen, d).1.Accepted? <==>
      && InWindow(d.request.timestamp, Seconds(d.verifyMs)) && d.signed
      && (d.request.nonce !in seen || Collects(seen, d, Expiry(d.request.timestamp)))
  {
  }

  // Exactly when a replay succeeds: the next delivery with the nonce of an accepted
  // request is accepted again if and only if it is signed, within its window, and a
  // collection, its own included, found the store's clock past the recorded expiry.
  lemma ReplayAcceptedIff(init: Seen, run: seq<Delivery>, i: nat, j: nat)
    requires i < j < |run| && run[i].request == run[j].request
    requires OutcomeAt(init, run, i).Accepted?
    requires forall k | i < k < j :: run[k].request.nonce != run[j].request.nonce
    ensures OutcomeAt(init, run, j).Accepted? <==>
      && InWindow(run[j].request.timestamp, Seconds(run[j].verifyMs)) && run[j].signed
      && exists k | i < k <= j :: Sweeps(init, run, k, Expiry(run[j].request.timestamp))
  {
    var request := run[i].request;
    assert run[..i + 1][..i] == run[..i];
    StoredOnAcceptance(Store(init, run[..i]), run[i]);
    RecordedUntilSwept(init, run, request.nonce, Expiry(request.timestamp), i, j);
    NextAcceptedIff(Store(init, run[..j]), run[j]);
    assert Sweeps(init, run, j, Expiry(request.timestamp))
        == Collects(Store(init, run[..j]), run[j], Expiry(request.timestamp));
  }

  // One second more than the window is enough, at the window's very edge.
  lemma ReplayOneSecondBeyond(seen: Seen, request: Request)
    requires |seen| > STORE_LIMIT && request.nonce in seen && seen[request.nonce] == Expiry(request.timestamp)
    ensures var verifySec := request.timestamp + TIMESTAMP_WINDOW_SEC;
      && Verify(seen, Delivery(request, true, verifySec * 1000,
                               (verifySec + TIMESTAMP_WINDOW_SEC + 1) * 1000)).1.Accepted?
      && !Verify(seen, Delivery(request, true, verifySec * 1000, (verifySec + TIMESTAMP_WINDOW_SEC) * 1000)).1.Accepted?
  {
  }

  // Unsigned and stale traffic leaves the store alone; the rest keeps it to the limit
  // and one entry, or else to entries that have not expired.
  lemma StoreStaysSmall(seen: Seen, d: Delivery)
    ensures var (next, outcome) := Verify(seen, d);
      && (outcome.StaleTimestamp? || outcome.BadSignature? ==> next == seen)
      && (|next| <= STORE_LIMIT + 1 || next == seen
          || forall n | n in next :: n == d.request.nonce || next[n] >= Seconds(d.storeMs))
  {
  }

  class MemoryNonceStore {
    var seen: Seen

    constructor ()
      ensures seen == map[]
    {
      seen := map[];
    }

    method Gc(nowSec: int)
      modifies this
      ensures seen == Collected(old(seen), nowSec)
    {
      var left := seen.Keys;
      while left != {}
        invariant left <= old(seen).Keys
        invariant seen == map n | n in old(seen) && (n in left || old(seen)[n] >= nowSec) :: old(seen)[n]
        decreases |left|
      {
        var n :| n in left;
        left := left - {n};
        if seen[n] < nowSec { seen := seen - {n}; }
      }
    }

    method CheckAndRecord(nonce: Nonce, expiresAtSec: int, nowMs: int) returns (unseen: bool)
      modifies this
      ensures (seen, unseen) == Record(old(seen), nonce, expiresAtSec, Seconds(nowMs))
    {
      var nowSec := Seconds(nowMs);
      if |seen| > STORE_LIMIT { Gc(nowSec); }
      if nonce in seen { return false; }
      seen := seen[nonce := expiresAtSec];
      unseen := true;
    }

    method VerifyRequest(d: Delivery) returns (outcome: Outcome)
      modifies this
      ensures (seen, outcome) == Verify(old(seen), d)
    {
      var ts, nowSec := d.request.timestamp, Seconds(d.verifyMs);
      var skew := if nowSec >= ts then nowSec - ts else ts - nowSec;
      if skew > TIMESTAMP_WINDOW_SEC { return StaleTimestamp; }
      if !d.signed { return BadSignature; }
      var unseen := CheckAndRecord(d.request.nonce, ts + TIMESTAMP_WINDOW_SEC * 2, d.storeMs);
      outcome := if unseen then Accepted else ReplayedNonce;
    }
  }
}
