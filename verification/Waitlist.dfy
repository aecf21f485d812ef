// Cron passes over the shared waitlist: the oldest entry is tried first; while it
// has been skipped fewer than three times, one of the next eight may go instead.
//
// Whether a candidate gets a host, and whether its provisioning job is then queued,
// is arbitrary. Entries may be withdrawn during a pass and join behind it.
module Waitlist {
  import opened Wrappers

  type UserId = nat

  const SCAN_LIMIT := 8
  const MAX_SKIPS := 3

  // Waiting rows in the order of their requests.
  datatype Entry = Entry(user: UserId, skips: nat)

  datatype Attempt = Queued | PlacedNotQueued | NotPlaced

  datatype Pass = Pass(attempt: UserId -> Attempt, withdrawn: set<UserId>, joining: seq<UserId>)

  // ------------------------------------------------------------ one pass

  function FirstQueued(entries: seq<Entry>, pass: Pass, j: nat): Option<nat>
    decreases |entries| - j
  {
    if j >= |entries| || j > SCAN_LIMIT then None
    else if pass.attempt(entries[j].user).Queued? then Some(j)
    else FirstQueued(entries, pass, j + 1)
  }

  predicate MayBackfill(entries: seq<Entry>, pass: Pass) {
    entries != [] && !pass.attempt(entries[0].user).Queued? && entries[0].skips < MAX_SKIPS
  }

  function Backfill(entries: seq<Entry>, pass: Pass): Option<nat> {
    if MayBackfill(entries, pass) then FirstQueued(entries, pass, 1) else None
  }

  // The pass tried entries before this index, in order.
  function Tried(entries: seq<Entry>, pass: Pass): nat {
    if entries == [] then 0
    else if !MayBackfill(entries, pass) then 1
    else if Backfill(entries, pass).Some? then Backfill(entries, pass).value + 1
    else if |entries| <= SCAN_LIMIT then |entries|
    else SCAN_LIMIT + 1
  }

  predicate Leaves(entries: seq<Entry>, pass: Pass, i: nat)
    requires i < |entries|
  {
    entries[i].user in pass.withdrawn || (i < Tried(entries, pass) && !pass.attempt(entries[i].user).NotPlaced?)
  }

  function Skipped(e: Entry): Entry { e.(skips := if e.skips + 1 < MAX_SKIPS then e.skips + 1 else MAX_SKIPS) }

  function Noted(entries: seq<Entry>, pass: Pass, i: nat): Entry
    requires i < |entries|
  {
    if i == 0 && Backfill(entries, pass).Some? then Skipped(entries[i]) else entries[i]
  }

  function Staying(entries: seq<Entry>, pass: Pass, i: nat): seq<Entry>
    requires i <= |entries|
    decreases |entries| - i
  {
    if i == |entries| then []
    else (if Leaves(entries, pass, i) then [] else [Noted(entries, pass, i)]) + Staying(entries, pass, i + 1)
  }

  function Joining(users: seq<UserId>): seq<Entry> { seq(|users|, i requires 0 <= i < |users| => Entry(users[i], 0)) }

  function After(entries: seq<Entry>, pass: Pass): seq<Entry> {
    Staying(entries, pass, 0) + Joining(pass.joining)
  }

  // ------------------------------------------------------ what a pass leaves

  predicate Gets(entries: seq<Entry>, pass: Pass, i: nat)
    requires i < |entries|
  {
    pass.attempt(entries[i].user).Queued?
  }

  // The head is tried; the next eight are while it is not queued and has been skipped
  // fewer than three times, up to the first of them that is queued.
  predicate IsTried(entries: seq<Entry>, pass: Pass, i: nat)
    requires i < |entries|
  {
    i == 0 || (&& i <= 8 && !Gets(entries, pass, 0) && entries[0].skips < 3
               && forall j | 1 <= j < i :: !Gets(entries, pass, j))
  }

  predicate Goes(entries: seq<Entry>, pass: Pass, i: nat)
    requires i < |entries|
  {
    entries[i].user in pass.withdrawn
    || (IsTried(entries, pass, i) && !pass.attempt(entries[i].user).NotPlaced?)
  }

  // Entry i was queued past an unqueued head.
  predicate Backfills(entries: seq<Entry>, pass: Pass, i: nat)
    requires i < |entries|
  {
    0 < i && IsTried(entries, pass, i) && Gets(entries, pass, i)
  }

  lemma {:induction false} FirstQueuedIs(entries: seq<Entry>, pass: Pass, j: nat)
    requires j >= 1
    ensures var first := FirstQueued(entries, pass, j);
      && (first.Some? ==> j <= first.value < |entries| && first.value <= SCAN_LIMIT && Gets(entries, pass, first.value)
                          && forall i | j <= i < first.value :: !Gets(entries, pass, i))
      && (first.None? ==> forall i | j <= i < |entries| && i <= SCAN_LIMIT :: !Gets(entries, pass, i))
    decreases |entries| - j
  {
    if j < |entries| && j <= SCAN_LIMIT && !Gets(entries, pass, j) { FirstQueuedIs(entries, pass, j + 1); }
  }

  lemma LeavesIff(entries: seq<Entry>, pass: Pass, i: nat)
    requires i < |entries|
    ensures Leaves(entries, pass, i) <==> Goes(entries, pass, i)
    ensures Backfill(entries, pass) == Some(i) <==> Backfills(entries, pass, i)
  {
    FirstQueuedIs(entries, pass, 1);
  }

  lemma StayingFrom(entries: seq<Entry>, pass: Pass, i: nat)
    requires i <= |entries|
    ensures i == |entries| ==> Staying(entries, pass, i) == []
    ensures i < |entries| && Leaves(entries, pass, i) ==> Staying(entries, pass, i) == Staying(entries, pass, i + 1)
    ensures i < |entries| && !Leaves(entries, pass, i) ==>
      var staying := Staying(entries, pass, i);
      staying != [] && staying[0] == Noted(entries, pass, i) && staying[1..] == Staying(entries, pass, i + 1)
  {
  }

  // Who is left of the entries from i on, and how each is noted.
  predicate Left(entries: seq<Entry>, pass: Pass, i: nat, left: seq<Entry>, from: seq<nat>)
    requires i <= |entries|
  {
    && |left| == |from|
    && (forall a | 0 <= a < |from| :: i <= from[a] < |entries| && !Goes(entries, pass, from[a]))
    && (forall a, b | 0 <= a < b < |from| :: from[a] < from[b])
    && (forall k | i <= k < |entries| && !Goes(entries, pass, k) :: k in from)
    && (forall a | 0 <= a < |from| :: left[a] == Noted(entries, pass, from[a]))
  }

  lemma {:induction false} StayingIs(entries: seq<Entry>, pass: Pass, i: nat) returns (from: seq<nat>)
    requires i <= |entries|
    ensures Left(entries, pass, i, Staying(entries, pass, i), from)
    decreases |entries| - i
  {
    hide Goes, Leaves, Noted, Staying;
    StayingFrom(entries, pass, i);
    if i == |entries| {
      from := [];
    } else {
      var rest := StayingIs(entries, pass, i + 1);
      LeavesIff(entries, pass, i);
      from := if Goes(entries, pass, i) then rest else [i] + rest;
    }
  }

  // An entry is gone after a pass exactly if it was withdrawn, or tried and placed; those
  // left keep their order and their skips, but that the head has one skip more, up to
  // three, exactly if another went in its place, as at most one does; arrivals follow in
  // order.
  lemma PassLeaves(entries: seq<Entry>, pass: Pass) returns (from: seq<nat>)
    ensures forall a | 0 <= a < |from| :: from[a] < |entries| && !Goes(entries, pass, from[a])
    ensures forall a, b | 0 <= a < b < |from| :: from[a] < from[b]
    ensures forall k | 0 <= k < |entries| && !Goes(entries, pass, k) :: k in from
    ensures forall k, m | 0 <= k < |entries| && 0 <= m < |entries| ::
      Backfills(entries, pass, k) && Backfills(entries, pass, m) ==> k == m
    ensures var after := After(entries, pass);
      && |after| == |from| + |pass.joining|
      && (forall a | 0 <= a < |from| :: after[a].user == entries[from[a]].user)
      && (forall a | 0 <= a < |from| :: from[a] > 0 ==> after[a].skips == entries[from[a]].skips)
      && (|from| > 0 && from[0] == 0 ==>
            after[0].skips ==
              if exists k :: 0 <= k < |entries| && Backfills(entries, pass, k)
              then entries[0].skips + 1 else entries[0].skips)
      && (forall b | 0 <= b < |pass.joining| :: after[|from| + b] == Entry(pass.joining[b], 0))
  {
    from := StayingIs(entries, pass, 0);
    forall k | 0 <= k < |entries| ensures Backfill(entries, pass) == Some(k) <==> Backfills(entries, pass, k) {
      LeavesIff(entries, pass, k);
    }
    FirstQueuedIs(entries, pass, 1);
  }

  // --------------------------------------------------------------- overtaking

  predicate At(entries: seq<Entry>, i: nat, user: UserId) { i < |entries| && entries[i].user == user }

  predicate Listed(entries: seq<Entry>, user: UserId) {
    entries != [] && (entries[0].user == user || Listed(entries[1..], user))
  }

  // An entry that stays was passed by a backfill from behind it.
  predicate Overtaken(entries: seq<Entry>, pass: Pass, user: UserId) {
    exists i, k | 0 <= i < k < |entries| ::
      entries[i].user == user && !Goes(entries, pass, i) && Backfills(entries, pass, k)
  }

  function Credit(e: Entry): nat { if e.skips < MAX_SKIPS then MAX_SKIPS - e.skips else 0 }

  // The skips left to the entries at or before the user's.
  function Potential(entries: seq<Entry>, user: UserId): nat {
    if entries == [] then 0
    else Credit(entries[0]) + (if entries[0].user == user then 0 else Potential(entries[1..], user))
  }

  lemma {:induction false} PotentialAppend(entries: seq<Entry>, more: seq<Entry>, user: UserId)
    requires Listed(entries, user)
    ensures Potential(entries + more, user) == Potential(entries, user) && Listed(entries + more, user)
  {
    assert (entries + more)[1..] == entries[1..] + more;
    if entries[0].user != user { PotentialAppend(entries[1..], more, user); }
  }

  // The user's entry, wherever it is, stays through the pass.
  predicate Waits(entries: seq<Entry>, pass: Pass, user: UserId) {
    forall k | 0 <= k < |entries| && entries[k].user == user :: !Goes(entries, pass, k)
  }

  lemma {:induction false} StayingPotential(entries: seq<Entry>, pass: Pass, i: nat, user: UserId)
    requires 0 < i <= |entries| && Listed(entries[i..], user) && Waits(entries, pass, user)
    ensures Potential(Staying(entries, pass, i), user) <= Potential(entries[i..], user)
    ensures Listed(Staying(entries, pass, i), user)
    decreases |entries| - i
  {
    if i < |entries| { LeavesIff(entries, pass, i); }
    hide Goes, Leaves;
    StayingFrom(entries, pass, i);
    assert entries[i..][1..] == entries[i + 1..] && entries[i..][0] == entries[i];
    if entries[i].user != user { StayingPotential(entries, pass, i + 1, user); }
  }

  // Every backfill is paid for by the head: with one of its skips, or with all it had
  // left when it leaves.
  lemma StayingPays(entries: seq<Entry>, pass: Pass, user: UserId)
    requires Listed(entries, user) && Waits(entries, pass, user)
    ensures Potential(Staying(entries, pass, 0), user) + (if Backfill(entries, pass).Some? then 1 else 0)
            <= Potential(entries, user)
    ensures Listed(Staying(entries, pass, 0), user)
  {
    LeavesIff(entries, pass, 0);
    hide Goes, Leaves;
    StayingFrom(entries, pass, 0);
    if entries[0].user != user { StayingPotential(entries, pass, 1, user); }
  }

  lemma OvertakenIsBackfilled(entries: seq<Entry>, pass: Pass, user: UserId)
    ensures Overtaken(entries, pass, user) ==> Backfill(entries, pass).Some?
  {
    if i, k :| 0 <= i < k < |entries| && entries[i].user == user && !Goes(entries, pass, i)
               && Backfills(entries, pass, k)
    {
      LeavesIff(entries, pass, k);
    }
  }

  lemma PassPays(entries: seq<Entry>, pass: Pass, user: UserId)
    requires Listed(entries, user) && Waits(entries, pass, user)
    ensures Potential(After(entries, pass), user) + (if Overtaken(entries, pass, user) then 1 else 0)
            <= Potential(entries, user)
    ensures Listed(After(entries, pass), user)
  {
    OvertakenIsBackfilled(entries, pass, user);
    StayingPays(entries, pass, user);
    PotentialAppend(Staying(entries, pass, 0), Joining(pass.joining), user);
  }

  // ---------------------------------------------------------------- many passes

  function AfterAll(entries: seq<Entry>, passes: seq<Pass>): seq<Entry>
    decreases |passes|
  {
    if passes == [] then entries else AfterAll(After(entries, passes[0]), passes[1..])
  }

  function Overtakings(entries: seq<Entry>, passes: seq<Pass>, user: UserId): nat
    decreases |passes|
  {
    if passes == [] then 0
    else (if Overtaken(entries, passes[0], user) then 1 else 0)
         + Overtakings(After(entries, passes[0]), passes[1..], user)
  }

  // The user waits through all the passes.
  predicate WaitsThrough(entries: seq<Entry>, passes: seq<Pass>, user: UserId)
    decreases |passes|
  {
    passes == [] || (Waits(entries, passes[0], user) && WaitsThrough(After(entries, passes[0]), passes[1..], user))
  }

  lemma {:induction false} PotentialCovers(entries: seq<Entry>, passes: seq<Pass>, user: UserId)
    requires Listed(entries, user) && WaitsThrough(entries, passes, user)
    ensures Overtakings(entries, passes, user) + Potential(AfterAll(entries, passes), user) <= Potential(entries, user)
    ensures Listed(AfterAll(entries, passes), user)
    decreases |passes|
  {
    if passes != [] {
      PassPays(entries, passes[0], user);
      PotentialCovers(After(entries, passes[0]), passes[1..], user);
    }
  }

  lemma {:induction false} PotentialBound(entries: seq<Entry>, user: UserId, k: nat)
    requires At(entries, k, user)
    ensures Potential(entries, user) <= MAX_SKIPS * (k + 1) && Listed(entries, user)
  {
    if entries[0].user != user { PotentialBound(entries[1..], user, k - 1); }
  }

  // With k entries ahead of it an entry is passed at most 3 * (k + 1) times while it
  // waits; the head, at most three times.
  lemma OvertakingIsBounded(entries: seq<Entry>, passes: seq<Pass>, user: UserId, k: nat)
    requires At(entries, k, user) && WaitsThrough(entries, passes, user)
    ensures Overtakings(entries, passes, user) <= 3 * (k + 1)
  {
    PotentialBound(entries, user, k);
    PotentialCovers(entries, passes, user);
  }

  // The bound is reached: a head nobody can place, and three later arrivals that fit.
  lemma HeadPassedThreeTimes(head: UserId, a: UserId, b: UserId, c: UserId)
    requires head != a && head != b && head != c
    ensures var fits: Pass := Pass((u: UserId) => if u == head then NotPlaced else Queued, {}, []);
      var entries := [Entry(head, 0), Entry(a, 0), Entry(b, 0), Entry(c, 0)];
      var passes := [fits, fits, fits];
      Overtakings(entries, passes, head) == 3 && AfterAll(entries, passes) == [Entry(head, 3)]
  {
    var fits: Pass := Pass((u: UserId) => if u == head then NotPlaced else Queued, {}, []);
    var entries := [Entry(head, 0), Entry(a, 0), Entry(b, 0), Entry(c, 0)];
    var passes := [fits, fits, fits];
    var after1, after2 := [Entry(head, 1), Entry(b, 0), Entry(c, 0)], [Entry(head, 2), Entry(c, 0)];
    OneBackfill(entries, fits, head, 0);
    OneBackfill(after1, fits, head, 1);
    OneBackfill(after2, fits, head, 2);
    assert After(entries, fits) == after1 && After(after1, fits) == after2 && After(after2, fits) == [Entry(head, 3)];
    OnePass(after2, fits, [], head);
    OnePass(after1, fits, [fits], head);
    assert [fits] + [fits] == [fits, fits] && [fits] + [fits, fits] == passes;
    OnePass(entries, fits, [fits, fits], head);
  }

  lemma OnePass(entries: seq<Entry>, pass: Pass, more: seq<Pass>, user: UserId)
    ensures AfterAll(entries, [pass] + more) == AfterAll(After(entries, pass), more)
    ensures Overtakings(entries, [pass] + more, user) ==
      (if Overtaken(entries, pass, user) then 1 else 0) + Overtakings(After(entries, pass), more, user)
  {
    assert ([pass] + more)[1..] == more;
  }

  // The second entry goes and the head is skipped once more.
  lemma OneBackfill(entries: seq<Entry>, pass: Pass, head: UserId, skips: nat)
    requires |entries| >= 2 && entries[0] == Entry(head, skips) && skips < MAX_SKIPS
    requires pass.withdrawn == {} && pass.joining == []
    requires pass.attempt(head).NotPlaced? && pass.attempt(entries[1].user).Queued?
    ensures After(entries, pass) == [Entry(head, skips + 1)] + entries[2..] && Overtaken(entries, pass, head)
  {
    assert FirstQueued(entries, pass, 1) == Some(1);
    UntriedStay(entries, pass, 2);
    assert Staying(entries, pass, 1) == entries[2..];
    assert Staying(entries, pass, 0) == [Entry(head, skips + 1)] + Staying(entries, pass, 1);
    assert Joining(pass.joining) == [];
    assert entries[0].user == head && !Goes(entries, pass, 0) && Backfills(entries, pass, 1);
  }

  lemma {:induction false} UntriedStay(entries: seq<Entry>, pass: Pass, i: nat)
    requires 0 < i <= |entries| && pass.withdrawn == {} && Tried(entries, pass) <= i
    ensures Staying(entries, pass, i) == entries[i..]
    decreases |entries| - i
  {
    if i < |entries| {
      UntriedStay(entries, pass, i + 1);
      assert entries[i..] == [entries[i]] + entries[i + 1..];
    }
  }

  // ------------------------------------------------------------- the cron pass

  class SharedWaitlist {
    var entries: seq<Entry>

    constructor (entries: seq<Entry>)
      ensures this.entries == entries
    {
      this.entries := entries;
    }

    // admitWaitlistedContainers over the shared rows.
    method AdmitPass(pass: Pass)
      modifies this
      ensures entries == After(old(entries), pass)
    {
      var results := if |entries| <= SCAN_LIMIT + 1 then entries else entries[..SCAN_LIMIT + 1];
      var gone: set<nat> := {};
      var skipped := false;
      if results != [] {
        var oldest := results[0];
        var attempt := pass.attempt(oldest.user);
        if !attempt.NotPlaced? { gone := gone + {0}; }
        if !attempt.Queued? && oldest.skips < MAX_SKIPS {
          var j := 1;
          while j < |results|
            invariant 1 <= j <= |results|
            invariant !skipped && Backfill(entries, pass) == FirstQueued(entries, pass, j)
            invariant forall i: nat :: i in gone <==> i < j && !pass.attempt(entries[i].user).NotPlaced?
          {
            var candidate := pass.attempt(results[j].user);
            if !candidate.NotPlaced? { gone := gone + {j}; }
            if candidate.Queued? {
              skipped := true;
              break;
            }
            j := j + 1;
          }
        }
      }
      assert skipped <==> Backfill(entries, pass).Some?;
      assert forall i: nat :: i in gone <==> i < Tried(entries, pass) && !pass.attempt(entries[i].user).NotPlaced?;
      var left: seq<Entry> := [];
      var i := |entries|;
      while i > 0
        invariant 0 <= i <= |entries| && entries == old(entries)
        invariant left == Staying(entries, pass, i)
      {
        i := i - 1;
        if !(i in gone) && entries[i].user !in pass.withdrawn {
          var e := if i == 0 && skipped then Skipped(entries[i]) else entries[i];
          left := [e] + left;
        }
      }
      entries := left + Joining(pass.joining);
    }
  }
}
