// Installing dashboard grants into a workbench whose own tools rotate the tokens.
//
// A grant is identified with its fingerprint. A write proceeds provider by
// provider, saving its decisions to a marker file at three points; it may fail
// between any two operations, and the owner's tools may rotate, create or remove
// local logins at any time.
module Credentials {
  import opened Wrappers

  datatype Provider = Pi | Codex | OpenCode | Wrangler | Convex

  type Fingerprint = nat
  datatype Token = FromGrant(grant: Fingerprint) | OwnLogin(serial: nat)

  type Marks = map<Provider, Fingerprint>
  type Grants = map<Provider, Fingerprint>

  // The operations of one write, in order.
  datatype Op = Decide(p: Provider) | Save
  const OPS := 8

  function OpAt(n: nat): Op {
    if n == 0 then Decide(Pi)
    else if n == 1 then Decide(Codex)
    else if n == 2 then Decide(OpenCode)
    else if n == 4 then Decide(Wrangler)
    else if n == 6 then Decide(Convex)
    else Save
  }

  // A write under way: its inputs, the agent logins it saw when it began, whether a
  // marker file existed then, its decisions so far, and its next operation.
  datatype Job = Job(
    grants: Grants, selected: set<Provider>, seen: set<Provider>, existed: bool, marks: Marks, next: nat)

  // The home volume: login stores, and the marker file if there is one. `installed`
  // is a history of the grants written into stores.
  datatype Home = Home(
    stores: map<Provider, Token>, marks: Marks, hasMarker: bool, job: Option<Job>, installed: seq<Provider>)

  datatype Decision = Untouched | Adopt | Install(grant: Fingerprint) | Remove

  predicate IsAgent(p: Provider) { p.Pi? || p.Codex? || p.OpenCode? }

  function Mark(marks: Marks, p: Provider): Option<Fingerprint> { if p in marks then Some(marks[p]) else None }

  function AgentDecision(selected: bool, grant: Option<Fingerprint>, mark: Option<Fingerprint>, present: bool): Decision
  {
    if !selected then Untouched
    else if grant.None? then (if mark.Some? then Remove else Untouched)
    else if mark == grant && present then Untouched
    else if mark.None? && present then Adopt
    else Install(grant.value)
  }

  function FileDecision(existed: bool, grant: Option<Fingerprint>, mark: Option<Fingerprint>, present: bool): Decision {
    if grant.None? then (if mark.Some? then Remove else Untouched)
    else if mark == grant && present then Untouched
    else if !existed && mark.None? && present then Adopt
    else Install(grant.value)
  }

  function DecisionFor(home: Home, job: Job, p: Provider): Decision {
    var grant, mark := Mark(job.grants, p), Mark(job.marks, p);
    if IsAgent(p) then AgentDecision(p in job.selected, grant, mark, p in job.seen)
    else FileDecision(job.existed, grant, mark, p in home.stores)
  }

  function Carry(home: Home, job: Job, p: Provider, decision: Decision): (Home, Job) {
    match decision
    case Untouched => (home, job)
    case Adopt => (home, if p in job.grants then job.(marks := job.marks[p := job.grants[p]]) else job)
    case Install(g) => (home.(stores := home.stores[p := FromGrant(g)], installed := home.installed + [p]),
                        job.(marks := job.marks[p := g]))
    case Remove => (home.(stores := home.stores - {p}), job.(marks := job.marks - {p}))
  }

  function SeenAgents(stores: map<Provider, Token>): set<Provider> { set p | p in stores && IsAgent(p) }

  // LocalLogin is a rotation by the provider's tool, or the owner's own login.
  datatype Step =
    | Begin(grants: Grants, selected: set<Provider>)
    | Advance
    | Abort
    | LocalLogin(p: Provider, token: Token)
    | Logout(p: Provider)

  function Advanced(home: Home, job: Job): Home {
    if job.next >= OPS then home.(job := None)
    else match OpAt(job.next)
      case Decide(p) =>
        var (after, decided) := Carry(home, job, p, DecisionFor(home, job, p));
        after.(job := Some(decided.(next := job.next + 1)))
      case Save => home.(marks := job.marks, hasMarker := true, job := Some(job.(next := job.next + 1)))
  }

  function Next(home: Home, step: Step): Home {
    match step
    case Begin(grants, selected) =>
      if home.job.Some? then home
      else home.(job := Some(Job(grants, selected, SeenAgents(home.stores), home.hasMarker, home.marks, 0)))
    case Advance => if home.job.None? then home else Advanced(home, home.job.value)
    case Abort => home.(job := None)
    case LocalLogin(p, token) => home.(stores := home.stores[p := token])
    case Logout(p) => home.(stores := home.stores - {p})
  }

  function Exec(home: Home, run: seq<Step>): Home {
    if run == [] then home else Next(Exec(home, run[..|run| - 1]), run[|run| - 1])
  }

  // --------------------------------------------------- a settled grant is safe

  // The marker records grant g for p and its store exists; so does the write under way.
  predicate SettledGrant(home: Home, p: Provider, g: Fingerprint) {
    && Mark(home.marks, p) == Some(g) && p in home.stores
    && (home.job.Some? ==>
          && Mark(home.job.value.marks, p) == Some(g)
          && Mark(home.job.value.grants, p) == Some(g)
          && (IsAgent(p) ==> p in home.job.value.seen))
  }

  // The dashboard still has the same grant, and nobody removes the store.
  predicate Keeps(step: Step, p: Provider, g: Fingerprint) {
    && (step.Begin? ==> Mark(step.grants, p) == Some(g))
    && (step.Logout? ==> step.p != p)
  }

  function Count(installed: seq<Provider>, p: Provider): nat {
    if installed == [] then 0
    else Count(installed[..|installed| - 1], p) + (if installed[|installed| - 1] == p then 1 else 0)
  }

  lemma CountSnoc(installed: seq<Provider>, q: Provider, p: Provider)
    ensures Count(installed + [q], p) == Count(installed, p) + (if q == p then 1 else 0)
  {
    assert (installed + [q])[..|installed|] == installed;
  }

  // One provider's turn leaves every other provider as it was.
  predicate SameFor(home: Home, job: Job, after: Home, decided: Job, p: Provider) {
    && (p in after.stores <==> p in home.stores)
    && (p in home.stores ==> after.stores[p] == home.stores[p])
    && Mark(decided.marks, p) == Mark(job.marks, p)
    && Count(after.installed, p) == Count(home.installed, p)
  }

  predicate SameInputs(home: Home, job: Job, after: Home, decided: Job) {
    && after.marks == home.marks && after.hasMarker == home.hasMarker
    && decided.grants == job.grants && decided.seen == job.seen && decided.selected == job.selected
    && decided.existed == job.existed
  }

  lemma CarryOther(home: Home, job: Job, p: Provider, q: Provider, decision: Decision)
    ensures var (after, decided) := Carry(home, job, q, decision);
      SameInputs(home, job, after, decided) && (p != q ==> SameFor(home, job, after, decided, p))
  {
    CountSnoc(home.installed, q, p);
    hide Count;
  }

  lemma SettledStep(home: Home, step: Step, p: Provider, g: Fingerprint)
    requires SettledGrant(home, p, g) && Keeps(step, p, g)
    ensures SettledGrant(Next(home, step), p, g)
    ensures Count(Next(home, step).installed, p) == Count(home.installed, p)
  {
    if step.Advance? && home.job.Some? && home.job.value.next < OPS {
      var op := OpAt(home.job.value.next);
      if op.Decide? { CarryOther(home, home.job.value, p, op.p, DecisionFor(home, home.job.value, op.p)); }
    }
  }

  // Once recorded, an unchanged grant is never installed again: not by any number
  // of writes, whatever rotations happen and whatever operations fail on the way.
  lemma {:induction false} RotatedTokenSurvives(home: Home, run: seq<Step>, p: Provider, g: Fingerprint)
    requires SettledGrant(home, p, g)
    requires forall i | 0 <= i < |run| :: Keeps(run[i], p, g)
    ensures SettledGrant(Exec(home, run), p, g)
    ensures Count(Exec(home, run).installed, p) == Count(home.installed, p)
  {
    if run != [] {
      RotatedTokenSurvives(home, run[..|run| - 1], p, g);
      SettledStep(Exec(home, run[..|run| - 1]), run[|run| - 1], p, g);
    }
  }

  // ----------------------------------------------------------- one whole write

  // The home after n operations of a write that nothing interrupts.
  function Writing(home: Home, grants: Grants, selected: set<Provider>, n: nat): Home {
    if n == 0 then Next(home, Begin(grants, selected)) else Next(Writing(home, grants, selected, n - 1), Advance)
  }

  function Stage(p: Provider): nat {
    match p
    case Pi => 0
    case Codex => 1
    case OpenCode => 2
    case Wrangler => 4
    case Convex => 6
  }

  function AtBegin(home: Home, grants: Grants, selected: set<Provider>, p: Provider): Decision {
    DecisionFor(home, Next(home, Begin(grants, selected)).job.value, p)
  }

  // Before its turn a provider is as it was; after it, as decided.
  predicate StageInv(home: Home, grants: Grants, selected: set<Provider>, n: nat, now: Home, p: Provider)
    requires home.job.None?
  {
    && now.job.Some? && now.job.value.next == n
    && now.job.value.grants == grants && now.job.value.selected == selected && now.job.value.existed == home.hasMarker
    && (IsAgent(p) ==> (p in now.job.value.seen <==> p in home.stores))
    && if n <= Stage(p) then
         Decided(home, grants, now.stores, now.job.value.marks, now.installed, p, Untouched)
       else
         Decided(home, grants, now.stores, now.job.value.marks, now.installed, p, AtBegin(home, grants, selected, p))
  }

  predicate Decided(home: Home, grants: Grants, stores: map<Provider, Token>, marks: Marks,
                    installed: seq<Provider>, p: Provider, decision: Decision)
  {
    && (match decision
        case Untouched =>
          && Mark(marks, p) == Mark(home.marks, p)
          && (p in stores <==> p in home.stores) && (p in home.stores ==> stores[p] == home.stores[p])
        case Adopt =>
          && Mark(marks, p) == Mark(grants, p)
          && p in home.stores && p in stores && stores[p] == home.stores[p]
        case Install(g) => Mark(marks, p) == Some(g) && p in stores && stores[p] == FromGrant(g)
        case Remove => Mark(marks, p) == None && p !in stores)
    && Count(installed, p) == Count(home.installed, p) + (if decision.Install? then 1 else 0)
  }

  lemma {:induction false} StageOk(home: Home, grants: Grants, selected: set<Provider>, n: nat, p: Provider)
    requires home.job.None? && n <= OPS
    ensures StageInv(home, grants, selected, n, Writing(home, grants, selected, n), p)
  {
    if n > 0 {
      StageOk(home, grants, selected, n - 1, p);
      var before := Writing(home, grants, selected, n - 1);
      if OpAt(n - 1).Decide? {
        if OpAt(n - 1).p == p { OwnTurn(home, grants, selected, n, before, p); }
        else {
          DecideTurn(before);
          OtherTurn(home, grants, selected, n, before, Next(before, Advance), p);
        }
      } else {
        SaveTurn(home, grants, selected, n, before, p);
      }
    }
  }

  lemma SaveTurn(home: Home, grants: Grants, selected: set<Provider>, n: nat, before: Home, p: Provider)
    requires home.job.None? && 0 < n <= OPS && StageInv(home, grants, selected, n - 1, before, p)
    requires OpAt(n - 1).Save?
    ensures StageInv(home, grants, selected, n, Next(before, Advance), p)
  {
    hide Decided, AtBegin;
    assert n - 1 != Stage(p);
  }

  lemma DecideTurn(before: Home)
    requires before.job.Some? && before.job.value.next < OPS && OpAt(before.job.value.next).Decide?
    ensures var next := Next(before, Advance);
      && next.job.Some? && SameInputs(before, before.job.value, next, next.job.value)
      && next.job.value.next == before.job.value.next + 1
      && forall p | p != OpAt(before.job.value.next).p ::
           SameFor(before, before.job.value, next, next.job.value, p)
  {
    var q := OpAt(before.job.value.next).p;
    forall p | p != q
      ensures SameFor(before, before.job.value, Next(before, Advance), Next(before, Advance).job.value, p)
    {
      CarryOther(before, before.job.value, p, q, DecisionFor(before, before.job.value, q));
    }
    CarryOther(before, before.job.value, q, q, DecisionFor(before, before.job.value, q));
  }

  lemma OwnTurn(home: Home, grants: Grants, selected: set<Provider>, n: nat, before: Home, p: Provider)
    requires home.job.None? && 0 < n <= OPS && StageInv(home, grants, selected, n - 1, before, p)
    requires OpAt(n - 1).Decide? && OpAt(n - 1).p == p
    ensures StageInv(home, grants, selected, n, Next(before, Advance), p)
  {
    var decision := AtBegin(home, grants, selected, p);
    assert n - 1 == Stage(p);
    assert DecisionFor(before, before.job.value, p) == decision;
    CarryOwn(home, grants, before, before.job.value, p, decision);
    CarryOther(before, before.job.value, p, p, decision);
  }

  lemma CarryOwn(home: Home, grants: Grants, before: Home, job: Job, p: Provider, decision: Decision)
    requires Decided(home, grants, before.stores, job.marks, before.installed, p, Untouched) && job.grants == grants
    requires decision.Adopt? ==> p in home.stores && p in grants
    ensures var (after, decided) := Carry(before, job, p, decision);
      Decided(home, grants, after.stores, decided.marks, after.installed, p, decision)
  {
    CountSnoc(before.installed, p, p);
  }

  lemma OtherTurn(home: Home, grants: Grants, selected: set<Provider>, n: nat, before: Home, next: Home, p: Provider)
    requires home.job.None? && 0 < n <= OPS && StageInv(home, grants, selected, n - 1, before, p)
    requires next.job.Some? && next.job.value.next == n && n - 1 != Stage(p)
    requires SameInputs(before, before.job.value, next, next.job.value)
    requires SameFor(before, before.job.value, next, next.job.value, p)
    ensures StageInv(home, grants, selected, n, next, p)
  {
  }

  function Written(home: Home, grants: Grants, selected: set<Provider>): Home {
    Writing(home, grants, selected, OPS + 1)
  }

  // A write decides each provider once, from what the home held when it began, and
  // the marker file ends with every decision.
  lemma WriteDecidesEach(home: Home, grants: Grants, selected: set<Provider>, p: Provider)
    requires home.job.None?
    ensures var after := Written(home, grants, selected);
      && after.job.None? && after.hasMarker
      && Decided(home, grants, after.stores, after.marks, after.installed, p, AtBegin(home, grants, selected, p))
  {
    StageOk(home, grants, selected, OPS, p);
    StageOk(home, grants, selected, OPS - 1, p);
  }

  predicate Kept(home: Home, after: Home, p: Provider) {
    && (p in after.stores <==> p in home.stores) && (p in after.stores ==> after.stores[p] == home.stores[p])
    && Mark(after.marks, p) == Mark(home.marks, p)
  }

  // What a write leaves of each provider. An agent that was not selected is not touched,
  // nor is one without grant that the marker does not claim; one it claims is removed. A
  // grant is recorded, and written into the store unless a login is there that the marker
  // says came from it, or that the owner had before the provider was managed: an agent
  // without a mark, a file store without a marker file.
  lemma WriteLeaves(home: Home, grants: Grants, selected: set<Provider>, p: Provider)
    requires home.job.None?
    ensures var after := Written(home, grants, selected);
      if IsAgent(p) && p !in selected then Kept(home, after, p)
      else if p !in grants then
        if p in home.marks then p !in after.stores && p !in after.marks else Kept(home, after, p)
      else
        && p in after.marks && after.marks[p] == grants[p] && p in after.stores
        && after.stores[p] ==
           if p in home.stores
              && (if p in home.marks then home.marks[p] == grants[p] else IsAgent(p) || !home.hasMarker)
           then home.stores[p] else FromGrant(grants[p])
  {
    WriteDecidesEach(home, grants, selected, p);
  }

  // Stopped after any number of operations, too, a write has not touched the store or
  // the mark of an agent that was not selected.
  lemma UnselectedIsKept(home: Home, grants: Grants, selected: set<Provider>, n: nat, p: Provider)
    requires home.job.None? && n <= OPS && IsAgent(p) && p !in selected
    ensures Kept(home, Next(Writing(home, grants, selected, n), Abort), p)
  {
    StageOk(home, grants, selected, n, p);
    MarksOnDisk(home, grants, selected, n, p);
  }

  // The same write again finds nothing to do, even after rotations.
  lemma SecondWriteInstallsNothing(home: Home, grants: Grants, selected: set<Provider>, rotated: Home, p: Provider)
    requires home.job.None? && rotated.job.None?
    requires var first := Written(home, grants, selected);
      rotated.stores.Keys == first.stores.Keys && rotated.marks == first.marks && rotated.hasMarker == first.hasMarker
    ensures AtBegin(rotated, grants, selected, p).Untouched?
    ensures var again := Written(rotated, grants, selected);
      && (p in again.stores <==> p in rotated.stores) && (p in rotated.stores ==> again.stores[p] == rotated.stores[p])
      && Mark(again.marks, p) == Mark(rotated.marks, p)
      && Count(again.installed, p) == Count(rotated.installed, p)
  {
    WriteDecidesEach(home, grants, selected, p);
    WriteDecidesEach(rotated, grants, selected, p);
    assert p in rotated.stores <==> p in Written(home, grants, selected).stores;
  }

  // Disconnecting everything removes exactly the stores the marker file claims: of
  // agents only the selected ones, and no login the owner made alone.
  lemma DisconnectRemovesManagedOnly(home: Home, selected: set<Provider>, p: Provider)
    requires home.job.None?
    ensures var after := Written(home, map[], selected);
      var managed := p in home.marks && (IsAgent(p) ==> p in selected);
      && (p in after.stores <==> p in home.stores && !managed)
      && (p in after.stores ==> after.stores[p] == home.stores[p])
      && (p in after.marks <==> p in home.marks && !managed)
  {
    WriteDecidesEach(home, map[], selected, p);
  }

  // ----------------------------------------------------------- failed writes

  // The operation that saves a provider's decision.
  function SaveAt(p: Provider): nat {
    if IsAgent(p) then 3 else if p.Wrangler? then 5 else 7
  }

  // After n operations the marker file has a provider's decision or its old mark, and
  // exists once the agents are saved.
  predicate OnDisk(home: Home, n: nat, now: Home, p: Provider) {
    && now.job.Some? && now.job.value.next == n
    && Mark(now.marks, p) == Mark(if n <= SaveAt(p) then home.marks else now.job.value.marks, p)
    && now.hasMarker == (home.hasMarker || n > 3)
  }

  lemma SaveTurnOnDisk(home: Home, grants: Grants, selected: set<Provider>, n: nat, before: Home, p: Provider)
    requires home.job.None? && 0 < n <= OPS && OnDisk(home, n - 1, before, p)
    requires StageInv(home, grants, selected, n - 1, before, p) && OpAt(n - 1).Save?
    ensures OnDisk(home, n, Next(before, Advance), p)
  {
    if n <= SaveAt(p) { assert n - 1 <= Stage(p); }
  }

  lemma DecideTurnOnDisk(home: Home, n: nat, before: Home, next: Home, p: Provider)
    requires 0 < n <= OPS && OnDisk(home, n - 1, before, p) && OpAt(n - 1).Decide?
    requires next.job.Some? && next.job.value.next == n && SameInputs(before, before.job.value, next, next.job.value)
    requires p != OpAt(n - 1).p ==> SameFor(before, before.job.value, next, next.job.value, p)
    ensures OnDisk(home, n, next, p)
  {
    if p == OpAt(n - 1).p { assert n <= SaveAt(p); }
  }

  lemma {:induction false} MarksOnDisk(home: Home, grants: Grants, selected: set<Provider>, n: nat, p: Provider)
    requires home.job.None? && n <= OPS
    ensures OnDisk(home, n, Writing(home, grants, selected, n), p)
  {
    if n > 0 {
      var before := Writing(home, grants, selected, n - 1);
      MarksOnDisk(home, grants, selected, n - 1, p);
      StageOk(home, grants, selected, n - 1, p);
      if OpAt(n - 1).Decide? {
        DecideTurn(before);
        DecideTurnOnDisk(home, n, before, Next(before, Advance), p);
      } else {
        SaveTurnOnDisk(home, grants, selected, n, before, p);
      }
    }
  }

  // What an interrupted write leaves of one provider: its store and history as decided
  // or as they were, and on disk the decision only if it was saved.
  lemma InterruptedLeaves(home: Home, grants: Grants, selected: set<Provider>, n: nat, p: Provider)
    requires home.job.None? && n <= OPS
    ensures var failed := Next(Writing(home, grants, selected, n), Abort);
      var decision := if n <= Stage(p) then Untouched else AtBegin(home, grants, selected, p);
      && failed.job.None? && failed.hasMarker == (home.hasMarker || n > 3)
      && Count(failed.installed, p) == Count(home.installed, p) + (if decision.Install? then 1 else 0)
      && (n <= SaveAt(p) ==> Mark(failed.marks, p) == Mark(home.marks, p))
      && (n > SaveAt(p) ==>
            Decided(home, grants, failed.stores, failed.marks, failed.installed, p, decision))
  {
    StageOk(home, grants, selected, n, p);
    MarksOnDisk(home, grants, selected, n, p);
    hide AtBegin;
  }

  // A provider's tool has a token of its own again, and the same write is repeated.
  function Repeated(home: Home, grants: Grants, selected: set<Provider>, n: nat, p: Provider, token: Token): Home {
    Written(Next(Next(Writing(home, grants, selected, n), Abort), LocalLogin(p, token)), grants, selected)
  }

  lemma DecisionWithStore(again: Home, grants: Grants, selected: set<Provider>, p: Provider)
    requires again.job.None? && p in again.stores
    ensures AtBegin(again, grants, selected, p).Install? <==>
      && p in grants && (IsAgent(p) ==> p in selected) && Mark(again.marks, p) != Mark(grants, p)
      && (p in again.marks || (!IsAgent(p) && again.hasMarker))
  {
  }

  // A write that failed at any point, a rotation, and the same write again: a grant is
  // installed a second time, over the rotated token, exactly when its own turn had
  // come and its save had not, and the old mark named another grant or, for a file
  // store, any but this one: for those the marker file always exists by then.
  lemma InterruptedWriteReplaysIff(home: Home, grants: Grants, selected: set<Provider>, n: nat, p: Provider,
                                   token: Token)
    requires home.job.None? && n <= OPS
    ensures Count(Repeated(home, grants, selected, n, p, token).installed, p) == Count(home.installed, p) + 2 <==>
      && AtBegin(home, grants, selected, p).Install?
      && Stage(p) < n <= SaveAt(p)
      && Mark(home.marks, p) != Mark(grants, p)
      && (p in home.marks || !IsAgent(p))
  {
    var failed := Next(Writing(home, grants, selected, n), Abort);
    var again := Next(failed, LocalLogin(p, token));
    InterruptedLeaves(home, grants, selected, n, p);
    WriteDecidesEach(again, grants, selected, p);
    DecisionWithStore(again, grants, selected, p);
    InstallNeedsGrant(home, grants, selected, p);
    hide AtBegin, Writing, Written;
  }

  lemma InstallNeedsGrant(home: Home, grants: Grants, selected: set<Provider>, p: Provider)
    requires home.job.None?
    ensures AtBegin(home, grants, selected, p).Install? ==>
      && p in grants && AtBegin(home, grants, selected, p).grant == grants[p] && (IsAgent(p) ==> p in selected)
  {
  }

  // Agents save together: when a later agent fails, an earlier agent's changed grant
  // is installed once more over whatever its tool has rotated to since.
  lemma LaterAgentFailureReplays(home: Home, grants: Grants, selected: set<Provider>, n: nat, p: Provider, token: Token)
    requires home.job.None? && IsAgent(p) && p in selected && p in grants && Stage(p) < n <= 3
    requires p in home.marks && home.marks[p] != grants[p]
    ensures var after := Repeated(home, grants, selected, n, p, token);
      && Count(after.installed, p) == Count(home.installed, p) + 2
      && p in after.stores && after.stores[p] == FromGrant(grants[p])
  {
    InterruptedWriteReplaysIff(home, grants, selected, n, p, token);
    InterruptedLeaves(home, grants, selected, n, p);
    var again := Next(Next(Writing(home, grants, selected, n), Abort), LocalLogin(p, token));
    WriteDecidesEach(again, grants, selected, p);
    DecisionWithStore(again, grants, selected, p);
    InstallNeedsGrant(again, grants, selected, p);
  }

  // Once its own save is done no later failure touches a provider's grant: agents after
  // the first save, Wrangler after the second, Convex after the last.
  lemma SavedGrantsSurviveLaterFailure(home: Home, grants: Grants, selected: set<Provider>, n: nat, p: Provider)
    requires home.job.None? && p in grants && (IsAgent(p) ==> p in selected) && SaveAt(p) < n <= OPS
    ensures SettledGrant(Next(Writing(home, grants, selected, n), Abort), p, grants[p])
  {
    InterruptedLeaves(home, grants, selected, n, p);
    GrantedDecision(home, grants, selected, p);
    hide AtBegin, Writing;
  }

  lemma GrantedDecision(home: Home, grants: Grants, selected: set<Provider>, p: Provider)
    requires home.job.None? && p in grants && (IsAgent(p) ==> p in selected)
    ensures var decision := AtBegin(home, grants, selected, p);
      && !decision.Remove? && (decision.Install? ==> decision.grant == grants[p])
      && (decision.Untouched? ==> Mark(home.marks, p) == Some(grants[p]) && p in home.stores)
  {
  }
}
