// The installer itself: one write over the workbench's files, in place, failing
// after any number of operations.
module CredentialInstaller {
  import opened Wrappers
  import opened Credentials

  // The home a write under way stands for, from the files and the write's memory.
  predicate Reached(home: Home, grants: Grants, selected: set<Provider>, n: nat, rest: Home, job: Job) {
    rest.job.None? && job.next == n && rest.(job := Some(job)) == Writing(home, grants, selected, n)
  }

  lemma BeginReaches(home: Home, grants: Grants, selected: set<Provider>)
    requires home.job.None?
    ensures Reached(home, grants, selected, 0, home,
                    Job(grants, selected, SeenAgents(home.stores), home.hasMarker, home.marks, 0))
  {
  }

  lemma DecideReaches(home: Home, grants: Grants, selected: set<Provider>, n: nat, rest: Home, job: Job,
                      after: Home, decided: Job, p: Provider)
    requires Reached(home, grants, selected, n, rest, job) && n < OPS && OpAt(n) == Decide(p)
    requires (after, decided) == Carry(rest, job, p, DecisionFor(rest, job, p))
    ensures Reached(home, grants, selected, n + 1, after, decided.(next := n + 1))
  {
    var running := rest.(job := Some(job));
    assert DecisionFor(running, job, p) == DecisionFor(rest, job, p);
    CarryAtRest(rest, job, p, DecisionFor(rest, job, p));
    assert Writing(home, grants, selected, n + 1) == Advanced(running, job);
  }

  lemma CarryAtRest(rest: Home, job: Job, p: Provider, decision: Decision)
    requires rest.job.None?
    ensures var (after, decided) := Carry(rest, job, p, decision);
      after.job.None? && Carry(rest.(job := Some(job)), job, p, decision) == (after.(job := Some(job)), decided)
  {
  }

  lemma SaveReaches(home: Home, grants: Grants, selected: set<Provider>, n: nat, rest: Home, job: Job)
    requires Reached(home, grants, selected, n, rest, job) && n < OPS && OpAt(n).Save?
    ensures Reached(home, grants, selected, n + 1, rest.(marks := job.marks, hasMarker := true), job.(next := n + 1))
  {
    assert Writing(home, grants, selected, n + 1) == Advanced(rest.(job := Some(job)), job);
  }

  lemma AbortReaches(home: Home, grants: Grants, selected: set<Provider>, n: nat, rest: Home, job: Job)
    requires Reached(home, grants, selected, n, rest, job)
    ensures rest == Next(Writing(home, grants, selected, n), Abort)
    ensures n == OPS ==> rest == Written(home, grants, selected)
  {
  }

  class Workbench {
    var stores: map<Provider, Token>
    var marks: Marks
    var hasMarker: bool
    ghost var installed: seq<Provider>

    ghost function AtRest(): Home
      reads this
    {
      Home(stores, marks, hasMarker, None, installed)
    }

    constructor (stores: map<Provider, Token>, marks: Marks, hasMarker: bool)
      ensures AtRest() == Home(stores, marks, hasMarker, None, [])
    {
      this.stores, this.marks, this.hasMarker, installed := stores, marks, hasMarker, [];
    }

    method AgentsPresent() returns (seen: set<Provider>)
      ensures seen == SeenAgents(stores)
    {
      seen := {};
      if Codex in stores { seen := seen + {Codex}; }
      if Pi in stores { seen := seen + {Pi}; }
      if OpenCode in stores { seen := seen + {OpenCode}; }
      assert forall p :: p in seen <==> p in SeenAgents(stores);
    }

    method WriteStore(p: Provider, grant: Fingerprint)
      modifies this`stores, this`installed
      ensures stores == old(stores)[p := FromGrant(grant)] && installed == old(installed) + [p]
    {
      stores := stores[p := FromGrant(grant)];
      installed := installed + [p];
    }

    // One agent of reconcileChatgptAuth.
    method ReconcileAgent(p: Provider, ghost job: Job, grants: Grants, selected: set<Provider>,
                          seen: set<Provider>, managed: Marks) returns (state: Marks)
      requires IsAgent(p) && job.grants == grants && job.selected == selected
      requires job.seen == seen && job.marks == managed
      modifies this`stores, this`installed
      ensures (AtRest(), job.(marks := state)) == Carry(old(AtRest()), job, p, DecisionFor(old(AtRest()), job, p))
    {
      state := managed;
      if p !in selected { return; }
      if p !in grants {
        if p in state {
          stores := stores - {p};
          state := state - {p};
        }
        return;
      }
      if p in state && state[p] == grants[p] && p in seen { return; }
      if p !in state && p in seen {
        state := state[p := grants[p]];
        return;
      }
      WriteStore(p, grants[p]);
      state := state[p := grants[p]];
    }

    // reconcileWranglerAuth and reconcileConvexAuth.
    method ReconcileFile(p: Provider, ghost job: Job, grants: Grants, existed: bool, managed: Marks)
      returns (state: Marks)
      requires !IsAgent(p) && job.grants == grants && job.existed == existed && job.marks == managed
      modifies this`stores, this`installed
      ensures (AtRest(), job.(marks := state)) == Carry(old(AtRest()), job, p, DecisionFor(old(AtRest()), job, p))
    {
      state := managed;
      if p !in grants {
        if p in state {
          stores := stores - {p};
          state := state - {p};
        }
        return;
      }
      var localExists := p in stores;
      if p in state && state[p] == grants[p] && localExists { return; }
      if !existed && p !in state && localExists {
        state := state[p := grants[p]];
        return;
      }
      WriteStore(p, grants[p]);
      state := state[p := grants[p]];
    }

    // `operations` is how many operations the container lets through.
    method Write(grants: Grants, selected: set<Provider>, operations: nat) returns (ok: bool)
      modifies this
      ensures ok <==> operations >= OPS
      ensures AtRest() == if ok then Written(old(AtRest()), grants, selected)
                          else Next(Writing(old(AtRest()), grants, selected, operations), Abort)
    {
      hide Reached, Writing, Written, Next, Carry, DecisionFor;
      ghost var home := AtRest();
      BeginReaches(home, grants, selected);
      var managed, existed := marks, hasMarker;
      var seen := AgentsPresent();
      ghost var job := Job(grants, selected, seen, existed, managed, 0);
      var agents := [Pi, Codex, OpenCode];
      var i := 0;
      while i < |agents|
        invariant i <= 3 && operations >= i
        invariant job == Job(grants, selected, seen, existed, managed, i)
        invariant Reached(home, grants, selected, i, AtRest(), job)
      {
        if operations == i {
          AbortReaches(home, grants, selected, i, AtRest(), job);
          return false;
        }
        ghost var rest := AtRest();
        managed := ReconcileAgent(agents[i], job, grants, selected, seen, managed);
        DecideReaches(home, grants, selected, i, rest, job, AtRest(), job.(marks := managed), agents[i]);
        i := i + 1;
        job := job.(marks := managed, next := i);
      }
      if operations == 3 {
        AbortReaches(home, grants, selected, 3, AtRest(), job);
        return false;
      }
      SaveReaches(home, grants, selected, 3, AtRest(), job);
      marks, hasMarker := managed, true;
      job := job.(next := 4);
      ok, managed := FileStage(home, job, Wrangler, 4, grants, selected, existed, managed, operations);
      if !ok { return; }
      job := job.(marks := managed, next := 6);
      ok, managed := FileStage(home, job, Convex, 6, grants, selected, existed, managed, operations);
      if !ok { return; }
      AbortReaches(home, grants, selected, OPS, AtRest(), job.(marks := managed, next := OPS));
    }

    // One file store's decision and the save after it: operations n and n + 1.
    method FileStage(ghost home: Home, ghost job: Job, p: Provider, n: nat, grants: Grants,
                     ghost selected: set<Provider>, existed: bool, managed: Marks, operations: nat)
      returns (ok: bool, state: Marks)
      requires n + 2 <= OPS && OpAt(n) == Decide(p) && OpAt(n + 1).Save? && !IsAgent(p) && operations >= n
      requires job.grants == grants && job.existed == existed && job.marks == managed
      requires Reached(home, grants, selected, n, AtRest(), job)
      modifies this
      ensures ok <==> operations >= n + 2
      ensures if ok then Reached(home, grants, selected, n + 2, AtRest(), job.(marks := state, next := n + 2))
              else AtRest() == Next(Writing(home, grants, selected, operations), Abort)
    {
      state := managed;
      if operations == n {
        AbortReaches(home, grants, selected, n, AtRest(), job);
        return false, state;
      }
      ghost var rest := AtRest();
      state := ReconcileFile(p, job, grants, existed, managed);
      ghost var decided := job.(marks := state, next := n + 1);
      DecideReaches(home, grants, selected, n, rest, job, AtRest(), job.(marks := state), p);
      if operations == n + 1 {
        AbortReaches(home, grants, selected, n + 1, AtRest(), decided);
        return false, state;
      }
      SaveReaches(home, grants, selected, n + 1, AtRest(), decided);
      marks, hasMarker := state, true;
      ok := true;
    }
  }
}
