/** Properties of the recipe executor of module Cake: what a call adds to the
    trace and to the flags, what a failing dependency or action leaves
    behind, how often an action can run, and how `main` sequences its
    arguments. */
module CakeLemmas {
  import opened Cake

  ghost predicate Distinct(s: seq<string>)
  {
    forall i, j :: 0 <= i < j < |s| ==> s[i] != s[j]
  }

  /** The trace entries a call added to `st`. */
  ghost function Work(st: State, st': State): seq<string>
    requires st.trace <= st'.trace
  {
    st'.trace[|st.trace|..]
  }

  /** `st'` follows `st` by running the actions `Work(st, st')`, each at most
      once, and by raising exactly the flags of those recipes. */
  ghost predicate NewWork(g: Graph, st: State, st': State)
    requires Fits(g, st) && Fits(g, st')
  {
    && st.trace <= st'.trace
    && Distinct(Work(st, st'))
    && (forall x :: x in Work(st, st') ==> x in g)
    && (forall x :: x in g ==> st'.flags[x] == (st.flags[x] || x in Work(st, st')))
  }

  /** Every raised flag belongs to a recipe whose action has run. */
  ghost predicate Recorded(g: Graph, st: State)
    requires Fits(g, st)
  {
    forall x :: x in g && st.flags[x] ==> x in st.trace
  }

  /** Flags never go from true back to false, and the trace only grows. */
  ghost predicate Grows(g: Graph, st: State, st': State)
    requires Fits(g, st) && Fits(g, st')
  {
    && st.trace <= st'.trace
    && forall x :: x in g && st.flags[x] ==> st'.flags[x]
  }

  // ----- Composing the work of two consecutive calls

  lemma {:induction false} NewWorkThen(g: Graph, s1: State, s2: State, s3: State)
    requires Fits(g, s1) && Fits(g, s2) && Fits(g, s3)
    requires NewWork(g, s1, s2) && NewWork(g, s2, s3)
    requires forall x :: x in Work(s2, s3) ==> !s2.flags[x]
    ensures NewWork(g, s1, s3)
    ensures Work(s1, s3) == Work(s1, s2) + Work(s2, s3)
  {
    var t1, t2 := Work(s1, s2), Work(s2, s3);
    assert s3.trace == s1.trace + t1 + t2;
    assert Work(s1, s3) == t1 + t2;
    forall i, j | 0 <= i < j < |t1 + t2|
      ensures (t1 + t2)[i] != (t1 + t2)[j]
    {
      if i < |t1| && |t1| <= j {
        assert t1[i] in t1 && (t1 + t2)[j] in t2;
      }
    }
  }

  // ----- What one call adds

  /** The dependencies of `parent` from the `i`-th on: the actions that run
      are of recipes ranked below `parent`, each unflagged before and run
      once, and exactly their flags are raised. */
  lemma {:induction false} BuildDepsWork(g: Graph, rank: map<string, nat>, parent: string, i: nat, st: State)
    requires Ranked(g, rank) && parent in g && Fits(g, st) && i <= |g[parent].deps|
    ensures var r := BuildDeps(g, rank, parent, i, st);
      && NewWork(g, st, r.state)
      && forall x :: x in Work(st, r.state) ==> x in g && rank[x] < rank[parent] && !st.flags[x]
    decreases rank[parent], 0, |g[parent].deps| - i
  {
    var ds := g[parent].deps;
    if i == |ds| {
      assert Work(st, st) == [];
    } else if st.flags[ds[i]] {
      BuildDepsWork(g, rank, parent, i + 1, st);
    } else {
      assert ds[i] in g[parent].deps;
      var r1 := Build(g, rank, ds[i], st);
      BuildWork(g, rank, ds[i], st);
      DependencyWork(g, rank, parent, ds[i], st, r1.state);
      if r1.status == Ok {
        BuildDepsWork(g, rank, parent, i + 1, r1.state);
        var r2 := BuildDeps(g, rank, parent, i + 1, r1.state);
        NewWorkThen(g, st, r1.state, r2.state);
        assert BuildDeps(g, rank, parent, i, st) == r2;
      }
    }
  }

  /** The work of building one unflagged dependency `d` of `parent` stays
      below `parent` and runs nothing that was flagged. */
  lemma DependencyWork(g: Graph, rank: map<string, nat>, parent: string, d: string, st: State, s1: State)
    requires Ranked(g, rank) && parent in g && d in g[parent].deps && Fits(g, st) && Fits(g, s1)
    requires !st.flags[d] && NewWork(g, st, s1)
    requires forall x :: x in Work(st, s1) ==> x == d || (x in g && rank[x] < rank[d] && !st.flags[x])
    ensures forall x :: x in Work(st, s1) ==> x in g && rank[x] < rank[parent] && !st.flags[x]
  {
  }

  /** A recipe method adds one trace entry per recipe it runs, raises
      exactly their flags, and runs nothing that was flagged before, except
      possibly the requested recipe itself, which is not checked at the top
      level. Everything else it runs is ranked below it. */
  lemma {:induction false} BuildWork(g: Graph, rank: map<string, nat>, n: string, st: State)
    requires Ranked(g, rank) && n in g && Fits(g, st)
    ensures var r := Build(g, rank, n, st);
      && NewWork(g, st, r.state)
      && forall x :: x in Work(st, r.state) ==> x == n || (x in g && rank[x] < rank[n] && !st.flags[x])
    decreases rank[n], 1, 0
  {
    var d := BuildDeps(g, rank, n, 0, st);
    BuildDepsWork(g, rank, n, 0, st);
    if d.status == Ok {
      AppendOwn(g, rank, n, st, d.state);
    }
  }

  /** The last step of a recipe method: raising its own flag and running its
      action after work that stayed below it. */
  lemma AppendOwn(g: Graph, rank: map<string, nat>, n: string, st: State, dst: State)
    requires Ranked(g, rank) && n in g && Fits(g, st) && Fits(g, dst)
    requires NewWork(g, st, dst)
    requires forall x :: x in Work(st, dst) ==> x in g && rank[x] < rank[n] && !st.flags[x]
    ensures var st' := State(dst.flags[n := true], dst.trace + [n]);
      && Fits(g, st')
      && NewWork(g, st, st')
      && forall x :: x in Work(st, st') ==> x == n || (x in g && rank[x] < rank[n] && !st.flags[x])
  {
    var st' := State(dst.flags[n := true], dst.trace + [n]);
    var t := Work(st, dst);
    assert st'.trace == st.trace + t + [n];
    assert Work(st, st') == t + [n];
    assert n !in t;
    forall i, j | 0 <= i < j < |t + [n]|
      ensures (t + [n])[i] != (t + [n])[j]
    {
      if j == |t| {
        assert t[i] in t;
      }
    }
  }

  /** `run_recipe` on a name that is not a declared recipe returns `Err`
      and leaves every flag and the trace as they were. */
  lemma UnknownNameIsInert(g: Graph, rank: map<string, nat>, cmd: string, st: State)
    requires Ranked(g, rank) && Fits(g, st) && cmd !in g
    ensures Dispatch(g, rank, cmd, st) == Step(Err, st)
  {
  }

  /** `run_recipe` adds the work of one recipe method, or nothing. */
  lemma DispatchWork(g: Graph, rank: map<string, nat>, cmd: string, st: State)
    requires Ranked(g, rank) && Fits(g, st)
    ensures var r := Dispatch(g, rank, cmd, st);
      && NewWork(g, st, r.state)
      && forall x :: x in Work(st, r.state) ==> x == cmd || !st.flags[x]
  {
    if cmd in g {
      BuildWork(g, rank, cmd, st);
    } else {
      assert Work(st, st) == [];
    }
  }

  // ----- Flags

  /** Nothing clears a flag: along any run of `main` flags only go from
      false to true and the trace only grows. */
  lemma {:induction false} RunArgsGrows(g: Graph, rank: map<string, nat>, args: seq<string>, st: State)
    requires Ranked(g, rank) && Fits(g, st)
    ensures Grows(g, st, RunArgs(g, rank, args, st).state)
    decreases |args|
  {
    if args != [] {
      var r := Dispatch(g, rank, args[0], st);
      DispatchWork(g, rank, args[0], st);
      if r.status == Ok {
        RunArgsGrows(g, rank, args[1..], r.state);
      }
    }
  }

  /** Once the dependencies of `n` are through, its flag is raised and its
      action runs last, whatever the action's outcome: a failing action
      (`Err`) still leaves the recipe flagged. */
  lemma FlaggedBeforeAction(g: Graph, rank: map<string, nat>, n: string, st: State)
    requires Ranked(g, rank) && n in g && Fits(g, st)
    requires BuildDeps(g, rank, n, 0, st).status == Ok
    ensures var r := Build(g, rank, n, st);
      && r.status == g[n].action
      && r.state.flags[n]
      && |r.state.trace| > 0 && r.state.trace[|r.state.trace| - 1] == n
  {
  }

  /** A recipe method returns `Err` only when its own action failed, and then
      it is flagged and its action is the last entry of the trace. */
  lemma ErrIsOwnFailure(g: Graph, rank: map<string, nat>, n: string, st: State)
    requires Ranked(g, rank) && n in g && Fits(g, st)
    requires Build(g, rank, n, st).status == Err
    ensures var r := Build(g, rank, n, st);
      && g[n].action == Err
      && r.state.flags[n]
      && |r.state.trace| > 0 && r.state.trace[|r.state.trace| - 1] == n
  {
  }

  /** If a dependency fails (returns `Err`, which `.expect` turns into a
      panic, or panics itself), the method aborts before its own flag is
      stored and before its action runs. */
  lemma DependencyFailureAborts(g: Graph, rank: map<string, nat>, n: string, st: State)
    requires Ranked(g, rank) && n in g && Fits(g, st)
    requires BuildDeps(g, rank, n, 0, st).status != Ok
    ensures var r := Build(g, rank, n, st);
      && r.status == Abort
      && st.trace <= r.state.trace
      && r.state.flags[n] == st.flags[n]
      && n !in Work(st, r.state)
  {
    BuildDepsWork(g, rank, n, 0, st);
  }

  /** The dependency loop of `parent` from the `i`-th entry on returns `Ok`
      only with every one of those dependencies flagged. */
  lemma {:induction false} BuildDepsFlagsAll(g: Graph, rank: map<string, nat>, parent: string, i: nat, st: State)
    requires Ranked(g, rank) && parent in g && Fits(g, st) && i <= |g[parent].deps|
    requires BuildDeps(g, rank, parent, i, st).status == Ok
    ensures var r := BuildDeps(g, rank, parent, i, st);
      forall j :: i <= j < |g[parent].deps| ==> r.state.flags[g[parent].deps[j]]
    decreases |g[parent].deps| - i
  {
    var ds := g[parent].deps;
    if i < |ds| {
      assert ds[i] in g[parent].deps;
      var mid := if st.flags[ds[i]] then st else Build(g, rank, ds[i], st).state;
      if !st.flags[ds[i]] {
        FlaggedBeforeAction(g, rank, ds[i], st);
      }
      assert mid.flags[ds[i]];
      BuildDepsFlagsAll(g, rank, parent, i + 1, mid);
      BuildDepsWork(g, rank, parent, i + 1, mid);
    }
  }

  /** A dependency loop over dependencies that are all flagged calls nothing
      and changes nothing. */
  lemma {:induction false} BuildDepsAllFlaggedIsSkip(g: Graph, rank: map<string, nat>, parent: string, i: nat, st: State)
    requires Ranked(g, rank) && parent in g && Fits(g, st) && i <= |g[parent].deps|
    requires forall j :: i <= j < |g[parent].deps| ==> st.flags[g[parent].deps[j]]
    ensures BuildDeps(g, rank, parent, i, st) == Step(Ok, st)
    decreases |g[parent].deps| - i
  {
    if i < |g[parent].deps| {
      BuildDepsAllFlaggedIsSkip(g, rank, parent, i + 1, st);
    }
  }

  /** New work keeps every raised flag recorded in the trace. */
  lemma NewWorkKeepsRecorded(g: Graph, st: State, st': State)
    requires Fits(g, st) && Fits(g, st') && Recorded(g, st) && NewWork(g, st, st')
    ensures Recorded(g, st')
  {
  }

  /** Raised flags stay recorded in the trace across a recipe method. */
  lemma BuildKeepsRecorded(g: Graph, rank: map<string, nat>, n: string, st: State)
    requires Ranked(g, rank) && n in g && Fits(g, st) && Recorded(g, st)
    ensures Recorded(g, Build(g, rank, n, st).state)
  {
    BuildWork(g, rank, n, st);
    NewWorkKeepsRecorded(g, st, Build(g, rank, n, st).state);
  }

  /** A fresh `CakeBuild` has no flag raised, so nothing is unrecorded. */
  lemma InitialRecorded(g: Graph)
    ensures Fits(g, Initial(g)) && Recorded(g, Initial(g))
  {
  }

  /** Every state `main` passes through keeps each raised flag matched by a
      trace entry, so `DependenciesBeforeAction` applies to every argument. */
  lemma {:induction false} RunArgsKeepsRecorded(g: Graph, rank: map<string, nat>, args: seq<string>, st: State)
    requires Ranked(g, rank) && Fits(g, st) && Recorded(g, st)
    ensures Recorded(g, RunArgs(g, rank, args, st).state)
    decreases |args|
  {
    if args != [] {
      var r := Dispatch(g, rank, args[0], st);
      if args[0] in g {
        BuildKeepsRecorded(g, rank, args[0], st);
      }
      if r.status == Ok {
        RunArgsKeepsRecorded(g, rank, args[1..], r.state);
      }
    }
  }

  /** When a recipe method gets past its dependencies, every dependency is
      flagged and its action ran before this recipe's own action, which is
      the last entry of the trace. */
  lemma DependenciesBeforeAction(g: Graph, rank: map<string, nat>, n: string, st: State)
    requires Ranked(g, rank) && n in g && Fits(g, st) && Recorded(g, st)
    requires Build(g, rank, n, st).status != Abort
    ensures var r := Build(g, rank, n, st);
      && |r.state.trace| > 0 && r.state.trace[|r.state.trace| - 1] == n
      && forall d :: d in g[n].deps ==> r.state.flags[d] && d in r.state.trace[..|r.state.trace| - 1]
  {
    assert BuildDeps(g, rank, n, 0, st).status == Ok;
    FlaggedBeforeAction(g, rank, n, st);
    BuildFlagsDeps(g, rank, n, st);
    BuildKeepsRecorded(g, rank, n, st);
    DepsInPrefix(g, rank, n, Build(g, rank, n, st).state);
  }

  lemma DepsInPrefix(g: Graph, rank: map<string, nat>, n: string, s: State)
    requires Ranked(g, rank) && n in g && Fits(g, s) && Recorded(g, s)
    requires forall j :: 0 <= j < |g[n].deps| ==> s.flags[g[n].deps[j]]
    requires |s.trace| > 0 && s.trace[|s.trace| - 1] == n
    ensures forall d :: d in g[n].deps ==> s.flags[d] && d in s.trace[..|s.trace| - 1]
  {
  }

  /** A recipe method that got past its dependencies leaves them and the
      recipe itself flagged. */
  lemma BuildFlagsDeps(g: Graph, rank: map<string, nat>, n: string, st: State)
    requires Ranked(g, rank) && n in g && Fits(g, st)
    requires Build(g, rank, n, st).status != Abort
    ensures var s1 := Build(g, rank, n, st).state;
      && s1.flags[n]
      && forall j :: 0 <= j < |g[n].deps| ==> s1.flags[g[n].deps[j]]
  {
    assert BuildDeps(g, rank, n, 0, st).status == Ok;
    BuildDepsFlagsAll(g, rank, n, 0, st);
  }

  /** Calling the method of a recipe that is flagged, with every dependency
      flagged, only runs its action. */
  lemma RebuildFlagged(g: Graph, rank: map<string, nat>, n: string, s: State)
    requires Ranked(g, rank) && n in g && Fits(g, s) && s.flags[n]
    requires forall j :: 0 <= j < |g[n].deps| ==> s.flags[g[n].deps[j]]
    ensures Build(g, rank, n, s) == Step(g[n].action, State(s.flags, s.trace + [n]))
  {
    BuildDepsAllFlaggedIsSkip(g, rank, n, 0, s);
    assert s.flags[n := true] == s.flags;
  }

  /** Requesting the same recipe again at the top level, after a run that got
      past its dependencies, runs its action a second time and nothing else:
      its dependencies are all flagged and are skipped. */
  lemma RequestTwice(g: Graph, rank: map<string, nat>, n: string, st: State)
    requires Ranked(g, rank) && n in g && Fits(g, st)
    requires Dispatch(g, rank, n, st).status != Abort
    ensures var r1 := Dispatch(g, rank, n, st);
      Dispatch(g, rank, n, r1.state)
      == Step(g[n].action, State(r1.state.flags, r1.state.trace + [n]))
  {
    BuildFlagsDeps(g, rank, n, st);
    RebuildFlagged(g, rank, n, Build(g, rank, n, st).state);
  }

  // ----- How `main` sequences its arguments

  /** `main` over `a + b` is `main` over `a`, followed by `main` over `b`
      only when every argument of `a` succeeded. */
  lemma {:induction false} RunArgsAppend(g: Graph, rank: map<string, nat>, a: seq<string>, b: seq<string>, st: State)
    requires Ranked(g, rank) && Fits(g, st)
    ensures var ra := RunArgs(g, rank, a, st);
      RunArgs(g, rank, a + b, st)
      == if ra.status == Ok then RunArgs(g, rank, b, ra.state) else ra
    decreases |a|
  {
    if a == [] {
      assert a + b == b;
    } else {
      assert (a + b)[0] == a[0] && (a + b)[1..] == a[1..] + b;
      var r := Dispatch(g, rank, a[0], st);
      if r.status == Ok {
        RunArgsAppend(g, rank, a[1..], b, r.state);
      }
    }
  }

  /** `main` stops at the first argument that fails, found or not: the
      arguments after it are never looked at, and the process panics with the
      state that argument left. */
  lemma StopsAtFirstFailure(g: Graph, rank: map<string, nat>, a: seq<string>, x: string, b: seq<string>, st: State)
    requires Ranked(g, rank) && Fits(g, st)
    requires RunArgs(g, rank, a, st).status == Ok
    requires Dispatch(g, rank, x, RunArgs(g, rank, a, st).state).status != Ok
    ensures RunArgs(g, rank, a + [x] + b, st)
         == Step(Abort, Dispatch(g, rank, x, RunArgs(g, rank, a, st).state).state)
  {
    assert a + [x] + b == a + ([x] + b);
    RunArgsAppend(g, rank, a, [x] + b, st);
    assert ([x] + b)[0] == x;
  }

  // ----- At most once, over a whole run of `main`

  lemma {:induction false} DistinctCount(t: seq<string>, x: string)
    requires Distinct(t)
    ensures multiset(t)[x] == if x in t then 1 else 0
  {
    if t != [] {
      assert t == [t[0]] + t[1..];
      DistinctCount(t[1..], x);
    }
  }

  /** Every recipe outside `exempt` has run exactly once if flagged and not
      at all otherwise. */
  ghost predicate Accounted(g: Graph, st: State, exempt: set<string>)
    requires Fits(g, st)
  {
    forall x :: x !in exempt ==> multiset(st.trace)[x] == if x in g && st.flags[x] then 1 else 0
  }

  lemma DispatchAccounted(g: Graph, rank: map<string, nat>, cmd: string, st: State, exempt: set<string>)
    requires Ranked(g, rank) && Fits(g, st) && Accounted(g, st, exempt)
    ensures Accounted(g, Dispatch(g, rank, cmd, st).state, exempt + {cmd})
  {
    var r := Dispatch(g, rank, cmd, st);
    DispatchWork(g, rank, cmd, st);
    var t := Work(st, r.state);
    assert r.state.trace == st.trace + t;
    forall x | x !in exempt + {cmd}
      ensures multiset(r.state.trace)[x] == if x in g && r.state.flags[x] then 1 else 0
    {
      DistinctCount(t, x);
      assert multiset(r.state.trace)[x] == multiset(st.trace)[x] + multiset(t)[x];
    }
  }

  lemma {:induction false} RunArgsAccounted(g: Graph, rank: map<string, nat>, args: seq<string>, st: State, exempt: set<string>)
    requires Ranked(g, rank) && Fits(g, st) && Accounted(g, st, exempt)
    ensures Accounted(g, RunArgs(g, rank, args, st).state, exempt + set x | x in args)
    decreases |args|
  {
    if args != [] {
      var r := Dispatch(g, rank, args[0], st);
      DispatchAccounted(g, rank, args[0], st, exempt);
      if r.status == Ok {
        RunArgsAccounted(g, rank, args[1..], r.state, exempt + {args[0]});
        assert exempt + {args[0]} + (set x | x in args[1..]) == exempt + set x | x in args;
      } else {
        assert exempt + {args[0]} <= exempt + set x | x in args;
      }
    }
  }

  /** Over a whole run of `main`, a recipe that is not itself requested on
      the command line has its action run at most once: once exactly when
      it ends up flagged. A requested one can run again, since the top-level
      call does not check the flag. */
  lemma AtMostOnceUnlessRequested(g: Graph, rank: map<string, nat>, args: seq<string>, x: string)
    requires Ranked(g, rank) && x !in args
    ensures var r := RunArgs(g, rank, args, Initial(g));
      multiset(r.state.trace)[x] == if x in g && r.state.flags[x] then 1 else 0
  {
    RunArgsAccounted(g, rank, args, Initial(g), {});
  }
}
