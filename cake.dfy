/** The recipe executor that the `build!` macro of src/lib.rs generates, read
    data-driven: the generated struct `CakeBuild` becomes a class holding one
    "built" flag per declared recipe, and the generated per-recipe methods
    become one method that looks the recipe up in a graph value.

    `par!` is read as evaluating its arguments one after another, in the order
    they are written. I/O is left out: running an action is recorded as an
    entry in `trace`, and the action's result is a fixed outcome per recipe. */
module Cake {

  /** What a recipe method, `run_recipe` or `main` can come to: `Ok(())`,
      `Err(())`, or a panic that ends the process (`Abort`). */
  datatype Status = Ok | Err | Abort

  /** One declared recipe: its dependency names in declaration order, and
      the outcome of its action (`cmd!` yields `Err` on a non-zero exit and
      panics when the command cannot be spawned; a plain statement yields `Ok`). */
  datatype Recipe = Recipe(deps: seq<string>, action: Status)

  type Graph = map<string, Recipe>

  /** The part of a run that can be observed: the flag of every recipe and
      the names of the recipes whose actions ran, in order. */
  datatype State = State(flags: map<string, bool>, trace: seq<string>)

  /** A returned status together with the state it leaves behind. */
  datatype Step = Step(status: Status, state: State)

  /** Every dependency is a declared recipe of strictly smaller rank. The
      macro rejects undeclared dependencies at compile time; the rank stands
      for the acyclicity the code never checks. It is asked of the whole
      graph, so a graph with a cycle is excluded even for requests that never
      reach the cycle, which the program completes normally. */
  ghost predicate Ranked(g: Graph, rank: map<string, nat>)
  {
    && g.Keys <= rank.Keys
    && forall n, d :: n in g && d in g[n].deps ==> d in g && rank[d] < rank[n]
  }

  /** One flag per declared recipe, as the generated struct has one field each. */
  ghost predicate Fits(g: Graph, st: State)
  {
    st.flags.Keys == g.Keys
  }

  /** `CakeBuild::default()`: every flag false, nothing run yet. */
  function Initial(g: Graph): State
  {
    State(map n | n in g :: false, [])
  }

  /** The generated method for recipe `name`: build the dependencies that are
      not yet flagged, then store the flag, then run the action and return its
      outcome. */
  ghost function Build(g: Graph, rank: map<string, nat>, name: string, st: State): (r: Step)
    requires Ranked(g, rank) && name in g && Fits(g, st)
    ensures Fits(g, r.state)
    decreases rank[name], 1, 0
  {
    var d := BuildDeps(g, rank, name, 0, st);
    if d.status != Ok then Step(Abort, d.state)
    else Step(g[name].action, State(d.state.flags[name := true], d.state.trace + [name]))
  }

  /** The `par!` block of the method for `parent`, from its `i`-th dependency
      on: a dependency whose flag is false is built, and one that returns
      `Err` makes `.expect` panic. The model stops the remaining dependencies
      at a panic. */
  ghost function BuildDeps(g: Graph, rank: map<string, nat>, parent: string, i: nat, st: State): (r: Step)
    requires Ranked(g, rank) && parent in g && Fits(g, st) && i <= |g[parent].deps|
    ensures Fits(g, r.state)
    decreases rank[parent], 0, |g[parent].deps| - i
  {
    var ds := g[parent].deps;
    if i == |ds| then Step(Ok, st)
    else if st.flags[ds[i]] then BuildDeps(g, rank, parent, i + 1, st)
    else
      var r := Build(g, rank, ds[i], st);
      if r.status != Ok then Step(Abort, r.state)
      else BuildDeps(g, rank, parent, i + 1, r.state)
  }

  /** `run_recipe`: call the method of a declared recipe, without looking at
      its flag; any other name is `Err`. */
  ghost function Dispatch(g: Graph, rank: map<string, nat>, cmd: string, st: State): (r: Step)
    requires Ranked(g, rank) && Fits(g, st)
    ensures Fits(g, r.state)
  {
    if cmd in g then Build(g, rank, cmd, st) else Step(Err, st)
  }

  /** The loop of `main` over the command-line arguments: each one goes to
      `run_recipe`, and the first that does not return `Ok` panics. `main`
      itself therefore never comes to `Err`. */
  ghost function RunArgs(g: Graph, rank: map<string, nat>, args: seq<string>, st: State): (r: Step)
    requires Ranked(g, rank) && Fits(g, st)
    ensures Fits(g, r.state)
    ensures r.status != Err
    decreases |args|
  {
    if args == [] then Step(Ok, st)
    else
      var r := Dispatch(g, rank, args[0], st);
      if r.status != Ok then Step(Abort, r.state)
      else RunArgs(g, rank, args[1..], r.state)
  }

  /** The generated struct: one flag per recipe, and the record of the
      actions that ran. */
  class CakeBuild {
    const graph: Graph
    ghost const rank: map<string, nat>
    var flags: map<string, bool>
    var trace: seq<string>

    ghost predicate Valid()
      reads this
    {
      Ranked(graph, rank) && flags.Keys == graph.Keys
    }

    ghost function Snapshot(): State
      reads this
    {
      State(flags, trace)
    }

    /** `CakeBuild::default()`. */
    constructor (graph: Graph, ghost rank: map<string, nat>)
      requires Ranked(graph, rank)
      ensures Valid() && this.graph == graph && this.rank == rank
      ensures Snapshot() == Initial(graph)
    {
      this.graph := graph;
      this.rank := rank;
      flags := map n | n in graph :: false;
      trace := [];
    }

    /** The method the macro generates for recipe `name`. */
    method BuildRecipe(name: string) returns (s: Status)
      requires Valid() && name in graph
      modifies this
      ensures Valid()
      ensures Step(s, Snapshot()) == Build(graph, rank, name, old(Snapshot()))
      decreases rank[name]
    {
      ghost var st0 := Snapshot();
      var deps := graph[name].deps;
      var i := 0;
      while i < |deps|
        invariant 0 <= i <= |deps|
        invariant Valid()
        invariant BuildDeps(graph, rank, name, i, Snapshot()) == BuildDeps(graph, rank, name, 0, st0)
      {
        var d := deps[i];
        assert d in graph[name].deps;
        if !flags[d] {
          var r := BuildRecipe(d);
          if r != Ok {
            // `.expect` panics on `Err`; a panic below propagates
            return Abort;
          }
        }
        i := i + 1;
      }
      flags := flags[name := true];
      // the action runs
      trace := trace + [name];
      s := graph[name].action;
    }

    /** `run_recipe`. */
    method RunRecipe(cmd: string) returns (s: Status)
      requires Valid()
      modifies this
      ensures Valid()
      ensures Step(s, Snapshot()) == Dispatch(graph, rank, cmd, old(Snapshot()))
    {
      if cmd in graph {
        s := BuildRecipe(cmd);
      } else {
        s := Err;
      }
    }
  }

  /** `main`, given the command-line arguments after the program name: a
      fresh `CakeBuild`, then each argument in order until one fails. Returns
      how the process ends and what it leaves behind. */
  method RunMain(graph: Graph, ghost rank: map<string, nat>, args: seq<string>) returns (s: Status, out: State)
    requires Ranked(graph, rank)
    ensures s == Ok || s == Abort
    ensures Step(s, out) == RunArgs(graph, rank, args, Initial(graph))
  {
    var build := new CakeBuild(graph, rank);
    var i := 0;
    while i < |args|
      invariant 0 <= i <= |args|
      invariant build.Valid() && build.graph == graph && build.rank == rank
      invariant RunArgs(graph, rank, args[i..], build.Snapshot()) == RunArgs(graph, rank, args, Initial(graph))
    {
      RunArgsUnfold(graph, rank, args, i, build.Snapshot());
      var r := build.RunRecipe(args[i]);
      if r != Ok {
        // the argument failed or is not declared: main panics and the process ends
        return Abort, State(build.flags, build.trace);
      }
      i := i + 1;
    }
    s, out := Ok, State(build.flags, build.trace);
  }

  /** One turn of `main`'s loop, as the loop in `RunMain` takes it. */
  lemma RunArgsUnfold(g: Graph, rank: map<string, nat>, args: seq<string>, i: nat, st: State)
    requires Ranked(g, rank) && Fits(g, st) && i < |args|
    ensures RunArgs(g, rank, args[i..], st)
         == var r := Dispatch(g, rank, args[i], st);
            if r.status != Ok then Step(Abort, r.state) else RunArgs(g, rank, args[i + 1..], r.state)
  {
  }
}
