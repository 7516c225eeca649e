/** The four recipes of examples/simple.rs, as a graph value, and what
    requesting each of them does. `start` runs the command `ls`, whose
    outcome is left open (`ls`); the other three only print, which always
    succeeds. */
module SimpleExample {
  import opened Cake
  import opened CakeLemmas

  function Simple(ls: Status): Graph
  {
    map[
      "start" := Recipe(["sodium", "libstd"], ls),
      "sodium" := Recipe(["libstd", "libextra"], Ok),
      "libstd" := Recipe([], Ok),
      "libextra" := Recipe([], Ok)
    ]
  }

  /** `libstd` and `libextra` below `sodium`, below `start`. */
  ghost function SimpleRank(): map<string, nat>
  {
    map["start" := 2, "sodium" := 1, "libstd" := 0, "libextra" := 0]
  }

  /** The flags of the four recipes, one argument each. */
  function Flags(start: bool, sodium: bool, libstd: bool, libextra: bool): map<string, bool>
  {
    map["start" := start, "sodium" := sodium, "libstd" := libstd, "libextra" := libextra]
  }

  const Recipes: set<string> := {"start", "sodium", "libstd", "libextra"}

  /** The declared graph is acyclic, so every request terminates. */
  lemma SimpleIsRanked(ls: Status)
    ensures Ranked(Simple(ls), SimpleRank())
    ensures Simple(ls).Keys == Recipes
    ensures Initial(Simple(ls)).flags == Flags(false, false, false, false)
  {
  }

  /** Requesting `libstd` runs only its action and raises only its flag. */
  lemma RequestLibstd(ls: Status)
    ensures Ranked(Simple(ls), SimpleRank())
    ensures Dispatch(Simple(ls), SimpleRank(), "libstd", Initial(Simple(ls)))
         == Step(Ok, State(Flags(false, false, true, false), ["libstd"]))
  {
    SimpleIsRanked(ls);
    var g, rk, s0 := Simple(ls), SimpleRank(), Initial(Simple(ls));
    assert BuildDeps(g, rk, "libstd", 0, s0) == Step(Ok, s0);
    assert Flags(false, false, false, false)["libstd" := true] == Flags(false, false, true, false);
  }

  /** Requesting `sodium` runs `libstd`, `libextra` and `sodium`, in that
      order, and leaves `start` unflagged and not run. */
  lemma RequestSodium(ls: Status)
    ensures Ranked(Simple(ls), SimpleRank())
    ensures Dispatch(Simple(ls), SimpleRank(), "sodium", Initial(Simple(ls)))
         == Step(Ok, State(Flags(false, true, true, true), ["libstd", "libextra", "sodium"]))
  {
    SimpleIsRanked(ls);
    var g, rk, s0 := Simple(ls), SimpleRank(), Initial(Simple(ls));
    var s1 := State(Flags(false, false, true, false), ["libstd"]);
    RequestLibstd(ls);
    assert Build(g, rk, "libstd", s0) == Step(Ok, s1);
    var s2 := State(Flags(false, false, true, true), ["libstd", "libextra"]);
    assert BuildDeps(g, rk, "libextra", 0, s1) == Step(Ok, s1);
    assert s1.flags["libextra" := true] == s2.flags;
    assert Build(g, rk, "libextra", s1) == Step(Ok, s2);
    assert BuildDeps(g, rk, "sodium", 2, s2) == Step(Ok, s2);
    assert BuildDeps(g, rk, "sodium", 1, s1) == Step(Ok, s2);
    assert BuildDeps(g, rk, "sodium", 0, s0) == Step(Ok, s2);
    assert s2.flags["sodium" := true] == Flags(false, true, true, true);
  }

  /** Requesting `start` runs `libstd`, `libextra`, `sodium`, `start` in
      that order and raises all four flags, whatever `ls` does: the flag of
      `start` is stored before `ls` runs. */
  lemma RequestStart(ls: Status)
    ensures Ranked(Simple(ls), SimpleRank())
    ensures Dispatch(Simple(ls), SimpleRank(), "start", Initial(Simple(ls)))
         == Step(ls, State(Flags(true, true, true, true), StartTrace))
  {
    SimpleIsRanked(ls);
    var g, rk, s0 := Simple(ls), SimpleRank(), Initial(Simple(ls));
    var s3 := State(Flags(false, true, true, true), ["libstd", "libextra", "sodium"]);
    RequestSodium(ls);
    assert Build(g, rk, "sodium", s0) == Step(Ok, s3);
    assert BuildDeps(g, rk, "start", 2, s3) == Step(Ok, s3);
    assert BuildDeps(g, rk, "start", 1, s3) == Step(Ok, s3);
    assert BuildDeps(g, rk, "start", 0, s0) == Step(Ok, s3);
    assert s3.flags["start" := true] == Flags(true, true, true, true);
    assert s3.trace + ["start"] == ["libstd", "libextra", "sodium", "start"];
  }

  /** The trace of a request of `start`. */
  const StartTrace: seq<string> := ["libstd", "libextra", "sodium", "start"]

  /** Every entry `a` of `t` comes before every entry `b`. */
  ghost predicate Before(t: seq<string>, a: string, b: string)
  {
    forall i, j :: 0 <= i < |t| && 0 <= j < |t| && t[i] == a && t[j] == b ==> i < j
  }

  lemma StartTraceFacts()
    ensures multiset(StartTrace)["libstd"] == 1
    ensures Before(StartTrace, "libstd", "sodium") && Before(StartTrace, "libextra", "sodium")
    ensures Before(StartTrace, "sodium", "start")
  {
  }

  /** The state a request of `start` leaves: every recipe flagged and run,
      in dependency order. */
  lemma StartStateFacts(st: State)
    requires st == State(Flags(true, true, true, true), StartTrace)
    ensures forall n :: n in Recipes ==> n in st.flags && st.flags[n] && n in st.trace
    ensures Before(st.trace, "libstd", "sodium") && Before(st.trace, "libextra", "sodium")
    ensures Before(st.trace, "sodium", "start")
  {
    StartTraceFacts();
  }

  /** Though both `start` and `sodium` depend on `libstd`, requesting `start`
      runs the action of `libstd` exactly once. */
  lemma StartRunsLibstdOnce(ls: Status)
    ensures Ranked(Simple(ls), SimpleRank())
    ensures multiset(Dispatch(Simple(ls), SimpleRank(), "start", Initial(Simple(ls))).state.trace)["libstd"] == 1
  {
    RequestStart(ls);
    StartTraceFacts();
  }

  /** Requesting `start`: all four actions run and all four flags end up
      raised; `libstd` and `libextra` run before `sodium`, and `sodium`
      before `start`. */
  lemma StartOrder(ls: Status)
    ensures Ranked(Simple(ls), SimpleRank())
    ensures var r := Dispatch(Simple(ls), SimpleRank(), "start", Initial(Simple(ls)));
      && (forall n :: n in Recipes ==> n in r.state.flags && r.state.flags[n] && n in r.state.trace)
      && Before(r.state.trace, "libstd", "sodium") && Before(r.state.trace, "libextra", "sodium")
      && Before(r.state.trace, "sodium", "start")
  {
    RequestStart(ls);
    StartStateFacts(Dispatch(Simple(ls), SimpleRank(), "start", Initial(Simple(ls))).state);
  }

  /** Any other name is not found: `run_recipe` returns `Err` and nothing
      runs, and `main` panics with nothing run and no flag raised. */
  lemma RequestUnknown(ls: Status, cmd: string)
    requires cmd !in Recipes
    ensures Ranked(Simple(ls), SimpleRank())
    ensures
      && Dispatch(Simple(ls), SimpleRank(), cmd, Initial(Simple(ls))) == Step(Err, Initial(Simple(ls)))
      && RunArgs(Simple(ls), SimpleRank(), [cmd], Initial(Simple(ls))) == Step(Abort, Initial(Simple(ls)))
  {
  }

  /** `main` with arguments `start start`, when `ls` succeeds: the second
      request skips the flagged dependencies and runs only `start` again. */
  lemma MainStartTwice()
    ensures Ranked(Simple(Ok), SimpleRank())
    ensures
      RunArgs(Simple(Ok), SimpleRank(), ["start", "start"], Initial(Simple(Ok)))
      == Step(Ok, State(Flags(true, true, true, true), ["libstd", "libextra", "sodium", "start", "start"]))
  {
    SimpleIsRanked(Ok);
    var g, rk := Simple(Ok), SimpleRank();
    var s4 := State(Flags(true, true, true, true), ["libstd", "libextra", "sodium", "start"]);
    RequestStart(Ok);
    RequestTwice(g, rk, "start", Initial(g));
    assert Dispatch(g, rk, "start", s4) == Step(Ok, State(s4.flags, s4.trace + ["start"]));
    assert ["start", "start"][1..] == ["start"];
    assert RunArgs(g, rk, ["start"], s4) == Step(Ok, State(s4.flags, s4.trace + ["start"]));
  }
}
