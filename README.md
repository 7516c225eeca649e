# cake: the recipe executor, modelled in Dafny

`cake` is a small build tool for Rust. A build file declares recipes with
the `build!` macro: each recipe has a name, an ordered list of dependency
names and an action (often a `cmd!` that spawns a process). The macro
generates four things:

- a struct `CakeBuild` with one `AtomicBool` "built" flag per recipe;
- one method per recipe. The method first goes through its dependencies
  inside `par!`. It calls the method of each dependency whose flag is false
  and panics (`.expect`) if that call returns `Err`. It then stores its own
  flag, runs its action and returns `Ok`; a failing `cmd!` returns `Err`
  early;
- `run_recipe`, which calls the method for a name (without looking at the
  flag) or returns `Err` for an unknown name;
- `main`, which runs the command-line arguments in order on one fresh
  `CakeBuild` and panics on the first `Err`.

The model is data-driven. A `Graph` maps each recipe name to
`Recipe(deps, action)`. The action is only an outcome: `Ok`, `Err`, or
`Abort` (a panic, for instance `cmd!`'s `.unwrap()` when the process cannot be
spawned). The class `Cake.CakeBuild` holds the flags as a
`map<string, bool>`. It also holds a `trace`: the names of the recipes whose
actions ran, in order. This is where output such as `println!` is recorded.
Its methods `BuildRecipe` and `RunRecipe` are proved equal to the ghost
functions `Build`, `BuildDeps` and `Dispatch`. `RunMain` is proved equal to
`RunArgs`. The properties are proved about those functions, in module
`CakeLemmas`. Module `SimpleExample` runs the four-recipe diamond of
`examples/simple.rs` through the model.

`par!` expands to nested `rayon::join` calls. The model evaluates its
arguments one after another, in the order they are written. No property
depends on that order except the concrete traces of `SimpleExample`.

Acyclicity is never checked by the code: a requested name that reaches a
cycle makes the generated methods call each other without end. The model asks
for a rank with
`rank[dep] < rank[name]` (`Cake.Ranked`). That rank is the termination
measure. `Ranked` also asks that every dependency is a declared recipe,
which the macro enforces at compile time.

Behaviour the code has that an executor holding a per-recipe lock from the
flag check through the action would not:

- the flag is stored after the dependencies and before the action, so a
  recipe whose action fails is still flagged (`src/lib.rs:67-69`);
- nothing holds a lock: the flag is the only record, and it is read before
  the call and written by the callee (`src/lib.rs:61`, `src/lib.rs:67`);
- the top-level call in `run_recipe` does not look at the flag, so
  requesting a name twice runs its action twice (`src/lib.rs:78`);
- errors carry no recipe name (`Result<(), ()>`). A failing dependency is
  not returned as an error: `.expect` panics, and the panic ends the
  process (`src/lib.rs:62`);
- an empty argument list simply does nothing and `main` returns normally.

## Model

| member | source | states |
|---|---|---|
| `Cake.Build` | src/lib.rs:58-72 | the generated recipe method: dependencies, then flag, then action; keeps exactly one flag per declared recipe |
| `Cake.BuildDeps` | src/lib.rs:59-65 | the `par!` block: an unflagged dependency is built, an `Err` or a panic from it aborts; keeps one flag per declared recipe |
| `Cake.Dispatch` | src/lib.rs:75-83 | `run_recipe`: a declared name goes to its method with no flag check, any other name is `Err`; keeps one flag per declared recipe |
| `Cake.RunArgs` | src/lib.rs:89-93 | the loop of `main`: the first argument that is not `Ok` panics, so `main` never ends in `Err` |
| `Cake.CakeBuild.constructor` | src/lib.rs:87 | `CakeBuild::default()`: every flag false, empty trace |
| `Cake.CakeBuild.BuildRecipe` | src/lib.rs:58-72 | the method's status and new flags and trace are exactly those of `Build`; the dependency loop keeps the remaining work equal to `BuildDeps` |
| `Cake.CakeBuild.RunRecipe` | src/lib.rs:75-83 | status and new state are exactly those of `Dispatch` |
| `Cake.RunMain` | src/lib.rs:86-94 | `main` on a fresh build ends in `Ok` or `Abort`, with the status and state of `RunArgs` |
| `CakeLemmas.BuildDepsWork` | src/lib.rs:59-65 | the dependency loop runs only recipes ranked below the parent, each unflagged beforehand and run once; exactly their flags are raised |
| `CakeLemmas.BuildWork` | src/lib.rs:58-72 | a recipe method runs each recipe at most once, raises exactly the flags of what it ran, and runs nothing flagged beforehand except possibly itself |
| `CakeLemmas.UnknownNameIsInert` | src/lib.rs:80 | `run_recipe` on an undeclared name returns `Err` with no flag changed and no action run |
| `CakeLemmas.DispatchWork` | src/lib.rs:75-83 | `run_recipe` adds distinct runs, raises exactly their flags, and reruns nothing flagged except the requested name |
| `CakeLemmas.RunArgsGrows` | src/lib.rs:67 | along a run of `main` no flag goes from true to false and the trace only grows |
| `CakeLemmas.FlaggedBeforeAction` | src/lib.rs:67-71 | once past its dependencies, a recipe is flagged and its action runs last, and the method returns the action's outcome, `Err` included |
| `CakeLemmas.ErrIsOwnFailure` | src/lib.rs:67-71 | a recipe method returns `Err` only when its own action failed, and then the recipe is flagged and its action ran last |
| `CakeLemmas.DependencyFailureAborts` | src/lib.rs:61-67 | when a dependency fails, the method panics with its own flag unchanged and its action not run |
| `CakeLemmas.BuildDepsFlagsAll` | src/lib.rs:59-65 | a dependency loop that returns `Ok` leaves every one of its dependencies flagged |
| `CakeLemmas.BuildDepsAllFlaggedIsSkip` | src/lib.rs:61 | flagged dependencies are skipped: with all of them flagged, the loop calls nothing and changes nothing |
| `CakeLemmas.BuildKeepsRecorded` | src/lib.rs:67-69 | after a recipe method, every raised flag still belongs to a recipe whose action has run |
| `CakeLemmas.InitialRecorded` | src/lib.rs:87 | a fresh `CakeBuild` has one flag per recipe and no raised flag without a trace entry |
| `CakeLemmas.RunArgsKeepsRecorded` | src/lib.rs:89-93 | every state along `main` keeps each raised flag matched by a trace entry of its recipe |
| `CakeLemmas.DependenciesBeforeAction` | src/lib.rs:59-69 | when a method gets past its dependencies, each of them is flagged and its action ran before the recipe's own action, which is last |
| `CakeLemmas.BuildFlagsDeps` | src/lib.rs:59-67 | a method that did not abort leaves itself and all its dependencies flagged |
| `CakeLemmas.RebuildFlagged` | src/lib.rs:61-71 | the method of a flagged recipe whose dependencies are flagged only runs its action again |
| `CakeLemmas.RequestTwice` | src/lib.rs:78 | requesting a name again at the top level runs its action a second time and nothing else |
| `CakeLemmas.RunArgsAppend` | src/lib.rs:89-93 | `main` over `a + b` runs `b` only after every argument of `a` returned `Ok` |
| `CakeLemmas.StopsAtFirstFailure` | src/lib.rs:90-92 | `main` panics at the first argument that is not `Ok`; later arguments are never looked at |
| `CakeLemmas.DispatchAccounted` | src/lib.rs:75-83 | apart from the requested name, one `run_recipe` keeps each recipe run once if flagged and never otherwise |
| `CakeLemmas.RunArgsAccounted` | src/lib.rs:89-93 | the same count holds along `main`, for every recipe not named on the command line |
| `CakeLemmas.AtMostOnceUnlessRequested` | src/lib.rs:61-67 | over a whole run of `main`, a recipe not named on the command line runs exactly once if flagged and never otherwise |
| `SimpleExample.Simple` | examples/simple.rs:4-9 | the four recipes with their dependency lists in declared order; `start`'s action is the open outcome `ls`, the other three `Ok` |
| `SimpleExample.SimpleIsRanked` | examples/simple.rs:4-9 | the four declared recipes form an acyclic graph, with every flag false at the start |
| `SimpleExample.RequestLibstd` | examples/simple.rs:7 | requesting `libstd` runs only `libstd` and raises only its flag |
| `SimpleExample.RequestSodium` | examples/simple.rs:6-8 | requesting `sodium` runs `libstd`, `libextra`, `sodium` and leaves `start` unflagged and not run |
| `SimpleExample.RequestStart` | examples/simple.rs:5-8 | requesting `start` runs `libstd`, `libextra`, `sodium`, `start`, raises all four flags, and returns the outcome of `ls`, whatever that is |
| `SimpleExample.StartRunsLibstdOnce` | examples/simple.rs:5-7 | requesting `start` runs `libstd` exactly once, though two recipes depend on it |
| `SimpleExample.StartOrder` | examples/simple.rs:5-8 | requesting `start`: all four actions run and end flagged, `libstd` and `libextra` before `sodium`, `sodium` before `start` |
| `SimpleExample.RequestUnknown` | examples/simple.rs:4-9 | any other name is `Err` with nothing run, and `main` panics on it with nothing run |
| `SimpleExample.MainStartTwice` | examples/simple.rs:5 | `main start start` with a succeeding `ls` runs the three dependencies once and `start` twice |

## Left out

- `cmd!` (`src/lib.rs:4-32`) spawns a process, inherits stdout and stderr and sets a working directory. This is I/O. An action is modelled only by its outcome: `Ok`, `Err` for a non-zero exit, or `Abort` for the panic of `.unwrap()`.
- An action has one fixed outcome per recipe. A real command run twice (a name requested twice) could succeed once and fail once; the model gives both runs the same outcome.
- `println!` is recorded as a trace entry and always succeeds; its panic on a closed stdout is not modelled.
- Real parallelism in `par!` (`rayon::join`) is not modelled, nor the `SeqCst` ordering of the `AtomicBool` flags. Under real concurrency, two sibling dependencies can both read a shared dependency's flag as false before either stores it. Both then run it. The sequential model cannot show this race.
- `rayon::join` always runs both closures before it re-raises a panic, so the program still runs every remaining sibling of a `par!` block after one of them panics. The model stops at the first failing one. The final status is `Abort` either way; the trace and the flags of an aborted run differ, and the panic ends the process, so neither is seen by a later argument.
- `env::args()` is a parameter: `RunMain` takes the arguments after the program name. The texts of the `panic!` and `.expect` messages are not modelled; a panic is the status `Abort`.
- Macro expansion (`macro_rules!` repetition, `stringify!`, `concat!`) is replaced by a runtime map from name to recipe. Compile-time errors of the macro are not modelled: duplicate recipe names, and dependencies that are not declared. `Ranked` assumes the second never happens.
- Cyclic graphs are excluded by `Ranked`, which ranks the whole graph. This excludes every graph with a cycle, including runs the program completes normally because no requested name reaches the cycle. A request that does reach a cycle recurses without end in the code, until the stack overflows.
