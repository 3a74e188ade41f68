# multimethods.py — a verified model of Clojure-style multimethod dispatch

`multimethods.py` implements multimethods for Python. A `MultiMethod` holds two things:

- a registry from dispatch values (classes, tuples of them, any hashable value, the `Anything` wildcard, the `Default` sentinel) to implementations;
- a preference graph between dispatch values.

A call computes the dispatch value of its arguments. It scans the registry for the matching keys, keeps the most specific one, and raises when two matching keys with different implementations are left undecided. It falls back to the `Default` implementation when nothing matches.

This project models that resolver and the state it reads:

- `_parents` and `_is_a`, the specificity predicate, in `patterns.dfy` (module `Patterns`);
- `_prefers`, `_dominates` and `prefer`, the preference graph, in `preferences.dfy` (module `Preferences`);
- `find_best_method` and `get_method`, in `resolution.dfy` (module `Resolution`). `find_best_method` is a left fold over the registry's iteration order.
- the `MultiMethod` class in `multimethod.dfy` (module `MultiMethods`), with:
  - its `methods` and `preferences` fields;
  - `addmethod`, `removemethod` and `prefer`, which update them in place;
  - `find_best_method`, `get_method` and `__call__`.
- concrete registries in `scenarios.dfy` (module `Scenarios`). They show the expected behaviour, and the inputs on which the code gives a surprising answer: a falsy key passed over, an outcome that depends on iteration order, and a preference that holds both ways.

Inputs the model takes as parameters:

- **The host's class hierarchy** is a `Hierarchy`: a map from class ids to their direct bases, where every base has a smaller id. A class is created after its bases, so ids in creation order meet this.
- **The dispatch value** is passed in directly. The dispatch function belongs to the caller.
- **The iteration order of `self.methods`** is a sequence that `Enumerates` the registry. The outcome of a scan can depend on that order.
- **An implementation** is an `Impl` id. Equal ids stand for the same function object, so `is` becomes `==`.

## Model

| member | source | states |
|---|---|---|
| Patterns.IsSubclass | multimethods.py:50 | `issubclass` on the hierarchy: the classes reachable through `__bases__`, the class itself included (definition; its properties are the `Subclass*` lemmas) |
| Patterns.IsA | multimethods.py:37-50 | `_is_a`: equality, the `Anything` wildcard, element-wise on tuples with Python 2 `map` padding, `issubclass` on classes (definition; its properties are the `IsA*` lemmas) |
| Patterns.IsFalsy | multimethods.py:89 | the keys `if target:` reads as false are `()`, `0` and `""`; a falsy key is a tuple or an atom, never a class or a sentinel |
| Patterns.Parents | multimethods.py:33-34 | a class's direct bases in declaration order, each of smaller rank; anything that is not a class has no parents |
| Patterns.IsAReflexiveAndWildcard | multimethods.py:45-46 | every value matches itself, and everything matches `Anything` |
| Patterns.IsAOnClasses | multimethods.py:50 | on two classes `_is_a` is exactly `issubclass` |
| Patterns.IsAOnEqualLengthTuples | multimethods.py:47-48 | tuples of equal length match iff every pair of corresponding elements matches |
| Patterns.IsAOnSingletons | multimethods.py:47-48 | one-element tuples match exactly when their elements do |
| Patterns.TuplesMatchOnlyTuples | multimethods.py:45-50 | a tuple matches only `Anything` or a tuple, and only a tuple matches a tuple |
| Patterns.OnlyDefaultMatchesDefault | multimethods.py:45-50 | the `Default` key is matched by `Default` itself and nothing else |
| Patterns.SubclassRank | multimethods.py:50 | a superclass has no larger id than its subclass; two classes that are subclasses of each other are equal |
| Patterns.SubclassTransitive | multimethods.py:50 | `issubclass` is transitive |
| Patterns.SubclassViaBase | multimethods.py:33-34 | a class whose base is a subclass of `b` is a subclass of `b` |
| Patterns.IsATransitive | multimethods.py:37-50 | `_is_a` is transitive, through tuples, padding and the wildcard |
| Patterns.IsAAntisymmetric | multimethods.py:37-50 | two values that match each other are equal |
| Preferences.PrefsOf | multimethods.py:135-136 | the explicit preferences of `x`, the empty set when `x` has no entry (definition) |
| Preferences.Prefers | multimethods.py:117-127 | `_prefers`: an explicit edge, or a preference of `x` over a base of `y`, or of a base of `x` over `y` (definition; its properties are `CoveringEdge`, `PrefersFromEdge` and `PrefersInherited`) |
| Preferences.Dominates | multimethods.py:97-98 | `_dominates`: preferred or more specific (definition; its properties are the `Dominates*` lemmas) |
| Preferences.AddEdge | multimethods.py:135-137 | the new graph adds `y` to `x`'s set, creates `x`'s entry if missing, and leaves every other entry unchanged |
| Preferences.TryPrefer | multimethods.py:129-137 | `prefer(x, y)` raises `PreferenceConflict(x, y)` iff `y` is already preferred to `x`; otherwise the new graph is the old one plus the edge, and in it `x` is preferred to `y` |
| Preferences.CoveringEdge | multimethods.py:117-127 | when `_prefers(x, y)` holds, some explicit edge `a -> b` has `x` descending from `a` and `y` from `b` |
| Preferences.PrefersFromEdge | multimethods.py:117-127 | an explicit edge `a -> b` makes every descendant of `a` preferred to every descendant of `b` |
| Preferences.NoPreferencesNoPrefers | multimethods.py:117-127 | with no recorded preferences, `_prefers` is false for every pair |
| Preferences.PrefersInherited | multimethods.py:121-126 | a preference holds between all descendants of its two sides |
| Preferences.DescendsTransitive | multimethods.py:33-34 | descending along `_parents` is transitive |
| Preferences.DescendsAntisymmetric | multimethods.py:33-34 | two values that descend from each other are equal |
| Preferences.AddEdgeKeepsPreferences | multimethods.py:135-137 | recording an edge never withdraws an existing preference |
| Preferences.AddEdgeOnlyAddsCovered | multimethods.py:117-137 | a pair preferred after recording `x -> y` was preferred before or is covered by the new edge |
| Preferences.AddEdgeExactly | multimethods.py:117-137 | after recording `x -> y`, `u` is preferred to `v` iff it was before, or `u` descends from `x` and `v` from `y` |
| Preferences.PreferThenReverseConflicts | multimethods.py:129-133 | after a successful `prefer(x, y)`, `prefer(y, x)` raises |
| Preferences.PreferIdempotent | multimethods.py:129-137 | for distinct `x` and `y`, repeating a successful `prefer(x, y)` succeeds and changes nothing |
| Preferences.DominatesReflexive | multimethods.py:97-98 | every value dominates itself |
| Preferences.DominatesBySpecificityOrPreference | multimethods.py:97-98 | a more specific value, or one preferred to the other, dominates |
| Resolution.Step | multimethods.py:103-114 | one iteration of the loop of `find_best_method` (definition; its properties are the `Step*` lemmas) |
| Resolution.StepFirstMatch | multimethods.py:103-105 | the first matching key becomes the running best |
| Resolution.StepDominatingKey | multimethods.py:103-105 | a matching key that dominates the running best replaces it |
| Resolution.StepUndecidedKey | multimethods.py:109-114 | a matching key that neither dominates nor is dominated by the running best, with a different implementation, raises the ambiguity error naming both |
| Resolution.StepKeepsBest | multimethods.py:103-110 | a matching key that leaves another key as the running best does not dominate it, and is dominated by it or shares its implementation |
| Resolution.Scan | multimethods.py:100-115 | a key `find_best_method` returns is in the registry and matches `dv`; a raised ambiguity names two matching registered keys, neither of which dominates the other, with different implementations |
| Resolution.SelectAsWritten | multimethods.py:88-95 | the fallback as written (`if target:`): a truthy winning key is returned, otherwise `Default`; it differs from the corrected fallback exactly when the winning key is falsy |
| Resolution.Select | multimethods.py:88-95 | the corrected fallback (`if target is not None:`): a winning key is always returned; with none, `Default` when registered, else the error |
| Resolution.FalsyWinner | multimethods.py:88-89 | `find_best_method` returned a key that `if target:` reads as false (definition) |
| Resolution.ResolveAsWritten | multimethods.py:87-95 | `get_method` as written: the result is registered; it is a truthy key that matches `dv`, or `Default` reached because nothing matched or the winner was falsy; "no matching method" is raised iff that fallback finds no `Default` |
| Resolution.Resolve | multimethods.py:87-95 | the corrected fallback (`if target is not None:`): the resolved key is registered and matches `dv`, or it is `Default` and no key matches; "no matching method" is raised iff no key matches and no `Default` is registered |
| Resolution.NoFalsyKeysAgree | multimethods.py:87-95 | on a registry without falsy keys, the code as written and the corrected fallback resolve every call alike |
| Resolution.ScanExtend | multimethods.py:102-114 | visiting one more key is one more loop iteration |
| Resolution.ScanNoneIff | multimethods.py:100-115 | `find_best_method` returns `None` iff no key in the order matches |
| Resolution.ScanErrorStops | multimethods.py:109-114 | once the loop has raised, later keys do not change the error |
| Resolution.ScanSingleMatch | multimethods.py:100-115 | when a single key matches, it is returned and no error is raised |
| Resolution.ScanUndominatedPair | multimethods.py:100-115 | when no other key matches, two matching keys, neither dominating the other, with different implementations: the scan raises in every order that contains both, and returns the one present otherwise |
| Resolution.ScanDominatedPair | multimethods.py:100-115 | when no other key matches, of two matching keys where only `a` dominates, the scan returns `a` in every order that contains it |
| Resolution.ScanSharedImplNeverAmbiguous | multimethods.py:109-110 | matching keys bound to the identical implementation never raise |
| Resolution.ScanWinnerStable | multimethods.py:104-105 | the returned key was already the running best before any final stretch of the order that does not contain it |
| Resolution.ScanWinnerBeatsLaterKeys | multimethods.py:103-110 | the returned key is not dominated by any matching key visited after it, and it dominates that key or shares its implementation |
| Resolution.SpecificKeyWins | multimethods.py:97-115 | when exactly two distinct keys match, one more specific than the other, and no preference puts the general one first, every order resolves to the specific one; the code as written resolves to it too when it is truthy |
| Resolution.AmbiguousPairRaises | multimethods.py:109-114 | when no other key matches, two matching keys that neither dominate each other nor share an implementation raise the ambiguity error in every order, as written and corrected |
| Resolution.NoMatchFallsBackToDefault | multimethods.py:91-93 | when no key matches and `Default` is registered, the `Default` implementation is chosen, by the code as written and by the corrected fallback |
| Resolution.DefaultOnlyResolvesToDefault | multimethods.py:87-93 | with only `Default` registered, every dispatch value resolves to it, as written and corrected |
| Resolution.AsWrittenDiffersOnlyOnFalsyWinners | multimethods.py:88-90 | the code as written and the corrected fallback disagree exactly when the winning key is falsy |
| MultiMethods.MultiMethod.constructor | multimethods.py:67-74 | a new multimethod has its name, an empty registry and no preferences |
| MultiMethods.MultiMethod.AddMethod | multimethods.py:81-82 | binds `key` to `impl`, replacing any earlier binding of that key only; preferences unchanged |
| MultiMethods.MultiMethod.RemoveMethod | multimethods.py:84-85 | removes exactly `key`; `KeyNotFound` with nothing changed when it is absent |
| MultiMethods.MultiMethod.Prefer | multimethods.py:129-137 | raises `PreferenceConflict` and leaves the preferences alone iff `y` is already preferred to `x`; otherwise stores the graph `TryPrefer` yields; the registry is unchanged |
| MultiMethods.MultiMethod.FindBestMethod | multimethods.py:100-115 | the loop returns exactly the fold `Scan` of the keys in iteration order, including the first ambiguity it meets |
| MultiMethods.MultiMethod.GetMethod | multimethods.py:87-95 | follows the code as written (`if target:`): returns exactly `ResolveAsWritten` of the current registry, preferences and iteration order |
| MultiMethods.MultiMethod.Call | multimethods.py:76-79 | runs the implementation registered under the key `get_method` returns as written, or raises its error |
| Scenarios.DogBeatsAnimal | multimethods.py:87-115 | a `Dog` call with `(Dog,)` and `(Animal,)` registered resolves to `(Dog,)` in every order, as written and corrected |
| Scenarios.RockFallsBackToDefault | multimethods.py:87-93 | a call that matches no class key runs the `Default` implementation |
| Scenarios.AnimalBeatsWildcard | multimethods.py:45-50 | a class key is more specific than the wildcard key and wins |
| Scenarios.SharedImplementationNotAmbiguous | multimethods.py:100-115 | with `(Dog,)` and `(Cat,)` bound to one implementation and a wildcard key to another, a `Dog` call resolves to `(Dog,)` |
| Scenarios.CrossedWildcardsAmbiguous | multimethods.py:109-114 | `(c, Anything)` and `(Anything, c)` both match `(c, c)`, and with no preference every order raises the ambiguity error |
| Scenarios.PreferenceConflictOnFreshMultiMethod | multimethods.py:129-137 | on a fresh multimethod `prefer(x, y)` succeeds, `prefer(y, x)` raises, and the graph stays `{x: {y}}` |
| Scenarios.RegisterCallUnregister | multimethods.py:76-85 | a `Dog` call runs the `(Dog,)` implementation; after `removemethod((Dog,))` it runs the `(Animal,)` one |
| Scenarios.FalsyKeyFallsThrough | multimethods.py:88-95 | as written, a single matching key `0` is passed over: `Default` runs, or "no matching method" is raised; the corrected resolver returns `0` |
| Scenarios.ScanDependsOnOrder | multimethods.py:100-115 | one registry and one preference graph: a `Dog` call resolves in one iteration order and raises in another |
| Scenarios.PreferCanCreateContradiction | multimethods.py:117-137 | two successful `prefer` calls can leave two classes each preferred to the other |

## Behaviour of the code worth knowing

The model follows the code in each case.

- **Tuples of different lengths.** The pairing at line 48 is `all(map(_is_a, x, y))`. The code is Python 2 (line 50 uses `types.ClassType`), and Python 2's `map` pads the shorter tuple with `None` rather than stopping at it. So in `Patterns.IsA`:
  - a value shorter than the pattern matches only when the extra pattern elements are `Anything`;
  - a value longer than the pattern never matches.
- **Iteration order.** A preference edge does not chain: `Mammal -> Pet` and `Pet -> Animal` do not make `Mammal` dominate `Animal`. So whether a call resolves or raises can depend on the order in which the loop at line 102 visits the registry (`Scenarios.ScanDependsOnOrder`).
- **Preferences both ways.** The conflict check at line 130 only asks whether `y` is already preferred to `x`. Through inheritance, even with a single base per class, two successful calls can make `A` preferred to `B` and `B` to `A`: each call is checked against the pair it names only, while `_prefers` inherits preferences through `__bases__` (lines 121-126) (`Scenarios.PreferCanCreateContradiction`). `Preferences.AddEdgeExactly` states which pairs one edge adds.
- **Repeating `prefer`.** For distinct values a repeated `prefer(x, y)` succeeds and changes nothing (`Preferences.PreferIdempotent`). `prefer(x, x)` succeeds once and raises the second time, because the first call makes `x` preferred to itself (`Preferences.PreferThenReverseConflicts` with `y = x`).

## Left out

- I/O: the `print` at line 111 is dropped.
- The text of error messages is dropped. Each `Error` carries the values its message names except the multimethod's name: `self.__name__`, which the messages at lines 94, 112 and 131 also show, is not carried.
- The `callable` check in `__init__` (lines 68-69) is left out. The dispatch function is not modelled: the dispatch value is an input.
- Outside the core and not modelled: `type_dispatch` and `single_type_dispatch` (lines 53-58), the decorators `method`, `multimethod`, `singledispatch` and `multidispatch`, `_name`, `__repr__`, the `methods()` accessor (lines 139-140, shadowed by the `methods` field), and the module-reload guards for the sentinels.
- The class hierarchy is the `Hierarchy` input. Old-style and new-style classes are not told apart. Metaclasses, ABC registration and `__subclasscheck__` are not modelled.
- Python equality quirks are not modelled: `1 == True == 1.0`, user-defined `__eq__` and `__hash__`, and `None` as a dispatch value or key. Values other than classes, tuples and the sentinels are integers or strings.
- MultiMethods.MultiMethod.Call: returns the `Impl` id it would run instead of running the implementation with the original arguments. What an implementation does is the caller's code.
- MultiMethods.MultiMethod.GetMethod: a registered `Default` is always taken as truthy, at line 92. A `Default` implementation whose truth value is false is not modelled.
- Dictionary iteration order is an input (`order`), not the hash order of the interpreter.
- Concurrent calls and updates are not modelled. The source has no locking.
- Resolution.SelectAsWritten: only `()`, `0` and `""` are falsy keys. These are the falsy values the model's patterns can express.

## Findings

| source | as written | input that shows it | evidently intended | confidence | as-written member | corrected member |
|---|---|---|---|---|---|---|
| multimethods.py:88-90 | `if target:` tests the truth value of the winning key, so a falsy key that matched (`0`, `""`, `()`) is treated as no match | registry `{0: f, Default: g}`, dispatch value `0`: `g` runs instead of `f`; with `{0: f}` alone, "no matching method" is raised | `if target is not None:`, so any key that matched wins over `Default` | not executed | Scenarios.FalsyKeyFallsThrough, Resolution.ResolveAsWritten | Resolution.Resolve |

`Resolution.ResolveAsWritten` and `Resolution.SelectAsWritten` model the code as written. `MultiMethods.MultiMethod.GetMethod` and `Call` follow the code as written. `Resolution.Resolve` and `Resolution.Select` are the corrected versions; the lemmas about resolution (`Resolution.SpecificKeyWins`, the scenarios) state facts about both resolvers. `Resolution.AsWrittenDiffersOnlyOnFalsyWinners` shows the two differ exactly on falsy winners, and `Resolution.NoFalsyKeysAgree` that they agree on every registry without falsy keys.
