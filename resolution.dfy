/** The resolver of `MultiMethod`: `find_best_method` as a left fold over the
    iteration order of the registry, and the fallback of `get_method`. */
module Resolution {
  import opened Patterns
  import opened Outcomes
  import opened Preferences

  /** An implementation; equal ids are the same function object (`is`). */
  type Impl = int

  /** `self.methods`: the implementation registered under each key. */
  type Methods = map<Pattern, Impl>

  /** Every element of `order` is a registered key. */
  predicate AllRegistered(order: seq<Pattern>, methods: Methods) {
    forall i | 0 <= i < |order| :: order[i] in methods
  }

  /** `order` is an iteration order of the registry: every key exactly once. */
  predicate Enumerates(order: seq<Pattern>, methods: Methods) {
    && AllRegistered(order, methods)
    && (forall k | k in methods :: k in order)
    && (forall i, j | 0 <= i < j < |order| :: order[i] != order[j])
  }

  /** No registered key matches the dispatch value. */
  predicate NoneMatch(h: Hierarchy, methods: Methods, dv: Pattern) {
    forall k | k in methods :: !IsA(h, dv, k)
  }

  /** One iteration of the loop in `find_best_method` on key `k`, given the
      running `best` (or the error already raised). */
  function Step(h: Hierarchy, prefs: Prefs, methods: Methods, dv: Pattern,
                acc: Result<Option<Pattern>>, k: Pattern): Result<Option<Pattern>>
    requires k in methods
    requires acc.Ok? && acc.value.Some? ==> acc.value.value in methods
  {
    if acc.Err? || !IsA(h, dv, k) then
      acc
    else
      var best := if acc.value.None? || Dominates(h, prefs, k, acc.value.value) then k else acc.value.value;
      if !Dominates(h, prefs, best, k) && methods[best] != methods[k] then
        Err(AmbiguousDispatch(dv, k, best))
      else
        Ok(Some(best))
  }

  /** The first matching key becomes the running best. */
  lemma StepFirstMatch(h: Hierarchy, prefs: Prefs, methods: Methods, dv: Pattern, k: Pattern)
    requires k in methods && IsA(h, dv, k)
    ensures Step(h, prefs, methods, dv, Ok(None), k) == Ok(Some(k))
  {
    DominatesReflexive(h, prefs, k);
  }

  /** A matching key that dominates the running best replaces it. */
  lemma StepDominatingKey(h: Hierarchy, prefs: Prefs, methods: Methods, dv: Pattern, best: Pattern, k: Pattern)
    requires k in methods && best in methods && IsA(h, dv, k) && Dominates(h, prefs, k, best)
    ensures Step(h, prefs, methods, dv, Ok(Some(best)), k) == Ok(Some(k))
  {
    DominatesReflexive(h, prefs, k);
  }

  /** A matching key that neither dominates nor is dominated by the running
      best, with another implementation, raises the ambiguity error. */
  lemma StepUndecidedKey(h: Hierarchy, prefs: Prefs, methods: Methods, dv: Pattern, best: Pattern, k: Pattern)
    requires k in methods && best in methods && IsA(h, dv, k)
    requires !Dominates(h, prefs, k, best) && !Dominates(h, prefs, best, k) && methods[best] != methods[k]
    ensures Step(h, prefs, methods, dv, Ok(Some(best)), k) == Err(AmbiguousDispatch(dv, k, best))
  {
  }

  /** `find_best_method(dv)` with the keys visited in `order`. A key it
      returns matches `dv`, and an error it raises names two matching keys,
      neither dominating the other, with different implementations. */
  function Scan(h: Hierarchy, prefs: Prefs, methods: Methods, dv: Pattern, order: seq<Pattern>)
    : (r: Result<Option<Pattern>>)
    requires AllRegistered(order, methods)
    ensures r.Ok? && r.value.Some? ==> r.value.value in order && IsA(h, dv, r.value.value)
    ensures r.Err? ==> && r.error.AmbiguousDispatch? && r.error.dv == dv
                       && r.error.key in order && r.error.best in order
                       && IsA(h, dv, r.error.key) && IsA(h, dv, r.error.best)
                       && !Dominates(h, prefs, r.error.best, r.error.key)
                       && !Dominates(h, prefs, r.error.key, r.error.best)
                       && methods[r.error.best] != methods[r.error.key]
    decreases |order|
  {
    if order == [] then
      Ok(None)
    else
      var n := |order| - 1;
      Step(h, prefs, methods, dv, Scan(h, prefs, methods, dv, order[..n]), order[n])
  }

  /** The fallback of `get_method` as written: `if target:` tests Python
      truthiness, so a matching key that is falsy (`0`, `""`, `()`) is
      treated like no match at all. */
  function SelectAsWritten(found: Option<Pattern>, methods: Methods, dv: Pattern): (r: Result<Pattern>)
    ensures r.Ok? ==> (found.Some? && r.value == found.value && !IsFalsy(r.value)) || r.value == Default
    ensures r != Select(found, methods, dv) <==> found.Some? && IsFalsy(found.value)
  {
    if found.Some? && !IsFalsy(found.value) then
      Ok(found.value)
    else if Default in methods then
      Ok(Default)
    else
      Err(NoMatchingMethod(dv))
  }

  /** The fallback of `get_method` as evidently intended
      (`if target is not None:`): a matching key always wins over `Default`. */
  function Select(found: Option<Pattern>, methods: Methods, dv: Pattern): (r: Result<Pattern>)
    ensures found.Some? ==> r == Ok(found.value)
    ensures found.None? ==> (r.Ok? <==> Default in methods) && (r.Ok? ==> r.value == Default)
  {
    if found.Some? then
      Ok(found.value)
    else if Default in methods then
      Ok(Default)
    else
      Err(NoMatchingMethod(dv))
  }

  /** `find_best_method` returned a key that Python's `if target:` reads as
      false. */
  predicate FalsyWinner(h: Hierarchy, prefs: Prefs, methods: Methods, dv: Pattern, order: seq<Pattern>)
    requires AllRegistered(order, methods)
  {
    var found := Scan(h, prefs, methods, dv, order);
    found.Ok? && found.value.Some? && IsFalsy(found.value.value)
  }

  /** `get_method(dv)` as written. The key it returns is registered; it is a
      truthy key that matches `dv`, or it is `Default`, reached because no key
      matched or because the winning key was falsy; and "no matching method"
      is raised exactly when that fallback finds no `Default`. */
  function ResolveAsWritten(h: Hierarchy, prefs: Prefs, methods: Methods, dv: Pattern, order: seq<Pattern>)
    : (r: Result<Pattern>)
    requires Enumerates(order, methods)
    ensures r.Ok? ==> r.value in methods
    ensures r.Ok? ==> (IsA(h, dv, r.value) && !IsFalsy(r.value))
                      || (r.value == Default && (NoneMatch(h, methods, dv) || FalsyWinner(h, prefs, methods, dv, order)))
    ensures r == Err(NoMatchingMethod(dv))
        <==> Default !in methods && (NoneMatch(h, methods, dv) || FalsyWinner(h, prefs, methods, dv, order))
  {
    ScanNoneIff(h, prefs, methods, dv, order);
    match Scan(h, prefs, methods, dv, order)
    case Err(e) => Err(e)
    case Ok(found) => SelectAsWritten(found, methods, dv)
  }

  /** `get_method(dv)` with the corrected fallback: the key whose
      implementation a call runs. It is registered; it matches `dv`, or it
      is `Default` and nothing matches; and "no matching method" is raised
      exactly when nothing matches and no `Default` is registered. */
  function Resolve(h: Hierarchy, prefs: Prefs, methods: Methods, dv: Pattern, order: seq<Pattern>)
    : (r: Result<Pattern>)
    requires Enumerates(order, methods)
    ensures r.Ok? ==> r.value in methods
    ensures r.Ok? ==> IsA(h, dv, r.value) || (r.value == Default && NoneMatch(h, methods, dv))
    ensures r == Err(NoMatchingMethod(dv)) <==> NoneMatch(h, methods, dv) && Default !in methods
  {
    ScanNoneIff(h, prefs, methods, dv, order);
    match Scan(h, prefs, methods, dv, order)
    case Err(e) => Err(e)
    case Ok(found) => Select(found, methods, dv)
  }

  /** Scanning one more key is one more step of the loop. */
  lemma ScanExtend(h: Hierarchy, prefs: Prefs, methods: Methods, dv: Pattern, order: seq<Pattern>, i: nat)
    requires AllRegistered(order, methods) && i < |order|
    ensures Scan(h, prefs, methods, dv, order[..i + 1])
         == Step(h, prefs, methods, dv, Scan(h, prefs, methods, dv, order[..i]), order[i])
  {
    assert order[..i + 1][..i] == order[..i];
  }

  /** `find_best_method` returns `None` exactly when no key in the order
      matches the dispatch value. */
  lemma {:induction false} ScanNoneIff(h: Hierarchy, prefs: Prefs, methods: Methods, dv: Pattern, order: seq<Pattern>)
    requires AllRegistered(order, methods)
    ensures Scan(h, prefs, methods, dv, order) == Ok(None)
        <==> forall i | 0 <= i < |order| :: !IsA(h, dv, order[i])
    decreases |order|
  {
    if order != [] {
      var n := |order| - 1;
      ScanNoneIff(h, prefs, methods, dv, order[..n]);
      assert forall i | 0 <= i < n :: order[..n][i] == order[i];
    }
  }

  /** Once the loop has raised, the rest of the order changes nothing: the
      error of a prefix is the error of the whole scan. */
  lemma {:induction false} ScanErrorStops(h: Hierarchy, prefs: Prefs, methods: Methods, dv: Pattern,
                                          order: seq<Pattern>, j: nat)
    requires AllRegistered(order, methods)
    requires j <= |order| && Scan(h, prefs, methods, dv, order[..j]).Err?
    ensures Scan(h, prefs, methods, dv, order) == Scan(h, prefs, methods, dv, order[..j])
    decreases |order| - j
  {
    if j < |order| {
      ScanExtend(h, prefs, methods, dv, order, j);
      ScanErrorStops(h, prefs, methods, dv, order, j + 1);
    } else {
      assert order[..j] == order;
    }
  }

  /** When `a` is the only key that matches, the scan finds it: a single
      match is never ambiguous. */
  lemma {:induction false} ScanSingleMatch(h: Hierarchy, prefs: Prefs, methods: Methods, dv: Pattern,
                                           order: seq<Pattern>, a: Pattern)
    requires AllRegistered(order, methods)
    requires IsA(h, dv, a)
    requires forall i | 0 <= i < |order| && IsA(h, dv, order[i]) :: order[i] == a
    ensures Scan(h, prefs, methods, dv, order) == if a in order then Ok(Some(a)) else Ok(None)
    decreases |order|
  {
    if order != [] {
      var n := |order| - 1;
      ScanSingleMatch(h, prefs, methods, dv, order[..n], a);
      assert a in order <==> a in order[..n] || a == order[n];
      DominatesReflexive(h, prefs, a);
    }
  }

  /** Two matching keys, neither dominating the other, bound to different
      implementations: whatever the order, the scan raises once it has seen
      both, and finds whichever one it has seen alone. */
  lemma {:induction false} ScanUndominatedPair(h: Hierarchy, prefs: Prefs, methods: Methods, dv: Pattern,
                                               order: seq<Pattern>, a: Pattern, b: Pattern)
    requires AllRegistered(order, methods)
    requires a in methods && b in methods && IsA(h, dv, a) && IsA(h, dv, b)
    requires forall i | 0 <= i < |order| && IsA(h, dv, order[i]) :: order[i] == a || order[i] == b
    requires !Dominates(h, prefs, a, b) && !Dominates(h, prefs, b, a) && methods[a] != methods[b]
    ensures var r := Scan(h, prefs, methods, dv, order);
            && (a in order && b in order ==> r.Err?)
            && (a in order && b !in order ==> r == Ok(Some(a)))
            && (a !in order && b in order ==> r == Ok(Some(b)))
            && (a !in order && b !in order ==> r == Ok(None))
    decreases |order|
  {
    if order != [] {
      var n := |order| - 1;
      ScanUndominatedPair(h, prefs, methods, dv, order[..n], a, b);
      assert a in order <==> a in order[..n] || a == order[n];
      assert b in order <==> b in order[..n] || b == order[n];
      StepUndominatedPair(h, prefs, methods, dv, Scan(h, prefs, methods, dv, order[..n]), order[n],
                          a, b, a in order[..n], b in order[..n]);
    }
  }

  /** One loop step of `ScanUndominatedPair`: `seenA` and `seenB` say which of
      the two keys the scan has visited so far. */
  lemma StepUndominatedPair(h: Hierarchy, prefs: Prefs, methods: Methods, dv: Pattern,
                            prev: Result<Option<Pattern>>, k: Pattern, a: Pattern, b: Pattern,
                            seenA: bool, seenB: bool)
    requires k in methods && a in methods && b in methods && IsA(h, dv, a) && IsA(h, dv, b)
    requires IsA(h, dv, k) ==> k == a || k == b
    requires !Dominates(h, prefs, a, b) && !Dominates(h, prefs, b, a) && methods[a] != methods[b]
    requires seenA && seenB ==> prev.Err?
    requires seenA && !seenB ==> prev == Ok(Some(a))
    requires !seenA && seenB ==> prev == Ok(Some(b))
    requires !seenA && !seenB ==> prev == Ok(None)
    ensures var r, sa, sb := Step(h, prefs, methods, dv, prev, k), seenA || k == a, seenB || k == b;
            && (sa && sb ==> r.Err?)
            && (sa && !sb ==> r == Ok(Some(a)))
            && (!sa && sb ==> r == Ok(Some(b)))
            && (!sa && !sb ==> r == Ok(None))
  {
    if IsA(h, dv, k) {
      DominatesReflexive(h, prefs, k);
    }
  }

  /** Two matching keys of which `a` dominates `b` and not the other way
      round: whatever the order, the scan ends on `a` once it has seen it. */
  lemma {:induction false} ScanDominatedPair(h: Hierarchy, prefs: Prefs, methods: Methods, dv: Pattern,
                                             order: seq<Pattern>, a: Pattern, b: Pattern)
    requires AllRegistered(order, methods)
    requires IsA(h, dv, a) && IsA(h, dv, b)
    requires forall i | 0 <= i < |order| && IsA(h, dv, order[i]) :: order[i] == a || order[i] == b
    requires Dominates(h, prefs, a, b) && !Dominates(h, prefs, b, a)
    ensures var r := Scan(h, prefs, methods, dv, order);
            && (a in order ==> r == Ok(Some(a)))
            && (a !in order && b in order ==> r == Ok(Some(b)))
            && (a !in order && b !in order ==> r == Ok(None))
    decreases |order|
  {
    if order != [] {
      var n := |order| - 1;
      ScanDominatedPair(h, prefs, methods, dv, order[..n], a, b);
      assert a in order <==> a in order[..n] || a == order[n];
      assert b in order <==> b in order[..n] || b == order[n];
      StepDominatedPair(h, prefs, methods, dv, Scan(h, prefs, methods, dv, order[..n]), order[n],
                        a, b, a in order[..n], b in order[..n]);
    }
  }

  /** One loop step of `ScanDominatedPair`: `seenA` and `seenB` say which of
      the two keys the scan has visited so far. */
  lemma StepDominatedPair(h: Hierarchy, prefs: Prefs, methods: Methods, dv: Pattern,
                          prev: Result<Option<Pattern>>, k: Pattern, a: Pattern, b: Pattern,
                          seenA: bool, seenB: bool)
    requires k in methods && (prev.Ok? && prev.value.Some? ==> prev.value.value in methods)
    requires IsA(h, dv, a) && IsA(h, dv, b)
    requires IsA(h, dv, k) ==> k == a || k == b
    requires Dominates(h, prefs, a, b) && !Dominates(h, prefs, b, a)
    requires seenA ==> prev == Ok(Some(a))
    requires !seenA && seenB ==> prev == Ok(Some(b))
    requires !seenA && !seenB ==> prev == Ok(None)
    ensures var r, sa, sb := Step(h, prefs, methods, dv, prev, k), seenA || k == a, seenB || k == b;
            && (sa ==> r == Ok(Some(a)))
            && (!sa && sb ==> r == Ok(Some(b)))
            && (!sa && !sb ==> r == Ok(None))
  {
    if IsA(h, dv, k) {
      DominatesReflexive(h, prefs, k);
    }
  }

  /** Matching keys bound to the identical implementation never make the
      scan raise. */
  lemma {:induction false} ScanSharedImplNeverAmbiguous(h: Hierarchy, prefs: Prefs, methods: Methods, dv: Pattern,
                                                        order: seq<Pattern>, f: Impl)
    requires AllRegistered(order, methods)
    requires forall i | 0 <= i < |order| && IsA(h, dv, order[i]) :: methods[order[i]] == f
    ensures Scan(h, prefs, methods, dv, order).Ok?
    decreases |order|
  {
    if order != [] {
      var n := |order| - 1;
      assert forall i | 0 <= i < n :: order[..n][i] == order[i];
      ScanSharedImplNeverAmbiguous(h, prefs, methods, dv, order[..n], f);
    }
  }

  /** The running best only changes to the key being visited, so a key the
      scan ends on was already the best before any final stretch of the
      order it does not occur in. */
  lemma {:induction false} ScanWinnerStable(h: Hierarchy, prefs: Prefs, methods: Methods, dv: Pattern,
                                            order: seq<Pattern>, j: nat, b: Pattern)
    requires AllRegistered(order, methods)
    requires j <= |order| && Scan(h, prefs, methods, dv, order) == Ok(Some(b))
    requires forall t | j <= t < |order| :: order[t] != b
    ensures Scan(h, prefs, methods, dv, order[..j]) == Ok(Some(b))
    decreases |order| - j
  {
    if j < |order| {
      ScanWinnerStable(h, prefs, methods, dv, order, j + 1, b);
      ScanExtend(h, prefs, methods, dv, order, j);
      StepKeepsOtherBest(h, prefs, methods, dv, Scan(h, prefs, methods, dv, order[..j]), order[j], b);
    } else {
      assert order[..j] == order;
    }
  }

  /** The running best after a step is the key just visited or the best
      before it. */
  lemma StepKeepsOtherBest(h: Hierarchy, prefs: Prefs, methods: Methods, dv: Pattern,
                           prev: Result<Option<Pattern>>, k: Pattern, b: Pattern)
    requires k in methods && (prev.Ok? && prev.value.Some? ==> prev.value.value in methods)
    requires k != b && Step(h, prefs, methods, dv, prev, k) == Ok(Some(b))
    ensures prev == Ok(Some(b))
  {
  }

  /** The key `find_best_method` returns beats every matching key visited
      after it: that key does not dominate it, and it either dominates that
      key or shares its implementation. */
  lemma ScanWinnerBeatsLaterKeys(h: Hierarchy, prefs: Prefs, methods: Methods, dv: Pattern,
                                 order: seq<Pattern>, i: nat, j: nat)
    requires Enumerates(order, methods)
    requires i < j < |order| && IsA(h, dv, order[j])
    requires Scan(h, prefs, methods, dv, order) == Ok(Some(order[i]))
    ensures !Dominates(h, prefs, order[j], order[i])
    ensures Dominates(h, prefs, order[i], order[j]) || methods[order[i]] == methods[order[j]]
  {
    var b := order[i];
    KeyNotRepeated(order, methods, i, j);
    ScanWinnerStable(h, prefs, methods, dv, order, j, b);
    ScanWinnerStable(h, prefs, methods, dv, order, j + 1, b);
    ScanExtend(h, prefs, methods, dv, order, j);
    StepKeepsBest(h, prefs, methods, dv, b, order[j]);
  }

  /** A key of an iteration order does not occur again later in it. */
  lemma KeyNotRepeated(order: seq<Pattern>, methods: Methods, i: nat, j: nat)
    requires Enumerates(order, methods) && i < j
    ensures forall t | j <= t < |order| :: order[t] != order[i]
  {
  }

  /** A matching key after which the running best is still another key
      neither displaces it nor conflicts with it. */
  lemma StepKeepsBest(h: Hierarchy, prefs: Prefs, methods: Methods, dv: Pattern, b: Pattern, k: Pattern)
    requires k in methods && b in methods && IsA(h, dv, k) && k != b
    requires Step(h, prefs, methods, dv, Ok(Some(b)), k) == Ok(Some(b))
    ensures !Dominates(h, prefs, k, b)
    ensures Dominates(h, prefs, b, k) || methods[b] == methods[k]
  {
  }

  /** Specificity wins without any preference: when exactly two keys match,
      one more specific than the other, and no preference puts the general
      one first, every iteration order resolves to the specific key; the
      code as written agrees when that key is truthy. */
  lemma SpecificKeyWins(h: Hierarchy, prefs: Prefs, methods: Methods, dv: Pattern, order: seq<Pattern>,
                        sub: Pattern, sup: Pattern)
    requires Enumerates(order, methods)
    requires sub in methods && sup in methods && sub != sup
    requires IsA(h, dv, sub) && IsA(h, sub, sup)
    requires forall k | k in methods && IsA(h, dv, k) :: k == sub || k == sup
    requires !Prefers(h, prefs, sup, sub)
    ensures Resolve(h, prefs, methods, dv, order) == Ok(sub)
    ensures !IsFalsy(sub) ==> ResolveAsWritten(h, prefs, methods, dv, order) == Ok(sub)
  {
    IsATransitive(h, dv, sub, sup);
    if IsA(h, sup, sub) {
      IsAAntisymmetric(h, sub, sup);
    }
    ScanDominatedPair(h, prefs, methods, dv, order, sub, sup);
  }

  /** Two matching keys, neither dominating the other, with different
      implementations, and no other key matching: every iteration order
      raises the ambiguity error, as written and corrected alike. */
  lemma AmbiguousPairRaises(h: Hierarchy, prefs: Prefs, methods: Methods, dv: Pattern, order: seq<Pattern>,
                            a: Pattern, b: Pattern)
    requires Enumerates(order, methods)
    requires a in methods && b in methods && IsA(h, dv, a) && IsA(h, dv, b)
    requires forall k | k in methods && IsA(h, dv, k) :: k == a || k == b
    requires !Dominates(h, prefs, a, b) && !Dominates(h, prefs, b, a) && methods[a] != methods[b]
    ensures Resolve(h, prefs, methods, dv, order).Err?
    ensures Resolve(h, prefs, methods, dv, order).error.AmbiguousDispatch?
    ensures ResolveAsWritten(h, prefs, methods, dv, order).Err?
    ensures ResolveAsWritten(h, prefs, methods, dv, order).error.AmbiguousDispatch?
  {
    ScanUndominatedPair(h, prefs, methods, dv, order, a, b);
  }

  /** When no registered key matches, a registered `Default` is chosen, as
      written and corrected alike. */
  lemma NoMatchFallsBackToDefault(h: Hierarchy, prefs: Prefs, methods: Methods, dv: Pattern, order: seq<Pattern>)
    requires Enumerates(order, methods) && Default in methods && NoneMatch(h, methods, dv)
    ensures Resolve(h, prefs, methods, dv, order) == Ok(Default)
    ensures ResolveAsWritten(h, prefs, methods, dv, order) == Ok(Default)
  {
    ScanNoneIff(h, prefs, methods, dv, order);
  }

  /** With only `Default` registered, every dispatch value resolves to it,
      as written and corrected alike. */
  lemma DefaultOnlyResolvesToDefault(h: Hierarchy, prefs: Prefs, methods: Methods, dv: Pattern, order: seq<Pattern>)
    requires Enumerates(order, methods) && methods.Keys == {Default}
    ensures Resolve(h, prefs, methods, dv, order) == Ok(Default)
    ensures ResolveAsWritten(h, prefs, methods, dv, order) == Ok(Default)
  {
    OnlyDefaultMatchesDefault(h, dv);
    if dv == Default {
      ScanSingleMatch(h, prefs, methods, dv, order, Default);
    }
    NoFalsyKeysAgree(h, prefs, methods, dv, order);
  }

  /** On a registry without falsy keys, the code as written and the corrected
      fallback resolve every call alike. */
  lemma NoFalsyKeysAgree(h: Hierarchy, prefs: Prefs, methods: Methods, dv: Pattern, order: seq<Pattern>)
    requires Enumerates(order, methods)
    requires forall k | k in methods :: !IsFalsy(k)
    ensures ResolveAsWritten(h, prefs, methods, dv, order) == Resolve(h, prefs, methods, dv, order)
  {
    var found := Scan(h, prefs, methods, dv, order);
    if found.Ok? && found.value.Some? {
      var i :| 0 <= i < |order| && order[i] == found.value.value;
    }
  }

  /** The as-written fallback and the corrected one differ only when the
      winning key is falsy. */
  lemma AsWrittenDiffersOnlyOnFalsyWinners(h: Hierarchy, prefs: Prefs, methods: Methods, dv: Pattern,
                                           order: seq<Pattern>)
    requires Enumerates(order, methods)
    ensures var found := Scan(h, prefs, methods, dv, order);
            ResolveAsWritten(h, prefs, methods, dv, order) != Resolve(h, prefs, methods, dv, order)
            <==> found.Ok? && found.value.Some? && IsFalsy(found.value.value)
  {
  }
}
