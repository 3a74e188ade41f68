/** Concrete registries: the dispatch behaviours the library is expected to
    show, and three inputs on which the code gives a surprising answer (a
    falsy key passed over, an outcome that depends on iteration order, a
    preference that holds both ways). Keys are one-element tuples, as
    `type_dispatch` produces for a one-argument call. */
module Scenarios {
  import opened Patterns
  import opened Outcomes
  import opened Preferences
  import opened Resolution
  import opened MultiMethods

  /** `Animal` (0) with subclasses `Dog` (1) and `Cat` (2); `Rock` (3) is
      unrelated. */
  const Zoo: Hierarchy := map[1 := [0], 2 := [0]]
  const AnimalT: Pattern := Tuple([TypeRef(0)])
  const DogT: Pattern := Tuple([TypeRef(1)])
  const CatT: Pattern := Tuple([TypeRef(2)])
  const RockT: Pattern := Tuple([TypeRef(3)])
  const AnythingT: Pattern := Tuple([Anything])

  lemma ZooSubclasses()
    ensures IsSubclass(Zoo, 1, 0)
    ensures !IsSubclass(Zoo, 0, 1) && !IsSubclass(Zoo, 1, 2)
  {
    assert Zoo[1] == [0] && 0 !in Zoo;
    SubclassViaBase(Zoo, 1, 0, 0);
  }

  lemma ZooMatches()
    ensures IsA(Zoo, DogT, AnimalT) && IsA(Zoo, DogT, AnythingT) && IsA(Zoo, AnimalT, AnythingT)
    ensures !IsA(Zoo, DogT, CatT) && !IsA(Zoo, AnimalT, DogT)
  {
    ZooSubclasses();
    IsAOnSingletons(Zoo, TypeRef(1), TypeRef(0));
    IsAOnSingletons(Zoo, TypeRef(1), Anything);
    IsAOnSingletons(Zoo, TypeRef(0), Anything);
    IsAOnSingletons(Zoo, TypeRef(1), TypeRef(2));
    IsAOnSingletons(Zoo, TypeRef(0), TypeRef(1));
  }

  /** A `Dog` argument with keys `(Dog,)` and `(Animal,)`: the subclass key
      wins in every iteration order. */
  lemma DogBeatsAnimal(prefs: Prefs, order: seq<Pattern>)
    requires Enumerates(order, map[DogT := 1, AnimalT := 2])
    requires !Prefers(Zoo, prefs, AnimalT, DogT)
    ensures Resolve(Zoo, prefs, map[DogT := 1, AnimalT := 2], DogT, order) == Ok(DogT)
    ensures ResolveAsWritten(Zoo, prefs, map[DogT := 1, AnimalT := 2], DogT, order) == Ok(DogT)
  {
    assert IsA(Zoo, DogT, AnimalT) by { ZooMatches(); }
    IsAReflexiveAndWildcard(Zoo, DogT, DogT);
    SpecificKeyWins(Zoo, prefs, map[DogT := 1, AnimalT := 2], DogT, order, DogT, AnimalT);
    NoFalsyKeysAgree(Zoo, prefs, map[DogT := 1, AnimalT := 2], DogT, order);
  }

  /** A `Rock` argument with keys `(Cat,)`, `(Dog,)` and `Default`: nothing
      matches, so the default implementation runs. */
  lemma RockFallsBackToDefault(prefs: Prefs, order: seq<Pattern>)
    requires Enumerates(order, map[CatT := 1, DogT := 2, Default := 3])
    ensures Resolve(Zoo, prefs, map[CatT := 1, DogT := 2, Default := 3], RockT, order) == Ok(Default)
    ensures ResolveAsWritten(Zoo, prefs, map[CatT := 1, DogT := 2, Default := 3], RockT, order) == Ok(Default)
  {
    RockMatchesNothing(map[CatT := 1, DogT := 2, Default := 3]);
    NoMatchFallsBackToDefault(Zoo, prefs, map[CatT := 1, DogT := 2, Default := 3], RockT, order);
  }

  lemma RockMatchesNothing(m: Methods)
    requires m.Keys == {CatT, DogT, Default}
    ensures NoneMatch(Zoo, m, RockT)
  {
    assert 3 !in Zoo;
    IsAOnSingletons(Zoo, TypeRef(3), TypeRef(2));
    IsAOnSingletons(Zoo, TypeRef(3), TypeRef(1));
    OnlyDefaultMatchesDefault(Zoo, RockT);
  }

  /** A `Dog` argument with keys `(Animal,)` and `(Anything,)`: the class key
      is more specific than the wildcard and wins. */
  lemma AnimalBeatsWildcard(prefs: Prefs, order: seq<Pattern>)
    requires Enumerates(order, map[AnimalT := 1, AnythingT := 2])
    requires !Prefers(Zoo, prefs, AnythingT, AnimalT)
    ensures Resolve(Zoo, prefs, map[AnimalT := 1, AnythingT := 2], DogT, order) == Ok(AnimalT)
    ensures ResolveAsWritten(Zoo, prefs, map[AnimalT := 1, AnythingT := 2], DogT, order) == Ok(AnimalT)
  {
    assert IsA(Zoo, DogT, AnimalT) && IsA(Zoo, AnimalT, AnythingT) by { ZooMatches(); }
    SpecificKeyWins(Zoo, prefs, map[AnimalT := 1, AnythingT := 2], DogT, order, AnimalT, AnythingT);
    NoFalsyKeysAgree(Zoo, prefs, map[AnimalT := 1, AnythingT := 2], DogT, order);
  }

  /** Keys `(Dog,)` and `(Cat,)` share an implementation and a wildcard key
      has another: a `Dog` resolves to `(Dog,)`, with no ambiguity between
      the two keys that never match together. */
  lemma SharedImplementationNotAmbiguous(prefs: Prefs, order: seq<Pattern>)
    requires Enumerates(order, map[DogT := 1, CatT := 1, AnythingT := 2])
    requires !Prefers(Zoo, prefs, AnythingT, DogT)
    ensures Resolve(Zoo, prefs, map[DogT := 1, CatT := 1, AnythingT := 2], DogT, order) == Ok(DogT)
    ensures ResolveAsWritten(Zoo, prefs, map[DogT := 1, CatT := 1, AnythingT := 2], DogT, order) == Ok(DogT)
  {
    var m := map[DogT := 1, CatT := 1, AnythingT := 2];
    assert Resolve(Zoo, prefs, m, DogT, order) == Ok(DogT) by {
      assert IsA(Zoo, DogT, AnythingT) && !IsA(Zoo, DogT, CatT) by { ZooMatches(); }
      IsAReflexiveAndWildcard(Zoo, DogT, DogT);
      SpecificKeyWins(Zoo, prefs, m, DogT, order, DogT, AnythingT);
    }
    NoFalsyKeysAgree(Zoo, prefs, m, DogT, order);
  }

  /** Two arguments of one class `c` with keys `(c, Anything)` and
      `(Anything, c)`: both match, neither is more specific, and without a
      preference every iteration order raises the ambiguity error. */
  lemma CrossedWildcardsAmbiguous(h: Hierarchy, c: TypeId, order: seq<Pattern>)
    requires Enumerates(order, map[Tuple([TypeRef(c), Anything]) := 1, Tuple([Anything, TypeRef(c)]) := 2])
    ensures var r := Resolve(h, map[], map[Tuple([TypeRef(c), Anything]) := 1, Tuple([Anything, TypeRef(c)]) := 2],
                             Tuple([TypeRef(c), TypeRef(c)]), order);
            r.Err? && r.error.AmbiguousDispatch?
    ensures var m := map[Tuple([TypeRef(c), Anything]) := 1, Tuple([Anything, TypeRef(c)]) := 2];
            var dv := Tuple([TypeRef(c), TypeRef(c)]);
            ResolveAsWritten(h, map[], m, dv, order) == Resolve(h, map[], m, dv, order)
  {
    var a, b := Tuple([TypeRef(c), Anything]), Tuple([Anything, TypeRef(c)]);
    var dv := Tuple([TypeRef(c), TypeRef(c)]);
    CrossedWildcardsMatch(h, c);
    NoPreferencesNoPrefers(h, a, b);
    NoPreferencesNoPrefers(h, b, a);
    AmbiguousPairRaises(h, map[], map[a := 1, b := 2], dv, order, a, b);
  }

  lemma CrossedWildcardsMatch(h: Hierarchy, c: TypeId)
    ensures IsA(h, Tuple([TypeRef(c), TypeRef(c)]), Tuple([TypeRef(c), Anything]))
    ensures IsA(h, Tuple([TypeRef(c), TypeRef(c)]), Tuple([Anything, TypeRef(c)]))
    ensures !IsA(h, Tuple([TypeRef(c), Anything]), Tuple([Anything, TypeRef(c)]))
    ensures !IsA(h, Tuple([Anything, TypeRef(c)]), Tuple([TypeRef(c), Anything]))
  {
    var cc, ca, ac := [TypeRef(c), TypeRef(c)], [TypeRef(c), Anything], [Anything, TypeRef(c)];
    assert !IsA(h, Anything, TypeRef(c));
    IsAOnEqualLengthTuples(h, cc, ca);
    IsAOnEqualLengthTuples(h, cc, ac);
    IsAOnEqualLengthTuples(h, ca, ac);
    IsAOnEqualLengthTuples(h, ac, ca);
    assert !IsA(h, ca[1], ac[1]) && !IsA(h, ac[0], ca[0]);
  }

  /** On a fresh multimethod, `prefer(x, y)` succeeds and a following
      `prefer(y, x)` raises, leaving the preferences as the first call set
      them. */
  method PreferenceConflictOnFreshMultiMethod(h: Hierarchy, x: Pattern, y: Pattern)
    returns (first: Outcome, second: Outcome, prefs: Prefs)
    ensures first == Pass && second == Fail(PreferenceConflict(y, x))
    ensures prefs == map[x := {y}]
  {
    var m := new MultiMethod("m");
    NoPreferencesNoPrefers(h, y, x);
    assert TryPrefer(h, m.preferences, x, y) == Ok(AddEdge(map[], x, y));
    assert PrefsOf(map[], x) + {y} == {y};
    assert AddEdge(map[], x, y) == map[x := {y}];
    first := m.Prefer(h, x, y);
    assert m.preferences == map[x := {y}];
    second := m.Prefer(h, y, x);
    prefs := m.preferences;
  }

  /** Registering, resolving and unregistering on one multimethod: a `Dog`
      call runs the `(Dog,)` implementation; once that key is removed it
      runs the `(Animal,)` one. No key is falsy, so `if target:` takes the
      winner both times. */
  method RegisterCallUnregister() returns (before: Result<Impl>, after: Result<Impl>)
    ensures before == Ok(1) && after == Ok(2)
  {
    var m := new MultiMethod("speak");
    m.AddMethod(1, DogT);
    m.AddMethod(2, AnimalT);
    assert m.methods == map[DogT := 1, AnimalT := 2];
    DogAndAnimalOrders();
    NoPreferencesNoPrefers(Zoo, AnimalT, DogT);
    DogBeatsAnimal(map[], [DogT, AnimalT]);
    before := m.Call(Zoo, DogT, [DogT, AnimalT]);
    var removed := m.RemoveMethod(DogT);
    assert m.methods == map[AnimalT := 2];
    DogFallsBackToAnimal();
    after := m.Call(Zoo, DogT, [AnimalT]);
  }

  lemma DogAndAnimalOrders()
    ensures Enumerates([DogT, AnimalT], map[DogT := 1, AnimalT := 2])
    ensures Enumerates([AnimalT], map[AnimalT := 2])
  {
    assert DogT != AnimalT;
  }

  lemma DogFallsBackToAnimal()
    ensures ResolveAsWritten(Zoo, map[], map[AnimalT := 2], DogT, [AnimalT]) == Ok(AnimalT)
  {
    DogAndAnimalOrders();
    assert IsA(Zoo, DogT, AnimalT) by { ZooMatches(); }
    ScanSingleMatch(Zoo, map[], map[AnimalT := 2], DogT, [AnimalT], AnimalT);
    NoFalsyKeysAgree(Zoo, map[], map[AnimalT := 2], DogT, [AnimalT]);
  }

  /** A key registered under `0` that is the only match is passed over by
      the code as written, which runs the `Default` implementation instead,
      or raises "no matching method" when there is none; the corrected
      fallback resolves to the key. */
  lemma FalsyKeyFallsThrough(h: Hierarchy, prefs: Prefs, order: seq<Pattern>, order': seq<Pattern>)
    requires Enumerates(order, map[Atom(IntVal(0)) := 1, Default := 2])
    requires Enumerates(order', map[Atom(IntVal(0)) := 1])
    ensures ResolveAsWritten(h, prefs, map[Atom(IntVal(0)) := 1, Default := 2], Atom(IntVal(0)), order) == Ok(Default)
    ensures ResolveAsWritten(h, prefs, map[Atom(IntVal(0)) := 1], Atom(IntVal(0)), order')
            == Err(NoMatchingMethod(Atom(IntVal(0))))
    ensures Resolve(h, prefs, map[Atom(IntVal(0)) := 1, Default := 2], Atom(IntVal(0)), order) == Ok(Atom(IntVal(0)))
    ensures Resolve(h, prefs, map[Atom(IntVal(0)) := 1], Atom(IntVal(0)), order') == Ok(Atom(IntVal(0)))
  {
    var zero := Atom(IntVal(0));
    OnlyDefaultMatchesDefault(h, zero);
    ScanSingleMatch(h, prefs, map[zero := 1, Default := 2], zero, order, zero);
    ScanSingleMatch(h, prefs, map[zero := 1], zero, order', zero);
  }

  /** `Dog` (3) derives from `Animal` (0), `Pet` (1) and `Mammal` (2). */
  const Pets: Hierarchy := map[3 := [0, 1, 2]]
  const PetMethods: Methods := map[TypeRef(0) := 1, TypeRef(1) := 2, TypeRef(2) := 3]
  /** `Pet` preferred to `Animal`, `Mammal` preferred to `Pet`. */
  const PetPrefs: Prefs := map[TypeRef(1) := {TypeRef(0)}, TypeRef(2) := {TypeRef(1)}]

  lemma PetsMatchDog()
    ensures forall i | 0 <= i < 3 :: IsA(Pets, TypeRef(3), TypeRef(i))
  {
    forall i | 0 <= i < 3 ensures IsA(Pets, TypeRef(3), TypeRef(i)) {
      SubclassViaBase(Pets, 3, i, i);
    }
  }

  lemma PetEdges()
    ensures Dominates(Pets, PetPrefs, TypeRef(1), TypeRef(0))
    ensures Dominates(Pets, PetPrefs, TypeRef(2), TypeRef(1))
  {
  }

  /** `Mammal` and `Animal` are unrelated and no edge joins them. */
  lemma PetsUndecided()
    ensures !Dominates(Pets, PetPrefs, TypeRef(0), TypeRef(2))
    ensures !Dominates(Pets, PetPrefs, TypeRef(2), TypeRef(0))
  {
    assert Parents(Pets, TypeRef(0)) == [] && Parents(Pets, TypeRef(2)) == [];
  }

  /** Preference edges do not chain, so the outcome of `find_best_method`
      can depend on the iteration order of the registry: a `Dog` resolves to
      `Mammal` when the keys are visited as `Animal, Pet, Mammal`, but the
      scan raises the ambiguity error when they are visited as
      `Mammal, Animal, Pet`. */
  lemma ScanDependsOnOrder()
    ensures Enumerates([TypeRef(0), TypeRef(1), TypeRef(2)], PetMethods)
    ensures Enumerates([TypeRef(2), TypeRef(0), TypeRef(1)], PetMethods)
    ensures Scan(Pets, PetPrefs, PetMethods, TypeRef(3), [TypeRef(0), TypeRef(1), TypeRef(2)]) == Ok(Some(TypeRef(2)))
    ensures Scan(Pets, PetPrefs, PetMethods, TypeRef(3), [TypeRef(2), TypeRef(0), TypeRef(1)]).Err?
  {
    PetOrders();
    PetsInOneOrder();
    PetsInAnotherOrder();
  }

  lemma PetOrders()
    ensures Enumerates([TypeRef(0), TypeRef(1), TypeRef(2)], PetMethods)
    ensures Enumerates([TypeRef(2), TypeRef(0), TypeRef(1)], PetMethods)
  {
  }

  lemma PetsInOneOrder()
    ensures Scan(Pets, PetPrefs, PetMethods, TypeRef(3), [TypeRef(0), TypeRef(1), TypeRef(2)]) == Ok(Some(TypeRef(2)))
  {
    var o := [TypeRef(0), TypeRef(1), TypeRef(2)];
    var dog := TypeRef(3);
    assert o[..0] == [] && o[..3] == o;
    PetsMatchDog();
    PetEdges();
    ScanExtend(Pets, PetPrefs, PetMethods, dog, o, 0);
    StepFirstMatch(Pets, PetPrefs, PetMethods, dog, TypeRef(0));
    ScanExtend(Pets, PetPrefs, PetMethods, dog, o, 1);
    StepDominatingKey(Pets, PetPrefs, PetMethods, dog, TypeRef(0), TypeRef(1));
    ScanExtend(Pets, PetPrefs, PetMethods, dog, o, 2);
    StepDominatingKey(Pets, PetPrefs, PetMethods, dog, TypeRef(1), TypeRef(2));
  }

  lemma PetsInAnotherOrder()
    ensures Scan(Pets, PetPrefs, PetMethods, TypeRef(3), [TypeRef(2), TypeRef(0), TypeRef(1)]).Err?
  {
    var o := [TypeRef(2), TypeRef(0), TypeRef(1)];
    var dog := TypeRef(3);
    assert o[..0] == [];
    PetsMatchDog();
    PetsUndecided();
    ScanExtend(Pets, PetPrefs, PetMethods, dog, o, 0);
    StepFirstMatch(Pets, PetPrefs, PetMethods, dog, TypeRef(2));
    ScanExtend(Pets, PetPrefs, PetMethods, dog, o, 1);
    StepUndecidedKey(Pets, PetPrefs, PetMethods, dog, TypeRef(2), TypeRef(0));
    ScanErrorStops(Pets, PetPrefs, PetMethods, dog, o, 2);
  }

  /** The conflict check of `prefer` looks only at the pair it is given.
      Through inheritance, with a single base per class, two successful
      calls can leave two classes each preferred to the other: `A` (2)
      derives from `Y` (1) and `B` (3) from `X` (0); `prefer(A, B)` and
      then `prefer(X, Y)` both succeed, after which `A` is preferred to `B`
      and `B` to `A`. */
  lemma PreferCanCreateContradiction()
    ensures var h: Hierarchy := map[2 := [1], 3 := [0]];
            && TryPrefer(h, map[], TypeRef(2), TypeRef(3)).Ok?
            && var p1 := TryPrefer(h, map[], TypeRef(2), TypeRef(3)).value;
               && TryPrefer(h, p1, TypeRef(0), TypeRef(1)).Ok?
               && var p2 := TryPrefer(h, p1, TypeRef(0), TypeRef(1)).value;
                  Prefers(h, p2, TypeRef(2), TypeRef(3)) && Prefers(h, p2, TypeRef(3), TypeRef(2))
  {
    var h: Hierarchy := map[2 := [1], 3 := [0]];
    NoPreferencesNoPrefers(h, TypeRef(3), TypeRef(2));
    var p1 := AddEdge(map[], TypeRef(2), TypeRef(3));
    assert PrefsOf(map[], TypeRef(2)) + {TypeRef(3)} == {TypeRef(3)};
    CrossedParentsUnrelated(h, p1);
    CrossedEdgesContradict(h, AddEdge(p1, TypeRef(0), TypeRef(1)));
  }

  /** After `prefer(A, B)`, `Y` is not yet preferred to `X`. */
  lemma CrossedParentsUnrelated(h: Hierarchy, p1: Prefs)
    requires h == map[2 := [1], 3 := [0]] && p1 == map[TypeRef(2) := {TypeRef(3)}]
    ensures !Prefers(h, p1, TypeRef(1), TypeRef(0))
  {
    if Prefers(h, p1, TypeRef(1), TypeRef(0)) {
      var a, b := CoveringEdge(h, p1, TypeRef(1), TypeRef(0));
    }
  }

  /** With both edges recorded, `A` and `B` are each preferred to the other. */
  lemma CrossedEdgesContradict(h: Hierarchy, p2: Prefs)
    requires h == map[2 := [1], 3 := [0]]
    requires TypeRef(2) in p2 && TypeRef(3) in p2[TypeRef(2)]
    requires TypeRef(0) in p2 && TypeRef(1) in p2[TypeRef(0)]
    ensures Prefers(h, p2, TypeRef(2), TypeRef(3)) && Prefers(h, p2, TypeRef(3), TypeRef(2))
  {
    assert IsSubclass(h, 3, 0) by { assert h[3][0] == 0; }
    assert IsSubclass(h, 2, 1) by { assert h[2][0] == 1; }
    PrefersFromEdge(h, p2, TypeRef(3), TypeRef(2), TypeRef(0), TypeRef(1));
  }
}
