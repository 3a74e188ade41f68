/** The preference graph of a multimethod (`_prefers`, `prefer`) and the
    dominance order the resolver uses (`_dominates`). */
module Preferences {
  import opened Patterns
  import opened Outcomes

  /** `self.preferences`: for each pattern, the patterns it is preferred to. */
  type Prefs = map<Pattern, set<Pattern>>

  /** `preferences.get(x, set())`. */
  function PrefsOf(prefs: Prefs, x: Pattern): set<Pattern> {
    if x in prefs then prefs[x] else {}
  }

  /** `_prefers(x, y)`: an explicit edge `x -> y`, or `x` prefers a parent of
      `y`, or a parent of `x` prefers `y`. */
  predicate Prefers(h: Hierarchy, prefs: Prefs, x: Pattern, y: Pattern)
    decreases Rank(x) + Rank(y)
  {
    || (x in prefs && y in prefs[x])
    || (exists i | 0 <= i < |Parents(h, y)| :: Prefers(h, prefs, x, Parents(h, y)[i]))
    || (exists i | 0 <= i < |Parents(h, x)| :: Prefers(h, prefs, Parents(h, x)[i], y))
  }

  /** `x` is `a`, or both are classes and `x` is a subclass of `a`: the
      reflexive-transitive closure of `_parents`. */
  predicate Descends(h: Hierarchy, x: Pattern, a: Pattern) {
    x == a || (x.TypeRef? && a.TypeRef? && IsSubclass(h, x.id, a.id))
  }

  /** `_dominates(x, y)`: `x` is preferred to `y` or at least as specific. */
  predicate Dominates(h: Hierarchy, prefs: Prefs, x: Pattern, y: Pattern) {
    Prefers(h, prefs, x, y) || IsA(h, x, y)
  }

  /** The preferences after `x` is recorded as preferred to `y`. */
  function AddEdge(prefs: Prefs, x: Pattern, y: Pattern): (r: Prefs)
    ensures r.Keys == prefs.Keys + {x}
    ensures r[x] == PrefsOf(prefs, x) + {y}
    ensures forall k :: k in prefs && k != x ==> r[k] == prefs[k]
  {
    prefs[x := PrefsOf(prefs, x) + {y}]
  }

  /** `prefer(x, y)`: refuse when `y` is already preferred to `x`, otherwise
      add `y` to `x`'s set and nothing else. */
  function TryPrefer(h: Hierarchy, prefs: Prefs, x: Pattern, y: Pattern): (r: Result<Prefs>)
    ensures r.Err? <==> Prefers(h, prefs, y, x)
    ensures r.Err? ==> r.error == PreferenceConflict(x, y)
    ensures r.Ok? ==> r.value == AddEdge(prefs, x, y) && Prefers(h, r.value, x, y)
  {
    if Prefers(h, prefs, y, x) then
      Err(PreferenceConflict(x, y))
    else
      Ok(AddEdge(prefs, x, y))
  }

  /** A parent of `y` that descends from `b` makes `y` descend from `b`. */
  lemma DescendsViaParent(h: Hierarchy, y: Pattern, i: int, b: Pattern)
    requires 0 <= i < |Parents(h, y)| && Descends(h, Parents(h, y)[i], b)
    ensures Descends(h, y, b)
  {
    SubclassViaBase(h, y.id, i, b.id);
  }

  lemma DescendsTransitive(h: Hierarchy, x: Pattern, y: Pattern, z: Pattern)
    requires Descends(h, x, y) && Descends(h, y, z)
    ensures Descends(h, x, z)
  {
    if x != y && y != z {
      SubclassTransitive(h, x.id, y.id, z.id);
    }
  }

  /** Two patterns that descend from each other are the same pattern. */
  lemma DescendsAntisymmetric(h: Hierarchy, x: Pattern, y: Pattern)
    requires Descends(h, x, y) && Descends(h, y, x)
    ensures x == y
  {
    if x != y {
      SubclassRank(h, x.id, y.id);
    }
  }

  /** `_prefers(x, y)` holds exactly when some explicit edge `a -> b` covers
      the pair: `x` descends from `a` and `y` from `b`. This direction gives
      the covering edge. */
  lemma {:induction false} CoveringEdge(h: Hierarchy, prefs: Prefs, x: Pattern, y: Pattern)
    returns (a: Pattern, b: Pattern)
    requires Prefers(h, prefs, x, y)
    ensures a in prefs && b in prefs[a]
    ensures Descends(h, x, a) && Descends(h, y, b)
    decreases Rank(x) + Rank(y)
  {
    if x in prefs && y in prefs[x] {
      a, b := x, y;
    } else if exists i | 0 <= i < |Parents(h, y)| :: Prefers(h, prefs, x, Parents(h, y)[i]) {
      var i :| 0 <= i < |Parents(h, y)| && Prefers(h, prefs, x, Parents(h, y)[i]);
      a, b := CoveringEdge(h, prefs, x, Parents(h, y)[i]);
      DescendsViaParent(h, y, i, b);
    } else {
      var i :| 0 <= i < |Parents(h, x)| && Prefers(h, prefs, Parents(h, x)[i], y);
      a, b := CoveringEdge(h, prefs, Parents(h, x)[i], y);
      DescendsViaParent(h, x, i, a);
    }
  }

  /** The other direction: an explicit edge `a -> b` makes every descendant
      of `a` preferred to every descendant of `b`. */
  lemma {:induction false} PrefersFromEdge(h: Hierarchy, prefs: Prefs, x: Pattern, y: Pattern, a: Pattern, b: Pattern)
    requires a in prefs && b in prefs[a]
    requires Descends(h, x, a) && Descends(h, y, b)
    ensures Prefers(h, prefs, x, y)
    decreases Rank(x) + Rank(y)
  {
    if y != b {
      var i :| 0 <= i < |h[y.id]| && IsSubclass(h, h[y.id][i], b.id);
      var p := Parents(h, y)[i];
      PrefersFromEdge(h, prefs, x, p, a, b);
    } else if x != a {
      var i :| 0 <= i < |h[x.id]| && IsSubclass(h, h[x.id][i], a.id);
      var p := Parents(h, x)[i];
      PrefersFromEdge(h, prefs, p, y, a, b);
    }
  }

  /** An empty preference graph prefers nothing to anything. */
  lemma NoPreferencesNoPrefers(h: Hierarchy, x: Pattern, y: Pattern)
    ensures !Prefers(h, map[], x, y)
  {
    if Prefers(h, map[], x, y) {
      var a, b := CoveringEdge(h, map[], x, y);
    }
  }

  /** Preferences propagate down the hierarchy on both sides: whoever
      descends from `x` is preferred to whoever descends from `y`. */
  lemma PrefersInherited(h: Hierarchy, prefs: Prefs, x: Pattern, y: Pattern, x': Pattern, y': Pattern)
    requires Prefers(h, prefs, x, y)
    requires Descends(h, x', x) && Descends(h, y', y)
    ensures Prefers(h, prefs, x', y')
  {
    var a, b := CoveringEdge(h, prefs, x, y);
    DescendsTransitive(h, x', x, a);
    DescendsTransitive(h, y', y, b);
    PrefersFromEdge(h, prefs, x', y', a, b);
  }

  /** Adding an edge never withdraws a preference. */
  lemma AddEdgeKeepsPreferences(h: Hierarchy, prefs: Prefs, x: Pattern, y: Pattern, u: Pattern, v: Pattern)
    requires Prefers(h, prefs, u, v)
    ensures Prefers(h, AddEdge(prefs, x, y), u, v)
  {
    var a, b := CoveringEdge(h, prefs, u, v);
    PrefersFromEdge(h, AddEdge(prefs, x, y), u, v, a, b);
  }

  /** Adding the edge `x -> y` adds exactly the pairs it covers. */
  lemma AddEdgeExactly(h: Hierarchy, prefs: Prefs, x: Pattern, y: Pattern, u: Pattern, v: Pattern)
    ensures Prefers(h, AddEdge(prefs, x, y), u, v)
        <==> Prefers(h, prefs, u, v) || (Descends(h, u, x) && Descends(h, v, y))
  {
    if Prefers(h, AddEdge(prefs, x, y), u, v) {
      AddEdgeOnlyAddsCovered(h, prefs, x, y, u, v);
    }
    if Prefers(h, prefs, u, v) {
      AddEdgeKeepsPreferences(h, prefs, x, y, u, v);
    }
    if Descends(h, u, x) && Descends(h, v, y) {
      PrefersFromEdge(h, AddEdge(prefs, x, y), u, v, x, y);
    }
  }

  /** A pair preferred after adding `x -> y` was preferred before, or is
      covered by the new edge. */
  lemma AddEdgeOnlyAddsCovered(h: Hierarchy, prefs: Prefs, x: Pattern, y: Pattern, u: Pattern, v: Pattern)
    requires Prefers(h, AddEdge(prefs, x, y), u, v)
    ensures Prefers(h, prefs, u, v) || (Descends(h, u, x) && Descends(h, v, y))
  {
    var a, b := CoveringEdge(h, AddEdge(prefs, x, y), u, v);
    if !(a == x && b == y) {
      assert a in prefs && b in prefs[a];
      PrefersFromEdge(h, prefs, u, v, a, b);
    }
  }

  /** After a successful `prefer(x, y)` the reverse `prefer(y, x)` raises. */
  lemma PreferThenReverseConflicts(h: Hierarchy, prefs: Prefs, x: Pattern, y: Pattern)
    requires TryPrefer(h, prefs, x, y).Ok?
    ensures TryPrefer(h, TryPrefer(h, prefs, x, y).value, y, x) == Err(PreferenceConflict(y, x))
  {
  }

  /** Recording the same preference twice between different patterns is
      harmless: the second `prefer` succeeds and changes nothing. */
  lemma PreferIdempotent(h: Hierarchy, prefs: Prefs, x: Pattern, y: Pattern)
    requires x != y
    requires TryPrefer(h, prefs, x, y).Ok?
    ensures TryPrefer(h, TryPrefer(h, prefs, x, y).value, x, y) == TryPrefer(h, prefs, x, y)
  {
    var prefs' := AddEdge(prefs, x, y);
    AddEdgeExactly(h, prefs, x, y, y, x);
    if Descends(h, y, x) && Descends(h, x, y) {
      DescendsAntisymmetric(h, x, y);
    }
    assert AddEdge(prefs', x, y) == prefs';
  }

  /** Every pattern dominates itself. */
  lemma DominatesReflexive(h: Hierarchy, prefs: Prefs, x: Pattern)
    ensures Dominates(h, prefs, x, x)
  {
  }

  /** A more specific pattern dominates a more general one whatever the
      preferences say, and so does any pattern a preference puts first. */
  lemma DominatesBySpecificityOrPreference(h: Hierarchy, prefs: Prefs, x: Pattern, y: Pattern)
    ensures IsA(h, x, y) ==> Dominates(h, prefs, x, y)
    ensures Prefers(h, prefs, x, y) ==> Dominates(h, prefs, x, y)
  {
  }
}
