/** The `MultiMethod` class: a registry of implementations and a preference
    graph that its methods update in place, and the resolver that reads
    them. The dispatch value is an input (the dispatch function is the
    caller's), and so are the host's class hierarchy and the order in which
    the registry's keys are iterated. */
module MultiMethods {
  import opened Patterns
  import opened Outcomes
  import opened Preferences
  import opened Resolution

  class MultiMethod {
    /** `__name__`, shown in error messages. */
    const name: string
    /** `self.methods`: key -> implementation. */
    var methods: Methods
    /** `self.preferences`: key -> keys it is preferred to. */
    var preferences: Prefs

    constructor (name: string)
      ensures this.name == name
      ensures methods == map[] && preferences == map[]
    {
      this.name := name;
      methods := map[];
      preferences := map[];
    }

    /** `addmethod(func, dispatchval)`: bind `key`, replacing any earlier
        binding of that key and no other. */
    method AddMethod(impl: Impl, key: Pattern)
      modifies this
      ensures methods == old(methods)[key := impl]
      ensures preferences == old(preferences)
    {
      methods := methods[key := impl];
    }

    /** `removemethod(dispatchval)`: drop exactly that key; `KeyError` when
        it is not registered. */
    method RemoveMethod(key: Pattern) returns (r: Outcome)
      modifies this
      ensures key in old(methods) ==> r == Pass && methods == old(methods) - {key}
      ensures key !in old(methods) ==> r == Fail(KeyNotFound(key)) && methods == old(methods)
      ensures preferences == old(preferences)
    {
      if key !in methods {
        return Fail(KeyNotFound(key));
      }
      methods := methods - {key};
      r := Pass;
    }

    /** `prefer(x, y)`: raise, changing nothing, when `y` is already
        preferred to `x`; otherwise add `y` to `x`'s set. */
    method Prefer(h: Hierarchy, x: Pattern, y: Pattern) returns (r: Outcome)
      modifies this
      ensures TryPrefer(h, old(preferences), x, y).Err? ==>
                r == Fail(PreferenceConflict(x, y)) && preferences == old(preferences)
      ensures TryPrefer(h, old(preferences), x, y).Ok? ==>
                r == Pass && preferences == TryPrefer(h, old(preferences), x, y).value
      ensures methods == old(methods)
    {
      if Prefers(h, preferences, y, x) {
        return Fail(PreferenceConflict(x, y));
      }
      var cur := PrefsOf(preferences, x);
      cur := cur + {y};
      preferences := preferences[x := cur];
      r := Pass;
    }

    /** `find_best_method(dv)`, visiting the keys in `order`: the running
        `best` after each key is the fold of the keys seen so far, and the
        first ambiguity met is raised at once. */
    method FindBestMethod(h: Hierarchy, dv: Pattern, order: seq<Pattern>) returns (r: Result<Option<Pattern>>)
      requires Enumerates(order, methods)
      ensures r == Scan(h, preferences, methods, dv, order)
    {
      var ms, ps := methods, preferences;
      var best: Option<Pattern> := None;
      var i := 0;
      while i < |order|
        invariant 0 <= i <= |order|
        invariant Scan(h, ps, ms, dv, order[..i]) == Ok(best)
      {
        var k := order[i];
        ScanExtend(h, ps, ms, dv, order, i);
        if IsA(h, dv, k) {
          if best.None? || Dominates(h, ps, k, best.value) {
            best := Some(k);
          }
          if !Dominates(h, ps, best.value, k) && ms[best.value] != ms[k] {
            r := Err(AmbiguousDispatch(dv, k, best.value));
            ScanErrorStops(h, ps, ms, dv, order, i + 1);
            return;
          }
        }
        i := i + 1;
      }
      assert order[..i] == order;
      r := Ok(best);
    }

    /** `get_method(dv)`: the key `find_best_method` returns when it is
        truthy, otherwise `Default` when registered. A falsy winning key is
        passed over, as `if target:` does (`Resolution.Resolve` is the
        corrected fallback). */
    method GetMethod(h: Hierarchy, dv: Pattern, order: seq<Pattern>) returns (r: Result<Pattern>)
      requires Enumerates(order, methods)
      ensures r == ResolveAsWritten(h, preferences, methods, dv, order)
    {
      var found := FindBestMethod(h, dv, order);
      if found.Err? {
        return Err(found.error);
      }
      var target := found.value;
      if target.Some? && !IsFalsy(target.value) {
        return Ok(target.value);
      }
      if Default in methods {
        return Ok(Default);
      }
      r := Err(NoMatchingMethod(dv));
    }

    /** `__call__`: resolve the dispatch value and return the implementation
        that would be called with the original arguments. */
    method Call(h: Hierarchy, dv: Pattern, order: seq<Pattern>) returns (r: Result<Impl>)
      requires Enumerates(order, methods)
      ensures r.Ok? <==> ResolveAsWritten(h, preferences, methods, dv, order).Ok?
      ensures r.Ok? ==> r.value == methods[ResolveAsWritten(h, preferences, methods, dv, order).value]
      ensures r.Err? ==> r.error == ResolveAsWritten(h, preferences, methods, dv, order).error
    {
      var best := GetMethod(h, dv, order);
      if best.Err? {
        return Err(best.error);
      }
      r := Ok(methods[best.value]);
    }
  }
}
