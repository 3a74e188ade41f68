/** Dispatch values and patterns, the host's class hierarchy, and the
    specificity predicate `_is_a` of multimethods.py. */
module Patterns {

  /** A class of the host program, numbered in creation order. */
  type TypeId = nat

  /** The direct bases (`__bases__`) of every class that has any. A class is
      created after its bases, so numbering classes in creation order gives
      every base a smaller id than the class itself; a class missing from the
      map has no bases (like `object`). */
  type Hierarchy = h: map<TypeId, seq<TypeId>> | forall t, i :: t in h && 0 <= i < |h[t]| ==> h[t][i] < t
    witness map[]

  /** A hashable value other than a class or a tuple that a custom dispatch
      function may return. */
  datatype Scalar = IntVal(i: int) | StrVal(s: string)

  /** A dispatch value or a registration key: a class, a tuple of patterns,
      any other hashable value, or one of the two sentinels. */
  datatype Pattern =
    | TypeRef(id: TypeId)
    | Tuple(elems: seq<Pattern>)
    | Atom(v: Scalar)
    | Default
    | Anything

  /** Python truthiness of a key: the empty tuple, zero and the empty string
      are false; classes, the sentinels and every other value are true. */
  predicate IsFalsy(p: Pattern)
    ensures IsFalsy(p) ==> p.Tuple? || p.Atom?
  {
    p == Tuple([]) || p == Atom(IntVal(0)) || p == Atom(StrVal(""))
  }

  /** Termination measure: how far a class may be from the roots of the
      hierarchy. Only classes have parents, so everything else has rank 0. */
  function Rank(p: Pattern): nat {
    if p.TypeRef? then p.id else 0
  }

  /** `_parents`: the direct bases of a class; nothing for any other value. */
  function Parents(h: Hierarchy, p: Pattern): (r: seq<Pattern>)
    ensures !p.TypeRef? ==> r == []
    ensures p.TypeRef? && p.id in h ==> |r| == |h[p.id]|
    ensures forall i :: 0 <= i < |r| ==> p.TypeRef? && p.id in h && r[i] == TypeRef(h[p.id][i]) && Rank(r[i]) < Rank(p)
  {
    if p.TypeRef? && p.id in h then
      seq(|h[p.id]|, i requires 0 <= i < |h[p.id]| => TypeRef(h[p.id][i]))
    else
      []
  }

  /** `issubclass(a, b)` for classes: `a` is `b` or one of `a`'s bases is
      (reflexively and transitively) a subclass of `b`. */
  predicate IsSubclass(h: Hierarchy, a: TypeId, b: TypeId)
    decreases a
  {
    a == b || (a in h && exists i | 0 <= i < |h[a]| :: IsSubclass(h, h[a][i], b))
  }

  /** `_is_a(x, y)`: does value `x` match pattern `y`? Equal values match,
      everything matches `Anything`, tuples match element by element and
      classes match their superclasses. Tuples of different lengths follow
      Python 2's `map`, which pads the shorter tuple with `None`: a padding
      `None` in the value matches only `Anything`, and a value element
      against a padding `None` never matches. */
  predicate IsA(h: Hierarchy, x: Pattern, y: Pattern)
    decreases x
  {
    if x == y || y == Anything then
      true
    else if x.Tuple? && y.Tuple? then
      && |x.elems| <= |y.elems|
      && (forall i | 0 <= i < |x.elems| :: IsA(h, x.elems[i], y.elems[i]))
      && (forall i | |x.elems| <= i < |y.elems| :: y.elems[i] == Anything)
    else
      x.TypeRef? && y.TypeRef? && IsSubclass(h, x.id, y.id)
  }

  /** Every pattern matches itself, and every value matches the wildcard. */
  lemma IsAReflexiveAndWildcard(h: Hierarchy, p: Pattern, v: Pattern)
    ensures IsA(h, p, p)
    ensures IsA(h, v, Anything)
  {
  }

  /** On classes, `_is_a` is exactly `issubclass`. */
  lemma IsAOnClasses(h: Hierarchy, a: TypeId, b: TypeId)
    ensures IsA(h, TypeRef(a), TypeRef(b)) <==> IsSubclass(h, a, b)
  {
  }

  /** Tuples of equal length match iff every pair of corresponding elements
      matches. */
  lemma IsAOnEqualLengthTuples(h: Hierarchy, xs: seq<Pattern>, ys: seq<Pattern>)
    requires |xs| == |ys|
    ensures IsA(h, Tuple(xs), Tuple(ys)) <==> forall i :: 0 <= i < |xs| ==> IsA(h, xs[i], ys[i])
  {
    if xs == ys {
      forall i | 0 <= i < |xs| ensures IsA(h, xs[i], ys[i]) {
        IsAReflexiveAndWildcard(h, xs[i], xs[i]);
      }
    }
  }

  /** One-element tuples, as a one-argument `type_dispatch` produces, match
      as their elements do. */
  lemma IsAOnSingletons(h: Hierarchy, a: Pattern, b: Pattern)
    ensures IsA(h, Tuple([a]), Tuple([b])) <==> IsA(h, a, b)
  {
    IsAOnEqualLengthTuples(h, [a], [b]);
    assert [a][0] == a && [b][0] == b;
  }

  /** A tuple matches no pattern but `Anything` and tuples, and only a tuple
      matches a tuple pattern. */
  lemma TuplesMatchOnlyTuples(h: Hierarchy, x: Pattern, y: Pattern)
    requires IsA(h, x, y)
    ensures x.Tuple? && !y.Tuple? ==> y == Anything
    ensures y.Tuple? ==> x.Tuple?
  {
  }

  /** Only the `Default` sentinel itself matches the `Default` key. */
  lemma OnlyDefaultMatchesDefault(h: Hierarchy, v: Pattern)
    ensures IsA(h, v, Default) <==> v == Default
  {
  }

  /** A superclass never has a larger id than its subclass, so the subclass
      relation is antisymmetric. */
  lemma {:induction false} SubclassRank(h: Hierarchy, a: TypeId, b: TypeId)
    requires IsSubclass(h, a, b)
    ensures b <= a
    ensures IsSubclass(h, b, a) ==> a == b
    decreases a
  {
    if a != b {
      var i :| 0 <= i < |h[a]| && IsSubclass(h, h[a][i], b);
      SubclassRank(h, h[a][i], b);
      if IsSubclass(h, b, a) {
        SubclassRank(h, b, a);
      }
    }
  }

  lemma {:induction false} SubclassTransitive(h: Hierarchy, a: TypeId, b: TypeId, c: TypeId)
    requires IsSubclass(h, a, b) && IsSubclass(h, b, c)
    ensures IsSubclass(h, a, c)
    decreases a
  {
    if a != b {
      var i :| 0 <= i < |h[a]| && IsSubclass(h, h[a][i], b);
      SubclassTransitive(h, h[a][i], b, c);
    }
  }

  /** A base of a class that is a subclass of `b` makes the class one too. */
  lemma SubclassViaBase(h: Hierarchy, a: TypeId, i: int, b: TypeId)
    requires a in h && 0 <= i < |h[a]| && IsSubclass(h, h[a][i], b)
    ensures IsSubclass(h, a, b)
  {
  }

  /** `_is_a` is transitive: a value matching a pattern that itself matches a
      more general pattern matches that one too, padding included. */
  lemma {:induction false} IsATransitive(h: Hierarchy, x: Pattern, y: Pattern, z: Pattern)
    requires IsA(h, x, y) && IsA(h, y, z)
    ensures IsA(h, x, z)
    decreases x
  {
    if x == y || y == z || z == Anything {
    } else if y == Anything {
      assert false;
    } else if x.Tuple? {
      assert y.Tuple? && z.Tuple?;
      forall i | 0 <= i < |x.elems| ensures IsA(h, x.elems[i], z.elems[i]) {
        IsATransitive(h, x.elems[i], y.elems[i], z.elems[i]);
      }
      forall i | |x.elems| <= i < |z.elems| ensures z.elems[i] == Anything {
        if i < |y.elems| {
          assert y.elems[i] == Anything;
          assert IsA(h, y.elems[i], z.elems[i]);
        }
      }
    } else {
      SubclassTransitive(h, x.id, y.id, z.id);
    }
  }

  /** `_is_a` is antisymmetric: two patterns that match each other are
      equal. */
  lemma {:induction false} IsAAntisymmetric(h: Hierarchy, x: Pattern, y: Pattern)
    requires IsA(h, x, y) && IsA(h, y, x)
    ensures x == y
    decreases x
  {
    if x.Tuple? && y.Tuple? {
      forall i | 0 <= i < |x.elems| ensures x.elems[i] == y.elems[i] {
        IsAReflexiveAndWildcard(h, x.elems[i], x.elems[i]);
        IsAAntisymmetric(h, x.elems[i], y.elems[i]);
      }
      assert x.elems == y.elems;
    } else if x.TypeRef? && y.TypeRef? {
      SubclassRank(h, x.id, y.id);
    }
  }
}
