/**
 * The stateful part of `ValueClassSupport`: the object owns `valueClassFieldCache`, a
 * mutable map from value classes to their backing property that `boxedProperty` fills
 * through `getOrPut`. Every member that reaches `boxedProperty` (`boxedValue`, `boxedClass`,
 * `maybeUnboxValueForMethodReturn`) therefore updates the cache, and is modelled here as a
 * method whose result is the pure function of module ValueClasses and whose new cache is
 * the old one plus the value classes it looked up.
 */
module ValueClassSupport {
  import opened Wrappers
  import opened Reflection
  import ValueClasses

  /** No element of `s` occurs twice, stated from the last element back. */
  ghost predicate NoRepeats<T>(s: seq<T>)
  {
    |s| == 0 || (s[|s| - 1] !in s[..|s| - 1] && NoRepeats(s[..|s| - 1]))
  }

  /** Appending an element that is not yet present keeps a sequence free of repeats. */
  lemma NoRepeatsAppend<T>(s: seq<T>, x: T)
    requires NoRepeats(s) && x !in s
    ensures NoRepeats(s + [x])
  {
    assert (s + [x])[..|s|] == s;
  }

  /** Free of repeats means pairwise distinct positions hold distinct elements. */
  lemma {:induction false} NoRepeatsDistinct<T>(s: seq<T>)
    requires NoRepeats(s)
    ensures forall i, j :: 0 <= i < j < |s| ==> s[i] != s[j]
  {
    if |s| > 0 {
      var t := s[..|s| - 1];
      NoRepeatsDistinct(t);
      forall i, j | 0 <= i < j < |s| ensures s[i] != s[j] {
        if j == |s| - 1 {
          assert s[i] == t[i];
        } else {
          assert s[i] == t[i] && s[j] == t[j];
        }
      }
    }
  }

  class Support {
    /** The reflective facts of the program's types, fixed for the lifetime of the process. */
    const u: Universe
    /** `valueClassFieldCache`: the memoised backing property of each value class looked up so far. */
    var valueClassFieldCache: map<KClass, Property>
    /** Every class whose declared properties have been introspected, in order. */
    ghost var introspected: seq<KClass>

    /**
     * Only classes classified as value classes are keys, each mapped to the property a fresh
     * lookup would select; the keys are exactly the introspected classes, each introspected once.
     */
    ghost predicate Valid()
      reads this
    {
      && (forall k :: k in valueClassFieldCache ==>
            ValueClasses.IsValueSafe(u, k) && ValueClasses.Resolvable(u, k) &&
            valueClassFieldCache[k] == ValueClasses.BackingProperty(u, k))
      && (forall k :: k in valueClassFieldCache <==> k in introspected)
      && NoRepeats(introspected)
    }

    /** A support object over the universe `u`, with an empty cache. */
    constructor (u: Universe)
      ensures Valid()
      ensures this.u == u && valueClassFieldCache == map[] && introspected == []
    {
      this.u := u;
      valueClassFieldCache := map[];
      introspected := [];
    }

    /**
     * `boxedProperty`: throws for a class that is not a value class and leaves the cache as it
     * was; otherwise returns the cached property, introspecting and storing it on the first lookup only.
     */
    method BoxedProperty(k: KClass) returns (r: Result<Property, Throwable>)
      requires Valid() && ValueClasses.Resolvable(u, k)
      modifies this
      ensures Valid()
      ensures r == ValueClasses.BoxedProperty(u, k)
      ensures !ValueClasses.IsValueSafe(u, k) ==>
        valueClassFieldCache == old(valueClassFieldCache) && introspected == old(introspected)
      ensures ValueClasses.IsValueSafe(u, k) ==>
        valueClassFieldCache == old(valueClassFieldCache)[k := r.value]
      ensures ValueClasses.IsValueSafe(u, k) && k in old(valueClassFieldCache) ==>
        r.value == old(valueClassFieldCache)[k] && introspected == old(introspected)
      ensures ValueClasses.IsValueSafe(u, k) && k !in old(valueClassFieldCache) ==>
        introspected == old(introspected) + [k]
    {
      if !ValueClasses.IsValueSafe(u, k) {
        r := Failure(UnsupportedOperationException(ValueClasses.NotAValueClassMessage(k)));
      } else if k in valueClassFieldCache {
        r := Success(valueClassFieldCache[k]);
      } else {
        var ps := u.declaredMemberProperties(k);
        var p := ps[ValueClasses.FirstWithBackingFieldIndex(ps)];
        NoRepeatsAppend(introspected, k);
        valueClassFieldCache := valueClassFieldCache[k := p];
        introspected := introspected + [k];
        r := Success(p);
      }
    }

    /**
     * `boxedValue`: the fully unwrapped value; the cache gains exactly the value classes met
     * along the way, and entries already present keep their property.
     */
    method BoxedValue(v: Value) returns (r: Option<Value>)
      requires Valid() && ValueClasses.WellTyped(u, v)
      modifies this
      decreases v
      ensures Valid()
      ensures r == ValueClasses.BoxedValue(u, v)
      ensures old(introspected) <= introspected
      ensures valueClassFieldCache.Keys == old(valueClassFieldCache).Keys + ValueClasses.UnwrapChain(u, v)
      ensures forall k :: k in old(valueClassFieldCache) ==> valueClassFieldCache[k] == old(valueClassFieldCache)[k]
    {
      ghost var keys0 := valueClassFieldCache.Keys;
      if !ValueClasses.IsValueSafe(u, v.cls) {
        assert ValueClasses.UnwrapChain(u, v) == {};
        r := Some(v);
      } else {
        ValueClasses.UnwrapChainCollapses(u, v);
        var p := BoxedProperty(v.cls);
        ghost var looked, keys1 := introspected, valueClassFieldCache.Keys;
        assert keys1 == keys0 + {v.cls};
        match v.fields[p.value.name]
        case None =>
          r := None;
        case Some(b) =>
          ghost var chain := ValueClasses.UnwrapChain(u, b);
          r := BoxedValue(b);
          assert valueClassFieldCache.Keys == keys1 + chain;
          assert old(introspected) <= looked <= introspected;
      }
    }

    /** `boxedClass`: the one-level unwrapped class, looking the backing property up through the cache. */
    method BoxedClass(k: KClass) returns (r: KClass)
      requires Valid() && ValueClasses.Resolvable(u, k)
      modifies this
      ensures Valid()
      ensures r == ValueClasses.BoxedClass(u, k)
      ensures old(introspected) <= introspected
      ensures valueClassFieldCache ==
        if ValueClasses.IsValueSafe(u, k) then old(valueClassFieldCache)[k := ValueClasses.BackingProperty(u, k)]
        else old(valueClassFieldCache)
    {
      if !ValueClasses.IsValueSafe(u, k) {
        r := k;
      } else {
        var p := BoxedProperty(k);
        r := p.value.classifier;
      }
    }

    /**
     * `maybeUnboxValueForMethodReturn`: unwraps only when the declared Kotlin return type's
     * classifier is the runtime class; the cache changes only when it does.
     */
    method MaybeUnboxValueForMethodReturn(v: Value, m: Method) returns (r: Option<Value>)
      requires Valid() && ValueClasses.WellTyped(u, v)
      modifies this
      ensures Valid()
      ensures r == ValueClasses.MaybeUnboxValueForMethodReturn(u, v, m)
      ensures old(introspected) <= introspected
      ensures valueClassFieldCache.Keys == old(valueClassFieldCache).Keys +
        if ValueClasses.IsValueSafe(u, v.cls) && ValueClasses.DeclaredReturnIs(m, v.cls)
        then ValueClasses.UnwrapChain(u, v) else {}
      ensures forall k :: k in old(valueClassFieldCache) ==> valueClassFieldCache[k] == old(valueClassFieldCache)[k]
    {
      var resultType := v.cls;
      if !ValueClasses.IsValueSafe(u, resultType) {
        return Some(v);
      }
      match m.kotlinFunction
      case None =>
        r := Some(v);
      case Some(kFunction) =>
        var expectedReturnType := kFunction.returnClassifier;
        if expectedReturnType == Some(ClassClassifier(resultType)) {
          r := BoxedValue(v);
        } else {
          r := Some(v);
        }
    }
  }
}
