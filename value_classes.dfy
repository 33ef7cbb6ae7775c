/**
 * The expression-only part of `ValueClassSupport`: classifying a class as a value
 * class, selecting its backing property, unwrapping values and classes, and the
 * return-type-gated unwrap. Each function here is what the corresponding Kotlin
 * member computes when the field cache plays no role; the cache itself lives in
 * module ValueClassSupport.
 */
module ValueClasses {
  import opened Wrappers
  import opened Reflection

  // ---------------------------------------------------------------------------
  // Classification

  /** `isValue_safe`: the answer of `isValue`, or `false` when the query throws. */
  function IsValueSafe(u: Universe, k: KClass): (r: bool)
    ensures u.isValue(k).Answered? ==> r == u.isValue(k).isValue
    ensures u.isValue(k).Threw? ==> !r
  {
    match u.isValue(k)
    case Answered(b) => b
    case Threw(_) => false
  }

  // ---------------------------------------------------------------------------
  // Backing property

  /** Some declared property has a backing field. */
  predicate HasBackingField(ps: seq<Property>)
  {
    exists i :: 0 <= i < |ps| && ps[i].hasBackingField
  }

  /** `p` is the first property of `ps`, in the order given, that has a backing field. */
  predicate IsFirstWithBackingField(ps: seq<Property>, p: Property)
  {
    exists i :: 0 <= i < |ps| && ps[i] == p && p.hasBackingField &&
      forall j :: 0 <= j < i ==> !ps[j].hasBackingField
  }

  /** The index that `first { it.javaField != null }` stops at. */
  function FirstWithBackingFieldIndex(ps: seq<Property>): (i: nat)
    requires HasBackingField(ps)
    ensures i < |ps| && ps[i].hasBackingField
    ensures forall j :: 0 <= j < i ==> !ps[j].hasBackingField
  {
    if ps[0].hasBackingField then 0
    else
      assert HasBackingField(ps[1..]) by {
        var i :| 0 <= i < |ps| && ps[i].hasBackingField;
        assert ps[1..][i - 1] == ps[i];
      }
      1 + FirstWithBackingFieldIndex(ps[1..])
  }

  /**
   * A class that `boxedProperty` can resolve: if it is classified as a value class, it
   * declares a property with a backing field (a value class always has exactly one).
   */
  predicate Resolvable(u: Universe, k: KClass)
  {
    IsValueSafe(u, k) ==> HasBackingField(u.declaredMemberProperties(k))
  }

  /** The message of the exception `boxedProperty` throws for a class that is not a value class. */
  function NotAValueClassMessage(k: KClass): string
  {
    ClassToString(k) + " is not a value class"
  }

  /**
   * `boxedProperty`, as a fresh lookup computes it: the first declared property with a
   * backing field, or `UnsupportedOperationException` for a class not classified as a value class.
   */
  function BoxedProperty(u: Universe, k: KClass): (r: Result<Property, Throwable>)
    requires Resolvable(u, k)
    ensures r.Success? <==> IsValueSafe(u, k)
    ensures r.Failure? ==> r.error == UnsupportedOperationException(NotAValueClassMessage(k))
    ensures r.Success? ==> IsFirstWithBackingField(u.declaredMemberProperties(k), r.value)
  {
    if !IsValueSafe(u, k) then
      Failure(UnsupportedOperationException(NotAValueClassMessage(k)))
    else
      var ps := u.declaredMemberProperties(k);
      Success(ps[FirstWithBackingFieldIndex(ps)])
  }

  /** The backing property of a class classified as a value class. */
  function BackingProperty(u: Universe, k: KClass): Property
    requires IsValueSafe(u, k) && Resolvable(u, k)
  {
    BoxedProperty(u, k).value
  }

  // ---------------------------------------------------------------------------
  // Well-typed instances

  /**
   * What the JVM guarantees of an instance and everything it refers to: an instance of a
   * class classified as a value class is an object whose class is resolvable and which
   * stores a value for that class's backing property.
   */
  predicate WellTyped(u: Universe, v: Value)
    decreases v
  {
    && Resolvable(u, v.cls)
    && (IsValueSafe(u, v.cls) ==> v.Obj? && BackingProperty(u, v.cls).name in v.fields)
    && (v.Obj? ==> forall n :: n in v.fields && v.fields[n].Some? ==> WellTyped(u, v.fields[n].value))
  }

  /** The value a value-class instance stores in its backing field. */
  function BackingValue(u: Universe, v: Value): Option<Value>
    requires WellTyped(u, v) && IsValueSafe(u, v.cls)
  {
    Get(BackingProperty(u, v.cls), v)
  }

  // ---------------------------------------------------------------------------
  // Unwrapping values

  /**
   * `boxedValue`: a value whose class is not (safely) a value class is returned as it is;
   * a value-class instance is replaced by the `boxedValue` of its backing field's value,
   * and a `null` backing value gives `null`. The result is never an instance of a class that
   * `isValue_safe` accepts; a value class whose `isValue` throws is returned as itself.
   */
  function BoxedValue(u: Universe, v: Value): (r: Option<Value>)
    requires WellTyped(u, v)
    decreases v
    ensures !IsValueSafe(u, v.cls) ==> r == Some(v)
    ensures r.Some? ==> !IsValueSafe(u, r.value.cls) && WellTyped(u, r.value)
  {
    if !IsValueSafe(u, v.cls) then
      Some(v)
    else
      match Get(BackingProperty(u, v.cls), v)
      case None => None
      case Some(b) => BoxedValue(u, b)
  }

  /** The value classes whose backing property `boxedValue` looks up while unwrapping `v`. */
  function UnwrapChain(u: Universe, v: Value): (s: set<KClass>)
    requires WellTyped(u, v)
    decreases v
    ensures forall k :: k in s ==> IsValueSafe(u, k) && Resolvable(u, k)
    ensures IsValueSafe(u, v.cls) <==> v.cls in s
  {
    if !IsValueSafe(u, v.cls) then
      {}
    else
      match BackingValue(u, v)
      case None => {v.cls}
      case Some(b) => {v.cls} + UnwrapChain(u, b)
  }

  /** Unwrapping a value-class instance collapses onto unwrapping its backing value. */
  lemma BoxedValueCollapses(u: Universe, v: Value)
    requires WellTyped(u, v) && IsValueSafe(u, v.cls)
    ensures BackingValue(u, v).None? ==> BoxedValue(u, v).None?
    ensures BackingValue(u, v).Some? ==>
      WellTyped(u, BackingValue(u, v).value) &&
      BoxedValue(u, v) == BoxedValue(u, BackingValue(u, v).value)
  {
  }

  /** The value classes met while unwrapping an instance are its own class and those met while unwrapping its backing value. */
  lemma UnwrapChainCollapses(u: Universe, v: Value)
    requires WellTyped(u, v) && IsValueSafe(u, v.cls)
    ensures BackingValue(u, v).None? ==> UnwrapChain(u, v) == {v.cls}
    ensures BackingValue(u, v).Some? ==>
      WellTyped(u, BackingValue(u, v).value) &&
      UnwrapChain(u, v) == {v.cls} + UnwrapChain(u, BackingValue(u, v).value)
  {
  }

  /** Unwrapping is idempotent: the unwrapped value unwraps to itself. */
  lemma BoxedValueIdempotent(u: Universe, v: Value)
    requires WellTyped(u, v)
    ensures BoxedValue(u, v).Some? ==> BoxedValue(u, BoxedValue(u, v).value) == BoxedValue(u, v)
  {
  }

  // ---------------------------------------------------------------------------
  // Unwrapping classes

  /**
   * `boxedClass`: a class that is not (safely) a value class is returned as it is; for a value
   * class it is the classifier of its backing property's declared type, one level only.
   */
  function BoxedClass(u: Universe, k: KClass): (r: KClass)
    requires Resolvable(u, k)
    ensures !IsValueSafe(u, k) ==> r == k
    ensures IsValueSafe(u, k) ==>
      exists p :: IsFirstWithBackingField(u.declaredMemberProperties(k), p) && r == p.classifier
  {
    if !IsValueSafe(u, k) then k else BackingProperty(u, k).classifier
  }

  // ---------------------------------------------------------------------------
  // Unwrapping for a method's return

  /** `k` is the classifier of the Kotlin return type declared by `m`. */
  predicate DeclaredReturnIs(m: Method, k: KClass)
  {
    m.kotlinFunction.Some? && m.kotlinFunction.value.returnClassifier == Some(ClassClassifier(k))
  }

  /**
   * `maybeUnboxValueForMethodReturn`: `v` is unwrapped (fully, by `boxedValue`) only when its
   * class is a value class and is exactly the classifier of the method's declared Kotlin return
   * type; otherwise, and when the method has no Kotlin function, `v` is returned unchanged.
   */
  function MaybeUnboxValueForMethodReturn(u: Universe, v: Value, m: Method): (r: Option<Value>)
    requires WellTyped(u, v)
    ensures !IsValueSafe(u, v.cls) ==> r == Some(v)
    ensures m.kotlinFunction.None? ==> r == Some(v)
    ensures !DeclaredReturnIs(m, v.cls) ==> r == Some(v)
    ensures IsValueSafe(u, v.cls) && DeclaredReturnIs(m, v.cls) ==> r == BoxedValue(u, v)
    ensures r.Some? && r.value != v ==> !IsValueSafe(u, r.value.cls)
  {
    var resultType := v.cls;
    if !IsValueSafe(u, resultType) then
      Some(v)
    else
      match m.kotlinFunction
      case None => Some(v)
      case Some(kFunction) =>
        var expectedReturnType := kFunction.returnClassifier;
        if expectedReturnType == Some(ClassClassifier(resultType)) then BoxedValue(u, v) else Some(v)
  }
}
