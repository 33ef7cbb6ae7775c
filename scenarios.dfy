/**
 * A small concrete type universe: `Meters` is a value class over `Int`, `Squared` a value
 * class over `Meters`, `Broken` a value class whose `isValue` query throws, and `Int` an
 * ordinary class. The lemmas below pin the behaviour of each operation on it.
 */
module Scenarios {
  import opened Wrappers
  import opened Reflection
  import opened ValueClasses

  const IntClass := KClass("kotlin.Int")
  const Meters := KClass("Meters")
  const Squared := KClass("Squared")
  const Broken := KClass("Broken")

  /** The isValue answers of the example universe, with `failure` raised for `Broken`. */
  function ExampleIsValue(failure: Throwable): KClass -> IsValueOutcome
  {
    k => if k == Meters || k == Squared then Answered(true)
         else if k == Broken then Threw(failure)
         else Answered(false)
  }

  function ExampleProperties(k: KClass): seq<Property>
  {
    if k == Meters then [Property("asCentimeters", false, IntClass), Property("value", true, IntClass)]
    else if k == Squared then [Property("side", true, Meters)]
    else if k == Broken then [Property("raw", true, IntClass)]
    else []
  }

  function Example(failure: Throwable): Universe
  {
    Universe(ExampleIsValue(failure), ExampleProperties)
  }

  function FortyTwo(): Value { Leaf(IntClass, 42) }
  function MetersOf(n: Option<Value>): Value { Obj(Meters, map["value" := n]) }
  function SquaredOf(m: Option<Value>): Value { Obj(Squared, map["side" := m]) }

  /** Each of the three failures of `isValue` reads as "not a value class", and `Broken` is then left as it is. */
  lemma {:induction false} FailingQueryIsNotValue(failure: Throwable)
    requires failure == KotlinReflectionInternalError || failure.UnsupportedOperationException? ||
             failure == AbstractMethodError
    ensures !IsValueSafe(Example(failure), Broken)
    ensures var b := Obj(Broken, map["raw" := Some(FortyTwo())]);
      WellTyped(Example(failure), b) && BoxedValue(Example(failure), b) == Some(b)
  {
  }

  /** `Meters(42)` unwraps to `42`; `Meters`'s backing property is its first property with a backing field. */
  lemma {:induction false} MetersUnwraps()
    ensures var u := Example(KotlinReflectionInternalError);
      IsValueSafe(u, Meters) && !u.declaredMemberProperties(Meters)[0].hasBackingField &&
      u.declaredMemberProperties(Meters)[1].hasBackingField &&
      BoxedProperty(u, Meters) == Success(Property("value", true, IntClass)) &&
      WellTyped(u, MetersOf(Some(FortyTwo()))) &&
      BoxedValue(u, MetersOf(Some(FortyTwo()))) == Some(FortyTwo())
  {
  }

  /**
   * `Squared(Meters(42))` unwraps all the way to `42`, not to `Meters(42)`: `boxedValue` is
   * transitive. A `null` inside gives `null`. `boxedClass` of `Squared` stops at `Meters`,
   * itself a value class.
   */
  lemma {:induction false} NestedUnwrapsFully()
    ensures var u := Example(KotlinReflectionInternalError);
      var nested := SquaredOf(Some(MetersOf(Some(FortyTwo()))));
      WellTyped(u, nested) &&
      BoxedValue(u, nested) == Some(FortyTwo()) &&
      BoxedValue(u, nested) != Some(MetersOf(Some(FortyTwo()))) &&
      WellTyped(u, SquaredOf(Some(MetersOf(None)))) &&
      BoxedValue(u, SquaredOf(Some(MetersOf(None)))) == None &&
      u.declaredMemberProperties(Squared)[0].hasBackingField &&
      BoxedClass(u, Squared) == Meters && IsValueSafe(u, BoxedClass(u, Squared)) &&
      BoxedClass(u, IntClass) == IntClass
  {
    var u := Example(KotlinReflectionInternalError);
    MetersUnwraps();
    assert u.declaredMemberProperties(Squared)[0].hasBackingField;
    assert BackingProperty(u, Squared) == Property("side", true, Meters);
    var m := MetersOf(Some(FortyTwo()));
    assert WellTyped(u, SquaredOf(Some(m)));
    assert BoxedValue(u, SquaredOf(Some(m))) == BoxedValue(u, m);
    assert WellTyped(u, MetersOf(None));
    assert WellTyped(u, SquaredOf(Some(MetersOf(None))));
  }

  /**
   * A method whose Kotlin return type is `Squared` unwraps a `Squared` result fully; one declared
   * as `Meters`, as a type parameter, or with no Kotlin function leaves it as it is.
   */
  lemma {:induction false} ReturnTypeGatesUnwrap()
    ensures var u := Example(KotlinReflectionInternalError);
      var nested := SquaredOf(Some(MetersOf(Some(FortyTwo()))));
      WellTyped(u, nested) &&
      MaybeUnboxValueForMethodReturn(u, nested, Method("area", Some(KFunction(Some(ClassClassifier(Squared)))))) ==
        Some(FortyTwo()) &&
      MaybeUnboxValueForMethodReturn(u, nested, Method("side", Some(KFunction(Some(ClassClassifier(Meters)))))) ==
        Some(nested) &&
      MaybeUnboxValueForMethodReturn(u, nested, Method("get", Some(KFunction(Some(TypeParameterClassifier("T")))))) ==
        Some(nested) &&
      MaybeUnboxValueForMethodReturn(u, nested, Method("bridge", None)) == Some(nested)
  {
    NestedUnwrapsFully();
  }
}
