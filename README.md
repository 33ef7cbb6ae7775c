# Value-class unboxing in MockK, modelled in Dafny

MockK's `ValueClassSupport` object decides how to see through Kotlin `value class`
instances. It classifies a class as a value class, tolerating reflective failures
(`isValue_safe`). It finds and memoises the single backing property of a value class
(`boxedProperty`, `valueClassFieldCache`). It unwraps a value all the way down to a
non-value-class value (`boxedValue`), or a class by one level (`boxedClass`). Finally it
unwraps a mocked method's result only when the method's declared Kotlin return type is
the runtime class of that result (`maybeUnboxValueForMethodReturn`).

The model replaces Kotlin reflection with an explicit type universe, in `reflection.dfy`:
- a `Universe` gives, per class, the outcome of the `isValue` query (an answer or one of
  the three throwables the code catches) and its declared member properties in
  the order `declaredMemberProperties` returns them;
- a `Property` records its name, whether it has a JVM backing field, and the classifier
  of its declared type;
- an instance is an `Obj` holding its backing-field values by property name (`None` is
  `null`), or a `Leaf` such as a boxed `Int`;
- a `Method` carries its optional `kotlinFunction` and that function's return classifier,
  which may be a class or a type parameter.

`value_classes.dfy` (module `ValueClasses`) holds the expression-only logic as functions
and lemmas. `WellTyped` states what the JVM guarantees of an instance: an instance of a
class classified as a value class stores a value for that class's backing property.
`value_class_support.dfy` (module `ValueClassSupport`) holds the object's mutable
`valueClassFieldCache` in class `Support`. Its methods update the cache as
`boxedProperty`'s `getOrPut` does, and each is proved equal to the pure function. The
class invariant `Valid` says three things:
- only classes classified as value classes are keys;
- each key maps to the property a fresh lookup would pick;
- a ghost log of introspected classes equals the key set and has no repeats
  (`NoRepeats`, shown pairwise by `NoRepeatsDistinct`). Every method only appends to
  the log, so each class is introspected at most once over the
  object's lifetime.

`scenarios.dfy` pins everything on a concrete universe. `Meters` wraps an `Int`, and
`Squared` wraps a `Meters`.

The KDoc of `boxedValue` (ValueClassSupport.kt:43) says its result "might also be a
`value class`". The code, however, recurses into the backing value's own `boxedValue`
(line 50), so the unwrap is transitive and the model proves the result never is a
instance of a class that `isValue_safe` accepts (`ValueClasses.BoxedValue`).
`Scenarios.NestedUnwrapsFully` shows `Squared(Meters(42))` unwrapping to `42`, not to
`Meters(42)`. The KDoc's warning still holds in one case: a value class whose `isValue`
query throws reads as not a value class, so its instance is returned as itself
(`Scenarios.FailingQueryIsNotValue`).

## Model

| member | source | states |
|---|---|---|
| `ValueClasses.IsValueSafe` | modules/mockk-core/src/jvmMain/kotlin/io/mockk/core/ValueClassSupport.kt:88-97 | an answer of `isValue` is passed through; any of the three caught throwables gives false |
| `ValueClasses.FirstWithBackingFieldIndex` | modules/mockk-core/src/jvmMain/kotlin/io/mockk/core/ValueClassSupport.kt:79 | when some property has a backing field, the index found holds one, and no earlier property has one |
| `ValueClasses.BoxedProperty` | modules/mockk-core/src/jvmMain/kotlin/io/mockk/core/ValueClassSupport.kt:72-81 | fails with `UnsupportedOperationException` carrying "`<class>` is not a value class" exactly when the class is not safely a value class; otherwise returns the first declared property with a backing field |
| `ValueClasses.BoxedValue` | modules/mockk-core/src/jvmMain/kotlin/io/mockk/core/ValueClassSupport.kt:45-51 | a value whose class is not safely a value class is returned unchanged; any non-null result is never an instance of a class `isValue_safe` accepts (a value class whose `isValue` throws is returned as itself) and is well typed |
| `ValueClasses.UnwrapChain` | modules/mockk-core/src/jvmMain/kotlin/io/mockk/core/ValueClassSupport.kt:47-50 | the classes whose backing property the unwrap looks up are all safely value classes and resolvable; the value's own class is among them exactly when it is a value class |
| `ValueClasses.BoxedValueCollapses` | modules/mockk-core/src/jvmMain/kotlin/io/mockk/core/ValueClassSupport.kt:47-50 | for a value-class instance, a null backing value unwraps to null, and otherwise the instance unwraps to what its backing value unwraps to |
| `ValueClasses.BoxedValueIdempotent` | modules/mockk-core/src/jvmMain/kotlin/io/mockk/core/ValueClassSupport.kt:43-50 | unwrapping the result of an unwrap gives that result back |
| `ValueClasses.BoxedClass` | modules/mockk-core/src/jvmMain/kotlin/io/mockk/core/ValueClassSupport.kt:58-63 | a class that is not safely a value class maps to itself; a value class maps to the declared classifier of its first backing-field property, one level only |
| `ValueClasses.MaybeUnboxValueForMethodReturn` | modules/mockk-core/src/jvmMain/kotlin/io/mockk/core/ValueClassSupport.kt:21-38 | the value comes back unchanged when its class is not a value class, when the method has no Kotlin function, or when the declared return classifier is not its class; when all three hold it is the full unwrap; a changed result is never an instance of a class `isValue_safe` accepts |
| `ValueClasses.UnwrapChainCollapses` | modules/mockk-core/src/jvmMain/kotlin/io/mockk/core/ValueClassSupport.kt:47-50 | the value classes looked up while unwrapping an instance are its own class plus, when the backing value is not null, those looked up while unwrapping that value |
| `ValueClassSupport.NoRepeatsDistinct` | modules/mockk-core/src/jvmMain/kotlin/io/mockk/core/ValueClassSupport.kt:77-80 | a log free of repeats, as the cache invariant keeps the introspection log, holds distinct classes at distinct positions: no class is introspected twice |
| `ValueClassSupport.Support.constructor` | modules/mockk-core/src/jvmMain/kotlin/io/mockk/core/ValueClassSupport.kt:65 | the cache starts empty, nothing has been introspected, and the cache invariant holds |
| `ValueClassSupport.Support.BoxedProperty` | modules/mockk-core/src/jvmMain/kotlin/io/mockk/core/ValueClassSupport.kt:72-81 | same result as the pure lookup; a non-value class leaves the cache untouched; a first lookup stores the class and introspects it once; a later lookup returns the stored property without introspecting; no other entry changes; the invariant is kept |
| `ValueClassSupport.Support.BoxedValue` | modules/mockk-core/src/jvmMain/kotlin/io/mockk/core/ValueClassSupport.kt:45-51 | same result as the pure unwrap; the cache gains exactly the value classes met along the chain, existing entries are unchanged, and the introspection log is only appended to |
| `ValueClassSupport.Support.BoxedClass` | modules/mockk-core/src/jvmMain/kotlin/io/mockk/core/ValueClassSupport.kt:58-63 | same result as the pure class unwrap; the cache gains the class's backing property only when the class is a value class, and the introspection log is only appended to |
| `ValueClassSupport.Support.MaybeUnboxValueForMethodReturn` | modules/mockk-core/src/jvmMain/kotlin/io/mockk/core/ValueClassSupport.kt:21-38 | same result as the pure gated unwrap; the cache changes only when the gate lets the unwrap happen, and then gains the chain's value classes; the introspection log is only appended to |
| `Scenarios.FailingQueryIsNotValue` | modules/mockk-core/src/jvmMain/kotlin/io/mockk/core/ValueClassSupport.kt:88-97 | for each of the three throwables raised by `isValue`, the class reads as not a value class, and its instance unwraps to itself |
| `Scenarios.MetersUnwraps` | modules/mockk-core/src/jvmMain/kotlin/io/mockk/core/ValueClassSupport.kt:45-81 | `Meters` is a value class whose backing property is its first one with a backing field, `value`, and `Meters(42)` unwraps to `42` |
| `Scenarios.NestedUnwrapsFully` | modules/mockk-core/src/jvmMain/kotlin/io/mockk/core/ValueClassSupport.kt:40-63 | `Squared(Meters(42))` unwraps to `42`, not to `Meters(42)`; a null inside gives null; `boxedClass(Squared)` is `Meters`, itself a value class; a plain class maps to itself |
| `Scenarios.ReturnTypeGatesUnwrap` | modules/mockk-core/src/jvmMain/kotlin/io/mockk/core/ValueClassSupport.kt:21-38 | a `Squared` result is fully unwrapped for a method declared to return `Squared`, and left unchanged for one declared to return `Meters`, for one returning a type parameter, and for one with no Kotlin function |

## Left out

- Kotlin and Java reflection (`KClass.isValue`, `declaredMemberProperties`, `javaField`, `KProperty1.get`, `Method.kotlinFunction`, `returnType.classifier`) is replaced by the explicit `Universe`, `Value` and `Method` data above.
- How `KClass.toString()` renders a class in the exception message is not modelled; the model renders a handle as `class <name>`.
- `isAccessible = true` on the selected property is a reflective side effect with no counterpart in the model.
- `IsValueSafe`: `isValue` is modelled as raising only the three throwables the code catches; any other throwable would propagate out of `isValue_safe` in Kotlin, and the model does not represent that.
- The `NoSuchElementException` that `first { ... }` raises for a value class without a backing-field property is excluded by a precondition (`Resolvable`, and `WellTyped` for instances), as the comment on line 78 assumes.
- The unchecked generic casts (lines 46 and 76) have no runtime effect and are not modelled; the cast `as KClass<*>` on line 62 is assumed to succeed, so a property's classifier is always a class.
- Thread safety: `valueClassFieldCache` is a plain `mutableMapOf`, so the model is single-threaded.
- `getOrPut` treats a stored `null` as missing; stored properties are never null, so the model takes a present key as a hit.
- Cyclic object graphs cannot be expressed, because `Value` is an inductive datatype. So the model does not represent a value class that wraps itself through its own field chain; the Kotlin recursion would not terminate on one.
- The `expect`/`actual` multiplatform declarations are not part of this model.
