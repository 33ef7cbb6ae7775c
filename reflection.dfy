/**
 * The abstract type universe that Kotlin reflection exposes to the value-class
 * support code: class handles, their declared member properties, the (unreliable)
 * `KClass.isValue` query, runtime instances and the Kotlin view of a JVM method.
 */
module Reflection {
  import opened Wrappers

  /** A runtime class handle (`KClass<*>`); handles are compared by identity, which `name` stands for. */
  datatype KClass = KClass(name: string)

  /** How a class handle is rendered in a message; the model fixes one rendering, `class <name>`. */
  function ClassToString(k: KClass): string
  {
    "class " + k.name
  }

  /** The throwables the code under study raises or catches. */
  datatype Throwable =
    | KotlinReflectionInternalError
    | UnsupportedOperationException(message: string)
    | AbstractMethodError

  /** What calling `KClass.isValue` on one class does: it answers, or it throws. */
  datatype IsValueOutcome = Answered(isValue: bool) | Threw(failure: Throwable)

  /**
   * A declared member property (`KProperty1`): its name, whether it has a JVM backing
   * field (`javaField != null`), and the classifier of its declared return type.
   */
  datatype Property = Property(name: string, hasBackingField: bool, classifier: KClass)

  /**
   * The reflective facts of the program's type universe:
   * the answer of `isValue` per class and the `declaredMemberProperties` per class, in the order `declaredMemberProperties` returns them.
   */
  datatype Universe = Universe(
    isValue: KClass -> IsValueOutcome,
    declaredMemberProperties: KClass -> seq<Property>)

  /**
   * A non-null runtime instance. A `Leaf` is an instance without reflective state that
   * matters here (a boxed number, a string, ...), told apart by its payload; an `Obj`
   * holds the values of its backing fields by property name, `None` being `null`.
   */
  datatype Value =
    | Leaf(cls: KClass, payload: int)
    | Obj(cls: KClass, fields: map<string, Option<Value>>)

  /** `KProperty1.get(instance)`: the value stored in the instance's backing field for `p`. */
  function Get(p: Property, v: Value): Option<Value>
    requires v.Obj? && p.name in v.fields
  {
    v.fields[p.name]
  }

  /** The classifier of a Kotlin type: a class or a type parameter. */
  datatype KClassifier = ClassClassifier(cls: KClass) | TypeParameterClassifier(name: string)

  /** A Kotlin function as seen by reflection: the classifier of its declared return type (`null` when absent). */
  datatype KFunction = KFunction(returnClassifier: Option<KClassifier>)

  /** A JVM method together with `Method.kotlinFunction`, which is `null` for synthetic and bridge methods. */
  datatype Method = Method(name: string, kotlinFunction: Option<KFunction>)
}
