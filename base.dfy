/** Values shared by every part of the model: optional values, the JVM's
    three families of throwables, and the outcome of a call that either
    returns or throws. */
module Base {

  datatype Option<+T> = None | Some(value: T)

  /** Which catch clause a throwable can reach: `catch (RuntimeException e)`
      sees only the first family, `catch (Exception e)` the first two, and
      nothing but `finally` sees an `Error`. */
  datatype ThrowableClass = RuntimeExceptionClass | CheckedExceptionClass | ErrorClass

  /** A thrown object, identified by its family and a description. Rethrowing
      "the same" throwable means returning this very value. */
  datatype Thrown = Thrown(family: ThrowableClass, description: string) {
    predicate IsRuntimeException() { family == RuntimeExceptionClass }
    predicate IsException() { family != ErrorClass }
  }

  /** The result of a call: the value it returned, or what it threw. */
  datatype Outcome<+R> = Ok(value: R) | Err(thrown: Thrown)

  /** `args[0]` on an empty argument array. */
  const ArrayIndexOutOfBounds: Thrown := Thrown(RuntimeExceptionClass, "ArrayIndexOutOfBoundsException")

  /** `List.get(0)` on an empty list. */
  const IndexOutOfBounds: Thrown := Thrown(RuntimeExceptionClass, "IndexOutOfBoundsException")

  /** A reference cast to a class the object does not belong to. */
  const ClassCast: Thrown := Thrown(RuntimeExceptionClass, "ClassCastException")

  /** Java's `String.startsWith`. */
  predicate StartsWith(s: string, prefix: string) {
    prefix <= s
  }
}
