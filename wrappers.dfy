/** Option and Result, the failure-compatible wrappers used throughout the model. */
module Wrappers {

  /** A Java reference that may be null: None stands for null. */
  datatype Option<+T> = None | Some(value: T)

  /** The outcome of a Java call that may throw. */
  datatype Result<+T, +E> = Ok(value: T) | Err(error: E) {

    predicate IsFailure() {
      Err?
    }

    function PropagateFailure<U>(): Result<U, E>
      requires Err?
    {
      Err(error)
    }

    function Extract(): T
      requires Ok?
    {
      value
    }
  }
}

/** The few pieces of the Java runtime that the instrumentation touches. */
module JavaLang {
  import opened Wrappers

  /** The runtime exceptions the instrumentation code can raise by itself. */
  datatype Failure = NullPointerException | ArrayIndexOutOfBoundsException

  /** A java.lang.Class, known by getSimpleName() and getName(). */
  datatype JavaClass = JavaClass(simpleName: string, name: string)

  /** An arbitrary payload object, known only by its runtime class. */
  datatype JavaObject = JavaObject(javaClass: JavaClass)

  /** Dereferencing a reference: a null reference throws NullPointerException. */
  function Deref<T>(reference: Option<T>): (r: Result<T, Failure>)
    ensures r.Ok? <==> reference.Some?
    ensures r.Ok? ==> r.value == reference.value
    ensures r.Err? ==> r.error == NullPointerException
  {
    match reference
    case None => Err(NullPointerException)
    case Some(v) => Ok(v)
  }

  /** `o.getClass().getSimpleName()` */
  function SimpleClassName(o: Option<JavaObject>): (r: Result<string, Failure>)
    ensures r.Ok? <==> o.Some?
    ensures r.Ok? ==> r.value == o.value.javaClass.simpleName
  {
    var obj :- Deref(o);
    Ok(obj.javaClass.simpleName)
  }
}
