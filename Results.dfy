/** The value-carrying result container: either a success holding a value or
    a failure holding the list of errors that caused it. */
module Results {
  import opened Errors

  datatype Result<T> = Success(value: T) | Failure(errors: seq<Error>) {

    /** Holds exactly on a result built by Success; every other result is
        built by Failure. */
    predicate IsSuccess()
      ensures Success? ==> IsSuccess()
      ensures Failure? ==> !IsSuccess()
    {
      Success?
    }

    /** Defined as the negation of IsSuccess, so exactly one of the two holds. */
    predicate IsFailure()
      ensures IsFailure() <==> !IsSuccess()
    {
      !IsSuccess()
    }

    /** The protocol's intended well-formedness: a failure carries at least one
        error. The constructors do not enforce it. */
    predicate Valid()
      ensures Valid() <==> IsSuccess() || |errors| > 0
    {
      Failure? ==> |errors| > 0
    }

    /** The success value; reading it on a failure is a contract violation. */
    function Value(): (v: T)
      requires IsSuccess()
      ensures this == Success(v)
    {
      value
    }

    /** The error list; reading it on a success is a contract violation. */
    function Errors(): (es: seq<Error>)
      requires IsFailure()
      ensures this == Failure(es)
    {
      errors
    }

    /** The first error, which exists only on a failure with a non-empty list. */
    function FirstError(): (e: Error)
      requires IsFailure() && |Errors()| > 0
      ensures e == Errors()[0]
    {
      Errors()[0]
    }

    /** A failure holding exactly the one given error. */
    static function FailureOf(error: Error): (r: Result<T>)
      ensures r.IsFailure() && r.Errors() == [error]
      ensures r.Valid() && r.FirstError() == error
    {
      Failure([error])
    }

    /** The implicit conversion from a bare value. */
    static function FromValue(v: T): (r: Result<T>)
      ensures r.IsSuccess() && r.Value() == v
    {
      Success(v)
    }

    /** The implicit conversion from a single error. */
    static function FromError(error: Error): (r: Result<T>)
      ensures r.IsFailure() && r.Errors() == [error]
    {
      FailureOf(error)
    }

    /** Exhaustive consumption: exactly one of the two handlers decides the
        result, and only that one needs to be defined on what it receives. */
    function Match<R>(onSuccess: T --> R, onFailure: seq<Error> --> R): (x: R)
      requires IsSuccess() ==> onSuccess.requires(value)
      requires IsFailure() ==> onFailure.requires(errors)
      ensures IsSuccess() ==> x == onSuccess(Value())
      ensures IsFailure() ==> x == onFailure(Errors())
    {
      if IsSuccess() then onSuccess(value) else onFailure(errors)
    }

    /** Applies transform to a success value; a failure is passed on with its
        original error list, and the transform need not be defined anywhere. */
    function Map<U>(transform: T --> U): (r: Result<U>)
      requires IsSuccess() ==> transform.requires(value)
      ensures r.IsSuccess() <==> IsSuccess()
      ensures IsSuccess() ==> r.Value() == transform(Value())
      ensures IsFailure() ==> r.Errors() == Errors()
    {
      if IsSuccess() then Result<U>.Success(transform(value)) else Result<U>.Failure(errors)
    }

    /** Chains a fallible step: on success the step's result, on failure the
        original error list, without consulting the step. */
    function Then<U>(next: T --> Result<U>): (r: Result<U>)
      requires IsSuccess() ==> next.requires(value)
      ensures IsSuccess() ==> r == next(Value())
      ensures IsFailure() ==> r.IsFailure() && r.Errors() == Errors()
    {
      if IsSuccess() then next(value) else Result<U>.Failure(errors)
    }
  }

  /** On a failure, Map does not depend on the transform, which is never
      applied: it may be defined on no value at all. */
  lemma MapIgnoresTransformOnFailure<T, U>(r: Result<T>, f: T --> U, g: T --> U)
    requires r.IsFailure()
    ensures r.Map(f) == r.Map(g) == Failure(r.Errors())
  {
  }

  /** Mapping the identity gives back the same result. */
  lemma MapIdentity<T>(r: Result<T>)
    ensures r.Map(x => x) == r
  {
  }

  /** Mapping twice is mapping the composition once. */
  lemma MapComposition<T, U, V>(r: Result<T>, f: T -> U, g: U -> V)
    ensures r.Map(f).Map(g) == r.Map(x => g(f(x)))
  {
  }

  /** Map keeps the protocol's well-formedness. */
  lemma MapPreservesValid<T, U>(r: Result<T>, f: T -> U)
    requires r.Valid()
    ensures r.Map(f).Valid()
  {
  }

  /** On a failure, Then does not depend on the next step, which is never
      applied: it may be defined on no value at all. */
  lemma ThenIgnoresNextOnFailure<T, U>(r: Result<T>, f: T --> Result<U>, g: T --> Result<U>)
    requires r.IsFailure()
    ensures r.Then(f) == r.Then(g) == Failure(r.Errors())
  {
  }

  /** Success is a left identity of Then. */
  lemma ThenLeftIdentity<T, U>(v: T, f: T -> Result<U>)
    ensures Result<T>.Success(v).Then(f) == f(v)
  {
  }

  /** Success is a right identity of Then. */
  lemma ThenRightIdentity<T>(r: Result<T>)
    ensures r.Then(x => Result<T>.Success(x)) == r
  {
  }

  /** Chaining is associative, so a pipeline can be regrouped freely. */
  lemma ThenAssociative<T, U, V>(r: Result<T>, f: T -> Result<U>, g: U -> Result<V>)
    ensures r.Then(f).Then(g) == r.Then(x => f(x).Then(g))
  {
  }

  /** Map is Then with a step that always succeeds. */
  lemma MapIsThenSuccess<T, U>(r: Result<T>, f: T -> U)
    ensures r.Map(f) == r.Then(x => Result<U>.Success(f(x)))
  {
  }

  /** Then keeps well-formedness when every step it may call does. */
  lemma ThenPreservesValid<T, U>(r: Result<T>, f: T -> Result<U>)
    requires r.Valid()
    requires forall x :: f(x).Valid()
    ensures r.Then(f).Valid()
  {
  }
}

/** The result container for operations that produce no value. */
module UnitResults {
  import opened Errors

  datatype Result = Success | Failure(errors: seq<Error>) {

    /** Holds exactly on the result built by Success. */
    predicate IsSuccess()
      ensures IsSuccess() <==> this == Success
    {
      Success?
    }

    /** Defined as the negation of IsSuccess, so exactly one of the two holds. */
    predicate IsFailure()
      ensures IsFailure() <==> !IsSuccess()
    {
      !IsSuccess()
    }

    /** A failure carries at least one error (not enforced by the constructors). */
    predicate Valid()
      ensures Valid() <==> IsSuccess() || |errors| > 0
    {
      Failure? ==> |errors| > 0
    }

    /** The error list; reading it on a success is a contract violation. */
    function Errors(): (es: seq<Error>)
      requires IsFailure()
      ensures this == Failure(es)
    {
      errors
    }

    /** The first error, which exists only on a failure with a non-empty list. */
    function FirstError(): (e: Error)
      requires IsFailure() && |Errors()| > 0
      ensures e == Errors()[0]
    {
      Errors()[0]
    }

    /** A failure holding exactly the one given error. */
    static function FailureOf(error: Error): (r: Result)
      ensures r.IsFailure() && r.Errors() == [error]
      ensures r.Valid() && r.FirstError() == error
    {
      Failure([error])
    }

    /** The implicit conversion from a single error. */
    static function FromError(error: Error): (r: Result)
      ensures r.IsFailure() && r.Errors() == [error]
    {
      FailureOf(error)
    }

    /** Exhaustive consumption: exactly one of the two handlers decides the
        result, and only that one needs to be defined on what it receives. */
    function Match<R>(onSuccess: () --> R, onFailure: seq<Error> --> R): (x: R)
      requires IsSuccess() ==> onSuccess.requires()
      requires IsFailure() ==> onFailure.requires(errors)
      ensures IsSuccess() ==> x == onSuccess()
      ensures IsFailure() ==> x == onFailure(Errors())
    {
      if IsSuccess() then onSuccess() else onFailure(errors)
    }
  }
}
