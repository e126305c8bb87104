/** The error taxonomy of the result protocol: a closed enumeration of error
    kinds and an immutable error record built through one factory per kind. */
module Errors {

  /** The closed set of error kinds; the HTTP mapping is total over it. */
  datatype ErrorType = Validation | NotFound | Conflict | Unauthorized | Unexpected

  /** Every error kind, each listed once. */
  const AllTypes: seq<ErrorType> := [Validation, NotFound, Conflict, Unauthorized, Unexpected]

  /** There are exactly five kinds, pairwise distinct, and every kind is one of them. */
  lemma AllTypesClosed()
    ensures |AllTypes| == 5
    ensures forall i, j :: 0 <= i < j < |AllTypes| ==> AllTypes[i] != AllTypes[j]
    ensures forall t: ErrorType :: t in AllTypes
  {
    forall t: ErrorType ensures t in AllTypes {
      match t
      case Validation => assert AllTypes[0] == t;
      case NotFound => assert AllTypes[1] == t;
      case Conflict => assert AllTypes[2] == t;
      case Unauthorized => assert AllTypes[3] == t;
      case Unexpected => assert AllTypes[4] == t;
    }
  }

  /** An error record: equality is structural over all three fields. */
  datatype Error = Error(code: string, message: string, kind: ErrorType) {

    static function Validation(code: string, message: string): (e: Error)
      ensures e.kind == ErrorType.Validation && e.code == code && e.message == message
    {
      Error(code, message, ErrorType.Validation)
    }

    static function NotFound(code: string, message: string): (e: Error)
      ensures e.kind == ErrorType.NotFound && e.code == code && e.message == message
    {
      Error(code, message, ErrorType.NotFound)
    }

    static function Conflict(code: string, message: string): (e: Error)
      ensures e.kind == ErrorType.Conflict && e.code == code && e.message == message
    {
      Error(code, message, ErrorType.Conflict)
    }

    static function Unauthorized(code: string, message: string): (e: Error)
      ensures e.kind == ErrorType.Unauthorized && e.code == code && e.message == message
    {
      Error(code, message, ErrorType.Unauthorized)
    }

    static function Unexpected(code: string, message: string): (e: Error)
      ensures e.kind == ErrorType.Unexpected && e.code == code && e.message == message
    {
      Error(code, message, ErrorType.Unexpected)
    }
  }

  /** The factory for a given kind, as a single reference definition. */
  function Make(kind: ErrorType, code: string, message: string): (e: Error)
    ensures e.kind == kind && e.code == code && e.message == message
  {
    match kind
    case Validation => Error.Validation(code, message)
    case NotFound => Error.NotFound(code, message)
    case Conflict => Error.Conflict(code, message)
    case Unauthorized => Error.Unauthorized(code, message)
    case Unexpected => Error.Unexpected(code, message)
  }

  /** Two errors are equal exactly when code, message and kind all agree. */
  lemma StructuralEquality(a: Error, b: Error)
    ensures a == b <==> (a.code == b.code && a.message == b.message && a.kind == b.kind)
  {
  }

  /** Errors from factories of different kinds are never equal, whatever their
      code and message; errors from the same factory are equal exactly when
      their code and message are. */
  lemma FactoriesDistinguishKinds(k1: ErrorType, c1: string, m1: string,
                                  k2: ErrorType, c2: string, m2: string)
    ensures Make(k1, c1, m1) == Make(k2, c2, m2) <==> (k1 == k2 && c1 == c2 && m1 == m2)
  {
  }
}
