/** The presentation adapter: turns a result into exactly one HTTP outcome,
    choosing the status from the kind of the first error. */
module ResultExtensions {
  import Errors
  import Results
  import UnitResults

  /** The code and message of one error, as written into a response body. */
  datatype ErrorDetail = ErrorDetail(code: string, message: string)

  /** The HTTP outcomes the adapter produces; only BadRequest, NotFound and
      Conflict carry error text, and Ok carries the success value. */
  datatype HttpResult<T> =
    | Ok(body: T)
    | NoContent
    | BadRequest(errors: seq<ErrorDetail>)
    | NotFound(code: string, message: string)
    | Conflict(code: string, message: string)
    | Unauthorized
    | InternalServerError

  /** The status code each outcome is sent with. */
  function StatusCode<T>(h: HttpResult<T>): int
  {
    match h
    case Ok(_) => 200
    case NoContent => 204
    case BadRequest(_) => 400
    case NotFound(_, _) => 404
    case Conflict(_, _) => 409
    case Unauthorized => 401
    case InternalServerError => 500
  }

  /** The status code intended for each error kind. */
  function StatusOf(kind: Errors.ErrorType): int
  {
    match kind
    case Validation => 400
    case NotFound => 404
    case Conflict => 409
    case Unauthorized => 401
    case Unexpected => 500
  }

  /** The projection of every error onto its code and message, in order. */
  function Details(errors: seq<Errors.Error>): (ds: seq<ErrorDetail>)
    ensures |ds| == |errors|
    ensures forall i :: 0 <= i < |errors| ==>
              ds[i].code == errors[i].code && ds[i].message == errors[i].message
  {
    if errors == [] then []
    else [ErrorDetail(errors[0].code, errors[0].message)] + Details(errors[1..])
  }

  /** The failure arm shared by both overloads: dispatch on the first error's kind. */
  function FailureResponse<T>(errors: seq<Errors.Error>): (h: HttpResult<T>)
    requires |errors| > 0
    ensures StatusCode(h) == StatusOf(errors[0].kind)
    ensures h.BadRequest? ==> h.errors == Details(errors)
    ensures h.NotFound? || h.Conflict? ==>
              h.code == errors[0].code && h.message == errors[0].message
  {
    match errors[0].kind
    case Validation => BadRequest(Details(errors))
    case NotFound => NotFound(errors[0].code, errors[0].message)
    case Conflict => Conflict(errors[0].code, errors[0].message)
    case Unauthorized => Unauthorized
    case Unexpected => InternalServerError
  }

  /** The value-carrying overload: 200 with the value, or the failure arm. */
  function ToHttpResult<T>(r: Results.Result<T>): (h: HttpResult<T>)
    requires r.Valid()
    ensures h.Ok? <==> r.IsSuccess()
    ensures r.IsSuccess() ==> h.body == r.Value() && StatusCode(h) == 200
    ensures r.IsFailure() ==> StatusCode(h) == StatusOf(r.FirstError().kind)
    ensures r.IsFailure() ==> h == FailureResponse(r.Errors())
  {
    r.Match(v => Ok(v), es requires |es| > 0 => FailureResponse(es))
  }

  /** The overload without a value: 204, or the failure arm. */
  function ToHttpResultUnit(r: UnitResults.Result): (h: HttpResult<()>)
    requires r.Valid()
    ensures h.NoContent? <==> r.IsSuccess()
    ensures r.IsFailure() ==> StatusCode(h) == StatusOf(r.FirstError().kind)
    ensures r.IsFailure() ==> h == FailureResponse(r.Errors())
  {
    r.Match(() => NoContent, es requires |es| > 0 => FailureResponse(es))
  }

  /** Distinct error kinds are sent with distinct status codes. */
  lemma StatusOfInjective(k1: Errors.ErrorType, k2: Errors.ErrorType)
    ensures StatusOf(k1) == StatusOf(k2) <==> k1 == k2
  {
  }

  /** Only the first error's kind chooses the status; the kinds of later errors
      are ignored. */
  lemma FirstKindDecidesStatus<T>(es1: seq<Errors.Error>, es2: seq<Errors.Error>)
    requires |es1| > 0 && |es2| > 0
    ensures StatusCode(FailureResponse<T>(es1)) == StatusCode(FailureResponse<T>(es2))
            <==> es1[0].kind == es2[0].kind
  {
    StatusOfInjective(es1[0].kind, es2[0].kind);
  }

  /** Outside Validation, the whole outcome depends on the first error alone. */
  lemma FirstErrorDecides<T>(es1: seq<Errors.Error>, es2: seq<Errors.Error>)
    requires |es1| > 0 && |es2| > 0 && es1[0] == es2[0]
    requires es1[0].kind != Errors.ErrorType.Validation
    ensures FailureResponse<T>(es1) == FailureResponse<T>(es2)
  {
  }

  /** A Validation failure is a 400 whose body lists the code and message of
      every error, in the original order. */
  lemma ValidationListsEveryError<T>(es: seq<Errors.Error>)
    requires |es| > 0 && es[0].kind == Errors.ErrorType.Validation
    ensures var h := FailureResponse<T>(es);
      && h.BadRequest? && |h.errors| == |es|
      && forall i :: 0 <= i < |es| ==> h.errors[i] == ErrorDetail(es[i].code, es[i].message)
  {
  }

  /** Every piece of message text an outcome carries, in body order. */
  function Messages<T>(h: HttpResult<T>): seq<string>
  {
    match h
    case BadRequest(ds) => seq(|ds|, i requires 0 <= i < |ds| => ds[i].message)
    case NotFound(_, m) => [m]
    case Conflict(_, m) => [m]
    case _ => []
  }

  /** A failure response carries only messages taken from its errors, and 401
      and 500 responses carry none. */
  lemma ResponseTextComesFromErrors<T>(es: seq<Errors.Error>)
    requires |es| > 0
    ensures forall m :: m in Messages(FailureResponse<T>(es)) ==> exists e :: e in es && e.message == m
    ensures es[0].kind in {Errors.ErrorType.Unauthorized, Errors.ErrorType.Unexpected} ==>
              Messages(FailureResponse<T>(es)) == []
  {
    var h := FailureResponse<T>(es);
    forall m | m in Messages(h) ensures exists e :: e in es && e.message == m {
      var i :| 0 <= i < |Messages(h)| && Messages(h)[i] == m;
      if h.BadRequest? {
        assert es[i] in es && es[i].message == m;
      } else {
        assert es[0] in es && es[0].message == m;
      }
    }
  }

  /** Both overloads give the same outcome for the same failing error list. */
  lemma OverloadsAgree(es: seq<Errors.Error>)
    requires |es| > 0
    ensures ToHttpResult(Results.Result<()>.Failure(es)) == ToHttpResultUnit(UnitResults.Result.Failure(es))
  {
  }
}
