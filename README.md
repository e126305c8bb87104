# N10 result protocol, HTTP outcome mapping and read-model mappings in Dafny

This project models the error-propagation protocol of the N10 books service
and the pure code around it:

- `Errors` — the closed `ErrorType` enumeration (Validation, NotFound,
  Conflict, Unauthorized, Unexpected) and the `Error` record with its five
  factories.
- `Results` — the value-carrying `Result<T>`: a success holding a value or a
  failure holding an ordered list of errors, with the guarded accessors
  (`Value`, `Errors`, `FirstError`), the implicit conversions, and the
  combinators `Match`, `Map` and `Then`. Each accessor that throws on the
  wrong case has that case excluded by its `requires`.
- `UnitResults` — the non-generic `Result` for operations without a value.
- `ResultExtensions` — both `ToHttpResult` overloads as pure functions from a
  result to one HTTP outcome (200 Ok with the value, 204 NoContent, 400
  BadRequest with every error's code and message, 404 NotFound and 409
  Conflict with the first error's code and message, 401 Unauthorized and 500
  InternalServerError without a body).
- `Entities`, `Models`, `AuthorMappings`, `BookMappings` — the book and author
  entities (only the fields the mappings read), their read models, the two
  `ToModel` copies, and the element-wise mapping of a book collection that
  the books service applies before caching.

No member of the core has a loop or reassigns a field after construction:
the result and error types are built once by their constructors and factories,
and the mappings build one new object from their input. Every member is
therefore a function over datatypes and every property is an `ensures` clause
or a lemma. The error list is modelled as a value, not as the shared mutable
`List<Error>` the C# stores and hands out (see "Left out"). C# delegates
(`Func<…>`) are Dafny partial arrows (`-->`): `Match`, `Map` and `Then` require
only that the delegate they actually apply is defined on what it receives, so
"a failure never invokes the transform" is the statement that `Map` and `Then`
on a failure accept a transform defined on no value at all.

The protocol's intended invariant that a failure carries at least one error
is not enforced by the constructors (`Failure(List<Error>)` accepts an empty
list). The model records it as the predicate `Valid()`, proves that
`FailureOf`, `Map` and `Then` keep it, and requires it where the code reads
`errors[0]` (`FirstError`, the HTTP mapping), since the code throws there on
an empty list.

## Model

| member | source | states |
|---|---|---|
| `Errors.AllTypesClosed` | src/N10.Services/Results/Error.cs:3-10 | there are exactly five error kinds, pairwise distinct, and every kind is one of them |
| `Errors.Error.Validation` | src/N10.Services/Results/Error.cs:14 | the Validation factory yields kind Validation and copies code and message unchanged |
| `Errors.Error.NotFound` | src/N10.Services/Results/Error.cs:15 | the NotFound factory yields kind NotFound and copies code and message unchanged |
| `Errors.Error.Conflict` | src/N10.Services/Results/Error.cs:16 | the Conflict factory yields kind Conflict and copies code and message unchanged |
| `Errors.Error.Unauthorized` | src/N10.Services/Results/Error.cs:17 | the Unauthorized factory yields kind Unauthorized and copies code and message unchanged |
| `Errors.Error.Unexpected` | src/N10.Services/Results/Error.cs:18 | the Unexpected factory yields kind Unexpected and copies code and message unchanged |
| `Errors.Make` | src/N10.Services/Results/Error.cs:14-18 | choosing the factory by kind gives an error of that kind with the given code and message |
| `Errors.StructuralEquality` | src/N10.Services/Results/Error.cs:12 | two errors are equal exactly when code, message and kind all agree |
| `Errors.FactoriesDistinguishKinds` | src/N10.Services/Results/Error.cs:12-18 | errors from different factories are never equal even with the same code and message; from the same factory they are equal exactly when code and message are |
| `Results.Result.IsSuccess` | src/N10.Services/Results/Result.cs:8-20 | holds on every result built by Success and on none built by Failure |
| `Results.Result.Valid` | src/N10.Services/Results/Result.cs:14-18 | a failure carries at least one error; the constructors do not enforce it |
| `Results.Result.IsFailure` | src/N10.Services/Results/Result.cs:20-21 | exactly one of IsSuccess and IsFailure holds |
| `Results.Result.Value` | src/N10.Services/Results/Result.cs:23-25 | readable only on a success, and gives the value the success holds |
| `Results.Result.Errors` | src/N10.Services/Results/Result.cs:27-29 | readable only on a failure, and gives exactly the list the failure was built with |
| `Results.Result.FirstError` | src/N10.Services/Results/Result.cs:31 | needs a failure with a non-empty list, and gives the element at index 0 of that list |
| `Results.Result.FailureOf` | src/N10.Services/Results/Result.cs:34 | a failure whose error list is exactly the one given error, which is then its first error |
| `Results.Result.FromValue` | src/N10.Services/Results/Result.cs:37 | converting a bare value gives a success whose Value is that value |
| `Results.Result.FromError` | src/N10.Services/Results/Result.cs:38 | converting a single error gives a failure whose error list is exactly that error |
| `Results.Result.Match` | src/N10.Services/Results/Result.cs:40-41 | on a success the success handler of the value decides the result, on a failure the failure handler of the error list; only the handler applied must be defined on its argument |
| `Results.Result.Map` | src/N10.Services/Results/Result.cs:43-44 | preserves success/failure status; a success becomes the success of the transformed value; a failure keeps its error list and needs no transform defined on anything |
| `Results.Result.Then` | src/N10.Services/Results/Result.cs:46-47 | on a success the result is the next step applied to the value; on a failure a failure with the same error list, needing no step defined on anything |
| `Results.MapIgnoresTransformOnFailure` | src/N10.Services/Results/Result.cs:43-44 | on a failure Map gives the same failure for every transform, even one defined on no value |
| `Results.MapIdentity` | src/N10.Services/Results/Result.cs:43-44 | mapping the identity gives back the same result |
| `Results.MapComposition` | src/N10.Services/Results/Result.cs:43-44 | mapping f then g equals mapping their composition |
| `Results.MapPreservesValid` | src/N10.Services/Results/Result.cs:43-44 | Map of a failure with at least one error still has at least one error |
| `Results.ThenIgnoresNextOnFailure` | src/N10.Services/Results/Result.cs:46-47 | on a failure Then gives the same failure for every next step, even one defined on no value |
| `Results.ThenLeftIdentity` | src/N10.Services/Results/Result.cs:46-47 | Success(v).Then(f) equals f(v) |
| `Results.ThenRightIdentity` | src/N10.Services/Results/Result.cs:46-47 | r.Then(Success) equals r |
| `Results.ThenAssociative` | src/N10.Services/Results/Result.cs:46-47 | chaining f then g equals chaining the composed step, so pipelines regroup freely |
| `Results.MapIsThenSuccess` | src/N10.Services/Results/Result.cs:43-47 | Map(f) equals Then with the step that wraps f's value in a success |
| `Results.ThenPreservesValid` | src/N10.Services/Results/Result.cs:46-47 | Then keeps "a failure has at least one error" when every step it may call does |
| `UnitResults.Result.IsSuccess` | src/N10.Services/Results/Result.cs:55-62 | holds on the result built by Success and on none built by Failure |
| `UnitResults.Result.Valid` | src/N10.Services/Results/Result.cs:56-60 | a failure carries at least one error; the constructors do not enforce it |
| `UnitResults.Result.IsFailure` | src/N10.Services/Results/Result.cs:62-63 | exactly one of IsSuccess and IsFailure holds |
| `UnitResults.Result.Errors` | src/N10.Services/Results/Result.cs:65-67 | readable only on a failure, and gives exactly the list the failure was built with |
| `UnitResults.Result.FirstError` | src/N10.Services/Results/Result.cs:69 | needs a failure with a non-empty list, and gives the element at index 0 |
| `UnitResults.Result.FailureOf` | src/N10.Services/Results/Result.cs:72 | a failure whose error list is exactly the one given error |
| `UnitResults.Result.FromError` | src/N10.Services/Results/Result.cs:75 | converting a single error gives a failure whose error list is exactly that error |
| `UnitResults.Result.Match` | src/N10.Services/Results/Result.cs:77-78 | on a success the success handler decides the result, on a failure the failure handler of the error list |
| `ResultExtensions.Details` | src/N10.WebApi/Extensions/ResultExtensions.cs:14 | the projection keeps one entry per error, in order, with that error's code and message |
| `ResultExtensions.FailureResponse` | src/N10.WebApi/Extensions/ResultExtensions.cs:11-21 | the status is the one intended for the first error's kind; a 400 body lists all errors; 404 and 409 carry the first error's code and message |
| `ResultExtensions.ToHttpResult` | src/N10.WebApi/Extensions/ResultExtensions.cs:8-22 | Ok (200) with the value exactly on success; on failure the status intended for the first error's kind |
| `ResultExtensions.ToHttpResultUnit` | src/N10.WebApi/Extensions/ResultExtensions.cs:24-38 | NoContent (204) exactly on success; on failure the status intended for the first error's kind |
| `ResultExtensions.StatusOfInjective` | src/N10.WebApi/Extensions/ResultExtensions.cs:13-20 | every error kind yields one status and distinct kinds yield distinct statuses |
| `ResultExtensions.FirstKindDecidesStatus` | src/N10.WebApi/Extensions/ResultExtensions.cs:11 | two failing lists get the same status exactly when their first errors have the same kind; later kinds are ignored |
| `ResultExtensions.FirstErrorDecides` | src/N10.WebApi/Extensions/ResultExtensions.cs:15-20 | outside Validation the whole outcome depends only on the first error |
| `ResultExtensions.ValidationListsEveryError` | src/N10.WebApi/Extensions/ResultExtensions.cs:13-14 | a Validation failure is a 400 whose body has the code and message of every error in the original order |
| `ResultExtensions.ResponseTextComesFromErrors` | src/N10.WebApi/Extensions/ResultExtensions.cs:11-21 | every message in a failure response comes from one of the errors, and 401 and 500 carry no message |
| `ResultExtensions.OverloadsAgree` | src/N10.WebApi/Extensions/ResultExtensions.cs:27-37 | the overload without a value gives the same outcome as the value-carrying one for the same failing list |
| `AuthorMappings.ToModel` | src/N10.Services/Mappings/AuthorMappings.cs:8-17 | the model's Id, FirstName, LastName and Email are the author's |
| `AuthorMappings.ToModelInjective` | src/N10.Services/Mappings/AuthorMappings.cs:10-16 | two authors have equal models exactly when they agree on the four copied fields |
| `BookMappings.ToModel` | src/N10.Services/Mappings/BookMappings.cs:8-16 | the model's Id and Title are the book's; a null author stays null and a present one is the author mapping of it, keeping its Id |
| `BookMappings.ToModels` | src/N10.Services/BooksService.cs:18 | the mapped collection has the same length, element i is the model of book i and has book i's Id |
| `BookMappings.ToModelsAppend` | src/N10.Services/BooksService.cs:18 | mapping a concatenation is the concatenation of the mappings |

## Left out

- The `_ => InternalServerError()` default arm of both `switch` expressions (src/N10.WebApi/Extensions/ResultExtensions.cs:21, 37) is not modelled: in C# an enum variable can hold a value outside the declared members, but `ErrorType` here is a closed datatype, so the five named arms are exhaustive and the default arm cannot be reached.
- `ResultExtensions.ToHttpResult` and `ResultExtensions.ToHttpResultUnit`: they require `Valid()`, since the code throws on `errors[0]` for a failure built from an empty list; that exception is not modelled as an outcome.
- Results.Result.Errors, Results.Result.Map, Results.Result.Then (and `UnitResults.Result.Errors`): the error list is modelled as an immutable value. In the C# the failure stores the caller's `List<Error>` without copying it (src/N10.Services/Results/Result.cs:14-16, 35), `Errors` hands out that same object, and `Map`/`Then` put it into the new result, so a caller that later clears or extends the list changes every result sharing it; that aliasing is not modelled, and `Valid()` and its preservation lemmas hold only as long as nobody mutates the list afterwards.
- Results.MapIdentity, Results.MapComposition, Results.ThenRightIdentity, Results.ThenAssociative, Results.MapIsThenSuccess: equality of results is structural here; `Result<T>` is a C# class compared by reference, so these laws hold observationally (same status, value and errors), not for `==` in C#.
- Results.Result.Match, Results.Result.Map, Results.Result.Then: delegates are pure; one that would throw on its argument is modelled as a partial function whose domain excludes that argument, so the exception it raises and any side effect it has are not modelled.
- The outcomes are values, not ASP.NET `IResult` objects: response serialisation, headers and the anonymous body types are not modelled beyond the code/message pairs they carry.
- The entity classes (`N10.Data.Entities`) and read-model classes (`N10.Services.Models`) lie outside the modelled files; here `Book`, `Author`, `BookModel` and `AuthorModel` are reduced to the fields the mappings read, with `Option` for the nullable author.
- The books service's cache-aside read path (`GetOrCreateAsync` with the `books-all` key), its single-flight guarantee, expiry, cancellation and the repository calls: they are asynchronous, concurrent behaviour of caching and persistence libraries that are not visible; only the element-wise mapping it applies is modelled (`BookMappings.ToModels`).
- The repository interfaces, route registration, the GraphQL projection/filter/sort query, the API service's try/catch-and-log wrapper, and host/dependency configuration: configuration, library-driven behaviour and I/O with no pure logic to state.
