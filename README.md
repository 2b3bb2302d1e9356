# Flowsy.Mediation in Dafny

Flowsy.Mediation is a thin layer over MediatR, FluentValidation and Serilog.
Requests are dispatched through a chain of pipeline behaviours. Each behaviour
does one piece of work on the request object and then calls its continuation
`next`. This project models three parts of that layer:

- **Pagination** (`pagination.dfy`). `DataPageConfiguration` and its
  settable process-wide `Default`. The `DataPageQuery` whose page size is
  clamped by the setter and falls back to the default when unset. The page
  count and "has more" that `DataPageQueryResult` derives.
- **Pipeline behaviours.** The request and the continuation (`pipeline.dfy`).
  The four resolution behaviours assign the request's context, environment,
  user or tenant in place (`context_resolution.dfy`,
  `environment_resolution.dfy`, `user_resolution.dfy`, `tenant_resolution.dfy`).
  The validation behaviour runs every validator and stops the dispatch on any
  failure (`validation.dfy`). The chain of behaviours ends in a handler
  (`chain.dfy`). The `RequestHandler` base class and its single-failure
  factories are in `request_handler.dfy`. `RequestValidationException` and its
  camel-cased error table are in `request_validation_exception.dfy`.
- **The test fixtures** (`simulation.dfy`, `mediation_test.dfy`). The Add and
  Multiply commands and their handlers. The validators, which register their
  rules one by one. The operation-context provider. The chain the test
  registers (context resolution, then logging, then validation). The three
  scenarios the test asserts hold in the model for every pair of operands,
  not only for the ones the test picks.

Each behaviour is modelled twice:

- a pure *step*: `Continue(new request state)` or `Stop(error)`;
- an imperative `Handle` method on a `Request` object.

`Handle` writes exactly the one field its step describes and calls a
`Continuation` at most once. The continuation's ghost `seen` log counts the
calls and records the request each call saw. `Chain.Run` and `Chain.Reach`
compose the steps. `Chain.Send` runs the same chain imperatively on one
request object and is proved equal to `Chain.Run`.

The context, environment, user and validation behaviours each come in two
generic arities, result-typed and `Unit`, with the same body. A single
`Handle`, generic in the result type `R`, stands for both. The tenant
behaviour has only the result-typed arity, which the same generic `Handle`
covers. Exceptions are values: `Err(Faulted(fault))` for a thrown
exception and `Err(ValidationFailed(e))` for a `ValidationException`.
Resolvers, providers and validators are functions of the request state that
may fail with a `Fault`.

## Model

| member | source | states |
|---|---|---|
| Pagination.DataPageConfiguration.constructor | Flowsy.Mediation/Pagination/DataPageConfiguration.cs:7-11 | Both sizes are stored as given. Each defaults to long.MaxValue. Nothing checks that the page size is at most the maximum. |
| Pagination.ConfigurationDefault.constructor | Flowsy.Mediation/Pagination/DataPageConfiguration.cs:5 | The static Default starts as a new configuration with both sizes long.MaxValue. |
| Pagination.ConfigurationDefault.Set | Flowsy.Mediation/Pagination/DataPageConfiguration.cs:5 | Default can be replaced by any configuration. |
| Pagination.DataPageQuery.constructor | Flowsy.Mediation/Pagination/DataPageQuery.cs:7-12 | Page number defaults to 1, no stored page size, count-total defaults to false. The page size given is stored without the clamp and without a lower bound. |
| Pagination.DataPageQuery.PageSize | Flowsy.Mediation/Pagination/DataPageQuery.cs:20 | The getter returns the stored size if there is one, otherwise Default's page size at the moment of reading. |
| Pagination.DataPageQuery.SetPageSize | Flowsy.Mediation/Pagination/DataPageQuery.cs:21 | The setter stores min(value, Default's maximum) and changes no other field. Afterwards the page size is at most the maximum, and equals the value when the value was within it. Zero and negative values are accepted. |
| Pagination.DataPageQuery.SetPageNumber | Flowsy.Mediation/Pagination/DataPageQuery.cs:16 | The page number is set to the value and no other field changes. |
| Pagination.DataPageQuery.SetCountTotal | Flowsy.Mediation/Pagination/DataPageQuery.cs:23 | The count-total flag is set to the value and no other field changes. |
| Pagination.ReplaceDefault | Flowsy.Mediation/Pagination/DataPageQuery.cs:20-21 | After Default is replaced, a query with no stored size reads the new default page size. A query with a stored size keeps it, even if it is now above the new maximum (no re-clamp). |
| Pagination.ConstructorSkipsClamp | Flowsy.Mediation/Pagination/DataPageQuery.cs:7-22 | Under a maximum of 10, a query constructed with 50 reports 50. Setting 50 through the setter gives 10. |
| Pagination.ItemCount | Flowsy.Mediation/Pagination/DataPageQueryResult.cs:16 | ItemCount is the number of items. |
| Pagination.CeilDiv | Flowsy.Mediation/Pagination/DataPageQueryResult.cs:21 | For positive n and d, the result is the least q with n <= d*q, and 1 <= q <= n. |
| Pagination.TotalPageCount | Flowsy.Mediation/Pagination/DataPageQueryResult.cs:19-22 | There is a page count exactly when counting is on, the page size is positive and the total is present and positive. It is then the ceiling of total over page size, and lies between 1 and the total, so the cast to long cannot overflow. |
| Pagination.HasMore | Flowsy.Mediation/Pagination/DataPageQueryResult.cs:24-27 | The three-way guard reduces to "a page count exists". With a page count, HasMore iff page number < page count. Without one, HasMore iff page size == number of items. |
| Pagination.HasMoreMeansItemsBeyondPage | Flowsy.Mediation/Pagination/DataPageQueryResult.cs:24-27 | With a page count, HasMore iff pageNumber * pageSize < total, that is, some item lies past the current page. |
| Pagination.WorkedExample | Flowsy.Mediation/Pagination/DataPageQueryResult.cs:19-27 | Page size 10 and total 25 give 3 pages. HasMore holds on pages 1 and 2 and not on page 3. |
| Pagination.NoPageCountEdgeCases | Flowsy.Mediation/Pagination/DataPageQueryResult.cs:19-27 | Any of these gives no page count: a page size of 0 or less, a total of 0, no total, or counting off. HasMore then compares the page size with the item count. |
| Pagination.DefaultPageSizeNeverHasMore | Flowsy.Mediation/Pagination/DataPageQueryResult.cs:24-27 | Without a page count, a query on the default page size of long.MaxValue never reports more. |
| Pipeline.Request.constructor | Flowsy.Mediation/AbstractRequest.cs:9 | A new request holds the default context and no environment, user or tenant. |
| Pipeline.Continuation.Invoke | Flowsy.Mediation/RequestContextResolutionBehavior.cs:20 | `await next()` returns the downstream result for the request as it stands at the call, and logs exactly one call. |
| ContextResolutionBehavior.ContextStep | Flowsy.Mediation/RequestContextResolutionBehavior.cs:17-18 | No provider: the request passes unchanged. With a provider, the request continues iff the provider succeeds, with only the context replaced by the provided value. A provider failure stops the dispatch with that failure. |
| ContextResolutionBehavior.ResolveContext | Flowsy.Mediation/RequestContextResolutionBehavior.cs:17-18 | Only the request's context is written, as ContextStep prescribes. A failure leaves the request as it was. |
| ContextResolutionBehavior.Handle | Flowsy.Mediation/RequestContextResolutionBehavior.cs:15-21 | On success, `next` runs exactly once, on the updated request, and its result is returned unchanged. On failure, `next` never runs. The Unit overload at lines 34-40 has the same body. |
| EnvironmentResolutionBehavior.EnvironmentStep | Flowsy.Mediation/RequestEnvironmentResolutionBehavior.cs:17-18 | No resolver: the request is unchanged. Otherwise the environment is set to the resolved value and nothing else changes, or the resolver's failure stops the dispatch. |
| EnvironmentResolutionBehavior.ResolveEnvironment | Flowsy.Mediation/RequestEnvironmentResolutionBehavior.cs:17-18 | Only the environment is written, as EnvironmentStep prescribes. A failure leaves the request as it was. |
| EnvironmentResolutionBehavior.Handle | Flowsy.Mediation/RequestEnvironmentResolutionBehavior.cs:15-21 | Resolve, then `next` exactly once with its result unchanged, or a failure without `next`. The Unit subclass at lines 24-30 inherits this. |
| UserResolutionBehavior.UserStep | Flowsy.Mediation/RequestUserResolutionBehavior.cs:23-24 | No resolver: the request is unchanged. Otherwise the user is set to what the resolver returns for this request and nothing else changes, or the resolver's failure stops the dispatch. |
| UserResolutionBehavior.ResolveUser | Flowsy.Mediation/RequestUserResolutionBehavior.cs:23-24 | Only the user is written, as UserStep prescribes. A failure leaves the request as it was. |
| UserResolutionBehavior.Handle | Flowsy.Mediation/RequestUserResolutionBehavior.cs:21-27 | Resolve, then `next` exactly once with its result unchanged, or a failure without `next`. The Unit subclass at lines 35-38 adds nothing. |
| TenantResolutionBehavior.TenantStep | Flowsy.Mediation/RequestTenantResolutionBehavior.cs:23 | There is always a resolver (no null branch). The tenant id is set to its value and nothing else changes, or its failure stops the dispatch. |
| TenantResolutionBehavior.ResolveTenant | Flowsy.Mediation/RequestTenantResolutionBehavior.cs:23 | Only the tenant id is written, as TenantStep prescribes. A failure leaves the request as it was. |
| TenantResolutionBehavior.Handle | Flowsy.Mediation/RequestTenantResolutionBehavior.cs:21-25 | The tenant is assigned before `next`. `next` runs exactly once, with its result returned as is, or not at all on failure. |
| ValidationBehavior.RunAll | Flowsy.Mediation/RequestValidationBehavior.cs:30-32 | Every validator runs, in order, with one report each. The run fails iff some validator throws, and then with the first exception thrown. Reported failures do not stop the run. |
| ValidationBehavior.RunAllPrefixFailure | Flowsy.Mediation/RequestValidationBehavior.cs:30-32 | Once a prefix of the validators has thrown, the whole run ends with that exception. |
| ValidationBehavior.Present | Flowsy.Mediation/RequestValidationBehavior.cs:36 | A report's failures with the null entries dropped: f is kept iff Some(f) was reported. The result is no longer than the report. |
| ValidationBehavior.PresentAppend | Flowsy.Mediation/RequestValidationBehavior.cs:34-38 | Dropping null entries keeps the reported order and multiplicity. Two reports in a row give the first's failures, then the second's. A one-entry report gives its failure, or nothing if the entry is null. |
| ValidationBehavior.Flatten | Flowsy.Mediation/RequestValidationBehavior.cs:34-38 | f is in the flattened list iff some validator's report holds Some(f). |
| ValidationBehavior.FlattenAppend | Flowsy.Mediation/RequestValidationBehavior.cs:34-38 | Flattening keeps validator order: the failures of a+b are those of a followed by those of b. A single validator's failures are its report with the null entries dropped. |
| ValidationBehavior.ValidationStep | Flowsy.Mediation/RequestValidationBehavior.cs:25-43 | No validators: the request passes. Otherwise the request continues iff no validator throws and no failure is reported. A thrown exception stops the dispatch with it. Failures stop it with a ValidationException carrying exactly the flattened, non-empty list. The request is never modified. |
| ValidationBehavior.Validate | Flowsy.Mediation/RequestValidationBehavior.cs:28-41 | The loop over the validators decides exactly what ValidationStep says, without modifying the request. |
| ValidationBehavior.Handle | Flowsy.Mediation/RequestValidationBehavior.cs:23-44 | `next` runs once on the unchanged request and its result is returned, or never runs when validation stops the dispatch. The Unit overload at lines 62-83 has the same body. |
| Chain.Run | Flowsy.Mediation.Test/MediationTest.cs:40-46 | A dispatch through the registered behaviours, each one's `next` being the rest of the chain. It is the handler applied to the request the chain hands on, or the error that stopped the chain. The handler runs at most once. |
| Chain.Reach | Flowsy.Mediation.Test/MediationTest.cs:40-46 | The request handed to the handler, or the first error. No behaviour changes the payload. The request handed on is the one the behaviours leave (Chain.Enriched). |
| Chain.Enriched | Flowsy.Mediation/RequestContextResolutionBehavior.cs:17-20 | Its contract states that the payload never changes. Its definition, not its contract, gives the rest: each step that continued has written its field, and a step that stops leaves in place what the earlier steps wrote. Chain.Reach and Chain.Send state that this is the request handed on and the object's final state. |
| Chain.HandlerNotReached | Flowsy.Mediation/RequestValidationBehavior.cs:40-41 | When the chain stops, the outcome does not depend on the handler. |
| Chain.LoggingIsTransparent | Flowsy.Mediation/RequestLoggingBehavior.cs:50-95 | The pass-through step that stands for logging changes no outcome anywhere in a chain: it returns `next`'s result and re-throws its exceptions. The Debug-level result count that can throw is listed under "Left out". |
| Chain.ValidationFailuresComeFromValidation | Flowsy.Mediation/RequestValidationBehavior.cs:40-41 | A dispatch that fails with validation failures has a validation behaviour in its chain. |
| Chain.ContextKeptWithoutResolution | Flowsy.Mediation/RequestContextResolutionBehavior.cs:17-18 | Only context resolution writes the context. A chain without one hands on the context and payload it was given. |
| Chain.HandlerSeesProvidedContext | Flowsy.Mediation/RequestContextResolutionBehavior.cs:17-20 | With a provider first and no later context resolution, the handler sees exactly the provided context. |
| Chain.Send | Flowsy.Mediation.Test/MediationTest.cs:63 | `mediator.Send` run step by step on one request object gives exactly the composed outcome. Afterwards the object holds Chain.Enriched, whether or not the chain stopped. When the chain lets the request through, the handler is called once, on that request. Otherwise it is never called. |
| RequestHandlers.HandleAsync | Flowsy.Mediation/RequestHandler.cs:27-30 | A handler without an override fails with NotSupportedException. An override's result is returned. |
| RequestHandlers.Handle | Flowsy.Mediation/RequestHandler.cs:16-19 | `Handle` returns exactly what HandleAsync produces, result or exception. |
| RequestHandlers.HandleUnit | Flowsy.Mediation/RequestHandler.cs:51-55 | The Unit handler succeeds iff HandleAsync does, answering Unit, and otherwise fails with HandleAsync's exception. |
| RequestHandlers.DefaultHandlerNotSupported | Flowsy.Mediation/RequestHandler.cs:27-30 | Whatever chain is in front of it, a dispatch to a handler without an override fails, and with NotSupported whenever the chain reaches it. |
| RequestHandlers.CreateValidationExceptionWithMessage | Flowsy.Mediation/RequestHandler.cs:39-45 | The given message and exactly one failure (property, message, attempted value). The attempted value defaults to null. |
| RequestHandlers.CreateValidationException | Flowsy.Mediation/RequestHandler.cs:32-37 | The message is the localized "InvalidRequest". The single failure is the one the four-argument overload builds. |
| RequestValidationErrors.InjectiveImageSize | Flowsy.Mediation/RequestValidationException.cs:10-13 | A key conversion that merges no two keys keeps the number of keys. |
| RequestValidationErrors.ConvertKeys | Flowsy.Mediation/RequestValidationException.cs:10-13 | If two keys convert to the same key, the build throws a duplicate-key error, and only then. Otherwise the keys are exactly the converted keys, one per input key, each keeping its messages. |
| RequestValidationErrors.FromErrors | Flowsy.Mediation/RequestValidationException.cs:7-14 | Message and inner exception are forwarded unchanged. Errors is a new table of converted keys with their values kept. The build fails exactly on colliding keys. |
| RequestValidationErrors.FromMessages | Flowsy.Mediation/RequestValidationException.cs:16-26 | Exactly one converted key, holding all the given messages in order. |
| RequestValidationErrors.FromPropertyError | Flowsy.Mediation/RequestValidationException.cs:28-31 | The property's error message is also the exception's message, with one key and one message. |
| RequestValidationErrors.FromMessage | Flowsy.Mediation/RequestValidationException.cs:33-43 | Exactly one converted key, holding a one-element array. |
| Simulation.Wrap32 | Flowsy.Mediation.Test/Simulation/Commands/AddNumbers/AddNumbersCommandHandler.cs:7 | Unchecked int arithmetic: congruent to the exact result modulo 2^32, and equal to it when in range. |
| Simulation.ProvideContext | Flowsy.Mediation.Test/Simulation/OperationContextProvider.cs:7-10 | The context is the signed-in user for an Add command and the empty context otherwise. The e-mail is non-empty iff the request is an Add command. |
| Simulation.ProvideContextAsync | Flowsy.Mediation.Test/Simulation/OperationContextProvider.cs:12-13 | The async form never fails and yields the sync form's value. |
| Simulation.CheckAll | Flowsy.Mediation.Test/Simulation/Commands/AddNumbers/AddNumbersCommandValidator.cs:7-16 | A validator's run of its registered rules. It throws iff some rule throws, and then with the exception of the first rule that throws, every earlier rule having passed. Otherwise an entry is reported iff some rule reported it; order and repeats are fixed by Simulation.CheckAllAppend. |
| Simulation.CheckAllAppend | Flowsy.Mediation.Test/Simulation/Commands/AddNumbers/AddNumbersCommandValidator.cs:7-16 | Running two rule lists one after the other equals running their concatenation: the first list's exception wins, then the second's, otherwise the reports are joined in registration order. One rule's run is that rule's check. |
| Simulation.Check | Flowsy.Mediation.Test/Simulation/ApplicationRequestValidator.cs:13-20 | The context rule throws on an unresolved context. Otherwise it reports exactly one "Context" failure iff the e-mail is empty. An operand rule reports nothing iff its operand is >= 0, and for a negative operand exactly one failure with the operand's name, the rule's message and the operand as the attempted value. |
| Simulation.RequestValidator.constructor | Flowsy.Mediation.Test/Simulation/ApplicationRequestValidator.cs:8-21 | validateContext defaults to true. The context rule is registered iff it is true, before any derived rule. |
| Simulation.RequestValidator.RuleFor | Flowsy.Mediation.Test/Simulation/Commands/AddNumbers/AddNumbersCommandValidator.cs:9-15 | Each RuleFor appends one rule after those already registered. |
| Simulation.NewAddNumbersCommandValidator | Flowsy.Mediation.Test/Simulation/Commands/AddNumbers/AddNumbersCommandValidator.cs:7-16 | The context rule is off. The rules are FirstNumber >= 0, then SecondNumber >= 0, with their messages. |
| Simulation.NewMultiplyNumbersCommandValidator | Flowsy.Mediation.Test/Simulation/Commands/MultiplyNumbers/MultiplyNumbersCommandValidator.cs:7-16 | The context rule comes first, then the two operand rules. |
| Simulation.AddNumbersValidation | Flowsy.Mediation.Test/Simulation/Commands/AddNumbers/AddNumbersCommandValidator.cs:9-15 | The Add validator never throws. Its failures are exactly one per negative operand, FirstNumber before SecondNumber. It reports none iff both operands are non-negative. |
| Simulation.MultiplyNumbersValidation | Flowsy.Mediation.Test/Simulation/Commands/MultiplyNumbers/MultiplyNumbersCommandValidator.cs:7-15 | The Multiply validator throws iff the context is unresolved. Otherwise its failures are the context failure, then the operand failures. |
| Simulation.HandleAddNumbers | Flowsy.Mediation.Test/Simulation/Commands/AddNumbers/AddNumbersCommandHandler.cs:5-10 | The value is the wrapped sum. AddedBy is the context's e-mail. An unresolved context makes the handler throw. |
| Simulation.HandleMultiplyNumbers | Flowsy.Mediation.Test/Simulation/Commands/MultiplyNumbers/MultiplyNumbersCommandHandler.cs:5-10 | Always a result: the wrapped product. |
| Simulation.Handle | Flowsy.Mediation.Test/Simulation/Commands/AddNumbers/AddNumbersCommandHandler.cs:5-10 | The handler for the command's type. The result is of the command's own kind. Only an Add command without a context fails, and then with a null dereference. An Add with a context gives the 32-bit wrapped sum added by the context's e-mail; a Multiply always gives the 32-bit wrapped product. |
| Simulation.MultiplyIgnoresContext | Flowsy.Mediation.Test/Simulation/Commands/MultiplyNumbers/MultiplyNumbersCommandHandler.cs:5-10 | The Multiply handler's result does not depend on the context. |
| MediationTest.ValidationIsLast | Flowsy.Mediation.Test/MediationTest.cs:44-46 | In the registered chain, after context resolution and logging, the validation step alone decides whether the handler is reached. |
| MediationTest.AddNumbersReach | Flowsy.Mediation.Test/MediationTest.cs:44-46 | An Add command reaches the handler with john.doe@example.com as its context iff both operands are non-negative. Otherwise it stops with exactly the operand failures. |
| MediationTest.Dispatch | Flowsy.Mediation.Test/MediationTest.cs:63 | `mediator.Send` of a command through the registered chain. Only an Add command with non-negative operands gets a result. Every other command fails validation, and nothing throws. |
| MediationTest.MultiplyNumbersReach | Flowsy.Mediation.Test/MediationTest.cs:102-107 | For all operands, a Multiply command stops at validation with the Context failure, then any operand failures. |
| MediationTest.CommandKeepsProvidedContext | Flowsy.Mediation/RequestContextResolutionBehavior.cs:17-20 | Whether or not validation rejects it, the command object keeps the context the provider assigned. A rejected Multiply holds the empty context. |
| MediationTest.AddNumbersThroughChain | Flowsy.Mediation.Test/MediationTest.cs:58-92 | For all operands: non-negative ones give the wrapped sum added by john.doe@example.com. Any negative one gives the operand failures, and the handler never runs. |
| MediationTest.ShouldAddNumbers | Flowsy.Mediation.Test/MediationTest.cs:58-69 | Add(1, 2) returns 3, added by john.doe@example.com. |
| MediationTest.ShouldValidateNumbersWhenAdding | Flowsy.Mediation.Test/MediationTest.cs:79-92 | Add(1, -2) fails with the single SecondNumber failure, before the handler. |
| MediationTest.MultiplyNumbersThroughChain | Flowsy.Mediation.Test/MediationTest.cs:102-115 | For all operands, a Multiply command fails validation with the Context failure first, then any operand failures, and never reaches its handler. |
| MediationTest.ShouldValidateContextWhenMultiplying | Flowsy.Mediation.Test/MediationTest.cs:102-115 | Multiply(25, 3) fails with the single Context failure, before the handler. |
| MediationTest.ValidationBeforeContextThrows | Flowsy.Mediation.Test/Simulation/ApplicationRequestValidator.cs:16 | The context rule dereferences the context. With validation registered before context resolution, a Multiply command fails with a null dereference. |
| MediationTest.SendCommand | Flowsy.Mediation.Test/MediationTest.cs:63 | Sending a fresh command object through the registered chain gives the composed outcome. The handler is called once if the chain lets it through, and never otherwise. The object is left holding the provided context either way. |

## Left out

- Logging (RequestLoggingBehavior, LoggingBehavior) is Serilog output and
  stopwatch timing. It appears in the chain only as a step that passes the
  request on unchanged. One thing is lost by that. At Debug level, a result
  that is an `IEnumerable` is counted with
  `enumerable.AsQueryable().Cast<object>().Count()`, inside the `try`
  (RequestLoggingBehavior.cs:59-63, LoggingBehavior.cs:65-70). `AsQueryable`
  throws ArgumentException for a non-generic enumerable such as an
  `ArrayList`, and the `catch` re-throws it (RequestLoggingBehavior.cs:89-94).
  So such a dispatch fails in the source where the model returns the result.
  The count also enumerates the result once more, and for an `IQueryable`
  result it runs a query of its own. Logging there can alter the outcome of a
  dispatch, which a logging layer is evidently not meant to do.
- Dependency-injection registration (MediationBuilder, DependencyInjection)
  and MediatR's own dispatch are not part of this model. The chain is given
  in the order the test registers it, the first registered outermost.
- InitializationBehavior and Request read thread-ambient
  `ClaimsPrincipal.Current` and the current UI culture. Both are left out.
  ValidationExtensions is reflection and console output, and is left out too.
- `await`, tasks and cancellation tokens: every asynchronous call is a
  sequential call, and the token is not modelled.
- Resolvers, providers and validators are functions of the request state.
  The library's `ProvideAsync(cancellationToken)` ignores the request; that
  is a function that does not read its argument.
- The camel-case naming convention and the string-resource lookup behind
  `"InvalidRequest".Localize()` belong to other packages. They are
  parameters `convert` and `localize`.
- FluentValidation's rule engine is modelled only as far as the fixtures use
  it: a validator is its list of rules, run in registration order. The shared
  `ValidationContext` is not modelled. Neither is cascade mode.
- The library's `ValidationException(errors)` composes its message text from
  the failures. The model records that as `message == None`.
- The shown files come from mixed revisions that do not compile together:
  - the builder registers a two-parameter context behaviour;
  - `Request.User` is get-only but is assigned;
  - `Environment` and `TenantId` are assigned on requests that do not declare
    them.

  The model gives every request the four fields that the behaviours write.
- Pagination.TotalPageCount: the division is done in `decimal`, which rounds
  a quotient such as 1/3 to 28 or 29 significant digits. For a positive total
  and page size below 2^63, a quotient that is not whole lies at least
  1/pageSize away from every whole number, which is far more than that
  rounding. So the rounding never changes the ceiling, and the model uses
  integer ceiling division. This argument is not proved in the model.
- Pagination.ItemCount: `Enumerable.Count()` returns an `int` and throws
  OverflowException past 2^31-1 items. The model counts with an unbounded
  natural number.
- Pagination.HasMore: `DataPageQueryResult` reads its query through a live
  reference. The model takes a `QueryView` snapshot of page number, page size
  and count-total flag, so a query changed after the result was built is not
  reflected.
- Pipeline.Continuation.Invoke: `next` is a fixed function of the request
  state at the call. A downstream behaviour's writes to the request object are
  not reflected in the object the caller holds. `Chain.Send` models those
  writes itself.
- Null strings (a null `UserEmail` or tenant id) are not modelled. A string is
  a sequence of characters, and the empty-e-mail branch is the only one the
  fixtures reach.
