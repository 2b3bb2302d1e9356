/** Values and objects shared by every pipeline behaviour: what a dispatch
    returns, the validation failures it may carry, the request that the early
    behaviours enrich in place, and the continuation `next` that each behaviour
    calls at most once. */
module Pipeline {

  datatype Option<+T> = None | Some(value: T)

  datatype Result<+T, +E> = Success(value: T) | Failure(error: E)

  /** An exception other than a validation failure, by kind. */
  datatype Fault =
    | NotSupported          // a handler that does not override HandleAsync
    | NullReference         // a member read through a context that was never resolved
    | DuplicateKey          // a dictionary built from two equal keys
    | Thrown(name: string)  // whatever a resolver, provider, validator or handler raises

  /** The `object?` a failure reports as the value it rejected. */
  datatype AttemptedValue = Null | IntValue(i: int)

  /** FluentValidation's ValidationFailure: the field, the message and the rejected value. */
  datatype ValidationFailure = ValidationFailure(propertyName: string, errorMessage: string, attemptedValue: AttemptedValue)

  /** FluentValidation's ValidationException. A `message` of None stands for the
      text the library composes from the failures itself. */
  datatype ValidationException = ValidationException(message: Option<string>, errors: seq<ValidationFailure>)

  /** What a dispatch can fail with. */
  datatype Error = ValidationFailed(exception: ValidationException) | Faulted(fault: Fault)

  /** What a dispatch, a handler or a continuation returns. */
  datatype Outcome<+R> = Ok(value: R) | Err(error: Error)

  /** What a behaviour does before it calls `next`: go on with the (possibly
      enriched) request, or stop the dispatch with an error. */
  datatype Step<+S> = Continue(state: S) | Stop(error: Error)

  datatype Claim = Claim(claimType: string, value: string)

  /** System.Security.Claims.ClaimsPrincipal, as the claims it carries. */
  datatype ClaimsPrincipal = ClaimsPrincipal(claims: seq<Claim>)

  datatype RequestEnvironment = RequestEnvironment(user: ClaimsPrincipal)

  /** Every field of a request at one moment: the operation's own payload and
      the four fields the resolution behaviours assign. */
  datatype RequestState<+P, +C> = RequestState(
    payload: P,
    context: C,
    environment: Option<RequestEnvironment>,
    user: Option<ClaimsPrincipal>,
    tenantId: Option<string>)

  /** A request in flight. The payload is fixed at construction; the other
      fields are written in place by the resolution behaviours. */
  class Request<P, C> {
    const payload: P
    var context: C
    var environment: Option<RequestEnvironment>
    var user: Option<ClaimsPrincipal>
    var tenantId: Option<string>

    /** `initialContext` is the context type's `default`, which the request holds until a provider runs. */
    constructor (payload: P, initialContext: C)
      ensures State() == RequestState(payload, initialContext, None, None, None)
    {
      this.payload := payload;
      context := initialContext;
      environment, user, tenantId := None, None, None;
    }

    function State(): RequestState<P, C>
      reads this
    {
      RequestState(payload, context, environment, user, tenantId)
    }
  }

  /** The continuation `next` handed to a behaviour: the rest of the chain,
      whose result is a function of the request as it stands when `next` is
      called. `seen` records the request at every call, so |seen| counts them. */
  class Continuation<P, C, R> {
    const run: RequestState<P, C> -> Outcome<R>
    ghost var seen: seq<RequestState<P, C>>

    constructor (run: RequestState<P, C> -> Outcome<R>)
      ensures this.run == run && seen == []
    {
      this.run := run;
      seen := [];
    }

    method Invoke(request: Request<P, C>) returns (o: Outcome<R>)
      modifies this
      ensures o == run(request.State())
      ensures seen == old(seen) + [request.State()]
    {
      o := run(request.State());
      seen := seen + [request.State()];
    }
  }

  /** The outcome of a behaviour that takes `step` and then returns whatever `next` returns. */
  function Then<S, R>(step: Step<S>, next: S -> Outcome<R>): (o: Outcome<R>)
    ensures step.Stop? ==> o == Err(step.error)
    ensures step.Continue? ==> o == next(step.state)
  {
    match step
    case Continue(t) => next(t)
    case Stop(e) => Err(e)
  }

  /** A behaviour's `Handle` returned `o` after taking `step` on the request
      `before`: on Continue(t) the request now holds t and `next` ran exactly
      once, on t, and its result came back unchanged; on Stop(e) the request is
      as it was, `next` never ran and the dispatch fails with e. */
  ghost predicate HandledBy<S, R>(step: Step<S>, before: S, after: S, o: Outcome<R>,
                                   next: S -> Outcome<R>, seenBefore: seq<S>, seenAfter: seq<S>)
  {
    match step
    case Continue(t) => after == t && o == next(t) && seenAfter == seenBefore + [t]
    case Stop(e) => after == before && o == Err(e) && seenAfter == seenBefore
  }

  /** The step a behaviour's prelude took, read back from what it returned. */
  function StepTaken<S>(stop: Option<Error>, after: S): Step<S>
  {
    match stop
    case None => Continue(after)
    case Some(e) => Stop(e)
  }
}
