/** RequestHandler: the base class every handler derives from. Its `Handle`
    forwards to the overridable `HandleAsync`, whose default throws
    NotSupportedException; it also builds single-failure validation errors
    for checks a handler makes itself. */
module RequestHandlers {
  import opened Pipeline
  import Chain

  /** A concrete handler class: the HandleAsync override it declares, if any. */
  datatype RequestHandler<!S, R> = RequestHandler(handleAsync: Option<S -> Outcome<R>>)

  function HandleAsync<S, R>(h: RequestHandler<S, R>, request: S): (o: Outcome<R>)
    ensures h.handleAsync.None? ==> o == Err(Faulted(NotSupported))
    ensures h.handleAsync.Some? ==> o == h.handleAsync.value(request)
  {
    match h.handleAsync
    case None => Err(Faulted(NotSupported))
    case Some(handle) => handle(request)
  }

  /** IRequestHandler.Handle of the result-typed class: exactly what HandleAsync produces. */
  function Handle<S, R>(h: RequestHandler<S, R>, request: S): (o: Outcome<R>)
    ensures o == HandleAsync(h, request)
  {
    HandleAsync(h, request)
  }

  /** IRequestHandler.Handle of the `Unit` class: await HandleAsync, then answer Unit.Value. */
  function HandleUnit<S, V>(h: RequestHandler<S, V>, request: S): (o: Outcome<()>)
    ensures o.Ok? <==> HandleAsync(h, request).Ok?
    ensures o.Err? ==> o.error == HandleAsync(h, request).error
  {
    match HandleAsync(h, request)
    case Ok(_) => Ok(())
    case Err(e) => Err(e)
  }

  /** A handler that overrides nothing fails every dispatch that reaches it,
      with NotSupported, whatever the chain in front of it. */
  lemma DefaultHandlerNotSupported<P, C, R>(h: RequestHandler<RequestState<P, C>, R>, chain: seq<Chain.Behavior<P, C>>, s: RequestState<P, C>)
    requires h.handleAsync.None?
    ensures Chain.Run(chain, s, t => Handle(h, t)).Err?
    ensures Chain.Reach(chain, s).Continue? ==> Chain.Run(chain, s, t => Handle(h, t)) == Err(Faulted(NotSupported))
  {
  }

  /** The four-argument CreateValidationException: the given message and one failure. */
  function CreateValidationExceptionWithMessage(message: string, propertyName: string, propertyErrorMessage: string,
                                                attemptedValue: AttemptedValue := Null): (e: ValidationException)
    ensures e.message == Some(message)
    ensures |e.errors| == 1
    ensures e.errors[0].propertyName == propertyName && e.errors[0].errorMessage == propertyErrorMessage
    ensures e.errors[0].attemptedValue == attemptedValue
  {
    ValidationException(Some(message), [ValidationFailure(propertyName, propertyErrorMessage, attemptedValue)])
  }

  /** The three-argument CreateValidationException: the same failure, under the
      localized "InvalidRequest" text (`localize` is the string-resource lookup). */
  function CreateValidationException(localize: string -> string, propertyName: string, propertyErrorMessage: string,
                                     attemptedValue: AttemptedValue := Null): (e: ValidationException)
    ensures e.message == Some(localize("InvalidRequest"))
    ensures e.errors == CreateValidationExceptionWithMessage(localize("InvalidRequest"), propertyName, propertyErrorMessage, attemptedValue).errors
  {
    CreateValidationExceptionWithMessage(localize("InvalidRequest"), propertyName, propertyErrorMessage, attemptedValue)
  }
}
