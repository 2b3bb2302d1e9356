/** RequestContextResolutionBehavior: when a context provider is configured,
    the request's Context is set to what it provides, then `next` runs. The
    result-typed and the `Unit` class have the same body; `R` covers both. */
module ContextResolutionBehavior {
  import opened Pipeline

  /** A context provider, as a function of the request it is asked about
      (a provider that ignores the request is the constant case). */
  type ContextProvider<!P, !C> = RequestState<P, C> -> Result<C, Fault>

  /** What the behaviour does to the request before it calls `next`. */
  function ContextStep<P, C>(provider: Option<ContextProvider<P, C>>, s: RequestState<P, C>): (r: Step<RequestState<P, C>>)
    ensures r.Continue? <==> provider.None? || provider.value(s).Success?
    ensures provider.None? ==> r == Continue(s)
    ensures r.Continue? ==> r.state == s.(context := r.state.context)
    ensures provider.Some? && r.Continue? ==> r.state.context == provider.value(s).value
    ensures r.Stop? ==> r.error == Faulted(provider.value(s).error)
  {
    match provider
    case None => Continue(s)
    case Some(provide) =>
      match provide(s)
      case Success(c) => Continue(s.(context := c))
      case Failure(f) => Stop(Faulted(f))
  }

  /** Lines 17-18 of the behaviour: assign Context from the provider, if there is one. */
  method ResolveContext<P, C>(provider: Option<ContextProvider<P, C>>, request: Request<P, C>) returns (stop: Option<Error>)
    modifies request`context
    ensures StepTaken(stop, request.State()) == ContextStep(provider, old(request.State()))
    ensures stop.Some? ==> request.State() == old(request.State())
  {
    stop := None;
    if provider.Some? {
      var provided := provider.value(request.State());
      if provided.Failure? {
        stop := Some(Faulted(provided.error));
        return;
      }
      request.context := provided.value;
    }
  }

  method Handle<P, C, R>(provider: Option<ContextProvider<P, C>>, request: Request<P, C>, next: Continuation<P, C, R>)
    returns (o: Outcome<R>)
    modifies request`context, next
    ensures HandledBy(ContextStep(provider, old(request.State())), old(request.State()), request.State(),
                      o, next.run, old(next.seen), next.seen)
  {
    var stop := ResolveContext(provider, request);
    if stop.Some? {
      o := Err(stop.value);
    } else {
      o := next.Invoke(request);
    }
  }
}
