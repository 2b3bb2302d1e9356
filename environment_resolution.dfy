/** RequestEnvironmentResolutionBehavior: when an environment resolver is
    configured, the request's Environment is set to what it resolves, then
    `next` runs. The `Unit` subclass inherits the same `Handle`; `R` covers both. */
module EnvironmentResolutionBehavior {
  import opened Pipeline

  /** IRequestEnvironmentResolver.ResolveAsync, as a function of the request (which it ignores or not). */
  type EnvironmentResolver<!P, !C> = RequestState<P, C> -> Result<RequestEnvironment, Fault>

  function EnvironmentStep<P, C>(resolver: Option<EnvironmentResolver<P, C>>, s: RequestState<P, C>): (r: Step<RequestState<P, C>>)
    ensures r.Continue? <==> resolver.None? || resolver.value(s).Success?
    ensures resolver.None? ==> r == Continue(s)
    ensures r.Continue? ==> r.state == s.(environment := r.state.environment)
    ensures resolver.Some? && r.Continue? ==> r.state.environment == Some(resolver.value(s).value)
    ensures r.Stop? ==> r.error == Faulted(resolver.value(s).error)
  {
    match resolver
    case None => Continue(s)
    case Some(resolve) =>
      match resolve(s)
      case Success(env) => Continue(s.(environment := Some(env)))
      case Failure(f) => Stop(Faulted(f))
  }

  method ResolveEnvironment<P, C>(resolver: Option<EnvironmentResolver<P, C>>, request: Request<P, C>) returns (stop: Option<Error>)
    modifies request`environment
    ensures StepTaken(stop, request.State()) == EnvironmentStep(resolver, old(request.State()))
    ensures stop.Some? ==> request.State() == old(request.State())
  {
    stop := None;
    if resolver.Some? {
      var resolved := resolver.value(request.State());
      if resolved.Failure? {
        stop := Some(Faulted(resolved.error));
        return;
      }
      request.environment := Some(resolved.value);
    }
  }

  method Handle<P, C, R>(resolver: Option<EnvironmentResolver<P, C>>, request: Request<P, C>, next: Continuation<P, C, R>)
    returns (o: Outcome<R>)
    modifies request`environment, next
    ensures HandledBy(EnvironmentStep(resolver, old(request.State())), old(request.State()), request.State(),
                      o, next.run, old(next.seen), next.seen)
  {
    var stop := ResolveEnvironment(resolver, request);
    if stop.Some? {
      o := Err(stop.value);
    } else {
      o := next.Invoke(request);
    }
  }
}
