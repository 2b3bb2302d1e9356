/** RequestUserResolutionBehavior: when a user resolver is configured, the
    request's User is set to the principal it resolves for this very request,
    then `next` runs. The `Unit` subclass adds nothing; `R` covers both. */
module UserResolutionBehavior {
  import opened Pipeline

  /** IRequestUserResolver.GetUserAsync(request, ct): a possibly null principal, or an exception. */
  type UserResolver<!P, !C> = RequestState<P, C> -> Result<Option<ClaimsPrincipal>, Fault>

  function UserStep<P, C>(resolver: Option<UserResolver<P, C>>, s: RequestState<P, C>): (r: Step<RequestState<P, C>>)
    ensures r.Continue? <==> resolver.None? || resolver.value(s).Success?
    ensures resolver.None? ==> r == Continue(s)
    ensures r.Continue? ==> r.state == s.(user := r.state.user)
    ensures resolver.Some? && r.Continue? ==> r.state.user == resolver.value(s).value
    ensures r.Stop? ==> r.error == Faulted(resolver.value(s).error)
  {
    match resolver
    case None => Continue(s)
    case Some(resolve) =>
      match resolve(s)
      case Success(principal) => Continue(s.(user := principal))
      case Failure(f) => Stop(Faulted(f))
  }

  method ResolveUser<P, C>(resolver: Option<UserResolver<P, C>>, request: Request<P, C>) returns (stop: Option<Error>)
    modifies request`user
    ensures StepTaken(stop, request.State()) == UserStep(resolver, old(request.State()))
    ensures stop.Some? ==> request.State() == old(request.State())
  {
    stop := None;
    if resolver.Some? {
      var resolved := resolver.value(request.State());
      if resolved.Failure? {
        stop := Some(Faulted(resolved.error));
        return;
      }
      request.user := resolved.value;
    }
  }

  method Handle<P, C, R>(resolver: Option<UserResolver<P, C>>, request: Request<P, C>, next: Continuation<P, C, R>)
    returns (o: Outcome<R>)
    modifies request`user, next
    ensures HandledBy(UserStep(resolver, old(request.State())), old(request.State()), request.State(),
                      o, next.run, old(next.seen), next.seen)
  {
    var stop := ResolveUser(resolver, request);
    if stop.Some? {
      o := Err(stop.value);
    } else {
      o := next.Invoke(request);
    }
  }
}
