/** RequestTenantResolutionBehavior: the request's TenantId is always set
    from the tenant resolver's synchronous GetTenantId(), then `next` runs.
    There is no branch for a missing resolver: the constructor demands one. */
module TenantResolutionBehavior {
  import opened Pipeline

  /** IRequestTenantResolver.GetTenantId(), as a function of the request (which it ignores or not). */
  type TenantResolver<!P, !C> = RequestState<P, C> -> Result<string, Fault>

  function TenantStep<P, C>(resolver: TenantResolver<P, C>, s: RequestState<P, C>): (r: Step<RequestState<P, C>>)
    ensures r.Continue? <==> resolver(s).Success?
    ensures r.Continue? ==> r.state == s.(tenantId := Some(resolver(s).value))
    ensures r.Stop? ==> r.error == Faulted(resolver(s).error)
  {
    match resolver(s)
    case Success(id) => Continue(s.(tenantId := Some(id)))
    case Failure(f) => Stop(Faulted(f))
  }

  method ResolveTenant<P, C>(resolver: TenantResolver<P, C>, request: Request<P, C>) returns (stop: Option<Error>)
    modifies request`tenantId
    ensures StepTaken(stop, request.State()) == TenantStep(resolver, old(request.State()))
    ensures stop.Some? ==> request.State() == old(request.State())
  {
    var resolved := resolver(request.State());
    if resolved.Failure? {
      return Some(Faulted(resolved.error));
    }
    request.tenantId := Some(resolved.value);
    stop := None;
  }

  method Handle<P, C, R>(resolver: TenantResolver<P, C>, request: Request<P, C>, next: Continuation<P, C, R>)
    returns (o: Outcome<R>)
    modifies request`tenantId, next
    ensures HandledBy(TenantStep(resolver, old(request.State())), old(request.State()), request.State(),
                      o, next.run, old(next.seen), next.seen)
  {
    var stop := ResolveTenant(resolver, request);
    if stop.Some? {
      o := Err(stop.value);
    } else {
      o := next.Invoke(request);
    }
  }
}
