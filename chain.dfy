/** The behaviour chain wrapped around a handler. The dispatcher builds it in
    registration order, the first registered outermost, and each behaviour's
    `next` is the rest of the chain, ending in the handler. Every behaviour of
    the library works before `next` and returns what `next` returns, so a
    chain is the sequence of their steps followed by the handler. Logging is
    the identity step here: it returns what `next` returns and re-throws what
    `next` throws. */
module Chain {
  import opened Pipeline
  import CR = ContextResolutionBehavior
  import ER = EnvironmentResolutionBehavior
  import UR = UserResolutionBehavior
  import TR = TenantResolutionBehavior
  import VB = ValidationBehavior

  /** One registered pipeline behaviour, with the collaborators it was built with. */
  datatype Behavior<!P, !C> =
    | ContextResolution(provider: Option<CR.ContextProvider<P, C>>)
    | EnvironmentResolution(environmentResolver: Option<ER.EnvironmentResolver<P, C>>)
    | UserResolution(userResolver: Option<UR.UserResolver<P, C>>)
    | TenantResolution(tenantResolver: TR.TenantResolver<P, C>)
    | Logging
    | Validation(validators: seq<VB.Validator<P, C>>)

  function StepOf<P, C>(b: Behavior<P, C>, s: RequestState<P, C>): Step<RequestState<P, C>>
  {
    match b
    case ContextResolution(provider) => CR.ContextStep(provider, s)
    case EnvironmentResolution(resolver) => ER.EnvironmentStep(resolver, s)
    case UserResolution(resolver) => UR.UserStep(resolver, s)
    case TenantResolution(resolver) => TR.TenantStep(resolver, s)
    case Logging => Continue(s)
    case Validation(validators) => VB.ValidationStep(validators, s)
  }

  /** Dispatch of a request through `chain` to `handler`: the first behaviour
      runs with the rest of the chain as its `next`. The handler runs at most
      once: exactly on the request the chain hands on, its result returned
      unchanged, or not at all, the dispatch failing with the error that
      stopped the chain. */
  function Run<P, C, R>(chain: seq<Behavior<P, C>>, s: RequestState<P, C>, handler: RequestState<P, C> -> Outcome<R>): (o: Outcome<R>)
    ensures o == Then(Reach(chain, s), handler)
    decreases |chain|
  {
    if chain == [] then handler(s)
    else Then(StepOf(chain[0], s), t => Run(chain[1..], t, handler))
  }

  /** The request as the behaviours leave it: every step that continues has
      written its field, and a step that stops leaves the request as it found
      it, with the enrichment of the steps before it in place. */
  function Enriched<P, C>(chain: seq<Behavior<P, C>>, s: RequestState<P, C>): (e: RequestState<P, C>)
    ensures e.payload == s.payload
    decreases |chain|
  {
    if chain == [] then s
    else
      match StepOf(chain[0], s)
      case Continue(t) => Enriched(chain[1..], t)
      case Stop(_) => s
  }

  /** The request the handler is given, or the error that ends the chain first.
      No behaviour changes the payload, and the request handed on is the one
      the behaviours leave. */
  function Reach<P, C>(chain: seq<Behavior<P, C>>, s: RequestState<P, C>): (r: Step<RequestState<P, C>>)
    ensures r.Continue? ==> r.state == Enriched(chain, s) && r.state.payload == s.payload
    decreases |chain|
  {
    if chain == [] then Continue(s)
    else
      match StepOf(chain[0], s)
      case Continue(t) => Reach(chain[1..], t)
      case Stop(e) => Stop(e)
  }

  /** When the chain stops, the handler's behaviour makes no difference to the outcome. */
  lemma HandlerNotReached<P, C, R>(chain: seq<Behavior<P, C>>, s: RequestState<P, C>, h1: RequestState<P, C> -> Outcome<R>, h2: RequestState<P, C> -> Outcome<R>)
    requires Reach(chain, s).Stop?
    ensures Run(chain, s, h1) == Run(chain, s, h2) == Err(Reach(chain, s).error)
  {
  }

  /** Running two chains one after the other is running their concatenation. */
  lemma {:induction false} ReachAppend<P, C>(a: seq<Behavior<P, C>>, b: seq<Behavior<P, C>>, s: RequestState<P, C>)
    ensures Reach(a + b, s) == match Reach(a, s) case Continue(t) => Reach(b, t) case Stop(e) => Stop(e)
    decreases |a|
  {
    if a == [] {
      assert a + b == b;
    } else {
      assert (a + b)[0] == a[0];
      assert (a + b)[1..] == a[1..] + b;
      match StepOf(a[0], s)
      case Continue(t) => ReachAppend(a[1..], b, t);
      case Stop(e) =>
    }
  }

  /** A logging behaviour anywhere in the chain changes neither the result
      nor the error of a dispatch. */
  lemma LoggingIsTransparent<P, C, R>(a: seq<Behavior<P, C>>, b: seq<Behavior<P, C>>, s: RequestState<P, C>, handler: RequestState<P, C> -> Outcome<R>)
    ensures Run(a + [Logging] + b, s, handler) == Run(a + b, s, handler)
  {
    assert a + [Logging] + b == a + ([Logging] + b);
    ReachAppend(a, [Logging] + b, s);
    ReachAppend(a, b, s);
    forall t ensures Reach([Logging] + b, t) == Reach(b, t) {
      assert ([Logging] + b)[1..] == b;
    }
  }

  /** Only a validation behaviour fails a dispatch with validation failures:
      the resolution behaviours can only fail with their resolver's exception. */
  lemma {:induction false} ValidationFailuresComeFromValidation<P, C>(chain: seq<Behavior<P, C>>, s: RequestState<P, C>)
    requires Reach(chain, s).Stop? && Reach(chain, s).error.ValidationFailed?
    ensures exists i :: 0 <= i < |chain| && chain[i].Validation?
    decreases |chain|
  {
    match StepOf(chain[0], s)
    case Continue(t) =>
      ValidationFailuresComeFromValidation(chain[1..], t);
      var i :| 0 <= i < |chain[1..]| && chain[1..][i].Validation?;
      assert chain[i + 1].Validation?;
    case Stop(e) =>
      assert chain[0].Validation?;
  }

  /** No behaviour other than context resolution writes the context, so the
      context the handler reads is the one the last context resolution set. */
  lemma {:induction false} ContextKeptWithoutResolution<P, C>(chain: seq<Behavior<P, C>>, s: RequestState<P, C>)
    requires forall i :: 0 <= i < |chain| ==> !chain[i].ContextResolution?
    requires Reach(chain, s).Continue?
    ensures Reach(chain, s).state.context == s.context
    ensures Reach(chain, s).state.payload == s.payload
    decreases |chain|
  {
    if chain != [] {
      var t := StepOf(chain[0], s).state;
      assert t.context == s.context && t.payload == s.payload;
      ContextKeptWithoutResolution(chain[1..], t);
    }
  }

  /** With a provider configured in the first behaviour and no other context
      resolution after it, the handler sees exactly the provided context. */
  lemma HandlerSeesProvidedContext<P, C>(provider: CR.ContextProvider<P, C>, rest: seq<Behavior<P, C>>, s: RequestState<P, C>)
    requires forall i :: 0 <= i < |rest| ==> !rest[i].ContextResolution?
    requires Reach([ContextResolution(Some(provider))] + rest, s).Continue?
    ensures provider(s).Success?
    ensures Reach([ContextResolution(Some(provider))] + rest, s).state.context == provider(s).value
  {
    var chain := [ContextResolution(Some(provider))] + rest;
    assert chain[1..] == rest;
    var t := StepOf(chain[0], s).state;
    ContextKeptWithoutResolution(rest, t);
  }

  /** One behaviour's work on the request before it would call `next`. */
  method Perform<P, C>(b: Behavior<P, C>, request: Request<P, C>) returns (stop: Option<Error>)
    modifies request
    ensures StepTaken(stop, request.State()) == StepOf(b, old(request.State()))
    ensures stop.Some? ==> request.State() == old(request.State())
  {
    match b
    case ContextResolution(provider) => stop := CR.ResolveContext(provider, request);
    case EnvironmentResolution(resolver) => stop := ER.ResolveEnvironment(resolver, request);
    case UserResolution(resolver) => stop := UR.ResolveUser(resolver, request);
    case TenantResolution(resolver) => stop := TR.ResolveTenant(resolver, request);
    case Logging => stop := None;
    case Validation(validators) => stop := VB.Validate(validators, request);
  }

  /** Send a request through the chain to the handler: the handler runs once,
      on the request as the chain left it, or not at all; either way the
      request object keeps what the behaviours wrote into it. */
  method Send<P, C, R>(chain: seq<Behavior<P, C>>, request: Request<P, C>, handler: Continuation<P, C, R>)
    returns (o: Outcome<R>)
    modifies request, handler
    ensures o == Run(chain, old(request.State()), handler.run)
    ensures request.State() == Enriched(chain, old(request.State()))
    ensures Reach(chain, old(request.State())).Continue? ==> handler.seen == old(handler.seen) + [request.State()]
    ensures Reach(chain, old(request.State())).Stop? ==> handler.seen == old(handler.seen)
    decreases |chain|
  {
    if chain == [] {
      o := handler.Invoke(request);
      return;
    }
    var stop := Perform(chain[0], request);
    if stop.Some? {
      o := Err(stop.value);
      return;
    }
    o := Send(chain[1..], request, handler);
  }
}
