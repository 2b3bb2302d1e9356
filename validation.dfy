/** RequestValidationBehavior: with no validators the request passes straight
    to `next`; otherwise every validator runs, in order, on the same request,
    the non-null failures of all of them are concatenated, and a non-empty list
    fails the dispatch before `next` can run. The result-typed and the `Unit`
    class have the same body; `R` covers both. */
module ValidationBehavior {
  import opened Pipeline

  /** What one validator's ValidationResult.Errors holds (an entry may be null). */
  type Report = seq<Option<ValidationFailure>>

  /** IValidator<TRequest>.ValidateAsync: the report, or the exception the validator raises. */
  type Validator<!P, !C> = RequestState<P, C> -> Result<Report, Fault>

  /** The reports of the validators, run in order; the first exception ends the run. */
  function RunAll<P, C>(validators: seq<Validator<P, C>>, s: RequestState<P, C>): (r: Result<seq<Report>, Fault>)
    ensures r.Success? <==> forall i :: 0 <= i < |validators| ==> validators[i](s).Success?
    ensures r.Success? ==> |r.value| == |validators|
    ensures r.Success? ==> forall i :: 0 <= i < |validators| ==> validators[i](s) == Success(r.value[i])
    ensures r.Failure? ==> exists i :: 0 <= i < |validators| && validators[i](s) == Failure(r.error)
                                       && forall j :: 0 <= j < i ==> validators[j](s).Success?
    decreases |validators|
  {
    if validators == [] then Success([])
    else
      var last := |validators| - 1;
      var prefix := validators[..last];
      assert forall i :: 0 <= i < last ==> prefix[i] == validators[i];
      match RunAll(prefix, s)
      case Failure(f) => Failure(f)
      case Success(reports) =>
        assert forall j :: 0 <= j < last ==> validators[j](s).Success?;
        match validators[last](s)
        case Failure(f) =>
          assert validators[last](s) == Failure(f);
          Failure(f)
        case Success(report) =>
          var all := reports + [report];
          assert forall i :: 0 <= i < last ==> all[i] == reports[i];
          Success(all)
  }

  /** Once a prefix of the validators has raised, the whole run has raised the same exception. */
  lemma {:induction false} RunAllPrefixFailure<P, C>(validators: seq<Validator<P, C>>, k: nat, s: RequestState<P, C>)
    requires k <= |validators|
    requires RunAll(validators[..k], s).Failure?
    ensures RunAll(validators, s) == RunAll(validators[..k], s)
    decreases |validators| - k
  {
    if k < |validators| {
      var shorter := validators[..|validators| - 1];
      assert shorter[..k] == validators[..k];
      RunAllPrefixFailure(shorter, k, s);
    } else {
      assert validators[..k] == validators;
    }
  }

  /** The non-null entries of one report, in order (`where e is not null`). */
  function Present(report: Report): (r: seq<ValidationFailure>)
    ensures |r| <= |report|
    ensures forall f :: f in r <==> Some(f) in report
  {
    if report == [] then []
    else (if report[0].Some? then [report[0].value] else []) + Present(report[1..])
  }

  /** `SelectMany(r => r.Errors)` followed by dropping the null entries. */
  function Flatten(reports: seq<Report>): (r: seq<ValidationFailure>)
    ensures forall f :: f in r <==> exists i :: 0 <= i < |reports| && Some(f) in reports[i]
  {
    if reports == [] then []
    else
      var rest := Flatten(reports[1..]);
      assert forall i :: 1 <= i < |reports| ==> reports[i] == reports[1..][i - 1];
      Present(reports[0]) + rest
  }

  /** Dropping the null entries keeps the reported order: a report of one
      entry gives its failure or nothing, and the failures of two reports
      placed one after the other are those of the first, then the second. */
  lemma {:induction false} PresentAppend(a: Report, b: Report)
    ensures Present(a + b) == Present(a) + Present(b)
    ensures |a| == 1 ==> Present(a) == if a[0].Some? then [a[0].value] else []
  {
    if a == [] {
      assert a + b == b;
    } else {
      assert (a + b)[1..] == a[1..] + b;
      PresentAppend(a[1..], b);
      if |a| == 1 {
        assert a[1..] == [];
      }
    }
  }

  /** The failure list of several validators is the failure list of the first
      ones followed by that of the others: nothing is reordered or merged; one
      validator's list is its report without the null entries. */
  lemma {:induction false} FlattenAppend(a: seq<Report>, b: seq<Report>)
    ensures Flatten(a + b) == Flatten(a) + Flatten(b)
    ensures |a| == 1 ==> Flatten(a) == Present(a[0])
  {
    if a != [] {
      assert (a + b)[1..] == a[1..] + b;
      FlattenAppend(a[1..], b);
      if |a| == 1 {
        assert a[1..] == [];
      }
    } else {
      assert a + b == b;
    }
  }

  /** What the behaviour does before it calls `next`. It never changes the request. */
  function ValidationStep<P, C>(validators: seq<Validator<P, C>>, s: RequestState<P, C>): (r: Step<RequestState<P, C>>)
    ensures r.Continue? ==> r.state == s
    ensures validators == [] ==> r == Continue(s)
    ensures r.Continue? <==> validators == [] || (RunAll(validators, s).Success? && Flatten(RunAll(validators, s).value) == [])
    ensures r.Stop? && r.error.Faulted? ==> RunAll(validators, s) == Failure(r.error.fault)
    ensures r.Stop? && r.error.ValidationFailed? ==>
              && RunAll(validators, s).Success?
              && r.error.exception == ValidationException(None, Flatten(RunAll(validators, s).value))
              && |r.error.exception.errors| > 0
  {
    if validators == [] then Continue(s)
    else
      match RunAll(validators, s)
      case Failure(f) => Stop(Faulted(f))
      case Success(reports) =>
        var errors := Flatten(reports);
        if |errors| > 0 then Stop(ValidationFailed(ValidationException(None, errors))) else Continue(s)
  }

  /** Lines 25-41 of the behaviour: the `foreach` over the validators and the throw. */
  method Validate<P, C>(validators: seq<Validator<P, C>>, request: Request<P, C>) returns (stop: Option<Error>)
    ensures StepTaken(stop, request.State()) == ValidationStep(validators, request.State())
  {
    if |validators| == 0 {
      return None;
    }
    var s := request.State();
    var reports: seq<Report> := [];
    var i := 0;
    while i < |validators|
      invariant 0 <= i <= |validators|
      invariant RunAll(validators[..i], s) == Success(reports)
    {
      var result := validators[i](s);
      assert validators[..i + 1][..i] == validators[..i];
      if result.Failure? {
        RunAllPrefixFailure(validators, i + 1, s);
        return Some(Faulted(result.error));
      }
      reports := reports + [result.value];
      i := i + 1;
    }
    assert validators[..i] == validators;
    var errors := Flatten(reports);
    if |errors| > 0 {
      return Some(ValidationFailed(ValidationException(None, errors)));
    }
    return None;
  }

  method Handle<P, C, R>(validators: seq<Validator<P, C>>, request: Request<P, C>, next: Continuation<P, C, R>)
    returns (o: Outcome<R>)
    modifies next
    ensures HandledBy(ValidationStep(validators, request.State()), request.State(), request.State(),
                      o, next.run, old(next.seen), next.seen)
  {
    var stop := Validate(validators, request);
    if stop.Some? {
      o := Err(stop.value);
    } else {
      o := next.Invoke(request);
    }
  }
}
