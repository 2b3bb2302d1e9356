/** The chain the test project registers around the fixtures, in order:
    context resolution with OperationContextProvider, logging, validation.
    The scenarios the test asserts hold here for every pair of operands. */
module MediationTest {
  import opened Pipeline
  import opened Simulation
  import Chain
  import VB = ValidationBehavior

  /** The validators the container holds for the command's type. */
  function ValidatorsFor(c: Command): seq<VB.Validator<Command, Context>>
  {
    match c
    case AddNumbers(_, _) => [s => CheckAll(AddNumbersRules, s)]
    case MultiplyNumbers(_, _) => [s => CheckAll(MultiplyNumbersRules, s)]
  }

  function TestPipeline(c: Command): seq<Chain.Behavior<Command, Context>>
  {
    [Chain.ContextResolution(Some(ProvideContextAsync)), Chain.Logging, Chain.Validation(ValidatorsFor(c))]
  }

  /** A freshly constructed command: no context, environment, user or tenant yet. */
  function Fresh(c: Command): CommandState
  {
    RequestState(c, None, None, None, None)
  }

  /** `mediator.Send(command)` in the test: only an Add command with
      non-negative operands comes back with a result; every other command
      fails validation, and nothing in this chain throws. */
  function Dispatch(c: Command): (o: Outcome<CommandResult>)
    ensures o.Ok? <==> c.AddNumbers? && c.firstNumber >= 0 && c.secondNumber >= 0
    ensures o.Err? ==> o.error.ValidationFailed?
  {
    match c
    case AddNumbers(a, b) =>
      AddNumbersReach(a, b);
      Chain.Run(TestPipeline(c), Fresh(c), Handle)
    case MultiplyNumbers(a, b) =>
      MultiplyNumbersReach(a, b);
      Chain.Run(TestPipeline(c), Fresh(c), Handle)
  }

  /** The validation the chain runs on an Add command: the operand failures, or nothing. */
  lemma AddNumbersReach(a: Int32, b: Int32)
    ensures Chain.Reach(TestPipeline(AddNumbers(a, b)), Fresh(AddNumbers(a, b))) ==
              if a >= 0 && b >= 0
              then Continue(RequestState(AddNumbers(a, b), Some(OperationContext("john.doe@example.com")), None, None, None))
              else Stop(ValidationFailed(ValidationException(None, OperandFailures(AddNumbers(a, b)))))
  {
    var c := AddNumbers(a, b);
    var t := RequestState(c, Some(OperationContext("john.doe@example.com")), None, None, None);
    AddNumbersValidation(t);
    SingleValidatorStep(s => CheckAll(AddNumbersRules, s), t);
    ValidationIsLast(c, t);
  }

  /** The chain after context resolution: logging passes the request on and
      validation decides the outcome. */
  lemma ValidationIsLast(c: Command, t: CommandState)
    requires t == Fresh(c).(context := Some(ProvideContext(Fresh(c))))
    ensures Chain.Reach(TestPipeline(c), Fresh(c)) == VB.ValidationStep(ValidatorsFor(c), t)
  {
    var chain := TestPipeline(c);
    assert Chain.StepOf(chain[0], Fresh(c)) == Continue(t);
    assert chain[1..][0] == Chain.Logging;
    assert chain[1..][1..] == [Chain.Validation(ValidatorsFor(c))];
    assert chain[1..][1..][1..] == [];
    assert Chain.Reach(chain, Fresh(c)) == Chain.Reach(chain[1..], t);
    assert Chain.Reach(chain[1..], t) == Chain.Reach(chain[1..][1..], t);
    var last := chain[1..][1..];
    var step := VB.ValidationStep(ValidatorsFor(c), t);
    assert Chain.StepOf(last[0], t) == step;
    if step.Continue? {
      assert Chain.Reach(last, t) == Chain.Reach(last[1..], step.state);
    }
  }

  /** One validator that never raises: the chain stops with exactly the
      failures its report holds, if any. */
  lemma SingleValidatorStep(v: VB.Validator<Command, Context>, t: CommandState)
    requires v(t).Success?
    ensures VB.ValidationStep([v], t) ==
              if VB.Present(v(t).value) == [] then Continue(t)
              else Stop(ValidationFailed(ValidationException(None, VB.Present(v(t).value))))
  {
    assert [v][..0] == [];
    assert VB.RunAll([v][..0], t) == Success([]);
    assert [] + [v(t).value] == [v(t).value];
    assert VB.RunAll([v], t) == Success([v(t).value]);
    assert [v(t).value][1..] == [];
    assert VB.Flatten([v(t).value]) == VB.Present(v(t).value) + [];
  }

  /** Every Add command with non-negative operands returns the wrapped sum,
      added by the provider's user; any negative operand fails validation
      with exactly one failure per negative operand, and the handler never runs. */
  lemma AddNumbersThroughChain(a: Int32, b: Int32)
    ensures a >= 0 && b >= 0 ==> Dispatch(AddNumbers(a, b)) == Ok(AddNumbersResult(Wrap32(a + b), "john.doe@example.com"))
    ensures !(a >= 0 && b >= 0) ==>
              && Dispatch(AddNumbers(a, b)) == Err(ValidationFailed(ValidationException(None, OperandFailures(AddNumbers(a, b)))))
              && Chain.Reach(TestPipeline(AddNumbers(a, b)), Fresh(AddNumbers(a, b))).Stop?
  {
    AddNumbersReach(a, b);
  }

  /** Should_Add_Numbers: Add(1, 2) gives 3, added by john.doe@example.com. */
  lemma ShouldAddNumbers()
    ensures Dispatch(AddNumbers(1, 2)) == Ok(AddNumbersResult(3, "john.doe@example.com"))
  {
    AddNumbersThroughChain(1, 2);
  }

  /** Should_Validate_Numbers_When_Adding: Add(1, -2) fails with the single
      SecondNumber failure, before the handler. */
  lemma ShouldValidateNumbersWhenAdding()
    ensures Dispatch(AddNumbers(1, -2)) ==
              Err(ValidationFailed(ValidationException(None, [ValidationFailure("SecondNumber", SecondNumberMessage, IntValue(-2))])))
    ensures Chain.Reach(TestPipeline(AddNumbers(1, -2)), Fresh(AddNumbers(1, -2))).Stop?
  {
    AddNumbersThroughChain(1, -2);
  }

  /** The provider gives every Multiply command the empty context, so the
      context rule always fails: no Multiply command ever reaches its handler,
      and the failure list starts with the Context failure. */
  lemma MultiplyNumbersThroughChain(a: Int32, b: Int32)
    ensures Dispatch(MultiplyNumbers(a, b)) ==
              Err(ValidationFailed(ValidationException(None,
                [ValidationFailure("Context", ContextMessage, Null)] + OperandFailures(MultiplyNumbers(a, b)))))
    ensures Chain.Reach(TestPipeline(MultiplyNumbers(a, b)), Fresh(MultiplyNumbers(a, b))).Stop?
  {
    MultiplyNumbersReach(a, b);
  }

  /** The validation the chain runs on a Multiply command: the empty context
      always fails the context rule, ahead of any operand failure. */
  lemma MultiplyNumbersReach(a: Int32, b: Int32)
    ensures Chain.Reach(TestPipeline(MultiplyNumbers(a, b)), Fresh(MultiplyNumbers(a, b))) ==
              Stop(ValidationFailed(ValidationException(None,
                [ValidationFailure("Context", ContextMessage, Null)] + OperandFailures(MultiplyNumbers(a, b)))))
  {
    var c := MultiplyNumbers(a, b);
    var t := RequestState(c, Some(EmptyContext), None, None, None);
    MultiplyNumbersValidation(t);
    SingleValidatorStep(s => CheckAll(MultiplyNumbersRules, s), t);
    ValidationIsLast(c, t);
  }

  /** Whether or not validation lets it through, the command object keeps the
      context the provider assigned: a rejected Multiply command is left
      holding the empty context. */
  lemma CommandKeepsProvidedContext(c: Command)
    ensures Chain.Enriched(TestPipeline(c), Fresh(c)) == Fresh(c).(context := Some(ProvideContext(Fresh(c))))
  {
    var chain := TestPipeline(c);
    var t := Fresh(c).(context := Some(ProvideContext(Fresh(c))));
    assert Chain.StepOf(chain[0], Fresh(c)) == Continue(t);
    assert chain[1..][0] == Chain.Logging;
    assert chain[1..][1..] == [Chain.Validation(ValidatorsFor(c))];
    assert chain[1..][1..][1..] == [];
    assert Chain.Enriched(chain, Fresh(c)) == Chain.Enriched(chain[1..], t);
    assert Chain.Enriched(chain[1..], t) == Chain.Enriched(chain[1..][1..], t);
    var step := VB.ValidationStep(ValidatorsFor(c), t);
    assert Chain.StepOf(chain[1..][1..][0], t) == step;
    if step.Continue? {
      assert Chain.Enriched(chain[1..][1..], t) == Chain.Enriched(chain[1..][1..][1..], t);
    }
  }

  /** Should_Validate_Context_When_Multiplying: Multiply(25, 3) fails with the
      single Context failure, before the handler. */
  lemma ShouldValidateContextWhenMultiplying()
    ensures Dispatch(MultiplyNumbers(25, 3)) ==
              Err(ValidationFailed(ValidationException(None, [ValidationFailure("Context", ContextMessage, Null)])))
    ensures Chain.Reach(TestPipeline(MultiplyNumbers(25, 3)), Fresh(MultiplyNumbers(25, 3))).Stop?
  {
    MultiplyNumbersThroughChain(25, 3);
  }

  /** The context rule needs a resolved context: registered in the other order,
      validation of a Multiply command throws instead of reporting a failure. */
  lemma ValidationBeforeContextThrows(a: Int32, b: Int32)
    ensures Chain.Run([Chain.Validation(ValidatorsFor(MultiplyNumbers(a, b))), Chain.ContextResolution(Some(ProvideContextAsync))],
                      Fresh(MultiplyNumbers(a, b)), Handle) == Err(Faulted(NullReference))
  {
    var c := MultiplyNumbers(a, b);
    MultiplyNumbersValidation(Fresh(c));
  }

  /** `mediator.Send` run step by step on a fresh request object: the outcome
      is the dispatch's, the handler is called once when the chain lets the
      request through and never otherwise, and the command object is left
      holding the provided context either way. */
  method SendCommand(c: Command) returns (o: Outcome<CommandResult>, ghost handlerCalls: nat, context: Context)
    ensures o == Dispatch(c)
    ensures handlerCalls == if Chain.Reach(TestPipeline(c), Fresh(c)).Continue? then 1 else 0
    ensures context == Some(ProvideContext(Fresh(c)))
  {
    var request := new Request<Command, Context>(c, None);
    var handler := new Continuation<Command, Context, CommandResult>(Handle);
    o := Chain.Send(TestPipeline(c), request, handler);
    handlerCalls := |handler.seen|;
    context := request.context;
    CommandKeepsProvidedContext(c);
  }
}
