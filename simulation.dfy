/** The fixtures of the test project: two arithmetic commands, the operation
    context they carry, the provider that supplies it, the validators that
    register their rules one by one, and the handlers. */
module Simulation {
  import opened Pipeline
  import VB = ValidationBehavior

  const Int32Min: int := -0x8000_0000
  const Int32Max: int := 0x7FFF_FFFF

  /** C#'s `int`. */
  type Int32 = x: int | Int32Min <= x <= Int32Max

  /** C#'s unchecked `int` arithmetic: the exact result reduced modulo 2^32 into the `int` range. */
  function Wrap32(x: int): (r: Int32)
    ensures (x - r) % 0x1_0000_0000 == 0
    ensures Int32Min <= x <= Int32Max ==> r == x
  {
    (x - Int32Min) % 0x1_0000_0000 + Int32Min
  }

  datatype OperationContext = OperationContext(userEmail: string)

  /** OperationContext.Empty. */
  const EmptyContext: OperationContext := OperationContext("")

  /** A command's Context: None until a provider assigns one (the `default!` null). */
  type Context = Option<OperationContext>

  datatype Command =
    | AddNumbers(firstNumber: Int32, secondNumber: Int32)
    | MultiplyNumbers(firstNumber: Int32, secondNumber: Int32)

  datatype CommandResult =
    | AddNumbersResult(value: Int32, addedBy: string)
    | MultiplyNumbersResult(value: Int32)

  type CommandState = RequestState<Command, Context>

  /** OperationContextProvider.ProvideContext: a signed-in user for an AddNumbersCommand,
      the empty context for every other request; nothing but the request's type matters. */
  function ProvideContext(s: CommandState): (c: OperationContext)
    ensures c == EmptyContext || c == OperationContext("john.doe@example.com")
    ensures c.userEmail != "" <==> s.payload.AddNumbers?
  {
    if s.payload.AddNumbers? then OperationContext("john.doe@example.com") else EmptyContext
  }

  /** ProvideContextAsync: the value of ProvideContext, as the provider the context behaviour calls. */
  function ProvideContextAsync(s: CommandState): (r: Result<Context, Fault>)
    ensures r.Success? && r.value == Some(ProvideContext(s))
  {
    Success(Some(ProvideContext(s)))
  }

  datatype Operand = First | Second

  function OperandValue(c: Command, operand: Operand): Int32
  {
    match operand
    case First => c.firstNumber
    case Second => c.secondNumber
  }

  /** The property name FluentValidation takes from the rule's expression. */
  function OperandName(operand: Operand): string
  {
    match operand
    case First => "FirstNumber"
    case Second => "SecondNumber"
  }

  const ContextMessage: string := "Context user email is required."
  const FirstNumberMessage: string := "First number must be greater than or equal to 0."
  const SecondNumberMessage: string := "Second number must be greater than or equal to 0."

  /** A rule a validator registers. */
  datatype Rule =
    | ContextUserEmailRequired                                 // the base class's Custom rule
    | GreaterThanOrEqualToZero(operand: Operand, message: string)  // RuleFor(..).GreaterThanOrEqualTo(0).WithMessage(..)

  /** One rule applied to a command. The context rule reads Context.UserEmail,
      so on a command whose context was never resolved it throws. */
  function Check(rule: Rule, s: CommandState): (r: Result<VB.Report, Fault>)
    ensures rule.ContextUserEmailRequired? ==> (r.Failure? <==> s.context.None?)
    ensures rule.ContextUserEmailRequired? && s.context.Some? ==>
              r.value == (if s.context.value.userEmail == "" then [Some(ValidationFailure("Context", ContextMessage, Null))] else [])
    ensures rule.GreaterThanOrEqualToZero? ==> r.Success? && (r.value == [] <==> OperandValue(s.payload, rule.operand) >= 0)
    ensures rule.GreaterThanOrEqualToZero? && OperandValue(s.payload, rule.operand) < 0 ==>
              r.value == [Some(ValidationFailure(OperandName(rule.operand), rule.message, IntValue(OperandValue(s.payload, rule.operand))))]
  {
    match rule
    case ContextUserEmailRequired =>
      (match s.context
       case None => Failure(NullReference)
       case Some(c) =>
         if c.userEmail != "" then Success([])
         else Success([Some(ValidationFailure("Context", ContextMessage, Null))]))
    case GreaterThanOrEqualToZero(operand, message) =>
      var v := OperandValue(s.payload, operand);
      if v >= 0 then Success([])
      else Success([Some(ValidationFailure(OperandName(operand), message, IntValue(v)))])
  }

  /** A validator's run: every rule in the order registered, their failures
      concatenated; an exception in a rule ends the run. */
  function CheckAll(rules: seq<Rule>, s: CommandState): (r: Result<VB.Report, Fault>)
    ensures r.Success? <==> forall i :: 0 <= i < |rules| ==> Check(rules[i], s).Success?
    ensures r.Failure? ==> exists i :: 0 <= i < |rules| && Check(rules[i], s) == Failure(r.error) &&
                                      forall j :: 0 <= j < i ==> Check(rules[j], s).Success?
    ensures r.Success? ==> forall x :: x in r.value <==> exists i :: 0 <= i < |rules| && x in Check(rules[i], s).value
    decreases |rules|
  {
    if rules == [] then Success([])
    else
      assert forall i :: 1 <= i < |rules| ==> rules[i] == rules[1..][i - 1];
      match Check(rules[0], s)
      case Failure(f) => Failure(f)
      case Success(head) =>
        match CheckAll(rules[1..], s)
        case Failure(f) => Failure(f)
        case Success(tail) => Success(head + tail)
  }

  /** Running two lists of rules one after the other is running their
      concatenation: the first exception wins, otherwise the reports are
      joined in order; a single rule's run is that rule's check. */
  lemma {:induction false} CheckAllAppend(a: seq<Rule>, b: seq<Rule>, s: CommandState)
    ensures CheckAll(a, s).Failure? ==> CheckAll(a + b, s) == CheckAll(a, s)
    ensures CheckAll(a, s).Success? && CheckAll(b, s).Failure? ==> CheckAll(a + b, s) == CheckAll(b, s)
    ensures CheckAll(a, s).Success? && CheckAll(b, s).Success? ==>
              CheckAll(a + b, s) == Success(CheckAll(a, s).value + CheckAll(b, s).value)
    ensures |a| == 1 ==> CheckAll(a, s) == Check(a[0], s)
    decreases |a|
  {
    if a == [] {
      assert a + b == b;
      if CheckAll(b, s).Success? {
        assert CheckAll(a, s).value + CheckAll(b, s).value == CheckAll(b, s).value;
      }
    } else {
      assert (a + b)[0] == a[0];
      assert (a + b)[1..] == a[1..] + b;
      CheckAllAppend(a[1..], b, s);
      if |a| == 1 {
        assert a[1..] == [];
        if Check(a[0], s).Success? {
          assert Check(a[0], s).value + [] == Check(a[0], s).value;
        }
      }
      if Check(a[0], s).Success? && CheckAll(a[1..], s).Success? && CheckAll(b, s).Success? {
        var h, x, y := Check(a[0], s).value, CheckAll(a[1..], s).value, CheckAll(b, s).value;
        assert h + (x + y) == (h + x) + y;
      }
    }
  }

  /** A validator object: the rules its constructors registered, in order. */
  class RequestValidator {
    var rules: seq<Rule>

    /** ApplicationRequestValidator's constructor: the context rule, unless it is switched off. */
    constructor (validateContext: bool := true)
      ensures rules == if validateContext then [ContextUserEmailRequired] else []
    {
      rules := [];
      if validateContext {
        rules := rules + [ContextUserEmailRequired];
      }
    }

    method RuleFor(rule: Rule)
      modifies this
      ensures rules == old(rules) + [rule]
    {
      rules := rules + [rule];
    }
  }

  const AddNumbersRules: seq<Rule> :=
    [GreaterThanOrEqualToZero(First, FirstNumberMessage), GreaterThanOrEqualToZero(Second, SecondNumberMessage)]

  const MultiplyNumbersRules: seq<Rule> :=
    [ContextUserEmailRequired, GreaterThanOrEqualToZero(First, FirstNumberMessage), GreaterThanOrEqualToZero(Second, SecondNumberMessage)]

  /** AddNumbersCommandValidator: context rule off, then the two operand rules. */
  method NewAddNumbersCommandValidator() returns (v: RequestValidator)
    ensures fresh(v) && v.rules == AddNumbersRules
  {
    v := new RequestValidator(false);
    v.RuleFor(GreaterThanOrEqualToZero(First, FirstNumberMessage));
    v.RuleFor(GreaterThanOrEqualToZero(Second, SecondNumberMessage));
  }

  /** MultiplyNumbersCommandValidator: the base default keeps the context rule, registered first. */
  method NewMultiplyNumbersCommandValidator() returns (v: RequestValidator)
    ensures fresh(v) && v.rules == MultiplyNumbersRules
  {
    v := new RequestValidator();
    v.RuleFor(GreaterThanOrEqualToZero(First, FirstNumberMessage));
    v.RuleFor(GreaterThanOrEqualToZero(Second, SecondNumberMessage));
  }

  /** The operand failures of a command, as an independent description: one per negative operand, first before second. */
  function OperandFailures(c: Command): seq<ValidationFailure>
  {
    (if c.firstNumber < 0 then [ValidationFailure("FirstNumber", FirstNumberMessage, IntValue(c.firstNumber))] else [])
    + (if c.secondNumber < 0 then [ValidationFailure("SecondNumber", SecondNumberMessage, IntValue(c.secondNumber))] else [])
  }

  /** The context failure of a resolved context. */
  function ContextFailures(c: OperationContext): seq<ValidationFailure>
  {
    if c.userEmail == "" then [ValidationFailure("Context", ContextMessage, Null)] else []
  }

  /** The failures the Add validator reports are exactly the operand failures. */
  lemma AddNumbersValidation(s: CommandState)
    ensures CheckAll(AddNumbersRules, s).Success?
    ensures VB.Present(CheckAll(AddNumbersRules, s).value) == OperandFailures(s.payload)
    ensures OperandFailures(s.payload) == [] <==> s.payload.firstNumber >= 0 && s.payload.secondNumber >= 0
  {
    var rules := AddNumbersRules;
    assert rules[1..][1..] == [];
    var r1 := Check(rules[0], s).value;
    var r2 := Check(rules[1], s).value;
    assert CheckAll(rules[1..][1..], s) == Success([]);
    assert CheckAll(rules[1..], s) == Success(r2 + []);
    assert r2 + [] == r2;
    assert CheckAll(rules, s) == Success(r1 + r2);
    VB.PresentAppend(r1, r2);
  }

  /** The Multiply validator throws on an unresolved context; otherwise it
      reports the context failure first, then the operand failures. */
  lemma MultiplyNumbersValidation(s: CommandState)
    ensures CheckAll(MultiplyNumbersRules, s).Failure? <==> s.context.None?
    ensures s.context.Some? ==>
              VB.Present(CheckAll(MultiplyNumbersRules, s).value) == ContextFailures(s.context.value) + OperandFailures(s.payload)
  {
    var rules := MultiplyNumbersRules;
    assert rules[1..] == AddNumbersRules;
    if s.context.Some? {
      AddNumbersValidation(s);
      var r0 := Check(rules[0], s).value;
      var rest := CheckAll(AddNumbersRules, s).value;
      assert CheckAll(rules, s) == Success(r0 + rest);
      VB.PresentAppend(r0, rest);
    }
  }

  /** AddNumbersCommandHandler: the unchecked sum, added by the context's user;
      reading the e-mail of a context never resolved throws. */
  function HandleAddNumbers(first: Int32, second: Int32, context: Context): (o: Outcome<CommandResult>)
    ensures o.Ok? <==> context.Some?
    ensures context.None? ==> o == Err(Faulted(NullReference))
    ensures o.Ok? ==> o.value.AddNumbersResult? && o.value.addedBy == context.value.userEmail
    ensures o.Ok? ==> (o.value.value - (first + second)) % 0x1_0000_0000 == 0
    ensures o.Ok? && Int32Min <= first + second <= Int32Max ==> o.value.value == first + second
  {
    match context
    case None => Err(Faulted(NullReference))
    case Some(c) => Ok(AddNumbersResult(Wrap32(first + second), c.userEmail))
  }

  /** MultiplyNumbersCommandHandler: the unchecked product; the context is not read and nothing fails. */
  function HandleMultiplyNumbers(first: Int32, second: Int32, context: Context): (o: Outcome<CommandResult>)
    ensures o.Ok? && o.value.MultiplyNumbersResult?
    ensures (o.value.value - first * second) % 0x1_0000_0000 == 0
    ensures Int32Min <= first * second <= Int32Max ==> o.value.value == first * second
  {
    Ok(MultiplyNumbersResult(Wrap32(first * second)))
  }

  /** The Multiply handler gives the same result whatever the context. */
  lemma MultiplyIgnoresContext(first: Int32, second: Int32, c1: Context, c2: Context)
    ensures HandleMultiplyNumbers(first, second, c1) == HandleMultiplyNumbers(first, second, c2)
  {
  }

  /** The handler the dispatcher picks for the command's type: the result is
      of the command's own kind, and only an Add command without a context fails. */
  function Handle(s: CommandState): (o: Outcome<CommandResult>)
    ensures o.Ok? <==> s.payload.MultiplyNumbers? || s.context.Some?
    ensures o.Ok? ==> (o.value.AddNumbersResult? <==> s.payload.AddNumbers?)
    ensures o.Err? ==> o.error == Faulted(NullReference)
    ensures o.Ok? && s.payload.AddNumbers? ==>
              o.value == AddNumbersResult(Wrap32(s.payload.firstNumber + s.payload.secondNumber), s.context.value.userEmail)
    ensures s.payload.MultiplyNumbers? ==>
              o == Ok(MultiplyNumbersResult(Wrap32(s.payload.firstNumber * s.payload.secondNumber)))
  {
    match s.payload
    case AddNumbers(first, second) => HandleAddNumbers(first, second, s.context)
    case MultiplyNumbers(first, second) => HandleMultiplyNumbers(first, second, s.context)
  }
}
