/**
 * The earlier controller in src/app.rs. It has the same three screens and the
 * same session, and differs from src/main.rs in four ways: the count advances
 * after 750 ms instead of 600; input that is not two u8 numerals joined by
 * `+` is ignored without a message; the limit message does not quote the sum;
 * and the sum is computed in `u8`, so two large operands overflow it. This
 * version plays no audio.
 */
module Draft {
  import opened Wrappers
  import opened RustStr
  import opened Limbs
  import opened Expression
  import opened Session
  import Calculator

  /** The count advances when more than 750 ms have passed. */
  const TICK_INTERVAL: nat := 750

  const LIMIT_ERROR: string := "Error: I've run out of limbs!"

  // ---------------------------------------------------------------------------
  // "Count!"
  // ---------------------------------------------------------------------------

  /** `u8` addition as a release build performs it: modulo 256. */
  function WrappingAddU8(a: nat, b: nat): (r: nat)
    requires a <= U8_MAX && b <= U8_MAX
    ensures r <= U8_MAX
    ensures a + b <= U8_MAX ==> r == a + b
    ensures a + b > U8_MAX ==> r == a + b - (U8_MAX + 1)
  {
    (a + b) % (U8_MAX + 1)
  }

  /** The parsed operands overflow the `u8` sum (a debug build panics there). */
  predicate SumOverflowsU8(input: string) {
    var p := ParseSum(input);
    p.Operands? && p.num1 + p.num2 > U8_MAX
  }

  /** "Count!" as written, with the wrapped sum: malformed input is ignored, a
      wrapped sum above 20 is refused (the draft shows its fixed limit message
      for it), and otherwise a session starts with the wrapped sum as its total. */
  function EvaluateAsWritten(input: string): (r: Outcome)
    ensures r.Unchanged? <==> !ParseSum(input).Operands?
    ensures r.Begin? ==> r.total <= LIMBS
  {
    match ParseSum(input)
    case WrongShape => Unchanged
    case BadNumber => Unchanged
    case Operands(a, b) => Admit(a, b, WrappingAddU8(a, b))
  }

  /** With large operands the wrapped sum starts a session whose total is not
      the sum of its operands, where the overflow-free sum refuses the input. */
  lemma WrappedSumStartsWrongSession(a: nat, b: nat)
    requires a <= U8_MAX && b <= U8_MAX
    requires U8_MAX < a + b <= U8_MAX + 1 + LIMBS
    ensures EvaluateAsWritten(Decimal(a) + "+" + Decimal(b)) == Begin(a, b, a + b - (U8_MAX + 1))
    ensures Evaluate(Decimal(a) + "+" + Decimal(b)) == Rejected(TooManyLimbs(a + b))
  {
    var input := Decimal(a) + "+" + Decimal(b);
    ParseSumPlain(a, b);
    AsWrittenOperands(input, a, b);
    EvaluateOperands(input, a, b);
  }

  /** Once the sides are parsed, the wrapped sum decides. */
  lemma AsWrittenOperands(input: string, a: nat, b: nat)
    requires ParseSum(input) == Operands(a, b)
    ensures a <= U8_MAX && b <= U8_MAX
    ensures EvaluateAsWritten(input) ==
      if WrappingAddU8(a, b) > LIMBS then Rejected(TooManyLimbs(WrappingAddU8(a, b))) else Begin(a, b, WrappingAddU8(a, b))
  {
  }

  /** `250+10`: the code as written counts to 4; the sum is 260. */
  lemma TwoHundredFiftyPlusTen()
    ensures EvaluateAsWritten(Decimal(250) + "+" + Decimal(10)) == Begin(250, 10, 4)
    ensures Evaluate(Decimal(250) + "+" + Decimal(10)) == Rejected(TooManyLimbs(260))
  {
    WrappedSumStartsWrongSession(250, 10);
  }

  /** "Count!" with the sum computed without overflow: malformed input is
      ignored, a sum above 20 is refused, and otherwise a session starts whose
      total is the sum of its operands. */
  function Evaluate(input: string): (r: Outcome)
    ensures r.Unchanged? <==> !ParseSum(input).Operands?
    ensures r.Rejected? ==> r.why.TooManyLimbs? && r.why.sum > LIMBS
    ensures r.Begin? ==> r.total == r.num1 + r.num2 <= LIMBS
  {
    match ParseSum(input)
    case WrongShape => Unchanged
    case BadNumber => Unchanged
    case Operands(a, b) => Admit(a, b, a + b)
  }

  /** Where the `u8` sum does not overflow, the code as written and the
      overflow-free sum agree. */
  lemma AsWrittenAgrees(input: string)
    requires !SumOverflowsU8(input)
    ensures EvaluateAsWritten(input) == Evaluate(input)
  {
    match ParseSum(input)
    case WrongShape =>
    case BadNumber =>
    case Operands(a, b) =>
      assert WrappingAddU8(a, b) == a + b;
  }

  /** Once the sides are parsed, only the sum decides. */
  lemma EvaluateOperands(input: string, a: nat, b: nat)
    requires ParseSum(input) == Operands(a, b)
    ensures Evaluate(input) == if a + b > LIMBS then Rejected(TooManyLimbs(a + b)) else Begin(a, b, a + b)
  {
  }

  /** Well-formed operands, with any whitespace around them: ignored when an
      operand is above 255, the limit message when the sum is above 20, a
      session otherwise. */
  lemma EvaluateNumerals(w1: string, a: nat, w2: string, w3: string, b: nat, w4: string)
    requires AllWhitespace(w1) && AllWhitespace(w2) && AllWhitespace(w3) && AllWhitespace(w4)
    ensures Evaluate(Padded(w1, a, w2) + "+" + Padded(w3, b, w4)) ==
      if a > U8_MAX || b > U8_MAX then Unchanged
      else if a + b > LIMBS then Rejected(TooManyLimbs(a + b))
      else Begin(a, b, a + b)
  {
    var input := Padded(w1, a, w2) + "+" + Padded(w3, b, w4);
    ParseSumOfNumerals(w1, a, w2, w3, b, w4);
    if a <= U8_MAX && b <= U8_MAX {
      EvaluateOperands(input, a, b);
    }
  }

  /** Input without exactly one `+` is ignored. */
  lemma WrongShapeIgnored(input: string)
    requires Occurrences(input, '+') != 1
    ensures Evaluate(input) == Unchanged
  {
  }

  /** With the sum computed without overflow, the two controllers start the
      same session on the same input; they differ only in what they do with
      input they refuse. */
  lemma SameSessions(input: string)
    ensures Evaluate(input).Begin? <==> Calculator.Evaluate(input).Begin?
    ensures Evaluate(input).Begin? ==>
      var (d, c) := (Evaluate(input), Calculator.Evaluate(input));
      d.num1 == c.num1 && d.num2 == c.num2 && d.total == c.total
  {
  }

  /** The draft as written starts the same sessions as the final version on
      every input whose `u8` sum does not overflow. */
  lemma SameSessionsAsWritten(input: string)
    requires !SumOverflowsU8(input)
    ensures EvaluateAsWritten(input).Begin? <==> Calculator.Evaluate(input).Begin?
    ensures EvaluateAsWritten(input).Begin? ==>
      var (d, c) := (EvaluateAsWritten(input), Calculator.Evaluate(input));
      d.num1 == c.num1 && d.num2 == c.num2 && d.total == c.total
  {
    AsWrittenAgrees(input);
    SameSessions(input);
  }

  // ---------------------------------------------------------------------------
  // The controller
  // ---------------------------------------------------------------------------

  class LiteralCalculatorApp {
    var inputString: string
    var currentView: View
    var animationState: Option<AnimationState>
    var resultMessage: string

    /** The calculator screen has no session; the animation screen always has
        one; a session is consistent; and a session left on the result screen
        has finished counting. */
    ghost predicate Valid()
      reads this
    {
      (currentView == Calculator ==> animationState == None)
      && (currentView == Animation ==> animationState.Some?)
      && (animationState.Some? ==>
            Consistent(animationState.value)
            && (currentView == Result ==> animationState.value.currentCount == animationState.value.total))
    }

    constructor ()
      ensures Valid()
      ensures inputString == "" && currentView == Calculator && animationState == None
      ensures resultMessage == ""
    {
      inputString := "";
      currentView := Calculator;
      animationState := None;
      resultMessage := "";
    }

    /** The text box of the calculator screen. */
    method Edit(text: string)
      requires Valid() && currentView == Calculator
      modifies this`inputString
      ensures Valid() && inputString == text
    {
      inputString := text;
    }

    /** "Count!": ignored unless the input is two u8 numerals joined by `+`;
        a sum above 20 moves to the result screen with the fixed limit message;
        otherwise a session starts at `now` on the animation screen. The caller
        must not submit operands whose `u8` sum overflows. */
    method Submit(now: nat)
      requires Valid() && currentView == Calculator
      requires !SumOverflowsU8(inputString)
      modifies this
      ensures Valid()
      ensures inputString == old(inputString)
      ensures var outcome := Evaluate(old(inputString));
        (outcome.Unchanged? ==>
          currentView == old(currentView) && animationState == old(animationState)
          && resultMessage == old(resultMessage))
        && (outcome.Rejected? ==>
          resultMessage == LIMIT_ERROR && currentView == Result
          && animationState == old(animationState))
        && (outcome.Begin? ==>
          animationState == Some(NewSession(outcome.num1, outcome.num2, now))
          && currentView == Animation && resultMessage == old(resultMessage))
    {
      AsWrittenAgrees(inputString);
      var outcome := EvaluateAsWritten(inputString);
      Show(outcome, now);
    }

    /** The screen change "Count!" makes once the input is evaluated. */
    method Show(outcome: Outcome, now: nat)
      requires Valid() && currentView == Calculator
      requires outcome.Begin? ==> outcome.total == outcome.num1 + outcome.num2 <= LIMBS
      modifies this`resultMessage, this`currentView, this`animationState
      ensures Valid()
      ensures outcome.Unchanged? ==>
        currentView == old(currentView) && animationState == old(animationState)
        && resultMessage == old(resultMessage)
      ensures outcome.Rejected? ==>
        resultMessage == LIMIT_ERROR && currentView == Result
        && animationState == old(animationState)
      ensures outcome.Begin? ==>
        animationState == Some(NewSession(outcome.num1, outcome.num2, now))
        && currentView == Animation && resultMessage == old(resultMessage)
    {
      match outcome
      case Unchanged =>
      case Rejected(_) =>
        resultMessage := LIMIT_ERROR;
        currentView := Result;
      case Begin(num1, num2, _) =>
        animationState := Some(NewSession(num1, num2, now));
        currentView := Animation;
    }

    /** One animation frame at time `now`: nothing before 750 ms have passed;
        then the count goes up by one and the timer restarts, or, once the
        count has reached the sum, the result message is written and the
        result screen shown, the session staying in place. */
    method Tick(now: nat)
      requires Valid() && currentView == Animation
      modifies this
      ensures Valid()
      ensures inputString == old(inputString)
      ensures match TickStep(old(animationState).value, now, TICK_INTERVAL)
        case Wait =>
          animationState == old(animationState) && currentView == Animation
          && resultMessage == old(resultMessage)
        case Advance(next) =>
          animationState == Some(next) && currentView == Animation
          && resultMessage == old(resultMessage)
        case Finish(message) =>
          resultMessage == message && currentView == Result
          && animationState == old(animationState)
    {
      // On the animation screen the session is always present.
      var s := animationState.value;
      match TickStep(s, now, TICK_INTERVAL)
      case Wait =>
      case Advance(next) =>
        animationState := Some(next);
      case Finish(message) =>
        resultMessage := message;
        currentView := Result;
    }

    /** "New Calculation": empties the text box, drops the session and returns
        to the calculator screen. The old result message is kept. */
    method Reset()
      requires Valid() && currentView == Result
      modifies this
      ensures Valid()
      ensures inputString == "" && animationState == None && currentView == Calculator
      ensures resultMessage == old(resultMessage)
    {
      inputString := "";
      animationState := None;
      currentView := Calculator;
    }

    /** `update`: one frame, handled by the screen that is shown. Screens change
        only along the allowed transitions, and within the animation the count
        never goes down and the sum never changes. */
    method Update(event: Event, now: nat)
      requires Valid()
      requires currentView == Calculator && event == CountClicked ==> !SumOverflowsU8(inputString)
      modifies this
      ensures Valid()
      ensures ViewStep(old(currentView), currentView)
      ensures old(currentView) == Animation && currentView == Animation ==>
        SameSum(animationState.value, old(animationState).value)
        && animationState.value.currentCount >= old(animationState).value.currentCount
      // The calculator screen: the text box, "Count!", or nothing.
      ensures old(currentView) == Calculator && event.Typed? ==>
        inputString == event.text && currentView == old(currentView)
        && animationState == old(animationState) && resultMessage == old(resultMessage)
      ensures old(currentView) == Calculator && event == CountClicked ==>
        inputString == old(inputString)
        && var outcome := Evaluate(old(inputString));
        (outcome.Unchanged? ==>
          currentView == old(currentView) && animationState == old(animationState)
          && resultMessage == old(resultMessage))
        && (outcome.Rejected? ==>
          resultMessage == LIMIT_ERROR && currentView == Result
          && animationState == old(animationState))
        && (outcome.Begin? ==>
          animationState == Some(NewSession(outcome.num1, outcome.num2, now))
          && currentView == Animation && resultMessage == old(resultMessage))
      // The animation screen: one frame.
      ensures old(currentView) == Animation ==>
        inputString == old(inputString)
        && match TickStep(old(animationState).value, now, TICK_INTERVAL)
        case Wait =>
          animationState == old(animationState) && currentView == Animation
          && resultMessage == old(resultMessage)
        case Advance(next) =>
          animationState == Some(next) && currentView == Animation
          && resultMessage == old(resultMessage)
        case Finish(message) =>
          resultMessage == message && currentView == Result
          && animationState == old(animationState)
      // The result screen: "New Calculation", or nothing.
      ensures old(currentView) == Result && event == NewCalculationClicked ==>
        inputString == "" && animationState == None && currentView == Calculator
        && resultMessage == old(resultMessage)
      // Any other event leaves every field as it was.
      ensures ((old(currentView) == Calculator && (event == Idle || event == NewCalculationClicked))
               || (old(currentView) == Result && event != NewCalculationClicked)) ==>
        unchanged(this)
    {
      match currentView
      case Calculator =>
        match event {
          case Typed(text) => Edit(text);
          case CountClicked => Submit(now);
          case Idle =>
          case NewCalculationClicked =>
        }
      case Animation =>
        Tick(now);
      case Result =>
        if event == NewCalculationClicked {
          Reset();
        }
    }
  }
}
