/**
 * The controller of `LiteralCalculatorApp` in src/main.rs: the text box and
 * "Count!" button of the calculator screen, one frame of the counting
 * animation, and the "New Calculation" button of the result screen. Drawing,
 * textures and audio playback are outside the model; the clip a frame plays is
 * returned, and logged in the ghost field `cues`.
 */
module Calculator {
  import opened Wrappers
  import opened RustStr
  import opened Limbs
  import opened Expression
  import opened Session

  /** The count advances when more than 600 ms have passed. */
  const TICK_INTERVAL: nat := 600
  /** Largest value of the `u16` the sum is computed in. */
  const U16_MAX: nat := 65535

  const FORMAT_ERROR: string := "Error: Use the format 'number+number'."
  const NUMBER_ERROR: string := "Error: Invalid numbers."

  const LIMIT_ERROR_HEAD: string := "Error: Sum ("
  const LIMIT_ERROR_TAIL: string := ") is greater than 20. I've run out of limbs!"

  /** The message for a sum that does not fit on the limbs; it quotes the sum. */
  function LimitError(total: nat): string {
    LIMIT_ERROR_HEAD + Decimal(total) + LIMIT_ERROR_TAIL
  }

  /** The message shown on the result screen for a refusal. */
  function Text(e: Refusal): string {
    match e
    case BadFormat => FORMAT_ERROR
    case BadNumbers => NUMBER_ERROR
    case TooManyLimbs(total) => LimitError(total)
  }

  // ---------------------------------------------------------------------------
  // "Count!"
  // ---------------------------------------------------------------------------

  /** What "Count!" makes of the text box: a format error unless there is
      exactly one `+`, a number error unless both sides are u8 numerals, a
      limit error quoting the sum above 20, and otherwise a new session. The
      click always has an effect. */
  function Evaluate(input: string): (r: Outcome)
    ensures !r.Unchanged?
    ensures r == Rejected(BadFormat) <==> Occurrences(input, '+') != 1
    ensures r == Rejected(BadNumbers) <==> ParseSum(input) == BadNumber
    ensures r.Begin? ==> r.total == r.num1 + r.num2 <= LIMBS
  {
    match ParseSum(input)
    case WrongShape => Rejected(BadFormat)
    case BadNumber => Rejected(BadNumbers)
    case Operands(a, b) =>
      assert a + b <= U16_MAX;  // two u8 values never overflow the u16 sum
      Admit(a, b, a + b)
  }

  /** Once the sides are parsed, only the sum decides. */
  lemma EvaluateOperands(input: string, a: nat, b: nat)
    requires ParseSum(input) == Operands(a, b)
    ensures Evaluate(input) == if a + b > LIMBS then Rejected(TooManyLimbs(a + b)) else Begin(a, b, a + b)
  {
  }

  /** Well-formed operands: a session when the sum fits on the limbs, the limit
      error quoting the sum when it does not, the number error when an operand
      is above 255. Whitespace around the operands makes no difference. */
  lemma EvaluateNumerals(w1: string, a: nat, w2: string, w3: string, b: nat, w4: string)
    requires AllWhitespace(w1) && AllWhitespace(w2) && AllWhitespace(w3) && AllWhitespace(w4)
    ensures Evaluate(Padded(w1, a, w2) + "+" + Padded(w3, b, w4)) ==
      if a > U8_MAX || b > U8_MAX then Rejected(BadNumbers)
      else if a + b > LIMBS then Rejected(TooManyLimbs(a + b))
      else Begin(a, b, a + b)
  {
    var input := Padded(w1, a, w2) + "+" + Padded(w3, b, w4);
    ParseSumOfNumerals(w1, a, w2, w3, b, w4);
    if a <= U8_MAX && b <= U8_MAX {
      EvaluateOperands(input, a, b);
    }
  }

  /** The message on the result screen tells which check failed, and for the
      limit error, which sum: different refusals have different texts. */
  lemma TextIdentifies(e1: Refusal, e2: Refusal)
    ensures Text(e1) == Text(e2) <==> e1 == e2
  {
    if Text(e1) == Text(e2) {
      KindLetter(e1);
      KindLetter(e2);
      if e1.TooManyLimbs? && e2.TooManyLimbs? {
        LimitErrorInjective(e1.sum, e2.sum);
      }
    }
  }

  /** The eighth character of each message names its kind. */
  lemma KindLetter(e: Refusal)
    ensures |Text(e)| > 7
    ensures Text(e)[7] == match e case BadFormat => 'U' case BadNumbers => 'I' case TooManyLimbs(_) => 'S'
  {
    if e.TooManyLimbs? {
      assert LimitError(e.sum)[7] == LIMIT_ERROR_HEAD[7];
    }
  }

  /** Two limit errors with the same text quote the same sum. */
  lemma LimitErrorInjective(t1: nat, t2: nat)
    requires LimitError(t1) == LimitError(t2)
    ensures t1 == t2
  {
    var d1, d2 := Decimal(t1), Decimal(t2);
    var h := |LIMIT_ERROR_HEAD|;
    assert |d1| == |d2|;
    assert d1 == LimitError(t1)[h..h + |d1|];
    assert d2 == LimitError(t2)[h..h + |d2|];
    DecimalValue(t1);
    DecimalValue(t2);
  }

  // ---------------------------------------------------------------------------
  // Where the numbers are drawn
  // ---------------------------------------------------------------------------

  /** One number drawn on the picture: its value, its finger or toe, and whether
      it is coloured as part of the first operand. */
  datatype Label = Label(number: nat, slot: Slot, firstOperand: bool)

  /** The numbers 1 to `currentCount` that an animation frame draws. Every
      table lookup is in range, each number is drawn at its own position, toes
      are used only when the feet picture is shown, and exactly the numbers up
      to the first operand take its colour. */
  method NumberLabels(s: AnimationState) returns (labels: seq<Label>)
    requires Consistent(s)
    ensures |labels| == s.currentCount
    ensures forall k :: 0 <= k < |labels| ==>
      labels[k].number == k + 1 && InTable(labels[k].slot)
      && NumberAt(labels[k].slot) == labels[k].number
    ensures forall k :: 0 <= k < |labels| ==> labels[k].slot.Toe? ==> ShowFeet(s.total)
    ensures forall k :: 0 <= k < |labels| ==> (labels[k].firstOperand <==> k < s.num1)
  {
    labels := [];
    for i := 1 to s.currentCount + 1
      invariant |labels| == i - 1
      invariant forall k :: 0 <= k < |labels| ==>
        labels[k].number == k + 1 && InTable(labels[k].slot)
        && NumberAt(labels[k].slot) == labels[k].number
      invariant forall k :: 0 <= k < |labels| ==> labels[k].slot.Toe? ==> k + 1 > FINGERS
      invariant forall k :: 0 <= k < |labels| ==> (labels[k].firstOperand <==> k < s.num1)
    {
      NumberAtSlotOf(i);
      labels := labels + [Label(i, SlotOf(i), IsFirstOperand(i, s.num1))];
    }
  }

  // ---------------------------------------------------------------------------
  // A whole calculation
  // ---------------------------------------------------------------------------

  /** A session started with a sum that fits, fed frames more than the interval
      apart: after `a + b` advances, which play the clips of 1 to `a + b` in
      order, the next frame writes `"{a} + {b} = {a + b}"`. */
  lemma CountsToTheSum(a: nat, b: nat, start: nat, gap: nat)
    requires a + b <= LIMBS
    requires gap > TICK_INTERVAL
    ensures var t := Run(NewSession(a, b, start), Frames(start, gap, a + b + 1), TICK_INTERVAL);
      t.message == Some(Decimal(a) + " + " + Decimal(b) + " = " + Decimal(a + b))
      && t.cues == Span(0, a + b)
  {
    var s := NewSession(a, b, start);
    FramesAllDue(start, gap, a + b + 1, TICK_INTERVAL);
    RunToCompletion(s, Frames(start, gap, a + b + 1), TICK_INTERVAL);
  }

  /** The worked example: 6 + 5 needs the feet, and twelve frames 601 ms apart
      end on "6 + 5 = 11". */
  lemma SixPlusFive()
    ensures ShowFeet(11)
    ensures Run(NewSession(6, 5, 0), Frames(0, 601, 12), TICK_INTERVAL).message == Some("6 + 5 = 11")
  {
    CountsToTheSum(6, 5, 0, 601);
    assert Decimal(6) + " + " + Decimal(5) + " = " + Decimal(11) == "6 + 5 = 11";
  }

  // ---------------------------------------------------------------------------
  // The controller
  // ---------------------------------------------------------------------------

  class LiteralCalculatorApp {
    var inputString: string
    var currentView: View
    var animationState: Option<AnimationState>
    var resultMessage: string
    /** The audio clips played since the current session began. */
    ghost var cues: seq<nat>

    /** The calculator screen has no session; the animation screen always has
        one; a session is consistent; a session left on the result screen has
        finished counting; and the clips played are those of 1 up to the count,
        in order, once each. */
    ghost predicate Valid()
      reads this
    {
      (currentView == Calculator ==> animationState == None)
      && (currentView == Animation ==> animationState.Some?)
      && (animationState.Some? ==>
            Consistent(animationState.value)
            && (currentView == Result ==> animationState.value.currentCount == animationState.value.total))
      && cues == (if animationState.Some? then Span(0, animationState.value.currentCount) else [])
    }

    constructor ()
      ensures Valid()
      ensures inputString == "" && currentView == Calculator && animationState == None
      ensures resultMessage == "" && cues == []
    {
      inputString := "";
      currentView := Calculator;
      animationState := None;
      resultMessage := "";
      cues := [];
    }

    /** The text box of the calculator screen. */
    method Edit(text: string)
      requires Valid() && currentView == Calculator
      modifies this`inputString
      ensures Valid() && inputString == text
    {
      inputString := text;
    }

    /** "Count!": a rejected input moves to the result screen with its message
        and leaves the session alone; an accepted one starts a session at `now`
        and moves to the animation screen. The text box keeps its contents. */
    method Submit(now: nat)
      requires Valid() && currentView == Calculator
      modifies this
      ensures Valid()
      ensures inputString == old(inputString)
      ensures var outcome := Evaluate(old(inputString));
        (outcome.Rejected? ==>
          resultMessage == Text(outcome.why) && currentView == Result
          && animationState == old(animationState) && cues == old(cues))
        && (outcome.Begin? ==>
          animationState == Some(NewSession(outcome.num1, outcome.num2, now))
          && currentView == Animation && resultMessage == old(resultMessage) && cues == [])
    {
      var outcome := Evaluate(inputString);
      Show(outcome, now);
    }

    /** The screen change "Count!" makes once the input is evaluated. */
    method Show(outcome: Outcome, now: nat)
      requires Valid() && currentView == Calculator
      requires !outcome.Unchanged?
      requires outcome.Begin? ==> outcome.total == outcome.num1 + outcome.num2 <= LIMBS
      modifies this`resultMessage, this`currentView, this`animationState, this`cues
      ensures Valid()
      ensures outcome.Rejected? ==>
        resultMessage == Text(outcome.why) && currentView == Result
        && animationState == old(animationState) && cues == old(cues)
      ensures outcome.Begin? ==>
        animationState == Some(NewSession(outcome.num1, outcome.num2, now))
        && currentView == Animation && resultMessage == old(resultMessage) && cues == []
    {
      if outcome.Rejected? {
        resultMessage := Text(outcome.why);
        currentView := Result;
      } else {
        animationState := Some(NewSession(outcome.num1, outcome.num2, now));
        currentView := Animation;
        cues := [];
        assert Span(0, 0) == [];
      }
    }

    /** One animation frame at time `now`. Before the interval is up nothing
        changes. After it, the count goes up by one, the timer restarts and the
        clip of the new count is played; or, once the count has reached the
        sum, the result message is written and the result screen shown, the
        session staying in place. */
    method Tick(now: nat) returns (cue: Option<nat>)
      requires Valid() && currentView == Animation
      modifies this
      ensures Valid()
      ensures inputString == old(inputString)
      ensures cue.Some? ==> cue.value < AUDIO_CLIPS
      ensures match TickStep(old(animationState).value, now, TICK_INTERVAL)
        case Wait =>
          animationState == old(animationState) && currentView == Animation
          && resultMessage == old(resultMessage) && cues == old(cues) && cue == None
        case Advance(next) =>
          animationState == Some(next) && currentView == Animation
          && resultMessage == old(resultMessage)
          && cue == Some(AudioSlot(next.currentCount)) && cues == old(cues) + [cue.value]
        case Finish(message) =>
          resultMessage == message && currentView == Result
          && animationState == old(animationState) && cues == old(cues) && cue == None
    {
      // On the animation screen the session is always present.
      var s := animationState.value;
      match TickStep(s, now, TICK_INTERVAL)
      case Wait =>
        cue := None;
      case Advance(next) =>
        animationState := Some(next);
        cue := Some(AudioSlot(next.currentCount));
        cues := cues + [AudioSlot(next.currentCount)];
      case Finish(message) =>
        resultMessage := message;
        currentView := Result;
        cue := None;
    }

    /** "New Calculation": empties the text box, drops the session and returns
        to the calculator screen. The old result message is kept. */
    method Reset()
      requires Valid() && currentView == Result
      modifies this
      ensures Valid()
      ensures inputString == "" && animationState == None && currentView == Calculator
      ensures resultMessage == old(resultMessage) && cues == []
    {
      inputString := "";
      animationState := None;
      currentView := Calculator;
      cues := [];
    }

    /** `update`: one frame, handled by the screen that is shown. Screens change
        only along the allowed transitions, and within the animation the count
        never goes down and the sum never changes. */
    method Update(event: Event, now: nat) returns (cue: Option<nat>)
      requires Valid()
      modifies this
      ensures Valid()
      ensures ViewStep(old(currentView), currentView)
      ensures old(currentView) == Animation && currentView == Animation ==>
        SameSum(animationState.value, old(animationState).value)
        && animationState.value.currentCount >= old(animationState).value.currentCount
      ensures cue.Some? ==> old(currentView) == Animation && cue.value < AUDIO_CLIPS
      // The calculator screen: the text box, "Count!", or nothing.
      ensures old(currentView) == Calculator ==> cue == None
      ensures old(currentView) == Calculator && event.Typed? ==>
        inputString == event.text && currentView == old(currentView)
        && animationState == old(animationState) && resultMessage == old(resultMessage) && cues == old(cues)
      ensures old(currentView) == Calculator && event == CountClicked ==>
        inputString == old(inputString)
        && var outcome := Evaluate(old(inputString));
        (outcome.Rejected? ==>
          resultMessage == Text(outcome.why) && currentView == Result
          && animationState == old(animationState) && cues == old(cues))
        && (outcome.Begin? ==>
          animationState == Some(NewSession(outcome.num1, outcome.num2, now))
          && currentView == Animation && resultMessage == old(resultMessage) && cues == [])
      // The animation screen: one frame.
      ensures old(currentView) == Animation ==>
        inputString == old(inputString)
        && match TickStep(old(animationState).value, now, TICK_INTERVAL)
        case Wait =>
          animationState == old(animationState) && currentView == Animation
          && resultMessage == old(resultMessage) && cues == old(cues) && cue == None
        case Advance(next) =>
          animationState == Some(next) && currentView == Animation
          && resultMessage == old(resultMessage)
          && cue == Some(AudioSlot(next.currentCount)) && cues == old(cues) + [cue.value]
        case Finish(message) =>
          resultMessage == message && currentView == Result
          && animationState == old(animationState) && cues == old(cues) && cue == None
      // The result screen: "New Calculation", or nothing.
      ensures old(currentView) == Result && event == NewCalculationClicked ==>
        inputString == "" && animationState == None && currentView == Calculator
        && resultMessage == old(resultMessage) && cues == [] && cue == None
      // Any other event leaves every field as it was.
      ensures ((old(currentView) == Calculator && (event == Idle || event == NewCalculationClicked))
               || (old(currentView) == Result && event != NewCalculationClicked)) ==>
        unchanged(this) && cue == None
    {
      cue := None;
      match currentView
      case Calculator =>
        match event {
          case Typed(text) => Edit(text);
          case CountClicked => Submit(now);
          case Idle =>
          case NewCalculationClicked =>
        }
      case Animation =>
        cue := Tick(now);
      case Result =>
        if event == NewCalculationClicked {
          Reset();
        }
    }
  }
}
