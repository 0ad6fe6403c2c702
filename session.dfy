/**
 * What the two controllers share: the three views, the animation session
 * (`AnimationState`), the clock that decides when the count advances, and the
 * one-frame step of the counting animation.
 *
 * Time is a natural number of milliseconds handed in by the caller in place of
 * `Instant::now()`.
 */
module Session {
  import opened Wrappers
  import opened RustStr
  import opened Limbs

  /** `AppView`: which screen is shown. */
  datatype View = Calculator | Animation | Result

  /** `AnimationState`: the two operands, their sum, how far the count has got,
      and when it last advanced. */
  datatype AnimationState = AnimationState(num1: nat, num2: nat, total: nat, currentCount: nat, lastUpdate: nat)

  /** What holds of every session: the sum is that of the operands, it fits on
      the limbs, and the count has not passed it. All fields then fit in a u8. */
  predicate Consistent(s: AnimationState) {
    s.total == s.num1 + s.num2 && s.total <= LIMBS && s.currentCount <= s.total
  }

  /** Two states of the same session: same operands, same sum. */
  predicate SameSum(s: AnimationState, t: AnimationState) {
    s.num1 == t.num1 && s.num2 == t.num2 && s.total == t.total
  }

  /** The session a successful "Count!" creates at time `now`. */
  function NewSession(num1: nat, num2: nat, now: nat): (s: AnimationState)
    requires num1 + num2 <= LIMBS
    ensures Consistent(s) && s.currentCount == 0 && s.lastUpdate == now
    ensures s.num1 == num1 && s.num2 == num2
  {
    AnimationState(num1, num2, num1 + num2, 0, now)
  }

  /** Why "Count!" refused the input: not one `+`, a side that is not a u8
      numeral, or a sum too large for the limbs. */
  datatype Refusal = BadFormat | BadNumbers | TooManyLimbs(sum: nat)

  /** What "Count!" does to the controller: nothing, a refusal, or a new session. */
  datatype Outcome =
    | Unchanged
    | Rejected(why: Refusal)
    | Begin(num1: nat, num2: nat, total: nat)

  /** The limit check applied to parsed operands and the sum a controller
      computed for them: a sum above 20 is refused, any other starts a session. */
  function Admit(a: nat, b: nat, total: nat): (r: Outcome)
    ensures !r.Unchanged?
    ensures r.Rejected? <==> total > LIMBS
    ensures r.Rejected? ==> r.why == TooManyLimbs(total)
    ensures r.Begin? ==> r.num1 == a && r.num2 == b && r.total == total
  {
    if total > LIMBS then Rejected(TooManyLimbs(total)) else Begin(a, b, total)
  }

  /** A user action delivered with one frame. */
  datatype Event = Idle | Typed(text: string) | CountClicked | NewCalculationClicked

  /** The screen changes one frame can make: from the calculator to either of
      the others, from the animation to the result, from the result back to the
      calculator. The animation is never left for the calculator directly, and
      the result never leads back into the animation. */
  predicate ViewStep(before: View, after: View) {
    before == after
    || (before == Calculator && after != Calculator)
    || (before == Animation && after == Result)
    || (before == Result && after == Calculator)
  }

  // ---------------------------------------------------------------------------
  // The clock
  // ---------------------------------------------------------------------------

  /** `Instant::elapsed`: the time since `since`, never negative. */
  function Elapsed(since: nat, now: nat): (d: nat)
    ensures now >= since ==> since + d == now
    ensures now < since ==> d == 0
  {
    if now >= since then now - since else 0
  }

  /** A step is due once strictly more than `interval` has passed since the last one. */
  predicate IsDue(s: AnimationState, now: nat, interval: nat) {
    Elapsed(s.lastUpdate, now) > interval
  }

  // ---------------------------------------------------------------------------
  // One frame of the animation
  // ---------------------------------------------------------------------------

  /** `"{num1} + {num2} = {total}"`. */
  function SuccessMessage(s: AnimationState): string {
    Decimal(s.num1) + " + " + Decimal(s.num2) + " = " + Decimal(s.total)
  }

  /** What a frame does with the session. */
  datatype Step = Wait | Advance(next: AnimationState) | Finish(message: string)

  /** One frame: nothing before the interval is up; then the count goes up by
      one and the timer restarts, or, once the count has reached the sum, the
      result message is written. */
  function TickStep(s: AnimationState, now: nat, interval: nat): (r: Step)
    requires Consistent(s)
    ensures r.Wait? <==> !IsDue(s, now, interval)
    ensures r.Advance? <==> IsDue(s, now, interval) && s.currentCount < s.total
    ensures r.Advance? ==>
      Consistent(r.next) && SameSum(r.next, s)
      && r.next.currentCount == s.currentCount + 1 && r.next.lastUpdate == now
    ensures r.Finish? ==> s.currentCount == s.total && r.message == SuccessMessage(s)
  {
    if !IsDue(s, now, interval) then Wait
    else if s.currentCount < s.total then
      Advance(s.(currentCount := s.currentCount + 1, lastUpdate := now))
    else Finish(SuccessMessage(s))
  }

  // ---------------------------------------------------------------------------
  // Runs of frames
  // ---------------------------------------------------------------------------

  /** The numbers lo, lo + 1, ..., hi - 1. */
  function Span(lo: nat, hi: nat): (r: seq<nat>)
    ensures |r| == if lo <= hi then hi - lo else 0
    ensures forall k :: 0 <= k < |r| ==> r[k] == lo + k
    decreases hi - lo
  {
    if lo >= hi then [] else [lo] + Span(lo + 1, hi)
  }

  /** What a run of frames produced: the last session state, the audio clips
      played in order, and the result message if the run reached the end. */
  datatype Trace = Trace(final: AnimationState, cues: seq<nat>, message: Option<string>)

  /** The frames at `times`, one after another, until one of them finishes the
      count. Each advance plays the clip for the new count. */
  function Run(s: AnimationState, times: seq<nat>, interval: nat): (t: Trace)
    requires Consistent(s)
    ensures Consistent(t.final) && SameSum(t.final, s)
    ensures s.currentCount <= t.final.currentCount
    ensures t.cues == Span(s.currentCount, t.final.currentCount)
    ensures t.message.Some? ==>
      t.final.currentCount == t.final.total && t.message.value == SuccessMessage(s)
    decreases |times|
  {
    if times == [] then Trace(s, [], None)
    else
      match TickStep(s, times[0], interval)
      case Wait => Run(s, times[1..], interval)
      case Advance(next) =>
        var rest := Run(next, times[1..], interval);
        Trace(rest.final, [AudioSlot(next.currentCount)] + rest.cues, rest.message)
      case Finish(message) => Trace(s, [], Some(message))
  }

  /** Every frame of `times` comes more than `interval` after the one before,
      the first more than `interval` after `last`. */
  predicate AllDue(last: nat, times: seq<nat>, interval: nat)
    decreases |times|
  {
    times == [] || (Elapsed(last, times[0]) > interval && AllDue(times[0], times[1..], interval))
  }

  /** Frames spaced more than the interval apart count a session to its end:
      after `total - currentCount` advances the next frame writes the result,
      and the clips played are exactly those of the numbers left, in order. */
  lemma {:induction false} RunToCompletion(s: AnimationState, times: seq<nat>, interval: nat)
    requires Consistent(s)
    requires AllDue(s.lastUpdate, times, interval)
    requires |times| == s.total - s.currentCount + 1
    ensures Run(s, times, interval).message == Some(SuccessMessage(s))
    ensures Run(s, times, interval).cues == Span(s.currentCount, s.total)
    ensures Run(s, times, interval).final.currentCount == s.total
    decreases |times|
  {
    var step := TickStep(s, times[0], interval);
    if s.currentCount < s.total {
      assert step.Advance?;
      RunToCompletion(step.next, times[1..], interval);
    } else {
      assert step.Finish?;
    }
  }

  /** A frame that is not yet due changes nothing, however many of them come. */
  lemma {:induction false} RunEarlyFramesIdle(s: AnimationState, times: seq<nat>, interval: nat)
    requires Consistent(s)
    requires forall k :: 0 <= k < |times| ==> !IsDue(s, times[k], interval)
    ensures Run(s, times, interval) == Trace(s, [], None)
  {
    if times != [] {
      RunEarlyFramesIdle(s, times[1..], interval);
    }
  }

  /** `n` frame times, `gap` apart, the first `gap` after `start`. */
  function Frames(start: nat, gap: nat, n: nat): (times: seq<nat>)
    ensures |times| == n
    decreases n
  {
    if n == 0 then [] else [start + gap] + Frames(start + gap, gap, n - 1)
  }

  lemma {:induction false} FramesAllDue(start: nat, gap: nat, n: nat, interval: nat)
    requires gap > interval
    ensures AllDue(start, Frames(start, gap, n), interval)
    decreases n
  {
    if n > 0 {
      FramesAllDue(start + gap, gap, n - 1, interval);
      assert Frames(start, gap, n)[1..] == Frames(start + gap, gap, n - 1);
    }
  }
}
