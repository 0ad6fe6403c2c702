# Handy-Calculator ("The Literal Calculator"): the screen controller

Handy-Calculator is a desktop toy that adds two small numbers by counting them
out on a picture of hands and feet. The user types `a+b` into a text box and
clicks "Count!". The program shows the numbers 1, 2, … on the fingers, and on
the toes above ten, and plays the spoken number each time. The count goes up
at the first frame that comes strictly more than 600 ms after the previous step
(`src/main.rs:164`).
It then shows `"a + b = total"`. A sum above twenty does not fit on the limbs
and is refused.

This project models the controller behind the three screens (Calculator,
Animation, Result) and proves properties of it. The model covers two versions
of the controller:

- `Calculator.LiteralCalculatorApp` models `src/main.rs`.
- `Draft.LiteralCalculatorApp` models the earlier draft in `src/app.rs`. That
  version uses a 750 ms interval, ignores malformed input without a message,
  uses one fixed limit message, plays no audio, and computes the sum in `u8`.

The modules:

- `RustStr` models the parts of Rust's standard library the input handling
  relies on: `char::is_whitespace`, `str::trim`, `str::split` on one
  character, `str::parse::<u8>` and the decimal `Display` of an integer.
- `Limbs` holds the index arithmetic. It maps a count to an audio clip, and a
  number to a finger or toe entry.
- `Expression` is the `a+b` parse that both versions share.
- `Session` holds the views, the animation session (`AnimationState`), the
  clock, one animation frame (`TickStep`) and runs of frames (`Run`).
- `Calculator` and `Draft` hold the two controller classes, each with its
  "Count!" evaluation.

Modelling choices:

- The egui frame loop becomes one method per screen, plus `Update`, which
  dispatches one frame with one user `Event`:
  - `Edit` is the text box;
  - `Submit` is "Count!";
  - `Tick` is one frame of the animation screen;
  - `Reset` is "New Calculation".
- Time is a natural number of milliseconds, passed in as `now`.
- `Instant::elapsed` saturates at zero (`Elapsed`).
- A step is due when strictly more than the interval has passed.
- Audio playback becomes the clip index that `Tick` returns. The same index is
  appended to the ghost log `cues`. Clip `k` speaks the number `k + 1`, so the
  clips played for counts 1, 2, …, total are the indices 0, 1, …, total − 1.

Facts about the code that the model keeps:

- When the count finishes, the session stays in `animation_state` while the
  Result screen is shown (`src/main.rs:171-174`). Only "New Calculation" drops
  it.
- "New Calculation" keeps `result_message` (`src/main.rs:186-190`).
- An operand above 255 does not parse as a `u8`, so it gives the number error
  (`src/main.rs:120`).
- In `src/main.rs` the sum is computed in `u16` (`src/main.rs:121`), so it
  cannot overflow.
- `Update` states, for each screen and each event, the whole new state: the
  effect of the text box, "Count!", one animation frame or "New Calculation",
  and no change at all for any other event.

## Model

| member | source | states |
|---|---|---|
| RustStr.IsWhitespace | src/main.rs:118 | `char::is_whitespace`, the characters `trim` removes: the 25 code points with the Unicode White_Space property (U+0009 to U+000D, space, U+0085, U+00A0, U+1680, U+2000 to U+200A, U+2028, U+2029, U+202F, U+205F, U+3000) |
| RustStr.Trim | src/main.rs:118 | `str::trim`: whitespace dropped at the front, then at the back; its properties are stated by `TrimStartSpec`, `TrimEndSpec`, `TrimSpec` and `TrimPadded` |
| RustStr.TrimStartSpec | src/main.rs:118 | trimming the front keeps a suffix of the input, everything cut off is whitespace, and the result does not start with whitespace |
| RustStr.TrimEndSpec | src/main.rs:118 | trimming the back keeps a prefix of the input, everything cut off is whitespace, and the result does not end with whitespace |
| RustStr.TrimSpec | src/main.rs:118 | a trimmed segment never begins or ends with whitespace |
| RustStr.TrimPadded | src/main.rs:118 | trimming gives back exactly the text between any whitespace padding |
| RustStr.TrimKeepsOut | src/main.rs:118 | trimming introduces no character, so a trimmed segment has no `+` |
| RustStr.Split | src/main.rs:118 | splitting on `+` gives one segment more than there are `+` in the input |
| RustStr.SplitSegmentsFree | src/main.rs:118 | no segment of the split contains the separator |
| RustStr.SplitNoSeparator | src/main.rs:118 | text without the separator splits into itself alone |
| RustStr.SplitAfterPrefix | src/main.rs:118 | a separator-free prefix followed by the separator becomes the first segment, and the rest splits on its own |
| RustStr.SplitJoin | src/main.rs:118 | splitting undoes joining, for segments free of the separator |
| RustStr.JoinSplit | src/main.rs:118 | joining the segments with the separator gives back the input |
| RustStr.SplitTwo | src/main.rs:118-119 | text with exactly one `+` splits into the two sides around it |
| RustStr.Decimal | src/main.rs:172 | the formatted number is a non-empty string of digits |
| RustStr.DecimalValue | src/main.rs:172 | the formatted number denotes the number, and has no leading zero unless the number is 0 |
| RustStr.ParseU8 | src/main.rs:120 | a successful `parse::<u8>` gives a value of at most 255 |
| RustStr.ParseUnsigned | src/main.rs:120 | without a sign, exactly the non-empty digit strings with value at most 255 parse, to their value |
| RustStr.ParseDecimal | src/main.rs:120 | formatting then parsing gives back the number exactly when it fits in a `u8` |
| RustStr.ParsedIsNumeral | src/main.rs:120 | a segment that parses holds only digits after an optional leading `+`, so it has no space and no `-` |
| RustStr.ParseRejectsEmptyAndMinus | src/main.rs:120 | an empty segment (as in `3+`) and a negative number do not parse |
| Limbs.AudioSlot | src/main.rs:167 | the clip for counts 1 to 20 is `count - 1` and lies in the 20-entry table |
| Limbs.SlotOf | src/main.rs:156-160 | numbers 1 to 10 take finger entry `i - 1` and numbers 11 to 20 toe entry `i - 11`, both in their tables |
| Limbs.NumberAt | src/main.rs:156-160 | each finger or toe entry holds a number from 1 to 20 |
| Limbs.NumberAtSlotOf | src/main.rs:156-160 | no two numbers share a finger or toe |
| Limbs.SlotOfNumberAt | src/main.rs:156-160 | every one of the twenty entries is used by some number |
| Limbs.ShowFeet | src/main.rs:144 | the feet picture is shown when the sum is above 10 |
| Limbs.IsFirstOperand | src/main.rs:155 | number `i` takes the first operand's colour when `i ≤ num1` |
| Expression.ParseSum | src/main.rs:118-120 | the shape is wrong exactly when the input does not hold one `+`, and parsed operands are at most 255 |
| Expression.ParseSumOfSides | src/main.rs:118-120 | with one `+`, parsing succeeds exactly when both trimmed sides are `u8` numerals, and gives their values |
| Expression.ParseSumOfNumerals | src/main.rs:118-120 | two numerals with any whitespace around them parse to their values when both fit in a `u8`, and are a number error otherwise |
| Expression.PaddedSide | src/main.rs:118-120 | a numeral padded with whitespace has no `+`, trims to the numeral, and is a `u8` numeral exactly when the number is at most 255 |
| Expression.NumeralPaddedHasNoPlus | src/main.rs:118 | a numeral padded with whitespace holds no `+` |
| Expression.PlainSide | src/main.rs:118 | a bare numeral holds no `+` and is left alone by trimming |
| Expression.ParseSumPlain | src/main.rs:118-120 | `a+b` with no padding parses to `(a, b)` when both fit in a `u8`, and is a number error otherwise |
| Session.NewSession | src/main.rs:126 | a new session has the operands, their sum, count 0 and the time of the click, and is consistent |
| Session.Admit | src/main.rs:122-128 | a sum above 20 is refused as too many limbs, quoting the sum; any other sum starts a session with the operands and that sum |
| Session.Elapsed | src/main.rs:164 | the elapsed time is `now - since`, and zero if the clock reads earlier |
| Session.IsDue | src/main.rs:164 | a frame is due when strictly more than the interval (600 ms here, 750 ms in `src/app.rs:104`) has passed since the last step |
| Session.SuccessMessage | src/main.rs:172 | the result text `"{num1} + {num2} = {total}"`, also used at `src/app.rs:111` |
| Session.TickStep | src/main.rs:164-174 | a frame before the interval changes nothing; a due frame below the sum adds exactly one and restarts the timer; a due frame at the sum writes `"a + b = total"` |
| Session.Span | src/main.rs:153 | the numbers `lo` to `hi - 1` in order |
| Session.Run | src/main.rs:164-174 | across frames the session stays consistent with the same sum, the count never goes down, the clips played are those of the counts passed, in order, and a message comes only at the end |
| Session.RunToCompletion | src/main.rs:164-174 | due frames count a session to its sum, playing each remaining clip once and in order, and then write the result message |
| Session.RunEarlyFramesIdle | src/main.rs:164 | frames that are not due change nothing |
| Session.Frames | src/main.rs:164 | a schedule of `n` frame times |
| Session.FramesAllDue | src/main.rs:164 | frames spaced more than the interval apart are all due |
| Calculator.Evaluate | src/main.rs:118-130 | the click always has an effect; the format error comes exactly when the input does not hold one `+`; the number error exactly when a side is not a `u8` numeral; a session it starts has total = num1 + num2 ≤ 20 |
| Calculator.EvaluateOperands | src/main.rs:121-128 | with parsed operands, a sum above 20 is refused quoting the sum, and any other sum starts a session with it |
| Calculator.EvaluateNumerals | src/main.rs:118-130 | two numerals with any whitespace give the number error above 255, then the limit error above 20, and otherwise a session |
| Calculator.LimitError | src/main.rs:123 | the limit message `"Error: Sum ({total}) is greater than 20. I've run out of limbs!"` |
| Calculator.Text | src/main.rs:123-130 | the message each refusal shows: the format error (line 130), the number error (line 129), the limit error quoting the sum (line 123) |
| Calculator.TextIdentifies | src/main.rs:123-130 | two refusals show the same message exactly when they are the same refusal, with the same sum for the limit error |
| Calculator.KindLetter | src/main.rs:123-130 | the format, number and limit messages differ in their eighth character |
| Calculator.LimitErrorInjective | src/main.rs:123 | two limit messages with the same text quote the same sum |
| Calculator.NumberLabels | src/main.rs:153-160 | the numbers drawn are 1 to the count; each lookup is in range and has its own position; toes are used only when the feet are shown; exactly the numbers up to `num1` take the first colour |
| Calculator.CountsToTheSum | src/main.rs:164-174 | an accepted sum, fed due frames, plays the clips for 1 to the sum in order and ends on `"a + b = a+b"` |
| Calculator.SixPlusFive | src/main.rs:144 | 6 + 5 shows the feet and ends on "6 + 5 = 11" |
| Calculator.LiteralCalculatorApp.constructor | src/main.rs:84-93 | the app starts on the calculator screen with empty input, no session and no message |
| Calculator.LiteralCalculatorApp.Edit | src/main.rs:115 | the text box sets the input and nothing else |
| Calculator.LiteralCalculatorApp.Submit | src/main.rs:117-131 | a rejected input sets the message of its refusal and shows the result screen without touching the session; an accepted one starts a new session and shows the animation; the input is kept |
| Calculator.LiteralCalculatorApp.Show | src/main.rs:122-130 | the screen change for an evaluated click, keeping the invariant |
| Calculator.LiteralCalculatorApp.Tick | src/main.rs:164-175 | one frame as `TickStep` says; a due advance plays the clip of the new count, which is in range, and the invariant (count ≤ total ≤ 20, clips 0 to count − 1 played in order) is kept |
| Calculator.LiteralCalculatorApp.Reset | src/main.rs:186-190 | clears the input, drops the session and returns to the calculator screen; the message is kept |
| Calculator.LiteralCalculatorApp.Update | src/main.rs:98-106 | one frame dispatched by the screen shown: the text box sets the input, "Count!" gives the new state of `Submit`, an animation frame that of `Tick`, "New Calculation" that of `Reset`, and any other event changes nothing; the invariant is kept, the screen changes only along the allowed transitions, and within the animation the sum stays and the count never goes down |
| Draft.WrappingAddU8 | src/app.rs:73 | the `u8` sum is exact up to 255 and 256 less above it |
| Draft.EvaluateAsWritten | src/app.rs:70-91 | the input is ignored exactly when it is not two `u8` operands around one `+`, and a session it starts has total ≤ 20 |
| Draft.AsWrittenOperands | src/app.rs:72-87 | with parsed operands, the wrapped sum alone decides between the refusal and a session |
| Draft.WrappedSumStartsWrongSession | src/app.rs:73-87 | operands whose sum exceeds 255 by at most 20 start a session whose total is the wrapped sum, where the overflow-free sum refuses them |
| Draft.TwoHundredFiftyPlusTen | src/app.rs:73-87 | `250+10` starts a session counting to 4, where the overflow-free sum refuses it as 260 |
| Draft.Evaluate | src/app.rs:70-91 | with the sum computed without overflow (the corrected version): malformed input is ignored exactly when it is not two `u8` operands, a refusal is always a sum above 20, and a session has total = num1 + num2 ≤ 20 |
| Draft.AsWrittenAgrees | src/app.rs:73 | where the `u8` sum does not overflow, the code as written and the overflow-free sum behave the same |
| Draft.EvaluateOperands | src/app.rs:73-87 | with the sum computed without overflow (the corrected version): for parsed operands, only the sum decides between the refusal and a new session |
| Draft.EvaluateNumerals | src/app.rs:70-91 | with the sum computed without overflow (the corrected version): two numerals with any whitespace are ignored above 255, refused above 20, and otherwise start a session |
| Draft.WrongShapeIgnored | src/app.rs:71 | input without exactly one `+` is ignored |
| Draft.SameSessions | src/app.rs:70-87 | with the sum computed without overflow (the corrected version), the draft and the final version start the same session on the same input |
| Draft.SameSessionsAsWritten | src/app.rs:70-87 | the draft as written starts the same session as the final version on every input whose `u8` sum does not overflow |
| Draft.LiteralCalculatorApp.constructor | src/app.rs:31-38 | the app starts on the calculator screen with empty input, no session and no message |
| Draft.LiteralCalculatorApp.Edit | src/app.rs:64 | the text box sets the input and nothing else |
| Draft.LiteralCalculatorApp.Submit | src/app.rs:68-91 | malformed input changes nothing; a sum above 20 sets the fixed message and shows the result screen; otherwise a new session counts to the sum on the animation screen |
| Draft.LiteralCalculatorApp.Show | src/app.rs:71-88 | the screen change for an evaluated click: nothing, the fixed limit message, or a new session, keeping the invariant |
| Draft.LiteralCalculatorApp.Tick | src/app.rs:99-117 | one frame as `TickStep` says, with a 750 ms interval; count ≤ total ≤ 20 is kept and the session stays after the count ends |
| Draft.LiteralCalculatorApp.Reset | src/app.rs:128-133 | clears the input, drops the session and returns to the calculator screen; the message is kept |
| Draft.LiteralCalculatorApp.Update | src/app.rs:43-53 | one frame dispatched by the screen shown: the text box sets the input, "Count!" gives the new state of `Submit`, an animation frame that of `Tick`, "New Calculation" that of `Reset`, and any other event changes nothing; the invariant is kept, the screen changes only along the allowed transitions, and within the animation the sum stays and the count never goes down |

## Left out

- Drawing is not modelled: headings, labels, the text-box widget, images and text placement. `request_repaint` is not modelled either, because it only schedules the next frame.
- The `f32` tables `FINGER_POSITIONS` and `TOE_POSITIONS`, the aspect ratios and the rectangle arithmetic are left out, because they are floating-point layout. Only the table index chosen is modelled.
- Texture loading and the embedded image and audio assets are left out, because they are foreign library calls and binary data.
- Audio output is not modelled, because it is I/O: the rodio stream, the MP3 decoder and `play_raw`. The model returns the index of the clip that would be played.
- `main` and the window options are not modelled, because they are process and event-loop setup.
- `Instant::now` and `elapsed` become a millisecond timestamp passed in by the caller. The model says nothing about real time passing between frames.
- A click and a text edit in the same frame are modelled as two separate steps, `Edit` then `Submit`.
- Draft.LiteralCalculatorApp.Submit: requires that the `u8` sum of the parsed operands does not overflow. Above 255, a debug build panics at `src/app.rs:73` and a release build wraps; the wrapped behaviour is modelled by `Draft.EvaluateAsWritten` (see Findings).
- Draft.LiteralCalculatorApp.Update: carries the same no-overflow requirement when it forwards a "Count!" click.

## Findings

| source | as written | input that shows it | evidently intended | confidence | as-written member | corrected member |
|---|---|---|---|---|---|---|
| src/app.rs:73 | `num1 + num2` is computed in `u8`, so two operands that each parse as a `u8` can overflow it: a debug build panics, and a release build wraps modulo 256 | `250+10`: in a release build the sum wraps to 4 and a session counting to 4 starts, whose total is not the sum of its operands; a debug build panics | compute the sum without overflow (as `src/main.rs:121` does in `u16`), so `250+10` is refused as a sum of 260 above 20 and shows the limit message | not executed | Draft.EvaluateAsWritten, Draft.TwoHundredFiftyPlusTen | Draft.Evaluate |
