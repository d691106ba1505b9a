# Tip calculator: calculation, input coercion and loading sequencer

This project models the logic of a one-page bill-splitting calculator
(`src/app/page.tsx`). The page holds three inputs: the bill amount, the tip
percentage and the number of people. On every render it turns them into a
tip amount, a total bill and a per-person share, or the marker 'Invalid'
when there is no usable party size. Before the calculator appears, a
loading screen raises a progress value in random steps until it reaches
100, and only then clears the `isLoading` flag.

The model has four modules:

- `Wrappers` holds the shared value types. `Option` is a parse result, with
  `None` standing for NaN. `NumberOrNull` is a JavaScript `number | null`
  state value: `Null`, `NaN` or `Num(x)`.
- `TipCalculator` models `calculateTip` as a pure function over exact
  `real` arithmetic, together with its fallbacks for a missing, NaN or
  negative bill and a missing, NaN or non-positive party size. It keeps the
  source's early return for a negative bill and proves that no input
  reaches it.
- `InputHandlers` has the class `CalculatorInputs`. Its fields are the
  three held inputs; its methods are the change handlers of the bill box,
  the tip slider, the tip number box and the party-size box. Its invariant
  is that the stored tip is never negative and the stored party size is
  never NaN.
- `LoadingSequencer` models the random step `Math.floor(Math.random() * 15) + 5`
  and the clamped `setProgress` updater as functions. It also has the class
  `Loader` with the fields `progress` and `isLoading`, the tick and settle
  moves, the effect's dispatch between them, the gate in front of the
  calculator, and a loop that runs loading to its end with the termination
  measure `100 - progress`. The trace function `ProgressAfter` gives the
  progress after a number of ticks; lemmas about it prove the bounds,
  monotonicity and saturation within 20 ticks.

Facts about the code that shape the model:

- The random step ranges over 5 to 19 (`Math.floor(Math.random() * 15) + 5`, line 119).
- The settle delay is the 700 ms timer (line 126), not modelled as time.
- An unusable party size becomes 0, and that 0 produces 'Invalid' (lines 155, 168).
- The tip box truncates its entry with `parseInt` (line 234). In the model the parsed integer is an input.

## Model

| member | source | states |
|---|---|---|
| `TipCalculator.NormalizeBill` | src/app/page.tsx:154 | the bill used is 0 for a null, NaN or negative bill and the held value otherwise, so it is never negative |
| `TipCalculator.NormalizePeople` | src/app/page.tsx:155 | the party size used is never negative; it is positive exactly when the held value is a positive number, and then equals it |
| `TipCalculator.CalculateTip` | src/app/page.tsx:153-177 | `calculateTip`, with its unreachable early return kept; no contract of its own, its properties are the lemmas below |
| `TipCalculator.EarlyReturnUnreachable` | src/app/page.tsx:154-163 | the guard `currentBillAmount < 0` of the early return is false for every held bill |
| `TipCalculator.TipAndTotalEquations` | src/app/page.tsx:165-176 | for every input, valid party or not, tip × 100 = bill × percentage and total = bill + tip |
| `TipCalculator.TipAndTotalBounds` | src/app/page.tsx:165-166 | with a non-negative percentage the tip is non-negative, and the total is at least the bill and at least the tip |
| `TipCalculator.InvalidExactlyWithoutParty` | src/app/page.tsx:155-170 | the share is 'Invalid' if and only if the normalised party size is not positive, that is, if and only if the held party size is not a positive number |
| `TipCalculator.InvalidIndependentOfBillAndTip` | src/app/page.tsx:167-170 | whether the share is 'Invalid' is the same for any two bills and tips with the same party size |
| `TipCalculator.ShareSplitsTotal` | src/app/page.tsx:167-170 | for a party of n > 0 the share is a number, and n shares make up the total bill |
| `TipCalculator.ShareNonIncreasing` | src/app/page.tsx:165-170 | for a fixed bill and a non-negative tip the share of a larger party is no greater than that of a smaller one |
| `TipCalculator.NormalizationIdempotent` | src/app/page.tsx:154-155 | feeding a normalised bill or party size back through its fallback leaves it unchanged |
| `TipCalculator.Examples` | src/app/page.tsx:153-177 | 100 at 20% for 4 gives 20, 120, 30 each; no bill at 15% for 2 gives 0, 0, 0 each; 50 at 10% with no party or a party of 0 gives 5, 55, 'Invalid'; 30 at 150% for 3 gives 45, 75, 25 each |
| `InputHandlers.CoerceTipEntry` | src/app/page.tsx:233-237 | the tip box stores 0 for empty or non-numeric text and otherwise the larger of 0 and the parsed integer, so the stored tip is never negative |
| `InputHandlers.TipEntryKeepsNonNegative` | src/app/page.tsx:234-236 | a non-negative typed tip, including one above 100, is stored unchanged |
| `InputHandlers.CalculatorInputs.constructor` | src/app/page.tsx:103-105 | the page starts with no bill, a 0% tip and one person, which satisfies the invariant |
| `InputHandlers.CalculatorInputs.SetBillAmount` | src/app/page.tsx:209 | empty text stores null, unparsable text stores NaN, a parsed number is stored as is; the other inputs are unchanged |
| `InputHandlers.CalculatorInputs.SetTipFromSlider` | src/app/page.tsx:217-225 | the slider's integer value in [0, 100] is stored as the tip; the other inputs are unchanged |
| `InputHandlers.CalculatorInputs.SetTipFromBox` | src/app/page.tsx:233-237 | the tip box stores its coerced entry and keeps the invariant; the other inputs are unchanged |
| `InputHandlers.CalculatorInputs.SetNumberOfPeople` | src/app/page.tsx:260-271 | empty text stores null, unparsable text leaves the party size as it was, a parsed integer (0 and negatives too) is stored as is; the invariant holds and the other inputs are unchanged |
| `InputHandlers.CalculatorInputs.Result` | src/app/page.tsx:179 | in every state the handlers can reach, the tip is non-negative, the total covers bill and tip, and the share is 'Invalid' exactly when the stored party size is not a positive number |
| `LoadingSequencer.Increment` | src/app/page.tsx:119 | for every value of `Math.random()` in [0, 1) the step lies between 5 and 19 |
| `LoadingSequencer.EveryIncrementDrawable` | src/app/page.tsx:119 | every step from 5 to 19 is produced by some value in [0, 1) |
| `LoadingSequencer.NextProgress` | src/app/page.tsx:118-121 | the updater's result is at most 100 and is either 100 or the old value plus the step; it never decreases a value up to 100, and below 100 it adds at least 5 or reaches 100 |
| `LoadingSequencer.ProgressAfter` | src/app/page.tsx:116-123 | progress after one tick per draw; from a start in [0, 100] it stays between the start and 100, and draws after progress reaches 100 are unused |
| `LoadingSequencer.ProgressAfterBounds` | src/app/page.tsx:116-123 | after any number of ticks from a start in [0, 100], progress lies between the start and 100 and is either 100 or at least start + 5 per tick |
| `LoadingSequencer.ProgressAfterMonotone` | src/app/page.tsx:117-122 | progress after fewer ticks is never greater than progress after more ticks |
| `LoadingSequencer.SaturatesWithinBound` | src/app/page.tsx:116-124 | when 5 × ticks ≥ 100 − start, progress has reached 100, so from 0 it takes at most 20 ticks |
| `LoadingSequencer.Loader.constructor` | src/app/page.tsx:106-109 | loading starts at 0% with `isLoading` set |
| `LoadingSequencer.Loader.Tick` | src/app/page.tsx:116-123 | a tick, possible only while loading below 100, sets progress by the updater, keeps loading and keeps the invariant |
| `LoadingSequencer.Loader.Settle` | src/app/page.tsx:124-127 | the settle step, possible only while loading at 100, clears `isLoading` and leaves progress at 100 |
| `LoadingSequencer.Loader.Step` | src/app/page.tsx:113-137 | the effect ticks below 100, settles at 100 and does nothing once loading has ended; progress never decreases, and `isLoading` stays false once false |
| `LoadingSequencer.Loader.ShowsCalculator` | src/app/page.tsx:182-184 | the calculator is shown only once loading has ended, and then progress is 100 |
| `LoadingSequencer.Loader.Load` | src/app/page.tsx:113-137 | loading runs to its end at 100 with `isLoading` cleared, after at most 20 ticks; the last tick is the first to reach 100, and no tick happens in a state that has already ended |

## Left out

- Presentation is not modelled: the JSX, `ResultRow`, the `LoadingScreen` markup and its 500 ms "Done!" text, the card and badge components, the CSS class choices and the version label.
- The zod schema and the react-hook-form wiring are not modelled, including `field.onChange` in the party-size box. They only validate and show messages, and `calculateTip` never reads them.
- `useToast`, `useSearchParams` and the empty effect are not modelled. They are foreign hooks with no logic.
- The share is kept as an exact `real`. Its `toFixed(2)` formatting, and the `toFixed(2)` display of tip and total, are not modelled.
- Amounts use exact `real` arithmetic, not IEEE-754 doubles. Rounding and Infinity are not represented.
- `parseInt` and `parseFloat` are not modelled as text parsing. Each entry is given as blank text or as the parser's result, with `None` for NaN.
- `Math.random()` becomes a parameter: a real in [0, 1) per tick.
- Timers are not modelled: the `setInterval` and `setTimeout` scheduling, the 200 ms and 700 ms delays, and the cleanup by `clearInterval` and `clearTimeout`. Only the state changes they cause are modelled. The model assumes that the interval fires only while the effect last saw progress below 100.
- `LoadingSequencer.Loader.Load` is given its random draws as a finite sequence of at least 20 values, because 20 ticks always suffice.
- `InputHandlers.CalculatorInputs.SetTipFromSlider` takes the browser's guarantee that a range input with `min="0"`, `max="100"` and `step="1"` yields an integer in [0, 100] as a precondition.
