# Series RLC calculator: numeric and validation layer in Dafny

This project models the numeric core of a browser-based series-RLC
calculator and proves properties of it. The core covers:

- the circuit engine: reactances, |Z|, resonant frequency f0, quality factor Q,
  bandwidth and damping ratio;
- the log-spaced frequency sweep of |Z| or of the current |I|;
- the half-power band edges f1 and f2;
- the input validation and helper functions;
- the four-way classification of Q behind the badge;
- the page controller's recalculation and toggle handlers, as a state machine.

Floating point is idealised to Dafny's exact `real`. A JavaScript number is
`Numbers.Num`: `Finite(real)`, `NaN`, `PosInf` or `NegInf`. This keeps the
`isFinite`/`isNaN` guards meaningful. `Math.sqrt`, `Math.log10` and `Math.pow(10, x)`
cannot be computed over exact reals. They are therefore a parameter
`m: Analysis.Functions`, constrained by `Analysis.Lawful(m)`:

- `sqrt` is the non-negative square root;
- `pow10(log10(x)) == x` for x > 0;
- `pow10` is strictly increasing.

`Math.PI` is the decimal constant `3.141592653589793`. A thrown `Error` is a
`Wrappers.Result` failure that carries the error kind, and `MathCore.CoreMessage`
or `Utils.ValidationMessage` gives its message text.

Modules follow the source files:

| module | file |
|---|---|
| `Numbers`, `Analysis`, `Wrappers` | shared definitions |
| `MathCore` | js/math-core.js |
| `Utils` | js/utils.js |
| `UI` | js/ui.js |
| `App` | js/app.js |

The controller's page and chart writes are abstracted into the `App.Screen`
record: figures shown, badge, error line, plot data, band marker, band note and
the highlighted toggle.

## Model

| member | source | states |
|---|---|---|
| MathCore.AssertPositiveNumbers | js/math-core.js:4-8 | the guard passes exactly when every argument is finite and strictly positive |
| MathCore.Impedance | js/math-core.js:34-37 | the impedance at a frequency is at least R, and its square is R^2 plus the square of the net reactance wL - 1/(wC) |
| MathCore.CalcCore | js/math-core.js:10-22 | succeeds iff R, L, C and f are all finite and positive, and otherwise fails with the guard's error; on success XL = wL, XC·wC = 1, Z^2 = R^2 + (XL-XC)^2, Z >= R, f0 > 0 with (2 pi f0)^2 LC = 1, Q > 0 with QR = 2 pi f0 L, BW·Q = f0 and 2·Q·zeta = 1; the defensive check never fires |
| MathCore.AtResonance | js/math-core.js:12-16 | evaluating the same circuit at its own f0 succeeds with XL = XC and Z = R |
| MathCore.SweepFrequency | js/math-core.js:29-33 | the i-th sample is log-spaced: its log10 is log10(fMin) plus i/(N-1) of the way to log10(fMax). It lies in [fMin, fMax], is fMin at i = 0 and is fMax at i = N-1 |
| MathCore.SweepFrequencyIncreasing | js/math-core.js:31-33 | a later sample index gives a strictly higher frequency |
| MathCore.SweepMag | js/math-core.js:24-42 | fails with the guard's error on a non-finite or non-positive argument, then with the range error when fMax <= fMin, then with an array-length error for negative N, and succeeds otherwise; on success f and mag both have N entries, f[i] is the i-th log-spaced sample between fMin and fMax (so within [fMin, fMax]), and mag[i] is the impedance at f[i], so mag[i] >= R |
| MathCore.SweepMagIncreasing | js/math-core.js:27-41 | for N >= 2 the swept frequencies start at fMin, end at fMax and strictly increase |
| MathCore.SweepI | js/math-core.js:44-48 | fails exactly when the impedance sweep fails, with the same error; otherwise it keeps the same frequencies, has one current per frequency with cur[i]·mag[i] = Vin, and for Vin >= 0 has 0 <= cur[i] <= Vin/R |
| MathCore.ComputeBand | js/math-core.js:50-60 | succeeds iff Q and f0 are finite and positive, so the defensive check never fires; on success 0 < f1 < f0 < f2, f2 - f1 = f0/Q and f1·f2 = f0^2 |
| Utils.ZeroRun | js/utils.js:6 | the count of trailing zeros: the counted suffix is all zeros and the character before it is not a zero |
| Utils.TrimZeros | js/utils.js:4-7 | a string without a dot comes back unchanged; otherwise the result is a prefix of the input, and the removed suffix is the leftmost match of the trailing pattern (zeros, optionally preceded by one dot); nothing is removed only when no suffix matches |
| Utils.TrimZerosIdempotent | js/utils.js:4-7 | on a string with exactly one dot, trimming twice equals trimming once |
| Utils.ToSuperscript | js/utils.js:9-12 | the output length is the input length minus the number of '+' signs; the output is the input with '+' removed and each remaining character raised (digits and '-' to their superscript forms, anything else unchanged) |
| Utils.ToSuperscriptAppend | js/utils.js:11 | the per-character translation distributes over concatenation |
| Utils.DropPlus | js/utils.js:10-11 | removing the '+' signs leaves none, keeps every other character as often as it occurred (equal multisets apart from '+') and shortens the string by the count of '+'; a string without '+' is unchanged |
| Utils.DropPlusAppend | js/utils.js:11 | removing '+' distributes over concatenation, so the remaining characters keep their order |
| Utils.FormOf | js/utils.js:14-18 | the display form that both fmt and fmtSup (lines 33-37) choose: a dash iff the number is not finite, "0" iff it is zero, fixed-point iff 0.01 <= abs(x) < 1000, scientific for every other non-zero finite number |
| Utils.FormOfNegation | js/utils.js:16-18 | the display form depends only on the magnitude |
| Utils.FirstInvalid | js/utils.js:53-56 | the scan stops at the first value that is not finite and positive, and every value before it passes |
| Utils.ParseAndValidate | js/utils.js:51-59 | succeeds iff all five fields are finite and positive, and then returns the values unchanged; a failure names a field that fails, all earlier fields in the order R, L, C, f, Vin pass, and the error is "not a number" exactly when the value is not finite (NaN or an infinity), and "must be positive" otherwise |
| Utils.ParseAndValidateExamples | js/utils.js:51-56 | R = 0 is rejected as not positive under "R"; f = -5 under "f" once the earlier fields pass; with L = -infinity the error is "not a number" under "L", although later fields also fail |
| Utils.ClampSweep | js/utils.js:61-65 | the result always has 0 < fMin < fMax; a finite range with 0 < fMin < fMax comes back unchanged; a bad fMin becomes 1; a bad fMax becomes ten times fMin |
| Utils.ClampSweepIdempotent | js/utils.js:61-65 | repairing a repaired range changes nothing |
| Utils.ClampSweepDefaults | js/utils.js:61 | with both bounds missing the range is 10 to 100000 |
| UI.Classify | js/ui.js:23-47 | Q < 0.5 is overdamped, 0.5 <= Q < 2 broad, 2 <= Q < 10 moderate, Q >= 10 sharp; NaN and +infinity fall through to sharp |
| UI.ClassifyMonotone | js/ui.js:23-42 | the category level never decreases as Q grows |
| UI.RenderQBadge | js/ui.js:16-49 | the class list is "badge " followed by the category's single class; there are always two pros, and two cons except for moderate, which has one |
| UI.BadgeClassesDistinguish | js/ui.js:18-48 | two badges have the same class list iff their categories are the same |
| App.SweepWindow | js/app.js:44-45 | the window's lower edge is at least 1 Hz and at least f0/20, and is one of the two; the upper edge is 20·f0 |
| App.SweepWindowShape | js/app.js:44-45 | the window is a proper range iff f0 > 1/20 Hz; for f0 >= 20 Hz, fMin·fMax = f0^2 and fMax = 400·fMin; it contains f0 whenever f0 >= 1 Hz |
| App.SweepForMode | js/app.js:46-52 | succeeds exactly when the window is a proper range, and otherwise fails with the range error; the impedance mode plots exactly the f and |Z| data of a 400-point impedance sweep over the window, any other mode exactly the f and current data of a 400-point current sweep with the form's Vin |
| App.Calculated | js/app.js:36-37 | validation followed by the resonance calculation yields figures exactly when validation succeeds, and then Q and f0 are positive |
| App.RecalcAndRender | js/app.js:34-71 | mode, checkbox and active toggle never change. A validation failure only sets the error line. Once the calculation succeeds, lastRes becomes (Q, f0) and the figures and badge are shown; otherwise lastRes is unchanged. The error line ends empty iff the calculation succeeded and f0 > 1/20. If f0 <= 1/20, the range error is shown and the previous plot, band markers and note stay. On a clean run the plot is the mode's sweep over the window, the marker holds the half-power band computed from (Q, f0), enabled as the checkbox says, and the note names that same band when enabled and is empty otherwise |
| App.ShowResults | js/app.js:38-67 | after a successful calculation: Q and f0 are remembered and the figures and badge shown; a window with f0 <= 1/20 only shows the range error and keeps the previous plot, markers and note; otherwise the plot is the mode's sweep, the marker is the band from (Q, f0) and the note names the same band exactly when the checkbox is on |
| App.CleanRecalcShape | js/app.js:46-56 | when the calculation succeeds with f0 > 1/20, the plot has the mode's kind with 400 points, and the enabled-as-checked marker brackets f0 with f2 - f1 = f0/Q and f1·f2 = f0^2 |
| App.ToggleZ | js/app.js:79-86 | the mode and highlighted toggle become the impedance view, the checkbox state is kept, and a clean recalculation plots |Z| |
| App.ToggleI | js/app.js:87-94 | the mode and highlighted toggle become the current view, the checkbox state is kept, and a clean recalculation plots the current |
| App.ToggleBandwidth | js/app.js:97-118 | the checkbox state is recorded; mode, lastRes, error line, plot, figures, badge and active toggle are kept. Unchecking switches the marker off and clears the note. Checking with a remembered positive Q and f0 shows an enabled marker holding exactly the band computed from them (0 < f1 < f0 < f2, f2 - f1 = f0/Q, f1·f2 = f0^2) and a note naming it. Checking with nothing remembered changes nothing else |
| App.Step | js/app.js:73-118 | every user action keeps the remembered Q and f0 positive |
| App.ModeAndCheckboxFollowLastAction | js/app.js:79-118 | after any sequence of actions, the mode is the one set by the last view toggle and the checkbox state is the one set by the last checkbox change; each keeps its initial value when there was no such action |
| App.RunRemembersPositive | js/app.js:41 | over any sequence of actions the remembered Q and f0 stay positive, so the truthiness test at line 110 always passes once something is remembered |
| App.DefaultsRender | js/app.js:26-57 | a recalculation with the form's starting values (R = 100, L = 0.01, C = 1e-6, f = 1000, Vin = 1) succeeds, remembers Q = 1 and 1591.5 < f0 < 1591.6, and plots |Z| |

## Left out

- js/charts.js is not part of this model: chart configuration, drawing, the band plugin and PNG export are rendering and I/O.
- DOM plumbing is not modelled: `renderResults`, the HTML assembly of the quick note (js/ui.js:50-69), `readInputs`, `setDefaults`, the event wiring, the input handlers that clear the error line, the PNG save handler and `init`. The form's values come in as `Utils.RawInputs`.
- IEEE-754 behaviour is idealised away: rounding in `hypot`, `sqrt`, `log10`, `pow`, `round` and `toFixed`, overflow to infinity, and NaN propagation. As a consequence the `isFinite` halves of the defensive checks at js/math-core.js:20 and :58 cannot fire in the model.
- Analysis.Functions: `Math.sqrt`, `Math.log10` and `Math.pow(10, x)` are parameters that obey the laws of `Analysis.Lawful`, not computed functions.
- MathCore.SweepMag: requires N != 1, because a single sample computes t = 0/0 = NaN, which has no real counterpart. A non-integer N, which the array constructor also rejects, is not representable.
- MathCore.SweepI: Vin is a finite real; a non-finite Vin is not modelled. The defaults N = 400 and Vin = 1.0 are not modelled as defaults, because every caller passes both.
- Utils.FormOf: models only the choice of display form. The mantissa and exponent text (js/utils.js:19-29 and 38-48) depends on floating-point `log10`, `round` and `toFixed`.
- Utils.ToSuperscript: takes the string directly; the `String(n)` conversion of a number is left out.
- Utils.ParseAndValidate: the `+value` string-to-number coercion is a runtime conversion. The inputs are already-coerced `Num` values, so the redundant `isNaN` test merges with `isFinite`.
- Utils.ClampSweep: arguments are numbers or absent; `null` or string arguments, which the source does not coerce, are not modelled.
- App.ToggleBandwidth: the chart is assumed to exist, so the early return when it does not (js/app.js:99) is left out. The note element is assumed present in all handlers (js/app.js:61 and 114).
- App.ToggleZ and App.ToggleI: the four class-list edits per toggle are summarised as one highlighted-toggle field.
- The engine repeats the positivity guard in every function instead of relying on a single validation boundary. The model follows the code.
