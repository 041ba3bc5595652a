# BMI calculator screens, modelled in Dafny

This project models the logic of a small React Native app that computes a Body
Mass Index from a height in centimetres and a weight in kilograms.

The app has two screens, and the model covers both:

- **The calculator screen** (`App.js`). A validation schema accepts each field
  only when it is non-empty and parses as a number above zero. When the schema
  rejects the input, its issues are folded into a `{height, weight}` error
  record and the handler returns early: the BMI and status already on screen
  stay there. When the input is valid, the height is converted to metres, the
  BMI is `w / (h * h)`, the BMI is shown rounded to two decimals, and the status
  is classified from the unrounded value. The classifier uses eight categories,
  separated by strict `<` comparisons against 16, 17, 18.5, 25, 30, 35 and 40.
- **The simpler screen** (`test.js`). It checks only that both inputs parse
  and that the height in metres is positive. It shows the rounded BMI, or a
  fixed "invalid data" notice. A zero or negative weight is accepted.

Files:

- `numbers.dfy` (module `Numbers`): parseFloat as a partial parser, the BMI
  formula and two-decimal rounding.
- `classification.dfy` (module `Classification`): the status classifier.
- `app.dfy` (module `App`): the schema's acceptance rule and the issue folding.
  It also holds the screen state as the class `Form`, whose `CalculateBMI`
  method is the button handler.
- `test_app.dfy` (module `TestApp`): the simpler screen as the class
  `SimpleForm`.
- `comparison.dfy` (module `Comparison`): how the two acceptance rules relate.

The schema's `nonempty` check (App.js:15, App.js:19) only rejects the empty
string, and nothing trims whitespace. So `" "` passes the emptiness check and is
then judged by parseFloat.

A failed validation does not clear an earlier result. The early return
(App.js:49) leaves the previous BMI and status on screen;
`App.StaleResultSession` shows this.

## Model

| member | source | states |
|---|---|---|
| `Classification.GetStatus` | App.js:25-34 | the returned category is the one whose band holds the value: at or above the cut-off below it and strictly below the cut-off above it |
| `Classification.BandUnique` | App.js:25-34 | totality and exclusiveness: each value lies in the band of exactly one category, the one getStatus returns |
| `Classification.RankCountsThresholds` | App.js:26-33 | the category's position (0 to 7) equals the number of the seven ascending cut-offs the value has reached, which is what first-match over ascending strict comparisons means |
| `Classification.StatusMonotone` | App.js:26-33 | a larger BMI never gets a thinner category |
| `Classification.BoundaryValues` | App.js:26-33 | each cut-off belongs to the category above it: 16 is Moderate Thinness, 17 Mild Thinness, 18.5 Normal, 25 Overweight, 30 Obese Class I, 35 Obese Class II, 40 Obese Class III |
| `Classification.LabelsDistinct` | App.js:26-33 | different categories are shown with different texts |
| `Numbers.BmiOf` | App.js:52-54 | the BMI times the squared height in metres gives back the weight, and the BMI has the sign of the weight (positive, zero or negative) |
| `Numbers.ToFixed2` | App.js:56 | the shown value is the multiple of 0.01 nearest to the BMI, with ties rounded away from zero, as toFixed(2) does |
| `App.Accepts` | App.js:14-23 | the schema's rule for one field, the same for height and weight: the text is non-empty, and parseFloat of it is a number (not NaN) greater than 0 |
| `App.SchemaAccepts` | App.js:40-42 | safeParse succeeds exactly when both the height and the weight are accepted by that rule |
| `App.Aggregate` | App.js:43-47 | the issues written one after the other, in order, into a `{height: '', weight: ''}` record, each into its own field's slot |
| `App.IssuesFit` | App.js:40-44 | what the handler relies on from the schema library: every issue is about a rejected field and carries one of that field's two messages, and every rejected field has at least one issue |
| `Classification.Label` | App.js:26-33 | the eight status texts the screen shows, one per category |
| `TestApp.Accepts` | test.js:10-13 | the simpler screen's check: both texts parse to numbers and the height divided by 100 is greater than 0; the weight's sign is not looked at |
| `App.Errors.With` | App.js:46 | writing an issue into the record sets the slot of that issue's field and keeps the other slot |
| `App.AggregateUntouched` | App.js:43-47 | a field that no issue is about keeps its empty message |
| `App.AggregateLastWins` | App.js:43-47 | a field shows the message of the last issue about it: later issues overwrite earlier ones, and issues about the other field do not touch it |
| `App.ErrorShownIffRejected` | App.js:14-47 | when the issues are ones the schema can report, a field shows a message after a failed validation exactly when the schema rejected that field (non-empty, parses, above zero), and each field is judged on its own |
| `App.CollectErrors` | App.js:43-47 | the forEach loop produces the record obtained by writing every issue, in order, into the empty record |
| `App.Form.constructor` | App.js:8-12 | the screen starts with empty inputs, no BMI, an empty status and empty errors |
| `App.Form.SetHeight` | App.js:70 | the height field's change handler replaces the height text |
| `App.Form.SetWeight` | App.js:79 | the weight field's change handler replaces the weight text |
| `App.Form.CalculateBMI` | App.js:37-57 | if the schema accepts both fields, errors become empty, the BMI becomes the rounded value of weight over squared height in metres, and the status becomes the category of the unrounded value; otherwise errors become the folded issues and BMI and status are unchanged. A BMI is on screen exactly when a status is, and both come from the same positive BMI |
| `App.WorkedExample` | App.js:52-57 | 180 cm and 70 kg give a BMI shown as 21.60 and the status Normal |
| `App.StaleResultSession` | App.js:37-57 | after a valid calculation, pressing the button with an unparseable height shows only the height error, and the earlier 21.60 and Normal stay on screen |
| `TestApp.SimpleForm.constructor` | test.js:5-7 | the simpler screen starts with empty inputs and nothing shown |
| `TestApp.SimpleForm.SetWeight` | test.js:30 | the weight field's change handler replaces the weight text |
| `TestApp.SimpleForm.SetHeight` | test.js:38 | the height field's change handler replaces the height text |
| `TestApp.SimpleForm.CalculateBMI` | test.js:9-19 | when both inputs parse and the height over 100 is positive, the screen shows the rounded BMI of the weight over the squared height in metres; otherwise it shows the fixed invalid-data notice |
| `TestApp.WeightSignSession` | test.js:9-19 | on the simpler screen a weight of 0 is shown as 0.00, a negative weight gives a negative BMI, and an unparseable height brings up the notice |
| `Comparison.SchemaImpliesSimpleCheck` | test.js:13 | every input pair the calculator screen accepts is also accepted by the simpler screen, with a positive BMI |
| `Comparison.NonPositiveWeightGap` | test.js:13-15 | the simpler screen accepts a zero or negative weight that the schema rejects, and then shows a BMI that is not positive |
| `Comparison.AcceptanceGap` | test.js:13 | when the empty text does not parse, the schema accepts exactly the pairs that the simpler check accepts with a positive weight |

## Left out

- User interface: JSX rendering, styles, `SafeAreaProvider`, `StatusBar`, text-input wiring, and the conditional display of the BMI and errors are not modelled. This is presentation only.
- React state scheduling: the `useState` setters are modelled as plain field assignments made in program order. A handler's final state is the same either way. Re-rendering is not modelled.
- parseFloat is a parameter `string -> Option<real>`, with None standing for NaN. Prefix parsing is not modelled. Infinity cannot be represented, so inputs that parse to Infinity are not covered.
- The schema library's internals are not modelled: the order of its issues, and whether `refine` also runs after `nonempty` has failed. `App.Form.CalculateBMI` takes the reported issues as an input. `App.IssuesFit` names what the screen relies on about them. The model does not say which of the two messages an empty field ends up showing.
- Arithmetic is exact `real` arithmetic, not IEEE doubles. Overflow and underflow in `h * h` are not modelled. The NaN and Infinity results of the JavaScript formula are not modelled either.
- `Numbers.ToFixed2` gives the rounded number as a count of hundredths, not as a string. The decimal text and the exponent form that toFixed uses for values of 1e21 and above are not modelled.
- `Classification.GetStatus` takes a real. The JavaScript function also accepts NaN (which falls through to Obese Class III). The handler passes NaN only when the weight parses to Infinity and `h * h` overflows to Infinity, which the model does not cover (see the parseFloat and arithmetic lines above).
