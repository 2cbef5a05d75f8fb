# Potassium strategy calculator — Dafny model

The page is an educational guide to dietary potassium for kidney patients. Its one
piece of logic is a risk calculator: a slider for serum potassium (3.0–7.0 mmol/L,
step 0.1), five risk-factor checkboxes that keep a count, and three tier tabs. From
the potassium and the count the page picks one of three strategy tiers (Basic,
Advanced, Intensive) by ordered, strict threshold rules. It then shows that tier's
entry from a static strategy table, with a short label cut from the title at the
full-width colon `：`. The page also shows two static lists: potassium additives and
bioavailability rates.

The model has three modules:

- `Types` (`types.dfy`) holds the value types of `types.ts`: the tier enumeration
  and the additive and strategy records. The `'High' | 'Likely High'` union is the
  datatype `Impact`, so an additive's impact is one of the two by typing. `Rank` is
  this model's severity order on the tiers (Basic < Advanced < Intensive); the
  source has no such order. `BioavailabilitySample` names the shape of the
  bioavailability literal at constants.tsx:47-51, which has no declared type in the
  source.
- `Constants` (`constants.dfy`) holds the static tables as constant functions.
  `STRATEGIES` is a map keyed by tier.
- `App` (`app.dfy`) holds the classifier as a pure function of a real potassium value
  and an integer count. It also holds the `split('：')[0]` label, and the page state
  as the class `RiskAssessment`.
  - The class keeps potassium as an integer number of tenths of a mmol/L, which is
    exactly the slider's grid. It also keeps the count and the checked state of the
    five checkboxes.
  - Its invariant `Valid()` says three things: the slider position lies in 30..70
    tenths, there are five boxes, and the count equals the number of checked boxes.
  - Every event handler keeps `Valid()`.

Potassium is compared as a `real` (`tenths / 10`). The slider yields only multiples of
0.1, and the only comparisons are against 5.0 and 5.5. Both are exact binary
fractions, so double rounding cannot change any comparison's outcome.

## Model

| member | source | states |
|---|---|---|
| `App.Classify` | App.tsx:12-16 | Tier regions as if-and-only-ifs: Intensive exactly when potassium > 5.5 (whatever the count); Advanced exactly when potassium is in (5.0, 5.5], or ≤ 5.5 with count ≥ 2; Basic exactly when potassium ≤ 5.0 and count < 2 |
| `App.ClassifyIsWorseOfFactors` | App.tsx:13-15 | The ordered rules equal an independent definition: the more severe of the tier the potassium alone calls for and the tier the count alone calls for |
| `App.ClassifyMonotone` | App.tsx:12-16 | Raising potassium or the count never lowers the tier in the order Basic < Advanced < Intensive |
| `App.ClassifyBoundaries` | App.tsx:13-14 | The thresholds are strict: 5.5 gives Advanced (never Intensive) for any count; 5.0 with count below 2 gives Basic |
| `App.SplitHead` | App.tsx:92 | `split(sep)[0]`: the result is a prefix of the string and contains no separator; when it is shorter than the string, the next character is the separator, and otherwise it is the whole string |
| `App.SplitHeadAt` | App.tsx:92 | The head is exactly the prefix up to the first separator's position, or the whole string when there is none |
| `App.TierLabel` | App.tsx:92 | `STRATEGIES[level].title.split('：')[0]`: every title contains the separator, and the label is the prefix of the title that ends just before its first occurrence |
| `App.RiskAssessment.CurrentStrategy` | App.tsx:12-16 | The page's current tier in terms of its state: Intensive exactly when the slider is above 5.5; Advanced exactly when it is at most 5.5 and either above 5.0 or at least two boxes are checked; Basic exactly when it is at most 5.0 and fewer than two boxes are checked |
| `App.RiskAssessment.BadgeLabel` | App.tsx:92 | The badge text is a non-empty proper prefix of the current tier's title |
| `Constants.TitleSeparatorAtFour` | constants.tsx:6-28 | Each of the three titles has the full-width colon at index 4 and none before it |
| `App.TierLabelIsFourChars` | constants.tsx:6-28 | In every title the separator first occurs at index 4, so each tier's label is the title's first four characters |
| `App.TierLabelProperPrefix` | App.tsx:92 | The badge label of every tier is a non-empty proper prefix of that tier's title |
| `App.TierLabelsDistinct` | App.tsx:163 | Different tiers have different tab labels |
| `App.TabLevels` | App.tsx:153 | The tabs are exactly the keys of the strategy table, three of them in order, the i-th tab having severity rank i |
| `App.TabLevelsCover` | App.tsx:153 | Every tier has a tab |
| `App.RiskFactors` | App.tsx:18-24 | There are exactly five risk-factor checkboxes |
| `App.CountChecked` | App.tsx:71-80 | The number of checked boxes is at most the number of boxes; it is 0 exactly when none is checked and it equals the number of boxes exactly when all are checked |
| `App.CountCheckedFlip` | App.tsx:75 | Flipping one box changes the number of checked boxes by +1 when it becomes checked and by −1 when it becomes unchecked |
| `App.TabPresetTenths` | App.tsx:156 | The presets 4.5 / 5.2 / 6.0 lie on the slider's range. The Advanced and Intensive presets make that tier current for every count. The Basic preset gives Basic exactly when the count is below 2 |
| `App.RiskAssessment.constructor` | App.tsx:8-9 | The initial state is 4.5 mmol/L with count 0 and no box checked; the invariant holds and the tier is Basic |
| `App.RiskAssessment.SetPotassium` | App.tsx:52-58 | Moving the slider sets potassium to any grid value in [3.0, 7.0]. It keeps the invariant and leaves the count and the boxes unchanged |
| `App.RiskAssessment.ToggleFactor` | App.tsx:73-75 | A click flips exactly one box. The count then moves by +1 if the box is now checked and by −1 if not, and stays equal to the number of checked boxes, within 0..5. Potassium is unchanged |
| `App.RiskAssessment.SelectTab` | App.tsx:156 | A tab click sets potassium to the tier's preset and leaves the count and the boxes unchanged. The Advanced and Intensive tabs make their tier current. The Basic tab does so exactly when the count is below 2 |
| `Constants.Strategies` | constants.tsx:4-38 | The strategy table has exactly the three tiers as keys, and each entry has exactly four tips |
| `Constants.StrategiesTotal` | constants.tsx:4 | Every tier is a key of the table, so each lookup `STRATEGIES[level]` is defined |
| `Constants.StrategyFor` | App.tsx:97 | The lookup `STRATEGIES[level]` is total and yields a strategy with four tips |
| `Constants.Additives` | constants.tsx:40-45 | The additive list has exactly four entries, with pairwise distinct names |
| `Constants.BioavailabilityData` | constants.tsx:47-51 | There are three samples, each rate a percentage in 0..100, in strictly decreasing order of rate |

## Left out

- Page layout, styling classes and the static prose, including the colour class chosen per tier (App.tsx:88-91). The colour class only mirrors the tier.
- The bar-chart rendering by the charting library (App.tsx:120-132). It is foreign code with no logic of the page's own.
- The scroll-into-view button (App.tsx:101). It is browser I/O.
- `parseFloat`, IEEE-754 doubles and `toFixed(1)`. Potassium is an exact number of tenths; the introduction above says why that is faithful to the comparisons.
- React's state scheduling and memoisation. The state is three plain fields, and the tier is a function of them, recomputed on every read.
- The browser's range-input sanitising. `App.RiskAssessment.SetPotassium` requires a grid value in 30..70 tenths, which is what the widget hands to the handler.
- The checkboxes are uncontrolled: the page never stores which boxes are checked. The model keeps their checked state in `boxes`, standing for the browser's state, so that the count can be related to it. The handler's own arithmetic on the count is modelled unchanged.
- The updater at App.tsx:75 reads the box's checked state when React applies the update, not at the click. The count could drift from the checked boxes only if a second click on the same box happened before the first click's update was applied. React applies each click's update before it handles the next click event, so that cannot happen, and `ToggleFactor` models one click together with its applied update. It therefore keeps the count equal to the number of checked boxes.
