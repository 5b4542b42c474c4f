# Smart Business Advisor — a Dafny model of its calculators and form rules

This project models the computing core of the Smart Business Advisor web front end:

- **The financial calculator registry.** There are seven calculators: break-even point, ROI, NPV, IRR, payback period, gross profit margin and startup runway. Each one guards its inputs and then builds a result record for the calculator screen. The result holds a headline value, a unit, a details line, a bar series and an optional pie series.
- **The calculator screen.** It is modelled as a class whose fields are the React state: route id, form values, last result, error line and chart type.
- **The feasibility projection** of the analysis page. It covers the yearly cash flows growing at a fixed rate, their running total, the discounted total (NPV), the payback period and the contingency budget. It also covers the cost text clean-up the page does before the projection and the NPV tile's colour and sign.
- **The password strength meter.** It has five pattern rules, a score, and a colour, caption and bar width.
- **The zod schemas of four forms:** create account, sign-up, idea evaluation and idea suggestions. A schema is a list of checks, and zod reports, in order, the issue of every failing check. The form shows the first issue of each field.
- **`friendlyAuthMessage`.** It turns an API error into a toast sentence.

Modules, one per source file:

- `Numbers`: exact arithmetic helpers, including present value and rounding.
- `Formulas`: the calculators.
- `CalculatorPage`: the calculator screen.
- `Feasibility`: the analysis page.
- `Validation`: character classes, the regular expressions used, and the issue and check model of zod.
- `PasswordStrength`: the strength meter.
- `CreateAccount`, `SignupSchema`, `IdeaEvaluation`, `IdeaSuggestions`: the four form schemas.
- `ErrorMessages`: the error-to-message function.

Numbers are exact `real`s. Texts are `seq<char>`.

Every schema is written the same way:

- `Keys` lists the issue each check reports.
- `Fails` says when check `k` fails.
- `Checks` pairs the two.
- `Validate` is `Issues(Checks(..))`.

The general lemmas of `Validation` are then instantiated for each schema:

- `IssuesReport`: a message is reported exactly when its check fails.
- `FirstReported`: the message shown for a field.
- `NoneShown`: nothing is shown for a field.

## Model

| member | source | states |
|---|---|---|
| Formulas.Find | src/pages/Features/Feature3/FinancialCalculator.jsx:12 | No tool is found exactly when no registry entry has the id. Otherwise the first entry with that id is returned. |
| Formulas.RegistryIdsDistinct | src/pages/Features/Feature3/formulas.js:3-258 | The registry has seven entries with pairwise distinct ids. |
| Formulas.RegistryLookup | src/pages/Features/Feature3/FinancialCalculator.jsx:12 | Every calculator of the registry is found under its own id. |
| Formulas.CeilCovers | src/pages/Features/Feature3/formulas.js:21-26 | `Math.ceil(fc / margin)` is the least whole number of units whose margin covers the fixed costs. |
| Formulas.BreakEven | src/pages/Features/Feature3/formulas.js:19-38 | Error iff price − variable cost ≤ 0. Otherwise: the headline is the least covering whole number of units; the revenue needed satisfies revenue·margin = fc·price; "Total Cost" equals "Revenue"; the two pie slices add up to the total cost. |
| Formulas.BreakEvenEqualPriceAndCost | src/pages/Features/Feature3/formulas.js:19 | Equal price and variable cost is the guarded error. |
| Formulas.Roi | src/pages/Features/Feature3/formulas.js:56-70 | Error iff the investment is 0. Otherwise roi·investment = 100·profit. "Positive Return" iff roi > 0, so a zero return is negative. The profit slice is ±profit and never negative. |
| Formulas.DiscountFlows | src/pages/Features/Feature3/formulas.js:91-92 | The `forEach` accumulation adds the present value of the flows at the given base to the start value. |
| Formulas.Npv | src/pages/Features/Feature3/formulas.js:89-104 | Never an error. npv = PV(flows, 1 + rate/100) − initial. "Feasible" iff npv > 0. The bars show the cost and the PV. There is no pie. |
| Formulas.NpvExample | src/pages/Features/Feature3/formulas.js:89-98 | With 100000 at 10% and flows 20000 and 30000, the PV is 20000/1.1 + 30000/1.21 and the NPV is negative. |
| Formulas.NpvAt | src/pages/Features/Feature3/formulas.js:130-136 | `calculateNPV` at rate r is −initial + PV(flows, 1 + r). At rate 0 it is the plain sum minus the investment, and with no flows it is −initial. |
| Formulas.IrrSearch | src/pages/Features/Feature3/formulas.js:139-147 | The search stays on the 0.0001 grid, at most one step per iteration. Stopping before 1000 iterations means \|NPV\| < 0.001 at the guess. |
| Formulas.SearchRate | src/pages/Features/Feature3/formulas.js:127-147 | The loop returns the guess of the search function, which always lies in [0, 0.2]. |
| Formulas.YearPoints | src/pages/Features/Feature3/formulas.js:158 | One bar per flow, in order, the i-th labelled "Year" and its year number. |
| Formulas.IrrChart | src/pages/Features/Feature3/formulas.js:156-159 | The bars are "Start" at −initial, then "Year i" with flow i, in order. |
| Formulas.SomeNaN | src/pages/Features/Feature3/formulas.js:121 | `cashFlows.some(isNaN)` holds iff some flow is not a number. |
| Formulas.AnyNaN | src/pages/Features/Feature3/formulas.js:121 | The guard holds iff the investment or some flow is not a number. |
| Formulas.Irr | src/pages/Features/Feature3/formulas.js:118-160 | Error iff the investment or any flow is NaN. Otherwise the headline is 100·guess with 2 digits, between 0 and 20, with the year chart and no pie. |
| Formulas.NpvAtAntitone | src/pages/Features/Feature3/formulas.js:130-136 | With non-negative flows, `calculateNPV` does not rise as the rate rises. |
| Formulas.IrrExample | src/pages/Features/Feature3/formulas.js:139-149 | For 100000 with three flows of 50000, the search runs all 1000 iterations and reports 20%. |
| Formulas.Payback | src/pages/Features/Feature3/formulas.js:178-191 | Error iff the cash flow ≤ 0. Otherwise years·flow = investment, the details quote the same figure, and the bars show the investment and 1×, 2× and 3× the flow. |
| Formulas.Margin | src/pages/Features/Feature3/formulas.js:208-224 | Error iff revenue is 0. Otherwise margin·revenue = 100·(revenue − cogs), and the two pie slices add up to the revenue. |
| Formulas.FloorCovered | src/pages/Features/Feature3/formulas.js:244-247 | `Math.floor(cash / burn)` is the number of whole months the cash covers. |
| Formulas.Runway | src/pages/Features/Feature3/formulas.js:242-254 | Error iff burn ≤ 0. Otherwise the headline is the number of whole months covered. The warning shows iff cash < 6·burn. The bars show cash, burn and 6·burn. |
| Formulas.RunwayBoundary | src/pages/Features/Feature3/formulas.js:249 | Exactly six months of cash is "Safe zone", not a warning. |
| CalculatorPage.AllFilled | src/pages/Features/Feature3/FinancialCalculator.jsx:38 | True iff every declared input has a non-empty value. |
| CalculatorPage.CalculatorView.CurrentScreen | src/pages/Features/Feature3/FinancialCalculator.jsx:12-30 | "Tool not found" iff no registry entry has the route id. Otherwise the form of an entry with that id. |
| CalculatorPage.CalculatorView.constructor | src/pages/Features/Feature3/FinancialCalculator.jsx:14-18 | The initial state: empty values, no result, no error, bar chart. |
| CalculatorPage.CalculatorView.ChangeTool | src/pages/Features/Feature3/FinancialCalculator.jsx:23-28 | A different route id resets values, result, error and chart type. The effect does not run for the same id. |
| CalculatorPage.CalculatorView.HandleChange | src/pages/Features/Feature3/FinancialCalculator.jsx:32-35 | Only the typed field changes, and the error is cleared. |
| CalculatorPage.CalculatorView.HandleCalculate | src/pages/Features/Feature3/FinancialCalculator.jsx:37-57 | If a field is missing, the fill message is shown and the result is kept. If the calculation throws, the crash message is shown and the result is kept. If it returns an error, the error is shown and the result is cleared. Otherwise the result is kept and the error cleared. A kept result is never an error record with a non-empty message. |
| Feasibility.YearFlows | src/pages/Features/Feature2/FeasibilityAnalysisPage.jsx:53-54 | There is one flow per projected year. `YearFlowsAt` gives each entry. |
| Feasibility.FlowGrows | src/pages/Features/Feature2/FeasibilityAnalysisPage.jsx:47-54 | The first year earns the first-year return. Each later year earns the year before, grown by the growth rate. |
| Feasibility.Cumulative | src/pages/Features/Feature2/FeasibilityAnalysisPage.jsx:50-56 | One running total per entry, the last being the sum of all entries. `CumulativeStep`, `CumulativeHead` and `CumulativeAppend` give the rest. |
| Feasibility.YearFlowsAt | src/pages/Features/Feature2/FeasibilityAnalysisPage.jsx:53-54 | Year t+1's flow is the first-year return grown t times, whatever the horizon. |
| Feasibility.CumulativeStep | src/pages/Features/Feature2/FeasibilityAnalysisPage.jsx:56 | Each running total is the previous one plus that year's flow. |
| Feasibility.CumulativeHead | src/pages/Features/Feature2/FeasibilityAnalysisPage.jsx:50 | The first running total is the first entry. |
| Feasibility.CumulativeAppend | src/pages/Features/Feature2/FeasibilityAnalysisPage.jsx:56 | The `push` keeps the running-total series. |
| Feasibility.PresentValueAppend | src/pages/Features/Feature2/FeasibilityAnalysisPage.jsx:55-57 | Adding year t's discounted flow extends the present value by that year. |
| Numbers.RoundWhole | src/pages/Features/Feature2/FeasibilityAnalysisPage.jsx:69-70 | `Number(cf.toFixed(0))` is within 0.5 of the value, and a tie goes away from zero. |
| Feasibility.RoundAll | src/pages/Features/Feature2/FeasibilityAnalysisPage.jsx:69-70 | Each entry is rounded to a whole number, and the length is kept. |
| Feasibility.ProjectStep | src/pages/Features/Feature2/FeasibilityAnalysisPage.jsx:53-59 | One pass of the yearly loop keeps its three invariants. |
| Feasibility.ProjectYears | src/pages/Features/Feature2/FeasibilityAnalysisPage.jsx:49-59 | The loop yields the outlay followed by the grown yearly flows, their running totals, and −cost + PV of the flows at 1 + discount rate. |
| Feasibility.SeriesStartWithOutlay | src/pages/Features/Feature2/FeasibilityAnalysisPage.jsx:49-50 | Both rounded series open with the rounded outlay. |
| Feasibility.CalculateFeasibility | src/pages/Features/Feature2/FeasibilityAnalysisPage.jsx:43-73 | Both series have years + 1 entries and are rounded. The cumulative series is the running total of the unrounded flows. npv = pvCumulativeFinal = −cost + PV. The payback years of first-year return repay the cost. contingency + cost = max budget. |
| Feasibility.NpvBadge | src/pages/Features/Feature2/FeasibilityAnalysisPage.jsx:131-134 | There is no sign, and the green colour is used, iff the NPV ≥ 0 (zero included). A negative NPV gets the red classes and the sign "-". |
| Feasibility.FirstIndex | src/pages/Features/Feature2/FeasibilityAnalysisPage.jsx:115 | The position of the first occurrence, or the length iff the character does not occur. |
| Feasibility.RemoveFirst | src/pages/Features/Feature2/FeasibilityAnalysisPage.jsx:115 | `replace` with a one-character pattern removes one character iff it occurs, and is the identity otherwise. |
| Feasibility.RemoveFirstMultiset | src/pages/Features/Feature2/FeasibilityAnalysisPage.jsx:115 | Exactly one occurrence goes, and every other character stays. |
| Feasibility.RemoveFirstAt | src/pages/Features/Feature2/FeasibilityAnalysisPage.jsx:115 | When the first occurrence is at i, the result is the text without position i. |
| Feasibility.CostDigits | src/pages/Features/Feature2/FeasibilityAnalysisPage.jsx:115 | At most two characters are removed from the cost text. |
| Feasibility.PageCost | src/pages/Features/Feature2/FeasibilityAnalysisPage.jsx:109-115 | The page's "$8000" becomes "8000". |
| Feasibility.OnlyFirstSeparatorRemoved | src/pages/Features/Feature2/FeasibilityAnalysisPage.jsx:115 | A cost such as "$1,000,000" keeps its second comma. |
| Feasibility.PageProjection | src/pages/Features/Feature2/FeasibilityAnalysisPage.jsx:113-119 | The page's idea yields 1400, 1540 and 1694, with running totals −8000, −6600, −5060 and −3366. Its NPV tile shows "-". |
| Feasibility.PresentValueBelow | src/pages/Features/Feature2/FeasibilityAnalysisPage.jsx:55-57 | Discounting non-negative flows at 1 + rate ≥ 1 never exceeds their plain sum. |
| Validation.Test | src/pages/auth/Password-validator.jsx:15-21 | `/[class]/.test(s)` holds iff some character of s is in the class. |
| Validation.HasRunIff | src/pages/auth/Password-validator.jsx:14 | `/.{n,}/` matches iff n consecutive characters are not line terminators. |
| Validation.RunWithoutTerminators | src/pages/auth/Password-validator.jsx:14 | Without line terminators, the run rule is plain length ≥ n. |
| Validation.DigitsOnly | src/pages/Features/Feature1/IdeaEvaluationForm.jsx:30-34 | `^[0-9]+$` holds iff the text is non-empty and all ASCII digits. |
| Validation.FourDigits | src/pages/Features/Feature1/IdeaEvaluationForm.jsx:35 | `^[0-9]{4}$` holds iff the text is exactly four ASCII digits. |
| Validation.PhonePattern | src/pages/auth/auth-schema/signup-schema.js:12 | The phone pattern holds iff the text is 10–15 digits, or "+" followed by 10–15 digits. |
| Validation.FirstMessage | src/pages/CreateAccountForm.jsx:194-196 | No message iff no issue is on the field. Otherwise the message of the first issue on the field. |
| Validation.Issues | src/pages/auth/auth-schema/signup-schema.js:3-29 | No issues iff no check fails. There are never more issues than checks. |
| Validation.IssuesReport | src/pages/auth/auth-schema/signup-schema.js:5-28 | An issue no other check reports is present iff its check fails. |
| Validation.FirstReported | src/pages/CreateAccountForm.jsx:194-196 | The field shows the message of its first failing check. |
| Validation.NoneShown | src/pages/CreateAccountForm.jsx:194-196 | Nothing is shown for a field iff none of its checks fails. |
| PasswordStrength.CheckStrength | src/pages/auth/Password-validator.jsx:12-24 | Five entries with their captions. Each is met iff its pattern matches, stated over characters. |
| PasswordStrength.Score | src/pages/auth/Password-validator.jsx:32 | The score is the number of met requirements (the size of the set of their positions). It is 0 iff nothing is met, and full iff everything is met. |
| PasswordStrength.StrengthScore | src/pages/auth/Password-validator.jsx:31-32 | The score is at most 5. |
| PasswordStrength.StrengthInput | src/pages/auth/Password-validator.jsx:31 | A missing value is checked as "". |
| PasswordStrength.StrengthColor | src/pages/auth/Password-validator.jsx:34-40 | Each colour is used exactly for its score band, and emerald for ≥ 4. |
| PasswordStrength.StrengthText | src/pages/auth/Password-validator.jsx:42-47 | Each caption is used exactly for its score band. |
| PasswordStrength.BarWidth | src/pages/auth/Password-validator.jsx:77 | The width is 25·score, and is over 100% iff the score > 4. |
| PasswordStrength.PanelShown | src/pages/auth/Password-validator.jsx:72 | The meter is shown iff the password is non-empty. |
| PasswordStrength.EmptyPassword | src/pages/auth/Password-validator.jsx:31-47 | An empty or missing password scores 0, asks for a password, and hides the meter. |
| PasswordStrength.SpaceIsSpecial | src/pages/auth/Password-validator.jsx:18 | A space counts as a special character. |
| PasswordStrength.LengthRule | src/pages/auth/Password-validator.jsx:14 | For a password without line breaks, the length rule is length ≥ 8. |
| PasswordStrength.StrongIffAllRules | src/pages/auth/Password-validator.jsx:32-47 | "Strong password" iff all five rules are met. |
| PasswordStrength.AllButOneRule | src/pages/auth/Password-validator.jsx:32-47 | A password missing exactly one rule gets "Medium password" in the colour of a strong one. |
| PasswordStrength.CaptionBands | src/pages/auth/Password-validator.jsx:32-47 | "Weak password" iff 1–2 rules are met. "Medium password" iff 3–4 rules are met. |
| CreateAccount.Passes | src/pages/CreateAccountForm.jsx:13-30 | Each requirement's test, stated over characters. |
| CreateAccount.MeetsRequirements | src/pages/CreateAccountForm.jsx:38 | True iff every requirement passes. |
| CreateAccount.Checklist | src/pages/CreateAccountForm.jsx:170-171 | Each key with its pass state. An absent or empty password passes nothing. |
| CreateAccount.Checks | src/pages/CreateAccountForm.jsx:32-41 | Check i reports key i and fails exactly on its condition. |
| CreateAccount.Validate | src/pages/CreateAccountForm.jsx:32-41 | No issues iff no check fails. |
| CreateAccount.KeysDistinct | src/pages/CreateAccountForm.jsx:33-39 | No two checks report the same issue. |
| CreateAccount.Reports | src/pages/CreateAccountForm.jsx:32-41 | Check k's issue is reported iff check k fails. |
| CreateAccount.Messages | src/pages/CreateAccountForm.jsx:33-40 | Each of the five messages is reported iff its condition holds. A short password gets both of its messages. |
| CreateAccount.ShortPasswordShown | src/pages/CreateAccountForm.jsx:37-40 | A short password shows the length message. |
| CreateAccount.AcceptedIff | src/pages/CreateAccountForm.jsx:32-41 | Accepted iff name and email are non-empty, the email is valid, and the requirements are met. |
| CreateAccount.NoSpecialCharacterNeeded | src/pages/CreateAccountForm.jsx:13-30 | "Password1" meets the requirements. |
| SignupSchema.KeysDistinct | src/pages/auth/auth-schema/signup-schema.js:5-28 | No two checks report the same issue. |
| SignupSchema.Checks | src/pages/auth/auth-schema/signup-schema.js:3-29 | Check i reports key i and fails exactly on its condition. |
| SignupSchema.Reports | src/pages/auth/auth-schema/signup-schema.js:3-29 | Check k's issue is reported iff check k fails. |
| SignupSchema.Validate | src/pages/auth/auth-schema/signup-schema.js:3-29 | No issues iff no check fails. |
| SignupSchema.FieldMessages | src/pages/auth/auth-schema/signup-schema.js:5-12 | The name, email and phone messages and the mismatch message are each reported iff their condition holds. The mismatch is reported whatever else fails. |
| SignupSchema.PasswordMessages | src/pages/auth/auth-schema/signup-schema.js:13-23 | Each of the six password messages is reported iff its rule fails. |
| SignupSchema.ShortPasswordShown | src/pages/auth/auth-schema/signup-schema.js:15 | A short password shows the length message first. |
| SignupSchema.PasswordChecksPass | src/pages/auth/auth-schema/signup-schema.js:13-23 | The six password checks pass iff the password is acceptable, stated over characters. |
| SignupSchema.AcceptedIff | src/pages/auth/auth-schema/signup-schema.js:3-29 | Accepted iff the form is acceptable, stated over characters, whatever the last name. |
| SignupSchema.PasswordShownIff | src/pages/auth/auth-schema/signup-schema.js:13-23 | No password message is shown iff the password is acceptable. |
| SignupSchema.SchemaAgreesWithMeter | src/pages/auth/auth-schema/signup-schema.js:13-23 | For a password without line breaks, the schema accepts it iff the meter scores 5 and the length ≤ 72. |
| IdeaEvaluation.KeysDistinct | src/pages/Features/Feature1/IdeaEvaluationForm.jsx:26-36 | No two checks report the same issue. |
| IdeaEvaluation.Checks | src/pages/Features/Feature1/IdeaEvaluationForm.jsx:26-36 | Check i reports key i and fails exactly on its condition. |
| IdeaEvaluation.Validate | src/pages/Features/Feature1/IdeaEvaluationForm.jsx:26-36 | No issues iff no check fails. |
| IdeaEvaluation.Reports | src/pages/Features/Feature1/IdeaEvaluationForm.jsx:26-36 | Check k's issue is reported iff check k fails. |
| IdeaEvaluation.Messages | src/pages/Features/Feature1/IdeaEvaluationForm.jsx:27-35 | Each field's message is reported iff the field is empty or does not match its pattern. |
| IdeaEvaluation.AcceptedIff | src/pages/Features/Feature1/IdeaEvaluationForm.jsx:26-36 | Accepted iff the three selections are non-empty, the five numbers are digits only, and the year is four digits. |
| IdeaEvaluation.OnlyTheFormIsChecked | src/pages/Features/Feature1/IdeaEvaluationForm.jsx:29-35 | Non-numeric funding rounds, a market share of 250 and the year "0000" are all accepted. |
| IdeaSuggestions.KeysDistinct | src/pages/Features/Feature2/IdeaSuggestionsForm.jsx:14-21 | No two checks report the same issue. |
| IdeaSuggestions.Checks | src/pages/Features/Feature2/IdeaSuggestionsForm.jsx:14-21 | Check i reports key i and fails exactly on its condition. |
| IdeaSuggestions.Validate | src/pages/Features/Feature2/IdeaSuggestionsForm.jsx:14-21 | No issues iff no check fails. |
| IdeaSuggestions.Reports | src/pages/Features/Feature2/IdeaSuggestionsForm.jsx:14-21 | Check k's issue is reported iff check k fails. |
| IdeaSuggestions.Messages | src/pages/Features/Feature2/IdeaSuggestionsForm.jsx:15-20 | Each message is reported iff its condition holds. |
| IdeaSuggestions.EmptyBudget | src/pages/Features/Feature2/IdeaSuggestionsForm.jsx:15-18 | An empty budget gets both budget messages and shows "Budget is required". |
| IdeaSuggestions.NonNumericBudget | src/pages/Features/Feature2/IdeaSuggestionsForm.jsx:18 | A non-empty, non-numeric budget shows "Budget must be a number". |
| IdeaSuggestions.AcceptedIff | src/pages/Features/Feature2/IdeaSuggestionsForm.jsx:14-21 | Accepted iff the budget is digits only, the experience has ≥ 3 characters, and the location has ≥ 2. |
| ErrorMessages.ResolvedStatus | src/utils/errorMessages.js:11 | The status is err.status if truthy, else the payload object's status if truthy, else none. It is never 0. |
| ErrorMessages.ResolvedData | src/utils/errorMessages.js:12 | The data is err.data iff it is truthy. |
| ErrorMessages.ValidationErrors | src/utils/errorMessages.js:14 | There is an errors object iff the status is 400 and the data object has `errors`. It is then the payload's `errors`. |
| ErrorMessages.DataMessage | src/utils/errorMessages.js:34 | The data message is present iff the data is an object with a non-empty message. It is then that message. |
| ErrorMessages.EntryMessages | src/utils/errorMessages.js:18-20 | An array is spread. Any other value gives one message. |
| ErrorMessages.Flatten | src/utils/errorMessages.js:16-21 | No entries give no messages. Every collected message comes from some entry. `FlattenKeepsAll` gives the converse. |
| ErrorMessages.FlattenAppend | src/utils/errorMessages.js:17-21 | Flattening keeps key order: the messages of earlier keys come first. |
| ErrorMessages.FlattenKeepsAll | src/utils/errorMessages.js:17-21 | Every message of every entry is collected. |
| ErrorMessages.CollectMessages | src/utils/errorMessages.js:16-21 | The loop collects exactly the flattened messages, in order. |
| ErrorMessages.Join | src/utils/errorMessages.js:22 | The join of nothing is "" and the join of one text is that text. The length is the texts' total plus the separators. |
| ErrorMessages.FriendlyAuthMessage | src/utils/errorMessages.js:2-42 | The first applicable rule decides, in order: no error; fetch failure; 400 with errors (the joined messages, or "Invalid input" when there are none); 401/403; ≥ 500; data message; error message; default. An empty toast arises only from a 400 whose only message is "". |

## Left out

- Parsing of the form texts is not modelled: `parseFloat`, `Number()` and the comma split of cash-flow lists. The calculators take already-parsed exact numbers. IRR takes "a number or NaN" so that its guard is modelled. Floating-point rounding, `Infinity` and `NaN` arithmetic are not modelled.
- Formatting is not modelled. `toFixed`, `toLocaleString` and `Number(x.toFixed(0))` give a value and a digit count (`Shown`), or `RoundWhole` (round half away from zero). The feasibility projection's first four fields are strings in the page. The model keeps them as numbers.
- Formulas.Npv: requires a discount rate above −100%. The page has no such guard, and at or below it the exponentiation base is not positive.
- Formulas.SearchRate: the guess is stepped by exact 0.0001s, not floating-point additions. The unused `minRate`/`maxRate` bounds are not modelled. Nothing is proved about how close the guess is to a true root.
- Feasibility.CalculateFeasibility: requires a non-zero first-year return and 1 + discount rate > 0. The page divides by both.
- CalculatorPage.CalculatorView.HandleCalculate: receives the active tool's calculation as a function from form values to an outcome, since parsing is outside the model. Its precondition does not restate that `tool` is the entry `CurrentScreen()` shows.
- Rendering is not modelled: charts, the chart-type toggle, icons, tiles, PDF export, routing and navigation.
- Network and storage are not modelled: API calls, authentication tokens and `localStorage`. The simulated delays of the form submits are also not modelled.
- zod's `email()` check is a boolean parameter. react-hook-form's resolver is modelled only as "the first issue of each field is shown" (`FirstMessage`).
- Lengths are counted in Dafny characters, not in UTF-16 code units as JavaScript counts them.
- Non-string field values and zod's type-check failures are not modelled. All fields are texts.
- ErrorMessages: statuses are integers or absent. A non-numeric status, NaN, and array or non-string error values are not modelled. Array elements and single values are taken as already-stringified texts.
- ErrorMessages: `Object.keys` order is taken as the order of the entries given, so integer-like keys sorting first is not modelled.
- The login schema and login form are not part of this model.
