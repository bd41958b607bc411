# Athlete form and fitness: the training-load engine in Dafny

This project models the deterministic core of *athlete-form-fit*, a training
diary for athletes. The app reduces a list of logged training sessions and a
reference date ("today") to load, recovery and injury-risk figures. It then
picks a training regime for the coming week, Performance, Deload or
Regeneration, and adapts a fixed 7-day template to that regime.

Two server functions share this logic:

- `analyze` returns the metrics rounded for display.
- `plan` returns the regime, an explanation, the adapted week and the metrics.

The model also covers the state logic around them in the browser:

- the CSV import of sessions;
- the sport and goal pickers of the plan dialog;
- the completed-day checklist of the improvement-plan page;
- the dashboard's three-band risk colouring.

Modules, one per concern:

| module | file | models |
|---|---|---|
| `Wrappers` | wrappers.dfy | `Option`, `Result` |
| `Numerics` | numerics.dfy | `clamp`, `Math.round`, `parseFloat(x.toFixed(k))` |
| `Text` | text.dfy | `includes`, `split`, `trim`, `toLowerCase` on strings |
| `Sessions` | sessions.dfy | request sessions, the validation loop and its `??` defaults, `trainingLoad` |
| `Metrics` | metrics.dfy | `aggregateMetrics`: the windows, the accumulating loop, the formulas, the two output records |
| `MetricsFacts` | metrics_facts.dfy | properties of the aggregation: windows, order independence, bounds, fallbacks, the worked example |
| `Analyze` | analyze.dfy | the analyze handler without HTTP |
| `PlanTemplates` | templates.dfy | `TEMPLATES`, twelve weekly plans |
| `PlanEngine` | plan_engine.dfy | `decidePlanType`, `generateBasePlan`, `adaptPlanForState`, `explainReason`, `generatePlan`, the plan handler |
| `CsvImport` | csv_import.dfy | `parseCSV` |
| `PlanDialog` | plan_dialog.dfy | `SPORT_GOALS`, `availableGoals`, the sport-change rule |
| `ImprovementPlan` | improvement_plan.dfy | `plans`, `currentPlan`, `toggleDay` |
| `Dashboard` | dashboard.dfy | `getRiskColor`, `getRiskBg`, the progress-bar class |

## How JavaScript is represented

- **Dates.** `new Date(s)` is a parameter `toDate: string -> Option<int>` giving milliseconds. `None` stands for an Invalid Date, which fails every comparison. A session counts toward a window of `n` days when `td - n·86400000 < d <= td`.
- **Numbers.** Numbers are `real`.
  - `Math.round(x)` is `Floor(x + 0.5)`.
  - `parseFloat(x.toFixed(k))` is exact rounding to `k` decimals, half away from zero.
  - `parseFloat` in the CSV import is a parameter `string -> Option<real>`, where `None` is NaN.
- **JSON members.**
  - A numeric member is `Absent`, `Null` or a number.
  - `=== undefined` rejects only `Absent`.
  - `??` replaces both `Absent` and `Null`.
  - In arithmetic, `null` counts as 0.
- **Mutation.** Where the source mutates, the model has methods with loops, proved against reference functions:
  - `ApplyDefaults` is proved against `ValidateSessions`.
  - `SumWindows` and `AggregateMetrics` are proved against `Accumulate` and `Aggregate`.
  - `BuildRecord`, `EmitRecords` and `ParseCSV` are proved against `RowDraft`, `Keep` and `ParseCsvSpec`.
- **UI state.** React component state is a class whose fields the methods reassign: `PlanGeneratorDialog` and `ImprovementPlanPage`.

## Behaviour of the code worth knowing

- **Worked example.** Take one session dated today: 60 minutes, RPE 8, 5 h sleep, soreness 6. For this session the formulas give a recovery index of 100·(0.65·0.84 + 0.25·0.625 + 0.10·0.4) = 74.225, rounded to 74, and an injury risk of 0.45·0.16 + 0.20·0.8 + 0.20·0.375 + 0.15·0.6 = 0.397. `MetricsFacts.WorkedExample` proves the values the code computes. `PlanEngine.WorkedExamplePlan` proves that the plan function chooses Performance for them.
- **Long Run precedence.** In the Regeneration branch, the Long Run rule reads the session text that the high-intensity rule has already replaced. A day mentioning both "Intervals" and "Long Run" therefore becomes the mobility session, not an easy run. `PlanEngine.RegenerationDay` states this precedence.
- **Zero sleep.** The validation block defaults sleep with `??`, but the aggregation adds `s.sleep_hours || 7.0`. A logged sleep of 0 hours is therefore counted as 7 hours. `MetricsFacts.ZeroSleepCountsAsDefault` states this.
- **No risk in the Deload message.** The Regeneration and Performance explanations embed the injury risk, the recovery index and the 7-day load. The Deload explanation embeds only the recovery index and the 7-day load. `PlanEngine.ExplainReason` states this.
- **Case-sensitive keywords.** The Regeneration rules use `includes`, which is case-sensitive. A session that writes "long run" or "ssg" in lower case is kept. `PlanEngine.LowerCaseKeywordsKept` states this.

## Model

| member | source | states |
|---|---|---|
| Numerics.Clamp | supabase/functions/analyze/index.ts:21-23 | the result lies in [lo, hi]; it is x when x is inside, lo below the range and hi above it |
| Numerics.Round | supabase/functions/analyze/index.ts:89-90 | `Math.round` gives the integer within half of x, with halves going up |
| Numerics.RoundMonotone | supabase/functions/analyze/index.ts:89-90 | rounding never reverses the order of two values |
| Numerics.RoundWithin | supabase/functions/analyze/index.ts:95 | rounding a value between two integers stays between them |
| Numerics.RoundOfInteger | supabase/functions/plan/index.ts:233-234 | rounding an integer again leaves it unchanged |
| Numerics.RoundTo | supabase/functions/analyze/index.ts:91-96 | `toFixed(k)` then `parseFloat` gives a number with at most k decimals, within half a unit in the last place of x, non-negative for a non-negative x |
| Numerics.RoundToUnit | supabase/functions/analyze/index.ts:91 | rounding a value in [0,1] to decimals stays in [0,1] |
| Text.Includes | supabase/functions/plan/index.ts:215-220 | the keyword search: a scan for a match at each position, from the first on; its meaning is stated by IncludesIff |
| Text.IncludesIff | supabase/functions/plan/index.ts:215-220 | `includes` holds exactly when the needle is the slice at some position |
| Text.Split | src/lib/athleteVision.ts:101 | `split` gives at least one piece, and no piece holds the separator |
| Text.SplitPieces | src/lib/athleteVision.ts:101-102 | a split has two or more pieces exactly when the separator occurs in the text |
| Text.Join | src/lib/athleteVision.ts:101 | the pieces glued back together with the separator between them; the inverse of Split, as JoinSplit and SplitJoin state |
| Text.JoinSplit | src/lib/athleteVision.ts:101 | joining the pieces with the separator gives back the text |
| Text.SplitJoin | src/lib/athleteVision.ts:108 | splitting a join of separator-free pieces gives back the pieces |
| Text.TrimStart | src/lib/athleteVision.ts:101 | removes exactly the leading whitespace: a suffix of the text, starting with a non-space |
| Text.TrimEnd | src/lib/athleteVision.ts:101 | removes exactly the trailing whitespace: a prefix of the text, ending with a non-space |
| Text.Trim | src/lib/athleteVision.ts:104 | the trimmed text is empty or starts and ends with a non-space |
| Text.TrimIsSlice | src/lib/athleteVision.ts:108 | `trim` returns a slice of the text, and everything cut on either side is whitespace |
| Text.Lower | src/lib/athleteVision.ts:104 | lower-casing keeps the length, leaves no ASCII capital, and changes only capitals, each into its lower-case letter |
| Sessions.NumberValue | supabase/functions/plan/index.ts:36-38 | a `null` duration or RPE counts as 0 in arithmetic |
| Sessions.OrDefault | supabase/functions/analyze/index.ts:125-126 | `??` keeps a number and replaces a missing or null member by the default |
| Sessions.SessionValid | supabase/functions/plan/index.ts:276 | the validation test on one session: a truthy date and sport, and a duration and RPE that are not undefined |
| Sessions.WithDefaults | supabase/functions/analyze/index.ts:124-126 | a valid session keeps date, sport, duration and RPE; sleep becomes 7.0 and soreness 0.0 unless they are numbers; a reference definition, used by ValidateSessions |
| Sessions.ValidateSessions | supabase/functions/analyze/index.ts:116-127 | succeeds exactly when every session has a truthy date and sport and a defined duration and RPE; the empty list is accepted; a failure carries the session error message; on success there is one defaulted session per input, in order |
| Sessions.ApplyDefaults | supabase/functions/plan/index.ts:274-284 | the loop that stops at the first invalid session and defaults all the others returns the same verdict and list as ValidateSessions |
| Sessions.TrainingLoad | supabase/functions/analyze/index.ts:29-31 | the load of a session with non-negative duration and RPE is non-negative |
| Metrics.WeekWithinFortnight | supabase/functions/analyze/index.ts:35-36 | every session inside the 7-day window is inside the 14-day window |
| Metrics.InWindow | supabase/functions/analyze/index.ts:34-36 | a date is in the window of n days when it lies after the reference date minus n days and not after the reference date; an Invalid Date is in no window |
| Metrics.SleepOrDefault | supabase/functions/analyze/index.ts:55 | the sleep a session adds is never 0: a logged 0 becomes 7 hours |
| Metrics.Contribution | supabase/functions/analyze/index.ts:46-58 | what one session adds to each running total, as the loop body's two window tests decide; OutsideWindowsIgnored and the window lemmas state its effect |
| Metrics.Accumulate | supabase/functions/analyze/index.ts:45-59 | the totals after the loop over all sessions; the 7-day count never exceeds the number of sessions |
| Metrics.Finish | supabase/functions/analyze/index.ts:61-86 | normalised load and risk lie in [0,1] and recovery in [0,100]; loads pass through; with sessions in the week each average is its sum divided by the count, and an empty week gives the fallbacks 7.0, 0.0 and 5.0 |
| Metrics.Aggregate | supabase/functions/analyze/index.ts:33-87 | the reference definition of `aggregateMetrics`: the loop's totals, then the averages and formulas; WeekAverages, FortnightLoad, WeekLoad and OutputBounds state what it computes |
| Metrics.Visit | supabase/functions/analyze/index.ts:46-58 | one loop iteration grows the running totals by exactly the session's contribution |
| Metrics.SumWindows | supabase/functions/analyze/index.ts:38-59 | after the loop, the totals and the RPE list hold the accumulated contributions of all sessions, one RPE per 7-day session |
| Metrics.AggregateMetrics | supabase/functions/plan/index.ts:40-76 | the loop followed by the averages and formulas computes Aggregate |
| Metrics.AnalyzeOutput | supabase/functions/analyze/index.ts:88-98 | the analyze record: loads and recovery rounded to integers, normalised load and risk to 3 decimals, averages to 1 decimal, today echoed |
| Metrics.PlanOutput | supabase/functions/plan/index.ts:77 | the plan record: only the loads and the recovery index are rounded; normalised load, averages and risk are exact |
| MetricsFacts.AccumulateAppend | supabase/functions/analyze/index.ts:45-59 | the totals of two lists one after the other are the sum of their totals |
| MetricsFacts.AccumulatePermutation | supabase/functions/analyze/index.ts:45-59 | any reordering of the sessions gives the same totals |
| MetricsFacts.AggregateOrderIndependent | supabase/functions/analyze/index.ts:45-63 | any reordering of the sessions gives the same metrics and the same analyze and plan records |
| MetricsFacts.FortnightLoad | supabase/functions/analyze/index.ts:49-51 | the 14-day load is the summed load of exactly the sessions in the 14-day window |
| MetricsFacts.WeekLoad | supabase/functions/analyze/index.ts:52-54 | the 7-day load and count are the summed load and the number of exactly the sessions in the 7-day window |
| MetricsFacts.WeekAccumulators | supabase/functions/analyze/index.ts:52-58 | the sleep, soreness and RPE totals are the sums over exactly the sessions of the 7-day window, sleep counted with its 7-hour default |
| MetricsFacts.WeekAverages | supabase/functions/analyze/index.ts:61-63 | the three 7-day averages are the means over the sessions of the 7-day window, or 7.0, 0.0 and 5.0 when that window is empty |
| MetricsFacts.OutsideWindowsIgnored | supabase/functions/analyze/index.ts:49-58 | a session outside the 14-day window does not change the metrics, wherever it stands in the list |
| MetricsFacts.Tl7AtMostTl14 | supabase/functions/analyze/index.ts:49-53 | with non-negative loads, 0 ≤ tl7 ≤ tl14, and likewise their rounded values in both records |
| MetricsFacts.OutputBounds | supabase/functions/analyze/index.ts:67-96 | for every input, both records have tl7_norm and injury_risk in [0,1] and recovery_index in [0,100] |
| MetricsFacts.EmptyWeekDefaults | supabase/functions/analyze/index.ts:61-86 | with no session in the 7-day window, the averages are 7.0, 0.0 and 5.0, recovery is 96.875 (97 rounded) and risk 0.125 |
| MetricsFacts.ZeroSleepCountsAsDefault | supabase/functions/analyze/index.ts:55 | a session logged with 0 hours of sleep gives, wherever it stands in the list, the same metrics as one logged with 7; alone in the week it makes the sleep average 7 |
| MetricsFacts.WorkedExample | supabase/functions/analyze/index.ts:66-98 | 60 min at RPE 8, sleep 5, soreness 6 on the reference date: tl7 480, tl7_norm 0.16, recovery 74.225 (74 rounded), risk 0.397 |
| Analyze.HandleAnalyze | supabase/functions/analyze/index.ts:106-129 | a falsy today or a missing sessions array gives the missing-fields error; otherwise an invalid session gives the session error; otherwise the result is the analyze record of the defaulted sessions |
| PlanTemplates.TemplatesAreWeeks | supabase/functions/plan/index.ts:81-198 | every template of every sport and goal has seven days labelled Mon to Sun in order |
| PlanEngine.DecidePlanType | supabase/functions/plan/index.ts:200-204 | Regeneration exactly when risk > 0.70; Deload exactly when risk ≤ 0.70 and recovery < 40; Performance otherwise |
| PlanEngine.GenerateBasePlan | supabase/functions/plan/index.ts:206-209 | the template of the pair when it exists, Running/Endurance otherwise, and always a full week |
| PlanEngine.AdaptDay | supabase/functions/plan/index.ts:212-227 | one day: the label is kept; after Regeneration the session holds no keyword of either rule, and a day without one is kept; Deload appends the note and keeps the focus; Performance keeps the day |
| PlanEngine.RegenerationDay | supabase/functions/plan/index.ts:214-223 | a high-intensity day becomes the mobility session even if it mentions a Long Run; otherwise a Long Run day becomes the easy run; any other day is kept |
| PlanEngine.AdaptPlanForState | supabase/functions/plan/index.ts:211-228 | same length, each day adapted on its own, every day label kept |
| PlanEngine.PerformanceKeepsPlan | supabase/functions/plan/index.ts:211-228 | Performance returns the plan unchanged |
| PlanEngine.DeloadAppendsNote | supabase/functions/plan/index.ts:224-226 | Deload appends exactly " (−30% Volumen)" to every session and keeps every focus |
| PlanEngine.RegenerationIsCalm | supabase/functions/plan/index.ts:214-223 | after Regeneration no day contains a high-intensity keyword or "Long Run" |
| PlanEngine.AdaptedIsWeek | supabase/functions/plan/index.ts:211-228 | adapting a week gives a week |
| PlanEngine.SmallSidedGamesKept | supabase/functions/plan/index.ts:214-223 | "Small Sided Games 4×6'" survives Regeneration untouched, since the spelled-out name contains none of the keywords |
| PlanEngine.LowerCaseKeywordsKept | supabase/functions/plan/index.ts:214-223 | a day whose session is "long run, ssg" survives Regeneration untouched, since the keyword match is case-sensitive |
| PlanEngine.FootballEnduranceWednesday | supabase/functions/plan/index.ts:144 | the Football/Endurance Wednesday is that small-sided-games day |
| PlanEngine.ExplainReason | supabase/functions/plan/index.ts:231-243 | one message kind per regime, in both directions; every message embeds the record's recovery index and 7-day load, and the Regeneration and Performance messages also the risk rounded to 2 decimals |
| PlanEngine.GeneratePlan | supabase/functions/plan/index.ts:245-257 | the returned metrics are the plan record, and the regime, the reason and the week are all derived from that same record; the week has seven days |
| PlanEngine.RegimeOfAggregate | supabase/functions/plan/index.ts:77 | the decision compares the unrounded risk with 0.70 and the rounded recovery with 40, that is the unrounded recovery with 39.5 |
| PlanEngine.WorkedExamplePlan | supabase/functions/plan/index.ts:245-249 | the worked example with Running/Endurance resolves to Performance and returns the Running/Endurance template unmodified |
| PlanEngine.HandlePlan | supabase/functions/plan/index.ts:264-286 | a falsy today, sport or goal or a missing sessions array gives the missing-fields error; otherwise an invalid session gives the session error; otherwise the result is the plan for the defaulted sessions |
| CsvImport.HeaderField | src/lib/athleteVision.ts:115-154 | every column name the switch recognises is a synonym of the field it sets |
| CsvImport.HeaderFieldComplete | src/lib/athleteVision.ts:115-154 | every synonym (duration, rpe, distance, hr, heart_rate, sleep, hrv, soreness and the full names) selects its field |
| CsvImport.HeaderFieldIff | src/lib/athleteVision.ts:115-154 | a column name selects a field exactly when it is one of that field's synonyms |
| CsvImport.CellFor | src/lib/athleteVision.ts:116-153 | date, sport and notes keep the text; every other field stores the parsed number; a reference definition, whose effect on a record FieldSetIff and LastColumnWins state |
| CsvImport.AssignCell | src/lib/athleteVision.ts:111-155 | an empty cell or an unknown column leaves the record unchanged; otherwise only the column's field is overwritten; a reference definition, whose effect over a line FieldSetIff and LastColumnWins state |
| CsvImport.FieldSetIff | src/lib/athleteVision.ts:111-155 | a field is set exactly when some column with a non-empty cell maps to it |
| CsvImport.LastColumnWins | src/lib/athleteVision.ts:111-155 | when several columns map to one field, the last non-empty one decides its value |
| CsvImport.HeaderNames | src/lib/athleteVision.ts:104 | one column name per header cell, trimmed and lower-cased; a reference definition, whose pieces Split, JoinSplit, TrimIsSlice and Lower characterise |
| CsvImport.CellValues | src/lib/athleteVision.ts:108 | one value per cell, trimmed; a reference definition, whose pieces Split, JoinSplit and TrimIsSlice characterise |
| CsvImport.Keep | src/lib/athleteVision.ts:157-159 | no more records than drafts, and every kept record has date, sport and a truthy duration and RPE |
| CsvImport.Emitted | src/lib/athleteVision.ts:157-159 | the truthiness test a record must pass: date and sport set, and a duration and RPE that are numbers other than 0 and NaN |
| CsvImport.KeepInOrder | src/lib/athleteVision.ts:107-162 | the kept records are the drafts passing the test, in input order; a draft is dropped exactly when it fails, so a duration or RPE of 0 or NaN drops the row |
| CsvImport.ParseCsvSpec | src/lib/athleteVision.ts:100-163 | the import fails, with the header error, exactly when the trimmed text has no line break; otherwise it returns fewer records than lines, every one passing the truthiness test |
| CsvImport.BuildRecord | src/lib/athleteVision.ts:109-155 | the column loop builds the record RowDraft defines |
| CsvImport.EmitRecords | src/lib/athleteVision.ts:107-160 | the line loop pushes exactly the kept records, in order |
| CsvImport.ParseCSV | src/lib/athleteVision.ts:100-163 | the imperative import computes the reference result ParseCsvSpec |
| PlanDialog.AvailableGoals | src/components/PlanGeneratorDialog.tsx:14-31 | the goals of a known sport, Running's list otherwise; always three |
| PlanDialog.DialogChoicesHaveTemplates | src/components/PlanGeneratorDialog.tsx:14-19 | every pair the dialog offers has its own plan template, so the fallback never fires |
| PlanDialog.PlanGeneratorDialog.constructor | src/components/PlanGeneratorDialog.tsx:23-24 | starts at Running/Endurance, a consistent pair |
| PlanDialog.PlanGeneratorDialog.ChangeSport | src/components/PlanGeneratorDialog.tsx:48-55 | sets the sport; a known sport lacking the goal resets it to the list's first goal; otherwise the goal stays; a known sport leaves the pair consistent |
| PlanDialog.PlanGeneratorDialog.SelectGoal | src/components/PlanGeneratorDialog.tsx:70 | sets the goal; a goal from the offered list keeps the pair consistent |
| ImprovementPlan.PlansHaveSevenDays | src/pages/ImprovementPlan.tsx:24-78 | every plan in the table has seven cards |
| ImprovementPlan.CurrentPlan | src/pages/ImprovementPlan.tsx:80 | the plan of the pair when it exists, running/endurance otherwise, always seven cards |
| ImprovementPlan.StrengthEnduranceFallsBack | src/pages/ImprovementPlan.tsx:80 | strength/endurance has no plan and shows running/endurance |
| ImprovementPlan.Without | src/pages/ImprovementPlan.tsx:19 | the filter removes every copy of i and keeps every other entry |
| ImprovementPlan.Toggle | src/pages/ImprovementPlan.tsx:17-21 | after a toggle, i is present exactly when it was absent; other entries keep their membership; an absent i is appended once at the end, a present one filtered out |
| ImprovementPlan.ToggleCount | src/pages/ImprovementPlan.tsx:17-21 | on a list without duplicates, a toggle raises the completed count by one when it adds i and lowers it by one when it removes i |
| ImprovementPlan.OthersKeepOrder | src/pages/ImprovementPlan.tsx:17-21 | apart from i, the list after a toggle holds the same entries in the same order |
| ImprovementPlan.ToggleTwice | src/pages/ImprovementPlan.tsx:17-21 | toggling twice restores the list when i was absent, and restores membership always |
| ImprovementPlan.ToggleKeepsNoDuplicates | src/pages/ImprovementPlan.tsx:17-21 | a list without duplicates has none after a toggle |
| ImprovementPlan.ImprovementPlanPage.CompletedAtMostSeven | src/pages/ImprovementPlan.tsx:135 | the completed count shown never exceeds 7 while the checklist holds distinct indices of the week |
| ImprovementPlan.ImprovementPlanPage.Plan | src/pages/ImprovementPlan.tsx:80 | the page shows the current plan of its selection |
| ImprovementPlan.ImprovementPlanPage.constructor | src/pages/ImprovementPlan.tsx:12-14 | starts at running/endurance with an empty, valid checklist |
| ImprovementPlan.ImprovementPlanPage.ToggleDay | src/pages/ImprovementPlan.tsx:16-22 | replaces the checklist by its toggle, keeps the selection, and keeps the checklist valid for a card index 0..6 |
| ImprovementPlan.ImprovementPlanPage.SetSport | src/pages/ImprovementPlan.tsx:96 | changes the sport only |
| ImprovementPlan.ImprovementPlanPage.SetGoal | src/pages/ImprovementPlan.tsx:107 | changes the goal only |
| Dashboard.BandOf | src/pages/Dashboard.tsx:15-19 | success below 40, warning from 40 to below 70, destructive from 70, each in both directions |
| Dashboard.RiskColor | src/pages/Dashboard.tsx:15-19 | the text colour is the colour of the risk's band |
| Dashboard.RiskBg | src/pages/Dashboard.tsx:21-25 | the card background is the background of the risk's band |
| Dashboard.ProgressClass | src/pages/Dashboard.tsx:97-103 | the progress-bar class is the bar class of the risk's band |
| Dashboard.SameClasses | src/pages/Dashboard.tsx:97-103 | each of the three class choices gives two risks the same class exactly when they are in the same band |
| Dashboard.BandMonotone | src/pages/Dashboard.tsx:15-25 | a larger risk is never in a lower band |

## Left out

- HTTP plumbing is not modelled: `serve`, the CORS preflight, `req.json()`, logging, and the 500 response for exceptions. The handlers are methods from a parsed request to a result or an error message.
- `sessions` that is present but not an array is folded into "missing" (`None`), because both give the same error.
- Sessions that are not objects, and members of the wrong JSON type, are not modelled; the model's members are strings or numbers.
- Date parsing is not modelled: `toDate` is a caller-supplied function.
- IEEE-754 arithmetic is not modelled. Numbers are exact reals, and `toFixed` rounds exactly, half away from zero. Binary floating point can round a printed half differently.
- `explainReason`: only the regime, the message kind and the embedded values are modelled, not the German message text or its printed digits.
- `Sessions.Session` leaves out distance, heart rate, HRV and notes. The engine carries them through without reading them.
- `soreness_1_10 || 0.0` in the loop is modelled as the soreness itself. The two differ only for NaN, which is not a real.
- `parseFloat` in the CSV import is a caller-supplied parser. A NaN result is `None`, and the truthiness test treats it like 0.
- `Text.Lower` lower-cases ASCII letters only. Header names are ASCII, and non-ASCII case mapping is not modelled.
- Map lookups with inherited keys are not modelled. In JavaScript, a sport or goal named after an `Object.prototype` member such as `constructor` finds an inherited property; the model's maps hold only the table's keys.
- The network helpers and localStorage persistence in `src/lib/athleteVision.ts` are not modelled. The React hook, the other pages and all rendering are outside the core.
- React's asynchronous state updates are modelled as immediate field assignments.
- Sessions.TrainingLoad: its contract states only that the load is non-negative. The product `duration_min * rpe_1_10` is its definition, and MetricsFacts.FortnightLoad and MetricsFacts.WeekLoad relate the window loads to it.
