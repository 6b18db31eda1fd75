# EU Cross-Border Helper — decision rules

The EU Cross-Border Helper is a single-page guide for a Belgian exporter
selling to French supermarkets. Under its DOM wiring sit a few
deterministic rules, and this project models those rules on plain data:

- how the stored intake snapshot turns into eight conditions;
- which guidance hints of the five compliance steps are shown;
- the completion percentages of the steps and of the whole guide;
- the navigation tabs, the arrow-key navigation and the status tracker;
- how the intake form is saved, and the context-bar pills that summarise it;
- the Get-Advice messages;
- the contract-workflow state machine and its save and load.

Modules:

| file | module | contents |
|---|---|---|
| `wrappers.dfy` | `Wrappers` | `Option`, for elements, stored fields and results that may be missing |
| `text.dfy` | `Text` | the string operations the page uses: `toLowerCase` (ASCII letters), `includes`, `trim() === ''`, `join`, `replace(' ', '-')` |
| `lookup.dfy` | `Lookup` | `findIndex` by equality, as a function and as the loop behind it |
| `intake.dfy` | `Intake` | the snapshot, `checkIntakeConditions`, `saveIntakeData` (fallbacks and checkbox routing), the context bar |
| `hints.dfy` | `Hints` | the five hint chains, a keyword table they reduce to, and the in-place rewrite of a guidance list |
| `progress.dfy` | `Progress` | `Math.round` on exact quotients, `calculateStepCompletion`, `calculateOverallProgress` |
| `navigation.dfy` | `Navigation` | the `Page` class: tab click, keydown, status tracker, start-up |
| `advice.dfy` | `Advice` | `generateTailoredAdvice` and the five generators |
| `workflow.dfy` | `Workflow` | the `ContractWorkflow` class: start, complete, save, load |

How the page is represented:

- The stored snapshot is a record of optional strings plus optional lists.
- A form control is a record of its kind, read-only flag, value and checked flag.
- The page's tabs, panels and status steps are arrays of flags inside a class.
- The workflow steps are a sequence of records inside a class, and storage is a field of that class.

`Math.round(n / d)` is computed exactly as `(2n + d) div (2d)`, which is the
integer nearest n/d with halves rounded up. JavaScript's `%` is modelled as a
truncating remainder (`Navigation.JsRem`).

## Model

| member | source | states |
|---|---|---|
| Intake.CheckIntakeConditions | utils.js:10-23 | Each of the eight conditions holds exactly when its field has the expected value. buyerType must be 'fr-supermarkets', hasFrEntity 'no' and uses3pl 'yes'. The product name must be present and contain 'organic' ignoring ASCII case. Each objective flag needs the stored list to be present and to contain that exact id. |
| Intake.ConditionsReadFiveFields | utils.js:13-22 | Two snapshots that agree on buyerType, hasFrEntity, productName, uses3pl and objectives give the same conditions. |
| Intake.OrganicIgnoresCase | utils.js:16 | Product names that are equal after lowercasing give the same isOrganic. |
| Intake.NothingStoredNoConditions | utils.js:4-7 | With nothing stored (the empty object), all eight conditions are false. |
| Intake.OrDefaultNonEmpty | script.js:228-246 | `value \|\| fallback` with a non-empty fallback is never empty. It equals the fallback exactly when the element is missing, its value is empty, or its value is the fallback itself. |
| Intake.RouteOf | script.js:253-264 | A box goes to objectives iff it is checked and its subsection title contains 'Priorities'. It goes to contract essentials iff it is checked and its title contains 'Essentials' but not 'Priorities'. |
| Intake.RoutedAppend | script.js:252-266 | Routing a concatenation of boxes gives the concatenation of the routings, so the lists keep document order. |
| Intake.RoutedMembers | script.js:252-266 | A value is in a routed list exactly when some box carrying it is routed there. |
| Intake.RoutedPartition | script.js:252-266 | Each box goes to exactly one of objectives, essentials or nowhere, so the three lists together are as long as the boxes. |
| Intake.RouteCheckboxes | script.js:249-266 | The push loop builds exactly the two routed lists. |
| Intake.SaveIntakeData | script.js:224-266 | The stored snapshot has every scalar field present and non-empty. Both lists are present. A non-empty buyer type or product name is kept as typed. |
| Intake.SnapshotOf | script.js:224-247 | The snapshot a save writes has every scalar field present and non-empty, and both lists present. What each field holds is stated by `SaveIntakeData` and the `Saved…` lemmas. |
| Intake.SavedEntityAndLogisticsConditions | script.js:229-236 | After a save, "no FR entity", "uses 3PL" and "FR supermarket buyer" also hold when the field was missing or empty, because the fallbacks are 'no', 'yes' and 'fr-supermarkets'. |
| Intake.SavedObjectiveCondition | script.js:252-266 | After a save, the condition for any objective id holds exactly when a checked box under a 'Priorities' title carries that id. This decides all four objective conditions. |
| Intake.EmptyFormConditions | script.js:228-246 | A page without any intake element saves the fallbacks. Those make the buyer, entity, organic and 3PL conditions true and every objective condition false. |
| Intake.DefaultProductIsOrganic | script.js:242 | The fallback product name 'Organic tomatoes' contains 'organic' after lowercasing. |
| Intake.ObjectiveLabel | script.js:342-346 | Ids other than the two in the label table are shown verbatim. |
| Intake.Labels | script.js:346 | Mapping ids through the label table keeps their number and order. |
| Intake.EntityPill | script.js:320-323 | The entity pill reads 'Has FR entity' iff the stored field is 'yes'. Otherwise it reads 'No FR entity'. |
| Intake.LogisticsPill | script.js:330-333 | The logistics pill reads '3PL' iff the stored field is 'yes', empty or missing. Otherwise it reads 'Direct'. |
| Intake.ObjectivesPill | script.js:340-348 | The objectives pill lists the labels of at most the first two stored objectives, joined by ', '. |
| Intake.FirstTwoLabels | script.js:346-347 | The pill text is built from zero, one or two labels, with ', ' between two. |
| Intake.DefaultObjectivesPill | script.js:341-347 | With no stored objectives, the pill shows 'Protect payment, Minimize FR registration'. |
| Intake.SavedEntityPill | script.js:320-323 | After a save, the entity pill reads 'Has FR entity' exactly when the form field was 'yes'. |
| Intake.PillFallbacks | script.js:315-338 | A missing or empty field shows its fallback: 'BE exporter', 'No FR entity', 'Organic tomatoes', '3PL', 'Buyer: Carrefour France'. A non-empty product name is shown as stored. |
| Intake.ContextBar | script.js:304-349 | The entity pill is 'Has FR entity' or 'No FR entity', the logistics pill '3PL' or 'Direct', and the product pill is never empty. Which choice is made is stated by `EntityPill`, `LogisticsPill`, `ObjectivesPill` and `PillFallbacks`. |
| Hints.HintRule | utils.js:45-151 | Each step's first-match chain hides a hint exactly when its lowercased text mentions a keyword from the step's table whose condition is false. |
| Hints.VatCheckHiddenIff | utils.js:52-66 | A VAT hint is hidden iff its text mentions 'french supermarkets' and the buyer is not a French supermarket. The other three branches never hide. |
| Hints.AllConditionsShowAll | utils.js:45-151 | When all eight conditions hold, every hint of every step is shown. |
| Hints.NoKeywordShown | utils.js:45-151 | A hint that mentions none of its step's keywords is shown, whatever the conditions. |
| Hints.HintIgnoresCase | utils.js:52-53 | Texts equal up to ASCII case get the same display. |
| Hints.VatCheckHint | utils.js:45-67 | The VAT chain for one hint. `VatCheckHiddenIff` states it: hidden iff the text mentions 'french supermarkets' and the buyer is not a French supermarket. |
| Hints.ContractsHint | utils.js:69-90 | The contracts chain for one hint. `HintRule` states it: hidden iff the text mentions 'protect payment', 'carrefour france', 'organic' or 'liability' while that keyword's condition is false. |
| Hints.FoodSafetyHint | utils.js:92-111 | The food-safety chain for one hint. `HintRule` states it: hidden iff the text mentions 'organic', 'carrefour' or 'compliance' while that keyword's condition is false. |
| Hints.LabelingHint | utils.js:113-130 | The labeling chain for one hint. `HintRule` states it: hidden iff the text mentions 'organic' or 'carrefour' while that keyword's condition is false. |
| Hints.TransportHint | utils.js:132-151 | The transport chain for one hint. `HintRule` states it: hidden iff the text mentions '3pl', 'organic' or 'carrefour' while that keyword's condition is false. |
| Hints.GuidanceList.constructor | utils.js:49 | A list of items with their texts, all starting with one display. |
| Hints.UpdateHints | utils.js:46-66 | A missing list changes nothing (empty frame). Otherwise every item of that list, and nothing else, gets the display its step's chain gives its text. |
| Progress.RoundDivNearest | utils.js:181 | The rounded quotient r satisfies n/d − 1/2 < r ≤ n/d + 1/2, so halves round up, which is `Math.round`'s rounding. |
| Progress.RoundDivBounds | utils.js:181 | Rounding a quotient in 0..hi stays in 0..hi. |
| Progress.RoundDivExact | utils.js:181 | A whole quotient rounds to itself. |
| Progress.PercentBounds | utils.js:181 | A percentage with completed ≤ total lies in 0..100. It is 0 when nothing is completed and 100 when everything is. |
| Progress.RoundDiv | utils.js:181 | `Math.round` of an exact quotient. `RoundDivNearest` states that it is the nearest integer with halves rounded up. |
| Progress.ValuePass | utils.js:162-170 | The value fields counted are at most the controls, and the completed ones at most the counted ones. |
| Progress.CheckboxPass | utils.js:173-179 | The checkboxes counted are at most the controls, and the checked ones at most the counted ones. |
| Progress.StepCompletionBounds | utils.js:154-182 | A step's completion (checkboxes counted once) lies in 0..100, and a missing step element gives 0. |
| Progress.StepCompletion | utils.js:154-182 | A step's completion with checkboxes counted once, by being checked. `StepCompletionBounds` and `CalculateStepCompletion` state its range and the loops that compute it. |
| Progress.BlankValuesCountNothing | utils.js:166-168 | Value fields with blank values complete nothing, whatever the checkboxes and hidden inputs hold. |
| Progress.UncheckedCountNothing | utils.js:176-178 | Unchecked checkboxes complete nothing, whatever their values. |
| Progress.NothingDoneIsZero | utils.js:154-182 | With every checkbox unchecked and every value field blank, the step is at 0%, whatever values the checkboxes carry (such as 'on' or an objective id). |
| Progress.FilledValuesAllCount | utils.js:166-168 | With every value field filled, every counted value field is completed. |
| Progress.CheckedAllCount | utils.js:176-178 | With every checkbox checked, every counted checkbox is completed. |
| Progress.EverythingDoneIsFull | utils.js:154-182 | With every checkbox checked and every value field filled, the step is at 100%, or at 0% when it has nothing to count. |
| Progress.FirstPassAsWritten | utils.js:162-170 | The first pass as written counts at most the controls, and completes at most what it counts. |
| Progress.StepCompletionAsWritten | utils.js:154-182 | A step's completion as the source counts it. `StepCompletionAsWrittenBounds`, `AsWrittenExcess` and `UncheckedBoxCountsHalf` state its range and how it differs from `StepCompletion`. |
| Progress.StepCompletionAsWrittenBounds | utils.js:154-182 | The completion as written also lies in 0..100, and a missing step element gives 0. |
| Progress.DoubleCounted | utils.js:162-179 | The editable checkboxes with a value number at most the controls. |
| Progress.BlankCheckboxes | utils.js:162-179 | The editable checkboxes with a blank value number at most the controls. |
| Progress.AsWrittenExcess | utils.js:162-179 | The source's first pass counts the intended value fields plus every editable checkbox. Each such box is completed whenever it has a value, checked or not. |
| Progress.UncheckedBoxCountsHalf | utils.js:162-181 | A step with one editable, unchecked checkbox that has a value is at 50% as written and at 0% as intended. |
| Progress.ObjectiveIdNotBlank | utils.js:166 | The checkbox values the page uses, such as 'protect-payment', are not blank, so the discrepancy applies to them. |
| Progress.CalculateStepCompletion | utils.js:154-182 | The two counting loops yield the step's completion (checkboxes counted once, by being checked), which lies in 0..100. |
| Progress.CompletionBounds | utils.js:154-182 | Under either count, as written or intended, a step's completion lies in 0..100, and a missing step gives 0. |
| Progress.SumCompletionBounds | utils.js:187-191 | Under either count, the sum of k step completions lies in 0..100k. |
| Progress.OverallProgressBounds | utils.js:185-194 | Under either count, the rounded mean of the six steps lies in 0..100, and it is 100 when all six are at 100. The count as written is the figure the page shows. |
| Progress.OverallProgress | utils.js:185-194 | The rounded mean of the six step completions, under either count. `OverallProgressBounds` and `CalculateOverallProgress` state its range and the loop that computes it. |
| Progress.CalculateOverallProgress | utils.js:185-194 | The accumulating loop yields the rounded mean of the six step completions under the intended count, which lies in 0..100. |
| Navigation.ArrowDownWraps | script.js:96-97 | ArrowDown moves to the next link and wraps from the last to the first. With no active link it lands on the first. |
| Navigation.ArrowUpWraps | script.js:98-99 | ArrowUp moves to the previous link and wraps from the first to the last. With no active link it lands on the second-to-last (on the only one when there is one). |
| Navigation.NavTargetInRange | script.js:92-102 | For an active index in −1..n−1, the new index names an existing link. |
| Navigation.ArrowRoundTrip | script.js:96-100 | Down then Up, and Up then Down, return to the same link. |
| Navigation.NavTarget | script.js:95-100 | The new link index for an arrow key. `ArrowDownWraps`, `ArrowUpWraps`, `NavTargetInRange` and `ArrowRoundTrip` state its wrapping and range. |
| Navigation.TrackerProgressBounds | script.js:148-151 | With two or more links and a link index 0..n−1, the tracker percentage lies in 0..100. It is 0 at the first step and 100 at the last. |
| Navigation.TrackerProgressMonotone | script.js:148-151 | A later step never shows a smaller percentage. |
| Navigation.TrackerProgressNoCurrentLink | script.js:148-151 | With two or more links and no link for the current step (index −1, as at start-up on a page without an 'intake' link), the percentage is negative, down to −100. It rounds to 0 only with more than 200 links. |
| Navigation.TrackerProgress | script.js:148-151 | The tracker percentage. With two or more links, `TrackerProgressBounds` and `TrackerProgressMonotone` state its range and order for a link index 0..n−1, and `TrackerProgressNoCurrentLink` its negative value for index −1. With no links it is 100. With one link the source's value is not a finite number, modelled as none. |
| Navigation.Page.constructor | script.js:4-5 | The page holds the links, panels and status steps the handler collects. Its start state (no active link, no panel shown, every status step Pending) is a choice of the model: the page's real start state comes from its HTML, which is not part of this model. |
| Navigation.Page.UpdateStatusTracker | script.js:127-158 | Every status step is Pending except the first one for the current step, which is In Progress. The progress is the rounded percentage of the step's link index (none when it is not a finite number). |
| Navigation.Page.ClickTab | script.js:8-46 | Exactly the clicked link is active. Only the panel whose id is its step is shown, or none when that panel is missing. The tracker follows only when the panel exists. |
| Navigation.Page.ActiveIndex | script.js:92-94 | The result is the first active link, or −1 when none is active. |
| Navigation.Page.KeyDown | script.js:87-104 | An arrow key with links present activates exactly the link at the wrapped index and shows its panel. When that panel exists, the tracker follows that link's step as in a click. Other keys, or no links, change nothing. |
| Navigation.Page.Initialize | script.js:106-110 | With links present, the first link becomes active and the tracker is set to 'intake'. Without links nothing changes. On a page with two or more links but no 'intake' link, the tracker then shows a negative percentage, or 0 with more than 200 links (`TrackerProgressNoCurrentLink`). |
| Navigation.SingleActiveLink | script.js:16-19 | When exactly one link is active, `findIndex` finds that link. |
| Advice.SelectedMembers | script.js:445-545 | A text is selected exactly when some item carrying it has a true condition. |
| Advice.SelectedLength | script.js:445-545 | At most all items are selected: all of them when every condition holds, none when none does. |
| Advice.RenderFirst | script.js:445-545 | Rendering the first conditional item appends it to the header exactly when its condition holds. |
| Advice.RenderThreeThenOne | script.js:445-545 | The message with three conditional items and one trailer is the header, each item whose condition holds in order, the trailer and '</ul>'. |
| Advice.RenderTwoThenTwo | script.js:508-524 | The message with two conditional items and two trailers is the header, each item whose condition holds in order, both trailers and '</ul>'. |
| Advice.VatAdviceShape | script.js:445-464 | The VAT advice is its header, then the retailer, no-entity and payment items under their conditions, then the VIES item and '</ul>'. |
| Advice.ContractsAdviceShape | script.js:466-485 | The contracts advice is its header, then the payment, liability and retailer items under their conditions, then the bilingual item and '</ul>'. |
| Advice.FoodSafetyAdviceShape | script.js:487-506 | The food-safety advice is its header, then the organic, retailer and compliance items under their conditions, then the expiry item and '</ul>'. |
| Advice.LabelingAdviceShape | script.js:508-524 | The labeling advice is its header, then the organic and retailer items under their conditions, then the batch and readability items and '</ul>'. |
| Advice.TransportAdviceShape | script.js:526-545 | The transport advice is its header, then the 3PL, organic and retailer items under their conditions, then the timing item and '</ul>'. |
| Advice.VatAdvice | script.js:445-464 | The VAT advice message. `VatAdviceShape` states its parts and their conditions. |
| Advice.ContractsAdvice | script.js:466-485 | The contracts advice message. `ContractsAdviceShape` states its parts and their conditions. |
| Advice.FoodSafetyAdvice | script.js:487-506 | The food-safety advice message. `FoodSafetyAdviceShape` states its parts and their conditions. |
| Advice.LabelingAdvice | script.js:508-524 | The labeling advice message. `LabelingAdviceShape` states its parts and their conditions. |
| Advice.TransportAdvice | script.js:526-545 | The transport advice message. `TransportAdviceShape` states its parts and their conditions. |
| Advice.UnknownStepWelcome | script.js:438-439 | Any step id other than the five known ones yields the welcome message. |
| Advice.KnownStepAdvice | script.js:416-443 | For a known step, the message is its header, then each of its conditional items exactly when its condition holds (in source order), then its unconditional items, then '</ul>'. |
| Advice.TailoredAdvice | script.js:416-443 | The message for a step id. `KnownStepAdvice` states it for the five known steps and `UnknownStepWelcome` for any other id. |
| Advice.ItemsSelectedIff | script.js:445-545 | With distinct item texts, an item appears exactly when its condition holds. |
| Lookup.IndexOf | script.js:148-150 | The result is −1 iff the value is absent. Otherwise it is an index holding the value with no earlier occurrence. |
| Lookup.FindIndex | script.js:92-94 | The search loop returns the first index holding the value, or −1. |
| Text.FirstSpace | script.js:645 | The result is the index of the first space, or the length when there is none. |
| Text.ReplaceFirstSpace | script.js:645 | The length is kept, and only the first space becomes '-'. |
| Text.ReplaceWithoutSpace | script.js:645 | A string without a space is unchanged. |
| Workflow.TransitionsKeepKeys | script.js:580-636 | Starting and completing never change the step numbers. |
| Workflow.SameKeysDistinct | script.js:580-636 | Step lists with the same step numbers are both distinct or both not, so a transition keeps the numbers distinct. |
| Workflow.StartStep | script.js:580-603 | The steps after starting one. `StartEffect` states the effect. |
| Workflow.CompleteStep | script.js:605-636 | The steps after completing one. `CompleteEffect` states the effect. |
| Workflow.StartEffect | script.js:580-603 | Starting a present step marks it in progress, disables its button and sets its badge to 'In Progress'. No other step changes, and an absent step number changes nothing. |
| Workflow.CompleteEffect | script.js:605-636 | Completing a present step marks it completed and not in progress. The next-numbered step's button ends enabled, with its text reset only if it had been disabled. Every other step is unchanged, and an absent step number changes nothing. |
| Workflow.StartThenComplete | script.js:580-636 | Start then complete leaves the step completed, not in progress, badged and labelled 'Completed', with its button still disabled. |
| Workflow.StatusKeyInProgress | script.js:645 | The badge 'In Progress' is saved as 'in-progress'. |
| Workflow.StatusKeyCompleted | script.js:645 | The badge 'Completed' is saved as 'completed'. |
| Workflow.StatusKey | script.js:645 | The status text saved for a badge. `StatusKeyInProgress` and `StatusKeyCompleted` state it for the two badges the page uses. |
| Workflow.SavedStateKeys | script.js:638-655 | The saved object has an entry for exactly the step numbers. |
| Workflow.SavedStateEntries | script.js:638-655 | With distinct step numbers, each entry holds its own step's status and flags. |
| Workflow.SavedState | script.js:638-655 | The saved object. `SavedStateKeys` and `SavedStateEntries` state its keys and entries. |
| Workflow.RestoredAll | script.js:657-686 | Loading keeps the number of steps. |
| Workflow.Restored | script.js:671-684 | One step restored from its entry: completed wins over in progress, and neither leaves the step alone. `SaveLoadRoundTrip` states what a save and load bring back. |
| Workflow.SaveLoadRoundTrip | script.js:638-686 | Saving and then loading into a pending page brings back every completed flag. It brings back the in-progress flag of steps not also completed, since completed wins, and such steps come back with a disabled button. |
| Workflow.BuildWorkflowState | script.js:642-652 | The saving loop builds the saved object. |
| Workflow.ContractWorkflow.constructor | script.js:566-568 | A workflow over steps with distinct numbers and the given storage. |
| Workflow.ContractWorkflow.SaveWorkflowState | script.js:638-655 | Storage holds the saved object of the current steps. |
| Workflow.ContractWorkflow.StartWorkflowStep | script.js:580-603 | The steps become the started steps, and storage is rewritten only when the step exists. |
| Workflow.ContractWorkflow.CompleteWorkflowStep | script.js:605-636 | The steps become the completed steps, with the next step unlocked. Storage is rewritten only when the step exists. |
| Workflow.ContractWorkflow.LoadWorkflowState | script.js:657-686 | Nothing stored leaves the page alone. Otherwise every stored step is restored from its entry, with completed taking precedence. |

## Left out

- The DOM itself: it is represented as records, sequences and arrays. Element lookups by id or selector are map and index lookups. `classList`, `style` and `innerHTML` writes are field updates.
- `localStorage` and `JSON.parse`/`JSON.stringify`: storage is a field or a snapshot value. A malformed stored value makes the page throw, and that is not modelled. Non-string values inside a stored snapshot are not modelled either.
- Timers: `setTimeout` animations, and the 3-second simulated completion after a start. Completion is an explicit call.
- Hover transforms, ripple geometry, injected CSS and smooth scrolling: presentation only, and partly floating point.
- The advice panel's open/close, its overlay, and copying the sources into the panel: DOM plumbing. `generateTailoredAdvice` is modelled; `openAdvicePanel` only inserts its result.
- `loadIntakeData`: it repopulates form elements by id and by attribute selector. This is DOM plumbing; what the page then reads is the `Form` value.
- `initializeIntakePersistence`, `updateTailoredHints` and `updateProgressBar`: they wire events and call the modelled functions in order.
- Floating point: `Math.round(c / t * 100)` is computed on exact rationals, so there are no binary-fraction artefacts.
- Text.ToLower: `toLowerCase` is modelled on ASCII letters only. No other Unicode case mapping is modelled.
- Workflow step numbers are natural numbers, so `parseInt` of a non-numeric `data-step` (NaN) is not modelled.
- `document.querySelector('[data-step=…]')` is document-wide in the source, and nav links also carry `data-step`. The model looks only among the elements the code means: status steps in the tracker, workflow steps in the workflow.
- The class names set next to badge and status texts are not modelled separately. Each always goes with its text.
- `loadWorkflowState` visits stored keys in `Object.keys` order. The model visits the page's steps in order, which gives the same result because step numbers are distinct, so each step is touched once, by its own entry.
- Workflow.ContractWorkflow: workflow step numbers are assumed distinct (`DistinctKeys`, required by the constructor and kept by `Valid`). With a repeated `data-step`, the source's `querySelector` (script.js:581, 606, 664) starts, completes and restores only the first matching element, while `RestoredAll` would restore every step carrying that number. Pages with repeated step numbers are not modelled.
- Navigation.TrackerProgress: with a single link the source divides by zero. That gives `NaN` (0/0) when the link is the current step, and `-Infinity` (−1/0) when no link is. Neither is a finite number, and the model gives `None` for both.
- Navigation.Page.KeyDown: with no links the source throws on `navLinks[NaN].click()`. The model reports this as `ok == false` with nothing changed.
- Intake.ObjectiveLabel: the label table is a plain object in the source, so an id such as 'constructor' would pick up an inherited property. Only the two own keys are modelled.
- The status tracker writes its percentage only when both progress-bar elements exist, and `updateProgressBar` writes each one separately. The model assumes they exist and keeps a single percentage field.
- Hints.UpdateHints: one call covers one step's list. The dispatch to all five steps is left to the caller.

## Findings

| source | as written | input that shows it | evidently intended | confidence | as-written member | corrected member |
|---|---|---|---|---|---|---|
| utils.js:162-179 | The first pass selects 'input, select, textarea', which includes checkboxes, and counts each by its value. The second pass counts every checkbox again by `checked`. A checkbox with a value is therefore counted twice, and completed once even when unchecked. | A step with one editable, unchecked checkbox whose value is 'protect-payment' shows 50%. | Checkboxes counted once, by being checked: that step shows 0%. | medium, not executed | Progress.UncheckedBoxCountsHalf | Progress.CalculateStepCompletion |
