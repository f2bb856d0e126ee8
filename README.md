# Real-estate transaction checklist: state model

This project models the checklist state of the real-estate transaction
checklist app (`src/App.jsx`). It leaves out the markup. The model has five
modules:

- `Catalog`: the two fixed, ordered phase lists (`buyerPhases`,
  `sellerPhases`). Each phase has a name and ordered tasks, and each task a
  title, a note and an optional link. The module also holds `totalTasks` as
  the left fold `reduce` performs, and a reference sum `TaskCount`, which
  `Reduce`'s contract ties it to.
- `TaskKeys`: the string key `` `${phase}-${index}` `` under which a task's
  checked flag is stored, the decimal rendering of the index, and the keys
  derived for a whole phase list.
- `Stores`: the `checked` and `expanded` objects as `map<string, bool>`. An
  absent key reads as false. The updater
  `prev => ({...prev, [key]: !prev[key]})` is `Flip`, and `Replay` applies a
  sequence of such updates.
- `ProgressCalculator`: `completedTasks` (every true value in `checked`) and
  `progress`, the rounded percentage, in integer arithmetic.
- `App`: class `ChecklistApp` with the three state cells `transactionType`,
  `checked` and `expanded` as fields. It has the handlers `ToggleTask`,
  `ToggleExpand` and `SelectTransactionType` (the two buttons'
  `setTransactionType`). Ghost histories of every toggled key and phase make
  "a key reads as checked iff it was toggled an odd number of times" an
  invariant of the object. Two client methods, `BuyerWalkthrough` and
  `SharedKeyWalkthrough`, show what callers can prove from the contracts.

The model keeps the app's quirk about transaction types. Switching the type
never clears `checked`. Buyer and seller both have phases named
"Under Contract" and "Closing", so a task of one type at index 0 to 3 of these
phases shares its key with the other type's task at the same index (`KeysCollideAcrossTypes`,
`SharedKeyWalkthrough`). `completedTasks` counts every true value in the
store, so stale keys can push `progress` above 100. After checking all 17
seller tasks and switching to buyer, the bar shows 131%
(`StaleSellerKeysInflateBuyerProgress`).

Two points about the code that the model keeps:

- Task identity is the phase name plus the task's index; titles play no part.
- A zero total has no percentage: the code would show `NaN`, or `Infinity`
  once a value is true. `Percent` requires a positive total, and both
  catalogs have one (`PhasesFor`).

## Model

| member | source | states |
|---|---|---|
| `Catalog.PhasesFor` | src/App.jsx:195 | the active phase list has distinct phase names and holds 13 tasks for a buyer, 17 for a seller |
| `Catalog.Reduce` | src/App.jsx:199-202 | the `reduce` fold from any accumulator adds exactly the number of tasks of the phase list |
| `Catalog.TotalTasks` | src/App.jsx:199-202 | `totalTasks` (the fold from 0) is the sum of `tasks.length` over the phases |
| `Catalog.TaskCountConcat` | src/App.jsx:199-202 | the task count of two concatenated phase lists is the sum of their counts |
| `Catalog.TotalTasksConcat` | src/App.jsx:199-202 | `totalTasks` is additive over concatenation of phase lists |
| `Catalog.CatalogShape` | src/App.jsx:12-188 | buyer phases are Pre-Contract, Under Contract, Closing with 4, 5, 4 tasks; seller phases are Pre-Listing, Active Marketing, Under Contract, Closing with 5, 4, 4, 4 tasks, in authored order |
| `Catalog.SharedPhaseNames` | src/App.jsx:12-188 | the only names the two catalogs share are "Under Contract" and "Closing" |
| `TaskKeys.NatToString` | src/App.jsx:207 | the rendered index is non-empty digits without leading zeros, and reading it back gives the index |
| `TaskKeys.TrailingDigitsOfKey` | src/App.jsx:207 | in `name-digits` the digits after the last dash are exactly the rendered index, whatever the name contains |
| `TaskKeys.Key` | src/App.jsx:207 | the key is the phase name, a dash and the rendered index; that trailing digit run is exactly the part after the dash, and its value is the index |
| `TaskKeys.KeyInjective` | src/App.jsx:207 | two (phase name, index) pairs with the same key are the same pair, even for names that contain '-' |
| `TaskKeys.CatalogKeys` | src/App.jsx:262-282 | the keys derived for a phase list number exactly its tasks |
| `TaskKeys.PhaseKeysAt` | src/App.jsx:281-282 | position i of a phase's derived key list is the key of task i |
| `TaskKeys.PhaseKeysMembers` | src/App.jsx:281-282 | a key belongs to a phase's key list iff it is the key of one of its task indices |
| `TaskKeys.CatalogKeysMembers` | src/App.jsx:262-282 | a key belongs to a phase list's keys iff it is the key of some phase and one of its task indices |
| `TaskKeys.PhaseKeysDistinct` | src/App.jsx:281-282 | within one phase, different indices give different keys |
| `TaskKeys.CatalogKeysDistinct` | src/App.jsx:262-282 | distinct phase names make all task keys of a phase list distinct, one key per task |
| `TaskKeys.CatalogKeysUnique` | src/App.jsx:282 | within one transaction type the keys are distinct: the list and the set of keys both have exactly `totalTasks` entries |
| `TaskKeys.CatalogKeysHas` | src/App.jsx:281-282 | the key of task i of phase j is among the phase list's keys |
| `TaskKeys.KeysCollideAcrossTypes` | src/App.jsx:282 | the keys of tasks 0 to 3 of "Under Contract" and of "Closing" are keys of both the buyer and the seller catalog |
| `Stores.Flip` | src/App.jsx:208 | the updater negates the value under the key (absent read as false), adds the key, and leaves every other key's presence and value unchanged |
| `Stores.FlipTwice` | src/App.jsx:208 | flipping a key twice restores every lookup, and the map itself when the key was present |
| `Stores.ReplayParity` | src/App.jsx:206-213 | from the empty object a key reads true iff it was flipped an odd number of times, and is present iff it was ever flipped |
| `Stores.ReplayTrueKeys` | src/App.jsx:206-209 | from the empty object the keys reading true are exactly those flipped an odd number of times |
| `Stores.NeverFlippedReadsFalse` | src/App.jsx:291 | a key that was never toggled reads as unchecked |
| `Stores.CountTrue` | src/App.jsx:203 | `completedTasks` is at most the number of stored keys, and 0 iff no key reads as true |
| `Stores.TrueValuesAlongCount` | src/App.jsx:203 | counting true values along a duplicate-free key list counts the listed keys that read as true |
| `Stores.CountTrueIsFilterLength` | src/App.jsx:203 | filtering the values in any duplicate-free enumeration of the object's keys gives `CountTrue`, whatever the order |
| `Stores.CountTrueFlip` | src/App.jsx:203-208 | checking an unchecked key raises the true-value count by exactly 1; unchecking lowers it by exactly 1 |
| `ProgressCalculator.Percent` | src/App.jsx:204 | the result is within half a percent of `100*completed/total`, an exact half rounding up |
| `ProgressCalculator.PercentUnique` | src/App.jsx:204 | only one whole number is within half a percent (halves up), so that property defines the rounded value |
| `ProgressCalculator.PercentMonotone` | src/App.jsx:204 | more completed tasks never give a smaller percentage |
| `ProgressCalculator.PercentEnds` | src/App.jsx:204 | 0 completed is 0%, and completed equal to total is 100% |
| `ProgressCalculator.PercentAbove100` | src/App.jsx:204 | for totals up to 200 the percentage exceeds 100 iff completed exceeds total |
| `ProgressCalculator.PercentExamples` | src/App.jsx:204 | 1 of 13 is 8%, 9 of 17 is 53%, 1 of 2 is 50%, and 1 of 8 (12.5) rounds up to 13% |
| `ProgressCalculator.ProgressOf` | src/App.jsx:203-204 | `progress` is within half a percent of all true values over the active list's task count |
| `ProgressCalculator.ToggleProgressMonotone` | src/App.jsx:203-209 | toggling an unchecked task never lowers `progress`; toggling a checked task never raises it |
| `ProgressCalculator.NothingCheckedIsZero` | src/App.jsx:203-204 | with no key reading true, `progress` is 0 |
| `ProgressCalculator.AllActiveCheckedIsHundred` | src/App.jsx:199-204 | when the true keys are exactly the active catalog's task keys, `progress` is 100 |
| `ProgressCalculator.ProgressAbove100` | src/App.jsx:203-204 | `progress` exceeds 100 iff more values are true than the active catalog has tasks |
| `ProgressCalculator.StaleSellerKeysInflateBuyerProgress` | src/App.jsx:195-204 | all 17 seller keys checked and the type switched to buyer gives `completedTasks` 17 and `progress` 131 |
| `ProgressCalculator.FirstBuyerTaskIsEightPercent` | src/App.jsx:204-208 | from an empty store, checking task 0 of "Pre-Contract" gives 1 completed and `progress` 8 |
| `App.ChecklistApp.constructor` | src/App.jsx:191-193 | a session starts as buyer with empty `checked` and `expanded` and no toggles |
| `App.ChecklistApp.IsChecked` | src/App.jsx:291 | a key reads as checked iff it was toggled an odd number of times; never toggled means unchecked |
| `App.ChecklistApp.IsExpanded` | src/App.jsx:276-279 | a phase is expanded iff its header was toggled an odd number of times; never toggled means collapsed |
| `App.ChecklistApp.TotalTasks` | src/App.jsx:199-202 | `totalTasks` is the task count of the active phase list and is positive |
| `App.ChecklistApp.CompletedTasks` | src/App.jsx:203 | `completedTasks` is the number of keys toggled an odd number of times, of any phase and either type |
| `App.ChecklistApp.Progress` | src/App.jsx:204 | `progress` is within half a percent of the session's stored true values over its `totalTasks`, halves up |
| `App.ChecklistApp.SelectTransactionType` | src/App.jsx:224-243 | switching type changes only `transactionType` and so the active phase list; `checked`, `expanded` and `completedTasks` stay as they were |
| `App.ChecklistApp.ToggleTask` | src/App.jsx:206-209 | `checked` becomes the flip of its old value at `${phase}-${index}`; other keys, `expanded` and the type are unchanged; `completedTasks` moves by exactly 1; `progress` never lowers on a check and never raises on an uncheck |
| `App.ChecklistApp.ToggleExpand` | src/App.jsx:211-213 | `expanded` becomes the flip of its old value at the phase name; every other phase's flag, `checked` and the type are unchanged |

## Left out

- Rendering: the JSX markup, Tailwind class strings, `primaryColor`, the
  phases' `icon` and `color` fields and the static reminder list are
  presentation only.
- React's `useState` and re-rendering are not modelled. Each
  `setX(prev => ...)` is one atomic assignment to a field of
  `ChecklistApp`.
- `Math.round` on IEEE doubles is not modelled. `Percent` computes
  round-half-up in exact integers, `(200*c + t) / (2*t)`. With totals of 13
  and 17 no exact half occurs, so this agrees with the double computation.
- The `NaN` that a zero total would give (or `Infinity`, once a value is
  true) is not modelled. `Percent` requires a positive total, and neither
  catalog has a zero total.
- `transactionType` is a string in the source. The model uses an
  enumeration of the only two values the buttons set. In the source, any
  value other than "buyer" would select the seller list.
- Task links are stored as optional strings and never interpreted. The
  anchor's `target` and `rel` attributes are not modelled.
- The stores are modelled as maps without a prototype. In the source they
  start as plain `{}`, so names inherited from `Object.prototype`
  (`toString`, `valueOf`, `constructor`, `__proto__`, ...) read as truthy
  before any toggle, and a first toggle of such a name stores `false`. The
  model reads every absent name as false instead. No catalog phase name is
  one of these names, and no `name-index` key can be one, because every key
  ends in a dash and digits.
- Both handlers otherwise accept any phase name, as in the source. The index
  is a natural number, not an arbitrary JavaScript value. The rendered page
  only passes names and indices from the active catalog.
