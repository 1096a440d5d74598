# Budget tracker core, modelled in Dafny

The budget tracker is a small React application. A user sets a budget
(`gasto`) and records expenses against it. This project models two pieces
of its logic.

- **The state reducer** (`GastoReducer`). The state is the budget and the
  modal's visibility. There are three actions: `AGREGAR_GASTO` adds its
  payload to the budget, `show-modal` opens the modal and `close-modal`
  closes it. Any other action type reaches the default case and leaves the
  state unchanged. `Reduce` has no precondition, so the reducer is total.
  `ReduceAll` folds a run of dispatched actions, which is what React's
  `useReducer` does with them one at a time.
- **The expense list's edit logic** (`ExpenseList`).
  - `ValidateEdit` is the ordered chain of checks a save runs. The name must
    not be blank once trimmed. The amount must be positive. A category must
    be chosen. The other expenses plus the new amount must not exceed the
    budget.
  - `EditSession` is a class holding the two pieces of component state,
    `editingId` and `editedExpense`. `HandleEdit` opens it, the field
    setters change the draft, `HandleCancelEdit` closes it, and
    `HandleSaveEdit` validates the draft, then alerts or dispatches.
  - `GetCategoryName` is the category lookup, over a category table passed
    in as a parameter.
  - `HandleDelete` dispatches a removal only once the user has confirmed.

Supporting modules:
- `Types` holds the records: expense, draft, category and date value.
- `JsString` models `String.prototype.trim`, using the white-space and
  line-terminator code points of ECMA-262.

Amounts are Dafny `real`s.

The component reads `state.expense` and dispatches `update-expense` and
`remove-expense`. None of these exist in the reducer's `GastoState` and
`GastoAction` types (src/reducers/gasto-reducer.ts:6-15). So the model takes
the expense sequence and the budget as explicit inputs. A save or delete
returns the action it would dispatch. `ListActionsReachDefaultCase` shows that
the reducer as written falls into its default case for those action types.

## Model

| member | source | states |
|---|---|---|
| `JsString.TrimStart` | src/components/ExpenseList.tsx:65 | The result is the longest suffix that does not start with white space. Everything removed is white space. |
| `JsString.TrimEnd` | src/components/ExpenseList.tsx:65 | The result is the longest prefix that does not end with white space. Everything removed is white space. |
| `JsString.LeadingWhiteSpace` | src/components/ExpenseList.tsx:65 | Counts the leading white space: every character before the count is white space, and the character at the count, if any, is not. |
| `JsString.TrailingWhiteSpace` | src/components/ExpenseList.tsx:65 | Counts the trailing white space: every character after the remaining prefix is white space, and the last character of that prefix, if any, is not. |
| `JsString.Trim` | src/components/ExpenseList.tsx:65 | `trim()` returns the slice of the string that starts right after its leading white space. Everything after the slice is white space, and the slice neither starts nor ends with white space. |
| `JsString.TrimEmptyIffBlank` | src/components/ExpenseList.tsx:65 | `trim()` gives the empty string exactly when every character is white space. |
| `JsString.TrimIdempotent` | src/components/ExpenseList.tsx:65 | Trimming twice gives the same result as trimming once. |
| `GastoReducer.InitialState` | src/reducers/gasto-reducer.ts:18-21 | The initial state has budget 0 and the modal closed. |
| `GastoReducer.Reduce` | src/reducers/gasto-reducer.ts:26-46 | The reducer is total. Only `AGREGAR_GASTO` can change the budget, and only `show-modal` and `close-modal` can change the modal flag. |
| `GastoReducer.TypeDeterminesAction` | src/reducers/gasto-reducer.ts:6-9 | Two actions with the same `type` string take the same branch of the reducer. |
| `GastoReducer.AgregarGastoAdds` | src/reducers/gasto-reducer.ts:28-32 | `AGREGAR_GASTO` sets the budget to the old budget plus the payload and keeps the modal flag. |
| `GastoReducer.ShowModalOpens` | src/reducers/gasto-reducer.ts:33-37 | `show-modal` sets the flag to true, keeps the budget, and applying it twice equals applying it once. |
| `GastoReducer.CloseModalCloses` | src/reducers/gasto-reducer.ts:38-42 | `close-modal` sets the flag to false, keeps the budget, and is idempotent. `close-modal` after `show-modal` gives the original budget with the modal closed. |
| `GastoReducer.UnknownIsIdentity` | src/reducers/gasto-reducer.ts:43-44 | An action of any other type returns the state unchanged. |
| `GastoReducer.ReduceAll` | src/context/GastoContext.tsx:24 | Folds the dispatched actions through the reducer in order. A run with no `AGREGAR_GASTO` keeps the budget, and a run with no modal action keeps the flag. |
| `GastoReducer.ReduceAllAppend` | src/reducers/gasto-reducer.ts:26-46 | Dispatching two runs one after the other is the same as dispatching their concatenation. |
| `GastoReducer.ModalAfterFirst` | src/reducers/gasto-reducer.ts:33-42 | For any state, reading the modal flag from the run's last modal action gives the same answer as stepping the reducer on the first action and reading the rest of the run from the new flag. |
| `GastoReducer.ReduceAllCharacterised` | src/reducers/gasto-reducer.ts:26-46 | After any run, the budget is the start budget plus every `AGREGAR_GASTO` payload in the run. The modal flag is set by the run's last modal action, or stays at its start value if the run has none. |
| `GastoReducer.AgregarGastoActions` | src/reducers/gasto-reducer.ts:7 | Builds one `AGREGAR_GASTO` action per amount, in order. |
| `GastoReducer.AgregarGastoAccumulates` | src/reducers/gasto-reducer.ts:28-32 | A run of `AGREGAR_GASTO` actions raises the budget by the sum of the payloads and leaves the modal flag alone. |
| `GastoReducer.SumPermutation` | src/reducers/gasto-reducer.ts:28-32 | Two sequences of payloads with the same multiset have the same sum. |
| `GastoReducer.AgregarGastoOrderIrrelevant` | src/reducers/gasto-reducer.ts:28-32 | Any reordering of the `AGREGAR_GASTO` payloads reaches the same state. |
| `ExpenseList.FindCategory` | src/components/ExpenseList.tsx:26 | Finds nothing exactly when no entry has the id. Otherwise it returns the entry at the first index whose id matches. |
| `ExpenseList.GetCategoryName` | src/components/ExpenseList.tsx:25-28 | With no match the result is `'Sin categoría'`. Otherwise it is the first match's name, or `'Sin categoría'` when that name is empty. |
| `ExpenseList.WithoutId` | src/components/ExpenseList.tsx:80-81 | The filter keeps every expense whose id differs from the edited id, as many times as it occurs and in its original order, drops every expense carrying that id, and never lengthens the list. |
| `ExpenseList.TotalSinEsteGasto` | src/components/ExpenseList.tsx:80-82 | The total of the other expenses, plus the amounts of the expenses carrying the edited id, is the total of all expenses. |
| `ExpenseList.TotalSplitsById` | src/components/ExpenseList.tsx:80-82 | The total without the edited id plus the amounts carrying that id equals the total of all expenses. |
| `ExpenseList.TotalSinEsteGastoOfPresent` | src/components/ExpenseList.tsx:80-82 | When ids are unique, the total without an existing expense's id is the whole total minus that expense's amount. |
| `ExpenseList.TotalSinEsteGastoOfAbsent` | src/components/ExpenseList.tsx:80-82 | When no expense has the id, the total without it is the whole total. |
| `ExpenseList.ValidateEdit` | src/components/ExpenseList.tsx:65-90 | The checks run in order and the first failure decides. A blank name fails first, then a non-positive amount, then an empty category, then going over budget. The budget check fails exactly when the others' total plus the new amount is greater than the budget, so equality passes. On that failure the reported amount available is the budget minus the others' total. The edit is accepted exactly when every check passes. |
| `ExpenseList.AcceptedEditFitsBudget` | src/components/ExpenseList.tsx:84-86 | When ids are unique, an accepted edit of an existing expense keeps the total, with the new amount in place of the old one, within the budget. |
| `ExpenseList.AcceptanceIsMonotone` | src/components/ExpenseList.tsx:84-86 | If an edit is accepted, the same edit with a smaller positive amount is accepted too. |
| `ExpenseList.ListActionsReachDefaultCase` | src/reducers/gasto-reducer.ts:43-44 | `update-expense` and `remove-expense` are not among the reducer's types, so dispatching them leaves the reducer's state unchanged. |
| `ExpenseList.HandleDelete` | src/components/ExpenseList.tsx:97-101 | Deleting dispatches something exactly when the user confirmed, and what it dispatches is `remove-expense` of that id. |
| `ExpenseList.DraftOf` | src/components/ExpenseList.tsx:46-51 | The draft copies name, amount and category. Its date is always a single date: the expense's own date if that is one, otherwise `OneDate(coerced)`, the host's conversion. |
| `ExpenseList.EditSession.constructor` | src/components/ExpenseList.tsx:21-22 | Both session fields start empty. |
| `ExpenseList.EditSession.HandleEdit` | src/components/ExpenseList.tsx:44-52 | Afterwards `editingId` is the expense's id and the draft is the expense's draft. The session is open and consistent. |
| `ExpenseList.EditSession.HandleCancelEdit` | src/components/ExpenseList.tsx:55-58 | Both fields are cleared. |
| `ExpenseList.EditSession.SetExpenseName` | src/components/ExpenseList.tsx:163 | Only the draft's name changes, and the session stays open and consistent. |
| `ExpenseList.EditSession.SetAmount` | src/components/ExpenseList.tsx:172 | Only the draft's amount changes, and the session stays open and consistent. |
| `ExpenseList.EditSession.SetCategory` | src/components/ExpenseList.tsx:180 | Only the draft's category changes, and the session stays open and consistent. |
| `ExpenseList.EditSession.SetDate` | src/components/ExpenseList.tsx:195 | Only the draft's date changes, and the session stays open and consistent. |
| `ExpenseList.EditSession.HandleSaveEdit` | src/components/ExpenseList.tsx:61-94 | With no draft, nothing is dispatched and nothing changes. A rejected draft produces the alert for the first failing check and nothing else changes. An accepted draft dispatches `update-expense` with the given id and the draft, then clears both fields. A consistent session stays consistent. |
| `ExpenseList.EditThenSave` | src/components/ExpenseList.tsx:44-94 | Opening an edit on an expense that passes every check and saving it unchanged dispatches an update of that expense with its own draft, and leaves the session closed. |

## Left out

- Floating point: amounts are exact reals. IEEE rounding and `NaN` are not modelled, including the `isNaN` half of the amount check at src/components/ExpenseList.tsx:69. Summation order therefore does not matter in the model.
- `alert` and `window.confirm` (src/components/ExpenseList.tsx:66-98) are replaced by outputs and inputs. The alert becomes the `Alerted` outcome carrying the error. The confirmation becomes the `confirmed` argument of `HandleDelete`. The alert text and the currency formatting are not modelled.
- `ExpenseList.DraftOf`: `new Date(expense.date as any)` calls the host's `Date` constructor, so its result is the `coerced` parameter and is left unconstrained. The model does not say that a missing date converts to the epoch (0). `Types.Date` holds an integer time value, so it cannot represent the Invalid Date (a `NaN` time value) that converting a date range can give.
- `GastoReducer.Reduce`: the default argument `state = initialState` at src/reducers/gasto-reducer.ts:26 is not modelled. `Reduce` always takes an explicit state; a call with `undefined` would correspond to `Reduce(InitialState(), action)`.
- `formatDate`, `formatCurrency`: thin wrappers over `Intl.DateTimeFormat` and `Intl.NumberFormat`.
- The category table: src/data/categories is not part of this model, so the table is a parameter.
- `ExpenseList.EditSession.SetExpenseName`, `SetAmount`, `SetCategory`, `SetDate`: the form that calls them renders only when the session is open on that expense with a draft (src/components/ExpenseList.tsx:155), so they require an open, consistent session. The string-to-number conversion `+e.target.value` is not modelled: `SetAmount` takes the number.
- React's state batching is not modelled: each handler runs to completion against the current fields.
- Rendering, the visibility toggle and the CSS animation of the list.
- Persistence in `localStorage` (src/helpers/localStorage.ts): JSON encoding, storage access and `Date` parsing are all foreign calls.
- Context, hook and bootstrap wiring, and the presentational components.
- Expense id generation, the derived totals shown elsewhere, and reducer cases for adding, removing, updating or resetting. None of these exists in the reducer that the list's actions are dispatched to.
