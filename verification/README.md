# Expense ledger and export table — a Dafny model

This project models the logic of a single-page personal-finance form. The
user enters a monthly income and a list of expenses, either by hand or by
sending a free-text description to a language model. The page derives the
total expense and the balance, and exports the ledger as a spreadsheet
table. Amounts are whole VND.

Modules:

- `Optional` (`optional.dfy`): the `Option` type for values the page keeps as empty string, null or undefined.
- `Text` (`text.dfy`): JavaScript's `trim`, which the page uses to decide whether a text box is empty.
- `Excel` (`excel.dfy`): the `Expense` record and the row table that `exportToExcel` builds before it calls the spreadsheet library.
- `Ledger` (`ledger.dfy`): the add, remove and edit handlers as pure functions on `seq<Expense>`, and the derived totals.
- `App` (`app.dfy`): the page state, applying an AI extraction result, and the two-stage export validation.

Modelling choices:

- The income text box is `Option<int>`. `None` is the empty box. `Some(v)` is a non-empty box whose numeric value (`parseFloat(x) || 0`) is `v`. So `!income` is `income.None?`, and `numIncome` is `NumIncome(income)`.
- Amounts are `int`. `0` stands for a missing or non-numeric amount, as `Number(x) || 0` and `!e.amount` treat it.
- Ids that the page draws from `crypto.randomUUID` are arguments. A `requires` states that they are fresh (`AddExpense`) or pairwise distinct (`AnalyzeAi`).
- The language-model call is not modelled. Its outcome is the input `Reply`: either `Failed` (transport error or JSON parse error) or `Parsed` with optional `income`, `expenses` and `error`.
- The JavaScript truthiness tests are explicit. `if (result.error)` is `Reported`, which is false for an empty message. `if (result.income)` is `Nonzero`, which skips an income of 0.
- An `expenses` array replaces the ledger even when it is empty, because `Array.isArray([])` holds (src/App.tsx:99). So an empty list empties the ledger (`AnalyzeAi`).

## Model

| member | source | states |
|---|---|---|
| Text.Trim | src/App.tsx:47 | the result is the slice of the input that starts right after the leading whitespace run and leaves only whitespace after it; it neither begins nor ends with whitespace; it is empty (so `!x.trim()` holds) exactly when every character is whitespace |
| Text.TrimStart | src/App.tsx:47 | the result is a suffix of the input, everything cut off is whitespace, and it does not start with whitespace |
| Text.TrimEnd | src/App.tsx:47 | the result is a prefix of the input, everything cut off is whitespace, and it does not end with whitespace |
| Excel.ItemRows | src/utils/excel.ts:10-14 | one row per expense, numbered consecutively from the given start, carrying that expense's name and amount |
| Excel.Project | src/utils/excel.ts:10-32 | `|expenses| + 3` rows; row `i` has position `i+1` and expense `i`'s name and amount; then the total-expense, balance and income rows, each with an empty position |
| Excel.ProjectRecoversLines | src/utils/excel.ts:10-14 | reading the numbered rows back gives exactly the expenses' names and amounts, in order |
| Excel.ProjectPrefixIgnoresTotals | src/utils/excel.ts:10-14 | the numbered rows depend only on the expenses, never on income or totals |
| Excel.ProjectIgnoresIds | src/utils/excel.ts:10-14 | two ledgers with the same names and amounts give the same table, so ids never appear in it |
| Excel.ProjectExample | src/utils/excel.ts:10-32 | Rent 4,000,000 and Food 3,000,000 against 15,000,000 give rows 1 and 2 and then the totals 7,000,000, 8,000,000 and 15,000,000 |
| Ledger.SumAppend | src/App.tsx:117 | the expense total of a concatenation is the sum of the totals |
| Ledger.ComputeTotals | src/App.tsx:116-118 | the left-to-right fold gives the sum of the amounts; balance plus total is the income, with an unset income counting as 0 |
| Ledger.AddExpense | src/App.tsx:29-31 | exactly one record is appended; it has the fresh id, an empty name and amount 0; the earlier records are unchanged; the ids grow by the new id and stay unique |
| Ledger.RemoveExpense | src/App.tsx:33-35 | a record is kept exactly when it was present and carries another id |
| Ledger.RemoveKeepsUnique | src/App.tsx:33-35 | removal keeps the ids unique |
| Ledger.RemoveAbsent | src/App.tsx:33-35 | removing an id not in use changes nothing |
| Ledger.RemoveAppend | src/App.tsx:33-35 | removal distributes over concatenation |
| Ledger.RemoveAt | src/App.tsx:33-35 | with unique ids, removing record `k`'s id gives `e[..k] + e[k+1..]`, so the other records keep their relative order |
| Ledger.AddThenRemove | src/App.tsx:29-35 | adding with a fresh id and then removing that id restores the list exactly |
| Ledger.Assign | src/App.tsx:40 | the chosen field takes the new value; the id and the other field are unchanged |
| Ledger.ChangeExpense | src/App.tsx:37-44 | length and ids are kept, records with another id are unchanged, and records with the id get the chosen field rewritten |
| Ledger.ChangeAt | src/App.tsx:37-44 | with unique ids, editing record `k` is the single-position update `e[k := Assign(e[k], f)]` |
| Ledger.SumUpdate | src/App.tsx:117 | replacing one record moves the total by the difference of the amounts |
| Ledger.SumAfterAdd | src/App.tsx:29-31 | a new blank record leaves the total unchanged |
| Ledger.SumAfterRemove | src/App.tsx:33-35 | removing record `k` lowers the total by exactly its amount |
| Ledger.SumAfterChange | src/App.tsx:37-44 | editing an amount moves the total by the difference; editing a name leaves it unchanged |
| App.WithIds | src/App.tsx:100-104 | one record per extracted line, in order, with that line's name and amount and the matching fresh id |
| App.AnalyzeAi | src/App.tsx:46-110 | blank prompt: "missing input" advisory and the ledger unchanged; transport or parse failure: generic advisory and the ledger unchanged; reported error: that text and the ledger unchanged; otherwise the advisory is cleared, the tab becomes manual, income changes only when non-zero, and a present list replaces the expenses with the same names and amounts and fresh unique ids |
| App.BlankInputIgnoresReply | src/App.tsx:47-50 | with a blank prompt the outcome does not depend on the reply, so the service is never consulted |
| App.AnalyzeAllOrNothing | src/App.tsx:95-110 | whenever an advisory is shown the ledger is unchanged, and whenever the ledger changed the advisory is cleared |
| App.AnalyzeKeepsUniqueIds | src/App.tsx:99-105 | an extraction keeps the ids unique |
| App.AnalyzeExample | src/App.tsx:97-107 | a reply of income 15,000,000 and one expense Rent 4,000,000 gives exactly that ledger on the manual tab |
| App.IncompleteIsTrimTest | src/App.tsx:127 | a record is `Incomplete` exactly when its name trims to nothing or its amount is 0, the `some` test of the page |
| App.AnyIncomplete | src/App.tsx:127 | true exactly when some record is `Incomplete` |
| App.Validate | src/App.tsx:120-131 | missing data exactly when income is unset or the list is empty; otherwise incomplete rows exactly when some record is `Incomplete`; ready exactly when neither holds |
| App.HandleExport | src/App.tsx:120-135 | rows exist exactly when validation passes; for each verdict the whole outcome is fixed: only the advisory changes, each refusal shows its own message and no rows, and a passing export clears the advisory and hands over exactly `Project` of the numeric income, the expenses, their sum and the balance |
| App.ExportedRows | src/App.tsx:133-134 | a passing export hands over the expenses' names and amounts numbered from 1, then the total-expense, balance and income rows under their labels with an empty position |
| App.ExportWithoutIncome | src/App.tsx:121-124 | an unset income is refused with the first message and produces no rows |
| App.ExportWithNamelessExpense | src/App.tsx:126-131 | with income set, an expense with an empty name is refused with the second message |

## Left out

- Rendering, styling and animations of the page: user-interface only.
- The language-model request, the prompt text, the response schema and `JSON.parse`. They are a foreign service call; the model takes their outcome as the `Reply` input.
- The `isAnalyzing` flag. It only guards against a second request while one is outstanding.
- `crypto.randomUUID`. Ids are inputs with a freshness precondition.
- Sheet and workbook creation and `writeFile` in `src/utils/excel.ts`. They are a foreign library and file output; the model stops at the row table.
- `formatCurrency` (`src/utils/format` is not part of this model) and fractional amounts. `parseFloat` results are modelled as whole numbers, and NaN as 0.
- A reply whose `expenses` array holds a non-object item; the response schema rules such items out, and `Line` cannot express them. Two cases differ:
  - A `null` item makes `e.name` throw after the income was already set. The result is a partial update: the new income together with the retry advisory.
  - A number, string or boolean item does not throw. It yields a record whose name and amount are `undefined`, and the later `e.name.trim()` in `handleExport` (src/App.tsx:127) then throws.
- `handleExpenseChange` with the field `id`. The type allows it, but the page only edits `name` and `amount`.
- The `console.error` call in the catch block (src/App.tsx:109): logging only.
- Number precision: income, amounts and totals are JavaScript doubles, exact only up to 2^53. The model's `int` has no such limit.
- `src/codeapp.py`: a separate user-interface script with a free-form model call and no local logic.
