# Credit-card expense tracker — verified model of the expense store

This project models the core of the credit-card tracker example of jminiapp.
That core is the in-memory expense list kept by `CreditCardApp` and the mutable `Expense` record it holds.

- `Expenses.Expense` is the Java bean. It has five fields, the no-argument constructor, the four-argument constructor that assigns an id, and a getter and a setter per field. Java `null` is `None` of `Wrappers.Option`, and the `double` amount is an integer number of cents.
- `CreditCard.CreditCardApp` holds `expenses`, which is `None` until `initialize` runs, and the `running` flag. It has the menu actions: add, list, monthly total, export, import, the dispatch `handleUserInput` and the `run` loop.
- `ExpenseQueries` defines what the monthly total means. It defines the exact-match filter `Matching`, the sum of amounts, and the set of matching positions, with lemmas about appending and about the no-match case.
- `JavaString` models `String.trim()`. The application applies it to every line it reads, so the option `" 6 "` also stops the loop.

Console lines are parameters. Each action receives the raw lines typed at its prompts (`Answers`, `Turn`) and trims them as the code does. `Double.parseDouble` is the parameter `parseAmount: string -> Option<int>`. `UUID.randomUUID()` is the parameter `freshId`. What the framework context yields after `importData`/`getData` is an `ImportOutcome`: an IOException, or the returned list, which may be null.

Three facts about the code shape the model:
- `addExpense` validates the description and the amount itself.
- An import that yields an empty list keeps the current list.
- `Expense` has setters, so a record can change after creation.

## Model

| member | source | states |
|---|---|---|
| `Expenses.Expense.Empty` | examples/creditcardtracker/src/com/jminiapp/examples/creditcard/Expense.java:30-31 | the no-argument constructor leaves every string field null and the amount zero |
| `Expenses.Expense.constructor` | examples/creditcardtracker/src/com/jminiapp/examples/creditcard/Expense.java:33-39 | stores description, amount, date and billing month exactly as given, and always sets a (non-null) id |
| `Expenses.Expense.GetId` | examples/creditcardtracker/src/com/jminiapp/examples/creditcard/Expense.java:41-43 | returns the id field; it has no modifies clause, so no object changes |
| `Expenses.Expense.SetId` | examples/creditcardtracker/src/com/jminiapp/examples/creditcard/Expense.java:45-47 | afterwards the id is the given value and the other four fields are as before |
| `Expenses.Expense.GetDescription` | examples/creditcardtracker/src/com/jminiapp/examples/creditcard/Expense.java:49-51 | returns the description field and changes nothing |
| `Expenses.Expense.SetDescription` | examples/creditcardtracker/src/com/jminiapp/examples/creditcard/Expense.java:53-55 | afterwards the description is the given value and the other four fields are as before |
| `Expenses.Expense.GetAmount` | examples/creditcardtracker/src/com/jminiapp/examples/creditcard/Expense.java:57-59 | returns the amount field and changes nothing |
| `Expenses.Expense.SetAmount` | examples/creditcardtracker/src/com/jminiapp/examples/creditcard/Expense.java:61-63 | afterwards the amount is the given value and the other four fields are as before |
| `Expenses.Expense.GetDate` | examples/creditcardtracker/src/com/jminiapp/examples/creditcard/Expense.java:65-67 | returns the date field and changes nothing |
| `Expenses.Expense.SetDate` | examples/creditcardtracker/src/com/jminiapp/examples/creditcard/Expense.java:69-71 | afterwards the date is the given value and the other four fields are as before |
| `Expenses.Expense.GetBillingMonth` | examples/creditcardtracker/src/com/jminiapp/examples/creditcard/Expense.java:73-75 | returns the billing-month field and changes nothing |
| `Expenses.Expense.SetBillingMonth` | examples/creditcardtracker/src/com/jminiapp/examples/creditcard/Expense.java:77-79 | afterwards the billing month is the given value and the other four fields are as before |
| `JavaString.TrimEmptyIff` | examples/creditcardtracker/src/com/jminiapp/examples/creditcard/CreditCardApp.java:126-128 | a line trims to the empty string exactly when every character in it is a blank (code at most U+0020), which is when the description is rejected |
| `JavaString.TrimEnds` | examples/creditcardtracker/src/com/jminiapp/examples/creditcard/CreditCardApp.java:84 | a non-empty trimmed line starts and ends with a non-blank character |
| `JavaString.TrimInfix` | examples/creditcardtracker/src/com/jminiapp/examples/creditcard/CreditCardApp.java:126 | the trimmed line is the infix of the input left after cutting off a blank prefix and a blank suffix; with `TrimEnds` this fixes the value of every stored description, date and billing month and of the monthly-total key |
| `JavaString.TrimIdempotent` | examples/creditcardtracker/src/com/jminiapp/examples/creditcard/CreditCardApp.java:134-138 | trimming an already trimmed line changes nothing, so the second trim `Double.parseDouble` applies to the trimmed amount line has no effect |
| `ExpenseQueries.Matching` | examples/creditcardtracker/src/com/jminiapp/examples/creditcard/CreditCardApp.java:186-187 | the expenses selected for a month are exactly those of the list whose billing month string-equals the query; a null billing month never matches |
| `ExpenseQueries.MonthlyTotalCounts` | examples/creditcardtracker/src/com/jminiapp/examples/creditcard/CreditCardApp.java:183-191 | the count equals the number of list positions billed in the month; the total equals the amounts summed over exactly those positions; the selected expenses are exactly those billed in the month, each with its multiplicity in the list |
| `ExpenseQueries.MonthlyTotalNoMatch` | examples/creditcardtracker/src/com/jminiapp/examples/creditcard/CreditCardApp.java:183-184 | when no expense is billed in the month the result is (0, 0) |
| `ExpenseQueries.MonthlyTotalAppend` | examples/creditcardtracker/src/com/jminiapp/examples/creditcard/CreditCardApp.java:151 | appending an expense billed in month m raises the total of m by one expense and by its amount; the total of every other month is unchanged |
| `ExpenseQueries.AppendFreshId` | examples/creditcardtracker/src/com/jminiapp/examples/creditcard/Expense.java:34 | appending an expense whose id no stored expense has keeps the ids in the list distinct |
| `CreditCard.CreditCardApp.constructor` | examples/creditcardtracker/src/com/jminiapp/examples/creditcard/CreditCardApp.java:19-21 | before `initialize` the list is null and the loop is not running |
| `CreditCard.CreditCardApp.Initialize` | examples/creditcardtracker/src/com/jminiapp/examples/creditcard/CreditCardApp.java:29-44 | afterwards the loop is running and the list is never null: it is the context's data if that is non-null and non-empty, and a new empty list otherwise |
| `CreditCard.CreditCardApp.AddExpense` | examples/creditcardtracker/src/com/jminiapp/examples/creditcard/CreditCardApp.java:122-155 | an empty trimmed description, or else an unparsable amount, is rejected and the list stays unchanged; otherwise the list grows by exactly one fresh expense at the end, which is a new object not already in the list, is the returned one, and carries the trimmed description, parsed amount, trimmed date, trimmed billing month and the fresh id; all earlier entries are unchanged and in order; ids that were distinct stay distinct when the fresh id is unused |
| `CreditCard.CreditCardApp.ListExpenses` | examples/creditcardtracker/src/com/jminiapp/examples/creditcard/CreditCardApp.java:160-173 | shows the list in insertion order and changes nothing |
| `CreditCard.CreditCardApp.ShowMonthlyTotal` | examples/creditcardtracker/src/com/jminiapp/examples/creditcard/CreditCardApp.java:178-195 | the loop's count and total equal the monthly total of the list for the trimmed query, and nothing changes |
| `CreditCard.CreditCardApp.ExportToJson` | examples/creditcardtracker/src/com/jminiapp/examples/creditcard/CreditCardApp.java:212-222 | hands the current list, unchanged and in order, to the context, and the store is unchanged |
| `CreditCard.CreditCardApp.ImportFromJson` | examples/creditcardtracker/src/com/jminiapp/examples/creditcard/CreditCardApp.java:230-247 | the list becomes the loaded data only when no IOException occurred and the data is non-null and non-empty; otherwise it stays exactly as it was; the running flag is unchanged |
| `CreditCard.CreditCardApp.HandleUserInput` | examples/creditcardtracker/src/com/jminiapp/examples/creditcard/CreditCardApp.java:83-109 | only the trimmed option "6" clears `running`; only "1" (with add's outcome and the stored expense as reply) and "5" (with import's rule) can change the list; "2", "3" and "4" reply with the listing, the monthly total and the exported snapshot; every other option replies nothing, and one not in "1" to "6" changes neither the list nor the flag |
| `CreditCard.CreditCardApp.Run` | examples/creditcardtracker/src/com/jminiapp/examples/creditcard/CreditCardApp.java:49-54 | the loop handles turns until the first one whose trimmed option is "6", and handles that one last, or until the turns run out; it does nothing if the loop is not running; a ghost history of the list records each handled turn's effect: add's rule for "1", appending an expense object not already in the list, import's rule for "5", unchanged otherwise |

## Left out

- Console I/O is left out: `Scanner` reads, the prompts, the messages and `showMenu`. Input lines are parameters, and each action's result is returned rather than printed.
- `formatExpense`, `Expense.toString` and the `%.2f` rendering are left out. They only turn values into display strings.
- Floating point is left out. Amounts are exact integer cents, so sums in the model do not round as `double` sums do. `Double.parseDouble` also accepts "NaN", "Infinity" and hexadecimal forms. These have no integer-cents counterpart, so a `parseAmount` that returns `None` for them rejects input that Java accepts.
- `Double.parseDouble` is an abstract parse supplied as a parameter. Its accepted syntax is not modelled.
- Expenses.Expense.constructor: the id is a parameter, because `UUID.randomUUID()` is randomness. The model therefore does not promise that ids are unique. `ExpenseQueries.AppendFreshId` states what holds when the caller picks an unused id.
- The framework context is not part of this model: `importData`, `exportData`, `setData`, `getData`, the JSON adapter and the `<appName>.json` file naming. Only the outcome of an import is modelled, so no JSON round trip is stated.
- CreditCard.CreditCardApp.Run: the loop runs over a finite list of turns. Blocking on input and the exception thrown when input ends are not modelled.
- `shutdown` is left out. It is scanner closing and the final `context.setData`.
- `CreditCardAppRunner.java` is not part of this model. It only wires the application into the framework runner.
- List elements are non-null references (`seq<Expense>`). A `null` element in the list that `context.getData()` returns would make `expense.getBillingMonth()` throw a NullPointerException in the monthly total. The model does not capture that case.
- `String.trim()` works on UTF-16 code units in Java. Here it works on Dafny characters with the same rule: strip characters up to U+0020.
