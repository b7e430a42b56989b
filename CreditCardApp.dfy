/**
 * The credit-card tracker application: the in-memory expense list, the
 * `running` flag of the menu loop, and the operations the menu dispatches to.
 *
 * Console input is a parameter: each operation receives the raw lines the user
 * would type at its prompts, and `trim()`s them as the application does.
 * `Double.parseDouble` is the parameter `parseAmount` (a parse that may fail),
 * `UUID.randomUUID()` is the parameter `freshId`, and what the framework's
 * context yields on import is an `ImportOutcome`.
 */
module CreditCard {
  import opened Wrappers
  import opened JavaString
  import opened Expenses
  import opened ExpenseQueries

  /** What `context.importData("json")` followed by `context.getData()` produced. */
  datatype ImportOutcome =
    | IOFailure(message: string)            // importData threw an IOException
    | Imported(data: Option<seq<Expense>>)  // getData returned this list, or null

  /** The answers the user gives at the prompts that follow one menu option. */
  datatype Answers = Answers(
    description: string, amount: string, date: string, billingMonth: string,
    queryMonth: string)

  /** One pass of the menu loop: the option line and everything the chosen action reads. */
  datatype Turn = Turn(option: string, answers: Answers, freshId: string, imported: ImportOutcome)

  /** How `addExpense` ended. */
  datatype AddOutcome = EmptyDescription | InvalidAmount | Added(expense: Expense)

  /** What one menu option shows the user. */
  datatype Reply =
    | Nothing
    | AddReply(outcome: AddOutcome)
    | Listing(shown: seq<Expense>)
    | Total(totals: Totals)
    | Exported(snapshot: seq<Expense>)

  /** Loaded data replaces the list only when it is non-null and non-empty. */
  predicate HasData(data: Option<seq<Expense>>) {
    data.Some? && |data.value| > 0
  }

  /** The amount line parses, once the description line was accepted. */
  predicate AmountParses(answers: Answers, parseAmount: string -> Option<int>) {
    parseAmount(Trim(answers.amount)).Some?
  }

  /**
   * `after` is `before` with one more expense at the end, built from the
   * trimmed answers, the parsed amount and the fresh id.
   */
  ghost predicate AppendedFrom(before: seq<Expense>, after: seq<Expense>, answers: Answers,
                               parseAmount: string -> Option<int>, freshId: string)
    reads after
  {
    |after| == |before| + 1 && after[..|before|] == before &&
    var e := after[|before|];
    e !in before && e.id == Some(freshId) && e.description == Some(Trim(answers.description)) &&
    Some(e.amount) == parseAmount(Trim(answers.amount)) &&
    e.date == Some(Trim(answers.date)) && e.billingMonth == Some(Trim(answers.billingMonth))
  }

  /**
   * What one handled turn does to the list: option "1" appends the new expense
   * exactly when the description and the amount are accepted, option "5"
   * follows the import rule, and every other option leaves the list as it was.
   */
  ghost predicate TurnEffect(before: Option<seq<Expense>>, after: Option<seq<Expense>>, turn: Turn,
                             parseAmount: string -> Option<int>)
    reads if after.Some? then after.value else []
  {
    var option := Trim(turn.option);
    if option == "1" then
      before.Some? && after.Some? &&
      if Trim(turn.answers.description) == [] || !AmountParses(turn.answers, parseAmount)
      then after == before
      else AppendedFrom(before.value, after.value, turn.answers, parseAmount, turn.freshId)
    else if option == "5" then
      after == if turn.imported.Imported? && HasData(turn.imported.data) then turn.imported.data else before
    else
      after == before
  }

  class CreditCardApp {
    /** `null` until `initialize` runs. */
    var expenses: Option<seq<Expense>>
    var running: bool

    /** The list is present: true from `initialize` on. */
    predicate Valid()
      reads this
    {
      expenses.Some?
    }

    /** The object the framework builds before `initialize`. */
    constructor ()
      ensures expenses == None && !running
    {
      expenses, running := None, false;
    }

    /**
     * `initialize`: the loop will run, and the list becomes what the context
     * holds if that is non-null and non-empty, and a new empty list otherwise.
     * An IOException from `importData` is caught there, so only `data` matters.
     */
    method Initialize(data: Option<seq<Expense>>)
      modifies this
      ensures Valid() && running
      ensures expenses == if HasData(data) then data else Some([])
    {
      running := true;
      if data.Some? && |data.value| > 0 {
        expenses := data;
      } else {
        expenses := Some([]);
      }
    }

    /**
     * `addExpense`: an empty trimmed description, or an amount that does not
     * parse, rejects the expense and leaves the list as it was; otherwise a new
     * expense is appended at the end and nothing before it changes.
     */
    method AddExpense(answers: Answers, parseAmount: string -> Option<int>, freshId: string)
      returns (outcome: AddOutcome)
      requires Valid()
      modifies this
      ensures Valid() && running == old(running)
      ensures outcome == EmptyDescription <==> Trim(answers.description) == []
      ensures outcome == InvalidAmount <==>
        Trim(answers.description) != [] && !AmountParses(answers, parseAmount)
      ensures !outcome.Added? ==> expenses == old(expenses)
      ensures outcome.Added? ==>
        fresh(outcome.expense) &&
        AppendedFrom(old(expenses.value), expenses.value, answers, parseAmount, freshId) &&
        expenses.value[|expenses.value| - 1] == outcome.expense
      ensures old(DistinctIds(expenses.value) &&
                  forall i | 0 <= i < |expenses.value| :: expenses.value[i].id != Some(freshId))
              ==> DistinctIds(expenses.value)
    {
      var description := Trim(answers.description);
      if description == [] {
        return EmptyDescription;
      }
      var amount := parseAmount(Trim(answers.amount));
      if amount.None? {
        return InvalidAmount;
      }
      var date := Trim(answers.date);
      var billingMonth := Trim(answers.billingMonth);
      var expense := new Expense(freshId, Some(description), amount.value, Some(date), Some(billingMonth));
      if DistinctIds(expenses.value) && forall i | 0 <= i < |expenses.value| :: expenses.value[i].id != Some(freshId) {
        AppendFreshId(expenses.value, expense);
      }
      expenses := Some(expenses.value + [expense]);
      outcome := Added(expense);
    }

    /** `listExpenses`: shows every expense in list order and changes nothing. */
    method ListExpenses() returns (shown: seq<Expense>)
      requires Valid()
      ensures shown == expenses.value
    {
      shown := expenses.value;
    }

    /**
     * `showMonthlyTotal`: scans the list once, counting and summing the
     * expenses whose billing month is exactly the trimmed query; changes nothing.
     */
    method ShowMonthlyTotal(queryLine: string) returns (count: nat, total: int)
      requires Valid()
      ensures Totals(count, total) == MonthlyTotal(expenses.value, Trim(queryLine))
    {
      var billingMonth := Trim(queryLine);
      var list := expenses.value;
      total, count := 0, 0;
      for i := 0 to |list|
        invariant count == MonthlyTotal(list[..i], billingMonth).count
        invariant total == MonthlyTotal(list[..i], billingMonth).total
      {
        var expense := list[i];
        assert list[..i + 1] == list[..i] + [expense];
        MonthlyTotalAppend(list[..i], expense, billingMonth);
        if expense.billingMonth == Some(billingMonth) {
          total := total + expense.amount;
          count := count + 1;
        }
      }
      assert list[..|list|] == list;
    }

    /** `exportToJSON`: hands the current list, as it is, to the context; the store is unchanged. */
    method ExportToJson() returns (snapshot: seq<Expense>)
      requires Valid()
      ensures snapshot == expenses.value
    {
      snapshot := expenses.value;
    }

    /**
     * `importFromJSON`: the list becomes the loaded data only when the import
     * did not fail and produced a non-null, non-empty list; an IOException,
     * `null` or an empty list leave it exactly as it was.
     */
    method ImportFromJson(outcome: ImportOutcome)
      modifies this
      ensures running == old(running)
      ensures expenses == if outcome.Imported? && HasData(outcome.data)
                          then outcome.data else old(expenses)
      ensures old(Valid()) ==> Valid()
    {
      match outcome {
        case IOFailure(_) =>
        case Imported(data) =>
          if data.Some? && |data.value| > 0 {
            expenses := data;
          }
      }
    }

    /**
     * `handleUserInput`: dispatches on the trimmed option line. Only "6" stops
     * the loop; "1" and "5" are the only options that can change the list, and
     * any other line changes neither the list nor the flag.
     */
    method HandleUserInput(turn: Turn, parseAmount: string -> Option<int>) returns (reply: Reply)
      requires Valid()
      modifies this
      ensures Valid()
      ensures running == (old(running) && Trim(turn.option) != "6")
      ensures Trim(turn.option) !in {"1", "5"} ==> expenses == old(expenses)
      ensures Trim(turn.option) == "1" ==>
        reply.AddReply? &&
        (reply.outcome == EmptyDescription <==> Trim(turn.answers.description) == []) &&
        (reply.outcome == InvalidAmount <==>
           Trim(turn.answers.description) != [] && !AmountParses(turn.answers, parseAmount)) &&
        (!reply.outcome.Added? ==> expenses == old(expenses)) &&
        (reply.outcome.Added? ==>
           fresh(reply.outcome.expense) &&
           AppendedFrom(old(expenses.value), expenses.value, turn.answers, parseAmount, turn.freshId) &&
           expenses.value[|expenses.value| - 1] == reply.outcome.expense)
      ensures Trim(turn.option) == "2" ==> reply == Listing(expenses.value)
      ensures Trim(turn.option) == "3" ==>
        reply == Total(MonthlyTotal(expenses.value, Trim(turn.answers.queryMonth)))
      ensures Trim(turn.option) == "4" ==> reply == Exported(expenses.value)
      ensures Trim(turn.option) !in {"1", "2", "3", "4"} ==> reply == Nothing
      ensures TurnEffect(old(expenses), expenses, turn, parseAmount)
    {
      var option := Trim(turn.option);
      reply := Nothing;
      if option == "1" {
        var outcome := AddExpense(turn.answers, parseAmount, turn.freshId);
        reply := AddReply(outcome);
      } else if option == "2" {
        var shown := ListExpenses();
        reply := Listing(shown);
      } else if option == "3" {
        var count, total := ShowMonthlyTotal(turn.answers.queryMonth);
        reply := Total(Totals(count, total));
      } else if option == "4" {
        var snapshot := ExportToJson();
        reply := Exported(snapshot);
      } else if option == "5" {
        ImportFromJson(turn.imported);
      } else if option == "6" {
        running := false;
      }
    }

    /**
     * `run`: repeats the menu while `running`, here over the finite list of
     * turns the user would enter. It stops right after the first turn whose
     * trimmed option is "6", or when the turns run out. The ghost `history`
     * holds the list before each handled turn and after the last one, and each
     * step from one entry to the next is that turn's effect.
     */
    method Run(turns: seq<Turn>, parseAmount: string -> Option<int>)
      returns (consumed: nat, ghost history: seq<Option<seq<Expense>>>)
      requires Valid()
      modifies this
      ensures Valid() && consumed <= |turns|
      ensures forall k | 0 <= k < consumed - 1 :: Trim(turns[k].option) != "6"
      ensures old(running) && !running ==> consumed > 0 && Trim(turns[consumed - 1].option) == "6"
      ensures running ==> consumed == |turns| && forall k | 0 <= k < |turns| :: Trim(turns[k].option) != "6"
      ensures !old(running) ==> consumed == 0 && expenses == old(expenses) && !running
      ensures |history| == consumed + 1 && history[0] == old(expenses) && history[consumed] == expenses
      ensures forall k | 0 <= k < consumed :: TurnEffect(history[k], history[k + 1], turns[k], parseAmount)
    {
      consumed := 0;
      history := [expenses];
      while running && consumed < |turns|
        invariant Valid() && consumed <= |turns|
        invariant running ==> forall k | 0 <= k < consumed :: Trim(turns[k].option) != "6"
        invariant forall k | 0 <= k < consumed - 1 :: Trim(turns[k].option) != "6"
        invariant old(running) && !running ==> consumed > 0 && Trim(turns[consumed - 1].option) == "6"
        invariant !old(running) ==> consumed == 0 && expenses == old(expenses) && !running
        invariant |history| == consumed + 1 && history[0] == old(expenses) && history[consumed] == expenses
        invariant forall k | 0 <= k < consumed :: TurnEffect(history[k], history[k + 1], turns[k], parseAmount)
      {
        var _ := HandleUserInput(turns[consumed], parseAmount);
        history := history + [expenses];
        consumed := consumed + 1;
      }
    }
  }
}
