/**
 * What the monthly-total query means, stated over a list of expenses in the
 * current heap: the expenses whose billing month is exactly the queried
 * string (in list order), their number and the sum of their amounts.
 * `billingMonth.equals(expense.getBillingMonth())` is false for a `null`
 * billing month, so only `Some(month)` matches.
 */
module ExpenseQueries {
  import opened Wrappers
  import opened Expenses

  /** The result of the monthly-total query: how many expenses, and their total in cents. */
  datatype Totals = Totals(count: nat, total: int)

  predicate InMonth(e: Expense, month: string)
    reads e
  {
    e.billingMonth == Some(month)
  }

  /**
   * The expenses of `es` billed in `month`, in the order of `es`: an exact
   * filter, holding an expense iff the list does and it is billed in the month.
   */
  function Matching(es: seq<Expense>, month: string): (r: seq<Expense>)
    reads es
    ensures forall i | 0 <= i < |r| :: r[i] in es && InMonth(r[i], month)
    ensures forall i | 0 <= i < |es| :: InMonth(es[i], month) ==> es[i] in r
  {
    assert es != [] ==> es == [es[0]] + es[1..];
    if es == [] then []
    else (if InMonth(es[0], month) then [es[0]] else []) + Matching(es[1..], month)
  }

  /** The sum of the amounts of `es`. */
  function SumAmounts(es: seq<Expense>): (r: int)
    reads es
  {
    if es == [] then 0 else es[0].amount + SumAmounts(es[1..])
  }

  /** The positions of `es` that hold an expense billed in `month`. */
  function MatchIndices(es: seq<Expense>, month: string): (r: set<nat>)
    reads es
  {
    set i: nat | i < |es| && InMonth(es[i], month)
  }

  /**
   * The amounts of `es` summed position by position, counting an amount only
   * where the expense is billed in `month`: a definition of the monthly total
   * that does not go through `Matching`.
   */
  function AmountIn(es: seq<Expense>, month: string): (r: int)
    reads es
  {
    if es == [] then 0
    else (if InMonth(es[0], month) then es[0].amount else 0) + AmountIn(es[1..], month)
  }

  /** The monthly total of `es` for `month`. */
  function MonthlyTotal(es: seq<Expense>, month: string): (r: Totals)
    reads es
  {
    var m := Matching(es, month);
    Totals(|m|, SumAmounts(m))
  }

  lemma {:induction false} SumAmountsAppend(a: seq<Expense>, b: seq<Expense>)
    ensures SumAmounts(a + b) == SumAmounts(a) + SumAmounts(b)
  {
    if a != [] {
      assert (a + b)[1..] == a[1..] + b;
      SumAmountsAppend(a[1..], b);
    } else {
      assert a + b == b;
    }
  }

  lemma {:induction false} MatchingAppend(es: seq<Expense>, e: Expense, month: string)
    ensures Matching(es + [e], month)
         == Matching(es, month) + (if InMonth(e, month) then [e] else [])
  {
    if es != [] {
      assert (es + [e])[1..] == es[1..] + [e];
      MatchingAppend(es[1..], e, month);
    } else {
      assert es + [e] == [e];
    }
  }

  lemma MatchIndicesAppend(es: seq<Expense>, e: Expense, month: string)
    ensures MatchIndices(es + [e], month)
         == MatchIndices(es, month) + (if InMonth(e, month) then {|es|} else {})
    ensures |es| !in MatchIndices(es, month)
  {
    var l, r := MatchIndices(es + [e], month), MatchIndices(es, month) + (if InMonth(e, month) then {|es|} else {});
    forall i | i in l ensures i in r {
      if i < |es| { assert (es + [e])[i] == es[i]; }
    }
    forall i | i in r ensures i in l {
      if i < |es| { assert (es + [e])[i] == es[i]; }
    }
  }

  /**
   * `Matching` holds exactly the expenses billed in the month, each as often
   * as the list does, and no other expense.
   */
  lemma {:induction false} MatchingMultiset(es: seq<Expense>, month: string)
    ensures forall e :: multiset(Matching(es, month))[e] == if InMonth(e, month) then multiset(es)[e] else 0
  {
    if es != [] {
      MatchingMultiset(es[1..], month);
      assert es == [es[0]] + es[1..];
      assert multiset(es) == multiset([es[0]]) + multiset(es[1..]);
      var head := if InMonth(es[0], month) then [es[0]] else [];
      assert multiset(Matching(es, month)) == multiset(head) + multiset(Matching(es[1..], month));
    }
  }

  /** The total of the expenses `Matching` selects is the position-by-position conditional sum. */
  lemma {:induction false} SumMatchingIsAmountIn(es: seq<Expense>, month: string)
    ensures SumAmounts(Matching(es, month)) == AmountIn(es, month)
  {
    if es != [] {
      SumMatchingIsAmountIn(es[1..], month);
      var head := if InMonth(es[0], month) then [es[0]] else [];
      SumAmountsAppend(head, Matching(es[1..], month));
      assert SumAmounts(head) == if InMonth(es[0], month) then es[0].amount else 0;
    }
  }

  /** The number of selected expenses is the number of positions billed in the month. */
  lemma {:induction false} MatchingCountsIndices(es: seq<Expense>, month: string)
    ensures |Matching(es, month)| == |MatchIndices(es, month)|
    decreases |es|
  {
    if es == [] {
      assert MatchIndices(es, month) == {};
    } else {
      var init, last := es[..|es| - 1], es[|es| - 1];
      assert es == init + [last];
      MatchingCountsIndices(init, month);
      MatchingAppend(init, last, month);
      MatchIndicesAppend(init, last, month);
    }
  }

  /**
   * The count of the monthly total is the number of positions whose expense is
   * billed in the month; the total adds up the amount at exactly those
   * positions; and the selected expenses are exactly those billed in the
   * month, with their multiplicity in the list.
   */
  lemma MonthlyTotalCounts(es: seq<Expense>, month: string)
    ensures MonthlyTotal(es, month).count == |MatchIndices(es, month)|
    ensures MonthlyTotal(es, month).total == AmountIn(es, month)
    ensures forall e :: multiset(Matching(es, month))[e] == if InMonth(e, month) then multiset(es)[e] else 0
  {
    MatchingCountsIndices(es, month);
    SumMatchingIsAmountIn(es, month);
    MatchingMultiset(es, month);
  }

  /**
   * Appending an expense raises the total of its own billing month by one
   * expense and by its amount, and leaves the total of every other month as it was.
   */
  lemma MonthlyTotalAppend(es: seq<Expense>, e: Expense, month: string)
    ensures InMonth(e, month) ==>
      MonthlyTotal(es + [e], month)
        == Totals(MonthlyTotal(es, month).count + 1, MonthlyTotal(es, month).total + e.amount)
    ensures !InMonth(e, month) ==> MonthlyTotal(es + [e], month) == MonthlyTotal(es, month)
  {
    MatchingAppend(es, e, month);
    SumAmountsAppend(Matching(es, month), [e]);
    assert Matching(es, month) + [] == Matching(es, month);
  }

  /** When no expense is billed in the month, the query answers (0, 0). */
  lemma {:induction false} MonthlyTotalNoMatch(es: seq<Expense>, month: string)
    requires forall i | 0 <= i < |es| :: !InMonth(es[i], month)
    ensures MonthlyTotal(es, month) == Totals(0, 0)
  {
    if es != [] {
      assert forall i | 0 <= i < |es| - 1 :: es[1..][i] == es[i + 1];
      MonthlyTotalNoMatch(es[1..], month);
    }
  }

  /** Every expense with a present id has an id of its own. */
  predicate DistinctIds(es: seq<Expense>)
    reads es
  {
    forall i, j | 0 <= i < j < |es| :: es[i].id.Some? ==> es[i].id != es[j].id
  }

  /** Appending an expense whose id no stored expense has keeps ids distinct. */
  lemma AppendFreshId(es: seq<Expense>, e: Expense)
    requires DistinctIds(es)
    requires forall i | 0 <= i < |es| :: es[i].id != e.id
    ensures DistinctIds(es + [e])
  {
    var s := es + [e];
    forall i, j | 0 <= i < j < |s| && s[i].id.Some? ensures s[i].id != s[j].id {
      if j < |es| { assert s[i] == es[i] && s[j] == es[j]; }
      else { assert s[i] == es[i] && s[j] == e; }
    }
  }
}
