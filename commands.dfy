/**
 * The ledger arithmetic behind the commands of budget.py. `status` reports the
 * limit, what was spent in the current month and `remaining = limit - spent`;
 * `list` groups the current month's spending by category; `add` validates its
 * arguments before touching the document; `apply-fixed` saves only when it added
 * something. The current month and today's date are parameters.
 */
module Commands {
  import opened Wrappers
  import opened Storage
  import opened Validation
  import opened Transactions
  import opened FixedCosts

  /** What was spent in `month`: the exact total of the entries dated in it. */
  function Spent(ts: seq<Transaction>, month: string): real
  {
    Total(Filtered(ts, month))
  }

  /** What the `status` command computes for the current month. */
  datatype StatusReport = StatusReport(limit: real, spent: real, remaining: real)

  /** `status`: the month's entries are filtered, totalled, and the total is taken off the limit. */
  method Status(data: Data, month: string) returns (report: StatusReport)
    ensures report.limit == data.limit && report.spent == Spent(data.transactions, month)
    ensures report.remaining + report.spent == report.limit
    ensures report.remaining < 0.0 <==> Spent(data.transactions, month) > data.limit
  {
    var currentMonthTransactions := FilterByMonth(data.transactions, month);
    var spent := CalculateTotal(currentMonthTransactions);
    var remaining := data.limit - spent;
    report := StatusReport(data.limit, spent, remaining);
  }

  /**
   * `list`: the month's spending by category. Its keys are the categories used in
   * the month and its values add up to what `status` reports as spent.
   */
  method List(data: Data, month: string) returns (grouped: map<string, real>)
    ensures grouped == Grouped(Filtered(data.transactions, month))
    ensures grouped.Keys == Categories(Filtered(data.transactions, month))
    ensures SumValues(grouped) == Spent(data.transactions, month)
  {
    var currentMonthTransactions := FilterByMonth(data.transactions, month);
    grouped := GroupByCategory(currentMonthTransactions);
    GroupedSumsToTotal(currentMonthTransactions);
  }

  /** A new entry lowers the month's remaining budget by its amount exactly when it is dated in that month. */
  lemma SpentAfterAdd(ts: seq<Transaction>, t: Transaction, month: string)
    ensures Spent(ts + [t], month) == Spent(ts, month) + (if InMonth(t, month) then t.amount else 0.0)
  {
    FilteredAppend(ts, [t], month);
    assert Filtered([t], month) == Filtered([], month) + (if InMonth(t, month) then [t] else []);
    TotalAppend(Filtered(ts, month), Filtered([t], month));
    assert Total([t]) == Total([]) + t.amount;
  }

  /** Applying the fixed costs in the current month adds exactly their template total to what was spent. */
  lemma SpentAfterApply(ts: seq<Transaction>, fcs: seq<FixedCost>, today: string, month: string)
    requires month <= today
    ensures Spent(ts + Materialized(fcs, today), month) == Spent(ts, month) + TemplateTotal(fcs)
  {
    FilteredAppend(ts, Materialized(fcs, today), month);
    MaterializedInMonth(fcs, today, month);
    TotalAppend(Filtered(ts, month), Materialized(fcs, today));
    MaterializedTotal(fcs, today);
  }

  /**
   * Applying the fixed costs is not idempotent: a second call in the same month
   * appends a second batch and counts the templates' total twice.
   */
  lemma ApplyTwiceCountsTwice(ts: seq<Transaction>, fcs: seq<FixedCost>, today: string, month: string)
    requires month <= today
    ensures |ts + Materialized(fcs, today) + Materialized(fcs, today)| == |ts| + 2 * |fcs|
    ensures Spent(ts + Materialized(fcs, today) + Materialized(fcs, today), month)
            == Spent(ts, month) + 2.0 * TemplateTotal(fcs)
  {
    MaterializedAt(fcs, today);
    SpentAfterApply(ts, fcs, today, month);
    SpentAfterApply(ts + Materialized(fcs, today), fcs, today, month);
  }

  /**
   * `add`: the amount, then the category, then the description are validated, and
   * the first failure is reported with the document untouched; otherwise one entry
   * with the stripped category and description is appended. `parsedAmount` stands
   * for `float(amount)`, and `transactionDate` for the date `validate_date` returned.
   */
  method Add(data: Data, amount: string, parsedAmount: Option<Float>, category: Option<string>,
             description: Option<string>, transactionDate: string)
    returns (error: Option<Error>)
    modifies data
    ensures data.limit == old(data.limit) && data.fixedCosts == old(data.fixedCosts)
    ensures ValidateAmount(amount, parsedAmount).Failure? ==>
              error == Some(ValidateAmount(amount, parsedAmount).error)
    ensures ValidateAmount(amount, parsedAmount).Success? && ValidateString(category, "Kategoria").Failure? ==>
              error == Some(EmptyField("Kategoria"))
    ensures ValidateAmount(amount, parsedAmount).Success? && ValidateString(category, "Kategoria").Success?
            && ValidateString(description, "Opis").Failure? ==>
              error == Some(EmptyField("Opis"))
    ensures error.None? <==>
              && ValidateAmount(amount, parsedAmount).Success?
              && ValidateString(category, "Kategoria").Success?
              && ValidateString(description, "Opis").Success?
    ensures error.Some? ==> data.transactions == old(data.transactions)
    ensures error.None? ==>
              && parsedAmount.Some? && parsedAmount.value.Finite? && parsedAmount.value.x > 0.0
              && category.Some? && !AllSpace(category.value)
              && description.Some? && !AllSpace(description.value)
              && data.transactions == old(data.transactions) +
                   [Transaction(Some(transactionDate), parsedAmount.value.x, Strip(category.value), Strip(description.value))]
  {
    var checkedAmount := ValidateAmount(amount, parsedAmount);
    if checkedAmount.Failure? {
      return Some(checkedAmount.error);
    }
    var checkedCategory := ValidateString(category, "Kategoria");
    if checkedCategory.Failure? {
      return Some(checkedCategory.error);
    }
    var checkedDescription := ValidateString(description, "Opis");
    if checkedDescription.Failure? {
      return Some(checkedDescription.error);
    }
    AddTransaction(data, checkedAmount.value, checkedCategory.value, checkedDescription.value, transactionDate);
    error := None;
  }

  /** `apply-fixed`: applies the templates and saves the document only when at least one was added. */
  method ApplyFixed(data: Data, today: string) returns (count: nat, total: real, save: bool)
    modifies data
    ensures data.limit == old(data.limit) && data.fixedCosts == old(data.fixedCosts)
    ensures data.transactions == old(data.transactions) + Materialized(Templates(old(data.fixedCosts)), today)
    ensures count == |Templates(old(data.fixedCosts))| && total == TemplateTotal(Templates(old(data.fixedCosts)))
    ensures save <==> Templates(old(data.fixedCosts)) != []
  {
    count, total := ApplyFixedCosts(data, today);
    save := count > 0;
  }
}
