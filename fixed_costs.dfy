/**
 * `apply_fixed_costs` of budget.py: every fixed-cost template becomes one new
 * transaction stamped with today's date, appended to the document in template
 * order, and the call reports how many were added and their exact total. There is
 * no record of months already applied, so every call appends another full batch.
 */
module FixedCosts {
  import opened Wrappers
  import opened Storage
  import opened Transactions

  /** The templates `data.get("fixed_costs")` yields: none when the key is missing or null. */
  function Templates(fixedCosts: Option<seq<FixedCost>>): seq<FixedCost>
  {
    match fixedCosts
    case None => []
    case Some(fcs) => fcs
  }

  /** The transactions materialised from `fcs`, in template order, all dated `today`. */
  function Materialized(fcs: seq<FixedCost>, today: string): seq<Transaction>
  {
    if fcs == [] then []
    else
      var fc := fcs[|fcs| - 1];
      Materialized(fcs[..|fcs| - 1], today) + [Transaction(Some(today), fc.amount, fc.category, fc.description)]
  }

  /** The exact sum of the template amounts. */
  function TemplateTotal(fcs: seq<FixedCost>): real
  {
    if fcs == [] then 0.0 else TemplateTotal(fcs[..|fcs| - 1]) + fcs[|fcs| - 1].amount
  }

  /** One transaction per template, at the same position, copying its amount, category and description. */
  lemma {:induction false} MaterializedAt(fcs: seq<FixedCost>, today: string)
    ensures |Materialized(fcs, today)| == |fcs|
    ensures forall i :: 0 <= i < |fcs| ==>
              Materialized(fcs, today)[i] == Transaction(Some(today), fcs[i].amount, fcs[i].category, fcs[i].description)
  {
    if fcs != [] {
      var init := fcs[..|fcs| - 1];
      MaterializedAt(init, today);
      assert forall i :: 0 <= i < |init| ==> init[i] == fcs[i];
    }
  }

  /** The materialised transactions total exactly the template amounts. */
  lemma {:induction false} MaterializedTotal(fcs: seq<FixedCost>, today: string)
    ensures Total(Materialized(fcs, today)) == TemplateTotal(fcs)
  {
    if fcs != [] {
      var init := fcs[..|fcs| - 1];
      MaterializedTotal(init, today);
      var m := Materialized(fcs, today);
      assert m[..|m| - 1] == Materialized(init, today);
    }
  }

  /** Every materialised transaction is dated in the month `today` belongs to. */
  lemma {:induction false} MaterializedInMonth(fcs: seq<FixedCost>, today: string, month: string)
    requires month <= today
    ensures Filtered(Materialized(fcs, today), month) == Materialized(fcs, today)
  {
    if fcs != [] {
      var init := fcs[..|fcs| - 1];
      MaterializedInMonth(init, today, month);
      var m := Materialized(fcs, today);
      assert m[..|m| - 1] == Materialized(init, today);
    }
  }

  /**
   * `apply_fixed_costs`: with no templates, returns `(0, 0)` and changes nothing;
   * otherwise appends one transaction per template dated `today` and returns the
   * number appended and their exact total. `today` stands for `date.today().isoformat()`.
   */
  method ApplyFixedCosts(data: Data, today: string) returns (count: nat, total: real)
    modifies data
    ensures data.limit == old(data.limit) && data.fixedCosts == old(data.fixedCosts)
    ensures Templates(old(data.fixedCosts)) == [] ==>
              count == 0 && total == 0.0 && data.transactions == old(data.transactions)
    ensures data.transactions == old(data.transactions) + Materialized(Templates(old(data.fixedCosts)), today)
    ensures count == |Templates(old(data.fixedCosts))| && total == TemplateTotal(Templates(old(data.fixedCosts)))
  {
    if data.fixedCosts.None? || data.fixedCosts.value == [] {
      assert data.transactions + [] == data.transactions;
      return 0, 0.0;
    }
    var fixedCosts := data.fixedCosts.value;
    count := 0;
    total := 0.0;
    for i := 0 to |fixedCosts|
      invariant data.limit == old(data.limit) && data.fixedCosts == old(data.fixedCosts)
      invariant data.transactions == old(data.transactions) + Materialized(fixedCosts[..i], today)
      invariant count == i && total == TemplateTotal(fixedCosts[..i])
    {
      assert fixedCosts[..i + 1][..i] == fixedCosts[..i];
      var fixedCost := fixedCosts[i];
      var transaction := Transaction(Some(today), fixedCost.amount, fixedCost.category, fixedCost.description);
      data.transactions := data.transactions + [transaction];
      count := count + 1;
      total := total + fixedCost.amount;
    }
    assert fixedCosts[..|fixedCosts|] == fixedCosts;
  }
}
