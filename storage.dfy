/**
 * The ledger document of budget.py: a single scalar spending limit, the list of
 * transactions and the list of fixed-cost templates, kept in memory as one object
 * whose lists the commands extend in place.
 */
module Storage {
  import opened Wrappers

  /**
   * One spending entry. `date` is `None` when the stored entry has no `date` key or
   * a value that is not a string; every other field is always present in the model.
   * Amounts are the exact decimal values the source obtains through `Decimal(str(...))`.
   */
  datatype Transaction = Transaction(date: Option<string>, amount: real, category: string, description: string)

  /** A fixed-cost template: an amount, a category and a description, with no date. */
  datatype FixedCost = FixedCost(amount: real, category: string, description: string)

  /** The spending limit a freshly created document starts with. */
  const DefaultLimit: real := 5000.0

  /**
   * The loaded document. `fixedCosts` is `None` when the `fixed_costs` key is
   * missing or null, which `apply_fixed_costs` treats like an empty list.
   */
  class Data {
    var limit: real
    var transactions: seq<Transaction>
    var fixedCosts: Option<seq<FixedCost>>

    /** The document created when no data file exists yet. */
    constructor Empty()
      ensures limit == DefaultLimit
      ensures transactions == [] && fixedCosts == Some([])
    {
      limit := DefaultLimit;
      transactions := [];
      fixedCosts := Some([]);
    }
  }
}
