/**
 * The transaction functions of budget.py: month filtering, exact totalling,
 * grouping by category and appending a new transaction to the document. Each
 * loop of the source is a method proved against a recursive specification
 * function; the lemmas state what those functions mean.
 */
module Transactions {
  import opened Wrappers
  import opened Storage

  // ---------------------------------------------------------------------------
  // Specification functions

  /** `t["date"].startswith(month)`, false when the date is missing or not a string. */
  predicate InMonth(t: Transaction, month: string)
  {
    t.date.Some? && month <= t.date.value
  }

  /** The entries of `ts` dated in `month`, in their original order. */
  function Filtered(ts: seq<Transaction>, month: string): seq<Transaction>
  {
    if ts == [] then []
    else Filtered(ts[..|ts| - 1], month) + (if InMonth(ts[|ts| - 1], month) then [ts[|ts| - 1]] else [])
  }

  /** The exact sum of the amounts of `ts`. */
  function Total(ts: seq<Transaction>): real
  {
    if ts == [] then 0.0 else Total(ts[..|ts| - 1]) + ts[|ts| - 1].amount
  }

  /** The category-to-sum dictionary built by adding each entry's amount in turn. */
  function Grouped(ts: seq<Transaction>): map<string, real>
  {
    if ts == [] then map[]
    else
      var g := Grouped(ts[..|ts| - 1]);
      var t := ts[|ts| - 1];
      g[t.category := (if t.category in g then g[t.category] else 0.0) + t.amount]
  }

  /** The categories that occur in `ts`. */
  function Categories(ts: seq<Transaction>): set<string>
  {
    set t | t in ts :: t.category
  }

  /** The entries of `ts` whose category is exactly `category`, in order. */
  function OfCategory(ts: seq<Transaction>, category: string): seq<Transaction>
  {
    if ts == [] then []
    else OfCategory(ts[..|ts| - 1], category) + (if ts[|ts| - 1].category == category then [ts[|ts| - 1]] else [])
  }

  /** The sum of the values of a dictionary, whatever order its keys are visited in. */
  ghost function SumValues(m: map<string, real>): real
    decreases |m.Keys|
  {
    if m.Keys == {} then 0.0
    else
      var k :| k in m.Keys;
      m[k] + SumValues(m - {k})
  }

  /** `sub` is `s` with some entries dropped and the rest kept in order. */
  ghost predicate IsSubsequence<T>(sub: seq<T>, s: seq<T>)
    decreases |s|
  {
    if sub == [] then true
    else if s == [] then false
    else (sub[|sub| - 1] == s[|s| - 1] && IsSubsequence(sub[..|sub| - 1], s[..|s| - 1]))
         || IsSubsequence(sub, s[..|s| - 1])
  }

  // ---------------------------------------------------------------------------
  // Properties of month filtering

  /** Filtering a concatenation filters each part: the kept entries keep their relative order. */
  lemma {:induction false} FilteredAppend(a: seq<Transaction>, b: seq<Transaction>, month: string)
    ensures Filtered(a + b, month) == Filtered(a, month) + Filtered(b, month)
    decreases |b|
  {
    if b == [] {
      assert a + b == a;
    } else {
      var b' := b[..|b| - 1];
      assert (a + b)[..|a + b| - 1] == a + b';
      FilteredAppend(a, b', month);
    }
  }

  /** An entry is kept exactly when it is in the input and is dated in the month. */
  lemma {:induction false} FilteredMembers(ts: seq<Transaction>, month: string)
    ensures forall t :: t in Filtered(ts, month) <==> t in ts && InMonth(t, month)
  {
    if ts != [] {
      var init := ts[..|ts| - 1];
      FilteredMembers(init, month);
      assert ts == init + [ts[|ts| - 1]];
    }
  }

  /** The filtered list is an order-preserving subsequence of the input. */
  lemma {:induction false} FilteredIsSubsequence(ts: seq<Transaction>, month: string)
    ensures IsSubsequence(Filtered(ts, month), ts)
  {
    if ts != [] {
      var init := ts[..|ts| - 1];
      FilteredIsSubsequence(init, month);
      var f := Filtered(ts, month);
      if InMonth(ts[|ts| - 1], month) {
        assert f[..|f| - 1] == Filtered(init, month) && f[|f| - 1] == ts[|ts| - 1];
      } else {
        assert f == Filtered(init, month);
      }
    }
  }

  // ---------------------------------------------------------------------------
  // Properties of totals

  /** The total of a concatenation is the sum of the two totals. */
  lemma {:induction false} TotalAppend(a: seq<Transaction>, b: seq<Transaction>)
    ensures Total(a + b) == Total(a) + Total(b)
    decreases |b|
  {
    if b == [] {
      assert a + b == a;
    } else {
      var b' := b[..|b| - 1];
      assert (a + b)[..|a + b| - 1] == a + b';
      TotalAppend(a, b');
    }
  }

  /** With no negative amounts, the total of one month never exceeds the total of all entries. */
  lemma {:induction false} FilteredTotalBound(ts: seq<Transaction>, month: string)
    requires forall i :: 0 <= i < |ts| ==> ts[i].amount >= 0.0
    ensures 0.0 <= Total(Filtered(ts, month)) <= Total(ts)
  {
    if ts != [] {
      var init := ts[..|ts| - 1];
      assert forall i :: 0 <= i < |init| ==> init[i] == ts[i];
      FilteredTotalBound(init, month);
      if InMonth(ts[|ts| - 1], month) {
        assert Filtered(ts, month) == Filtered(init, month) + [ts[|ts| - 1]];
        TotalAppend(Filtered(init, month), [ts[|ts| - 1]]);
        assert Total([ts[|ts| - 1]]) == ts[|ts| - 1].amount;
      } else {
        assert Filtered(ts, month) == Filtered(init, month);
      }
      assert Total(ts) == Total(init) + ts[|ts| - 1].amount;
    }
  }

  // ---------------------------------------------------------------------------
  // Properties of grouping

  /** The keys of the grouping are exactly the categories occurring in the input. */
  lemma {:induction false} GroupedKeys(ts: seq<Transaction>)
    ensures Grouped(ts).Keys == Categories(ts)
  {
    if ts != [] {
      var init := ts[..|ts| - 1];
      GroupedKeys(init);
      assert ts == init + [ts[|ts| - 1]];
      assert Categories(ts) == Categories(init) + {ts[|ts| - 1].category};
    }
  }

  /** Each value of the grouping is the total of that category's entries. */
  lemma {:induction false} GroupedValues(ts: seq<Transaction>)
    ensures forall c :: c in Grouped(ts) ==> Grouped(ts)[c] == Total(OfCategory(ts, c))
    ensures forall c :: c !in Grouped(ts) ==> OfCategory(ts, c) == []
  {
    if ts != [] {
      var init := ts[..|ts| - 1];
      var t := ts[|ts| - 1];
      GroupedValues(init);
      forall c | c in Grouped(ts) ensures Grouped(ts)[c] == Total(OfCategory(ts, c)) {
        if c == t.category {
          assert OfCategory(ts, c) == OfCategory(init, c) + [t];
          TotalAppend(OfCategory(init, c), [t]);
          assert Total([t]) == t.amount;
        } else {
          assert OfCategory(ts, c) == OfCategory(init, c);
        }
      }
    }
  }

  /** Removing one key takes exactly its value off the sum of values. */
  lemma {:induction false} SumValuesRemove(m: map<string, real>, k: string)
    requires k in m
    ensures SumValues(m) == m[k] + SumValues(m - {k})
    decreases |m.Keys|
  {
    var j :| j in m.Keys && SumValues(m) == m[j] + SumValues(m - {j});
    if j != k {
      assert (m - {j}).Keys == m.Keys - {j};
      SumValuesRemove(m - {j}, k);
      assert (m - {k}).Keys == m.Keys - {k};
      SumValuesRemove(m - {k}, j);
      assert m - {j} - {k} == m - {k} - {j};
    }
  }

  /** Updating one key changes the sum of values by the difference. */
  lemma SumValuesUpdate(m: map<string, real>, k: string, v: real)
    ensures SumValues(m[k := v]) == SumValues(m) - (if k in m then m[k] else 0.0) + v
  {
    SumValuesRemove(m[k := v], k);
    if k in m {
      SumValuesRemove(m, k);
      assert m[k := v] - {k} == m - {k};
    } else {
      assert m[k := v] - {k} == m;
    }
  }

  /** The per-category sums partition the total. */
  lemma {:induction false} GroupedSumsToTotal(ts: seq<Transaction>)
    ensures SumValues(Grouped(ts)) == Total(ts)
  {
    if ts != [] {
      var init := ts[..|ts| - 1];
      var t := ts[|ts| - 1];
      GroupedSumsToTotal(init);
      var g := Grouped(init);
      SumValuesUpdate(g, t.category, (if t.category in g then g[t.category] else 0.0) + t.amount);
    }
  }

  // ---------------------------------------------------------------------------
  // The source's operations

  /** `filter_by_month`: keeps the entries whose date starts with `month`, skipping those without a string date. */
  method FilterByMonth(transactions: seq<Transaction>, month: string) returns (filtered: seq<Transaction>)
    ensures filtered == Filtered(transactions, month)
    ensures forall t :: t in filtered <==> t in transactions && InMonth(t, month)
    ensures IsSubsequence(filtered, transactions)
  {
    filtered := [];
    for i := 0 to |transactions|
      invariant filtered == Filtered(transactions[..i], month)
    {
      assert transactions[..i + 1][..i] == transactions[..i];
      var t := transactions[i];
      if t.date.Some? && month <= t.date.value {
        filtered := filtered + [t];
      }
    }
    assert transactions[..|transactions|] == transactions;
    FilteredMembers(transactions, month);
    FilteredIsSubsequence(transactions, month);
  }

  /** `calculate_total`: the exact sum of the amounts, starting from zero. */
  method CalculateTotal(transactions: seq<Transaction>) returns (total: real)
    ensures total == Total(transactions)
    ensures transactions == [] ==> total == 0.0
  {
    total := 0.0;
    for i := 0 to |transactions|
      invariant total == Total(transactions[..i])
    {
      assert transactions[..i + 1][..i] == transactions[..i];
      total := total + transactions[i].amount;
    }
    assert transactions[..|transactions|] == transactions;
  }

  /** `group_by_category`: one key per category occurring, mapped to the exact sum of its amounts. */
  method GroupByCategory(transactions: seq<Transaction>) returns (grouped: map<string, real>)
    ensures grouped == Grouped(transactions)
    ensures grouped.Keys == Categories(transactions)
    ensures forall c :: c in grouped ==> grouped[c] == Total(OfCategory(transactions, c))
  {
    grouped := map[];
    for i := 0 to |transactions|
      invariant grouped == Grouped(transactions[..i])
    {
      assert transactions[..i + 1][..i] == transactions[..i];
      var cat := transactions[i].category;
      var sofar := if cat in grouped then grouped[cat] else 0.0;
      grouped := grouped[cat := sofar + transactions[i].amount];
    }
    assert transactions[..|transactions|] == transactions;
    GroupedKeys(transactions);
    GroupedValues(transactions);
  }

  /** `add_transaction`: appends one dated entry; the limit, the templates and every earlier entry stay as they were. */
  method AddTransaction(data: Data, amount: real, category: string, description: string, transactionDate: string)
    modifies data
    ensures data.transactions == old(data.transactions) + [Transaction(Some(transactionDate), amount, category, description)]
    ensures data.limit == old(data.limit) && data.fixedCosts == old(data.fixedCosts)
  {
    var transaction := Transaction(Some(transactionDate), amount, category, description);
    data.transactions := data.transactions + [transaction];
  }
}
