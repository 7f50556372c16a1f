/**
 * The richer (commented-out) budget dashboard: an `AppState` with per-category
 * budgets, an `addTransaction` that builds the updated fields and hands them to
 * `sendStateToServer`, and the derived views `getSpendingByCategory` and
 * `getRecentTransactions`. Local state changes only when the server replies
 * OK, and then it becomes exactly the reply.
 */
module RichDashboard {
  import opened Wrappers

  datatype Kind = Expense | Income

  datatype Transaction = Transaction(
    id: string, amount: real, category: string, description: string,
    date: string, kind: Kind, receipt: Option<string>)

  datatype Budget = Budget(category: string, limit: real, spent: real)

  datatype AppState = AppState(
    transactions: seq<Transaction>, budgets: seq<Budget>,
    totalBudget: real, totalSpent: real, categories: seq<string>)

  /** A `Partial<AppState>`: the fields present are the ones it overrides. */
  datatype Patch = Patch(
    transactions: Option<seq<Transaction>>, budgets: Option<seq<Budget>>,
    totalBudget: Option<real>, totalSpent: Option<real>, categories: Option<seq<string>>)

  /**
   * How a POST to `/api/update-budget` ends: an OK response whose body parsed
   * as a state, a non-OK status, or an exception (network failure, or a body
   * that does not parse).
   */
  datatype Reply = Accepted(body: AppState) | Rejected | Thrown

  /** One row of the spending-by-category view. */
  datatype CategorySpending = CategorySpending(category: string, spent: real, limit: real, percentage: real)

  const SeedCategories: seq<string> :=
    ["Food", "Transportation", "Entertainment", "Utilities", "Shopping", "Healthcare"]

  /** The state the component starts from. */
  const Seed: AppState := AppState(
    [],
    [ Budget("Food", 500.0, 0.0), Budget("Transportation", 200.0, 0.0),
      Budget("Entertainment", 150.0, 0.0), Budget("Utilities", 300.0, 0.0),
      Budget("Shopping", 250.0, 0.0), Budget("Healthcare", 100.0, 0.0) ],
    1500.0, 0.0, SeedCategories)

  /** `{ ...state, ...updated }` */
  function Overlay(s: AppState, p: Patch): AppState
  {
    AppState(
      p.transactions.GetOr(s.transactions), p.budgets.GetOr(s.budgets),
      p.totalBudget.GetOr(s.totalBudget), p.totalSpent.GetOr(s.totalSpent),
      p.categories.GetOr(s.categories))
  }

  /** `new Date().toISOString().split("T")[0]`: the text before the first 'T'. */
  function DatePart(iso: string): (d: string)
    ensures d <= iso
    ensures 'T' !in d
    ensures |d| < |iso| ==> iso[|d|] == 'T'
  {
    if iso == [] || iso[0] == 'T' then [] else [iso[0]] + DatePart(iso[1..])
  }

  /** `receiptPreview || undefined`: an empty preview is no receipt. */
  function ReceiptOf(preview: Option<string>): (r: Option<string>)
    ensures r.Some? <==> preview.Some? && preview.value != ""
    ensures r.Some? ==> r == preview
  {
    if preview.Some? && preview.value != "" then preview else None
  }

  /** `reduce((sum, t) => sum + t.amount, 0)` */
  function Sum(txs: seq<Transaction>): real
  {
    if txs == [] then 0.0 else Sum(txs[..|txs| - 1]) + txs[|txs| - 1].amount
  }

  /** `filter((t) => t.category === c)` */
  function Filter(txs: seq<Transaction>, c: string): (r: seq<Transaction>)
    ensures |r| <= |txs|
    ensures forall t :: t in r <==> t in txs && t.category == c
  {
    if txs == [] then []
    else
      var r := Filter(txs[..|txs| - 1], c);
      var t := txs[|txs| - 1];
      assert txs == txs[..|txs| - 1] + [t];
      if t.category == c then r + [t] else r
  }

  /** The filter keeps every transaction of the category as often as the list holds it, and no other. */
  lemma {:induction false} FilterCounts(txs: seq<Transaction>, c: string)
    ensures forall t :: multiset(Filter(txs, c))[t] == if t.category == c then multiset(txs)[t] else 0
  {
    if txs != [] {
      var n := |txs| - 1;
      FilterCounts(txs[..n], c);
      assert txs == txs[..n] + [txs[n]];
    }
  }

  /** Filtering a joined list filters each part, keeping their order. */
  lemma {:induction false} FilterAppend(a: seq<Transaction>, b: seq<Transaction>, c: string)
    ensures Filter(a + b, c) == Filter(a, c) + Filter(b, c)
  {
    if b == [] {
      assert a + b == a;
    } else {
      var n := |b| - 1;
      assert (a + b)[..|a + b| - 1] == a + b[..n];
      FilterAppend(a, b[..n], c);
    }
  }

  /** Amount spent in category `c`, recomputed from the transaction list. */
  function CategorySum(txs: seq<Transaction>, c: string): real
  {
    Sum(Filter(txs, c))
  }

  /** Budgets after charging `t`: only rows of its category change. */
  function Charge(budgets: seq<Budget>, t: Transaction): (r: seq<Budget>)
    ensures |r| == |budgets|
    ensures forall i :: 0 <= i < |budgets| ==>
      && r[i].category == budgets[i].category
      && r[i].limit == budgets[i].limit
      && r[i].spent == budgets[i].spent + (if budgets[i].category == t.category then t.amount else 0.0)
  {
    seq(|budgets|, i requires 0 <= i < |budgets| =>
      if budgets[i].category == t.category
      then budgets[i].(spent := budgets[i].spent + t.amount)
      else budgets[i])
  }

  /** The fields `addTransaction` hands to `sendStateToServer`. */
  function AddPatch(s: AppState, t: Transaction): Patch
  {
    Patch(Some(s.transactions + [t]), Some(Charge(s.budgets, t)), None, Some(s.totalSpent + t.amount), None)
  }

  /** The transaction `addTransaction` builds from the form, the clock and the receipt preview. */
  function NewTransaction(amount: real, category: string, description: string,
                          id: string, nowIso: string, preview: Option<string>): Transaction
  {
    Transaction(id, amount, category, description, DatePart(nowIso), Expense, ReceiptOf(preview))
  }

  /** `(spent / limit) * 100`, or 0 when the limit is not positive. */
  function Percentage(spent: real, limit: real): (p: real)
    ensures limit > 0.0 ==> p * limit == spent * 100.0
    ensures limit <= 0.0 ==> p == 0.0
  {
    if limit > 0.0 then (spent / limit) * 100.0 else 0.0
  }

  /** `getSpendingByCategory`: one row per budget, in budget order, summed from the list. */
  function SpendingByCategory(s: AppState): (rows: seq<CategorySpending>)
    ensures |rows| == |s.budgets|
    ensures forall i :: 0 <= i < |rows| ==>
      && rows[i].category == s.budgets[i].category
      && rows[i].limit == s.budgets[i].limit
      && rows[i].spent == CategorySum(s.transactions, s.budgets[i].category)
      && (rows[i].limit > 0.0 ==> rows[i].percentage * rows[i].limit == rows[i].spent * 100.0)
      && (rows[i].limit <= 0.0 ==> rows[i].percentage == 0.0)
  {
    seq(|s.budgets|, i requires 0 <= i < |s.budgets| =>
      var b := s.budgets[i];
      var spent := CategorySum(s.transactions, b.category);
      CategorySpending(b.category, spent, b.limit, Percentage(spent, b.limit)))
  }

  function Reverse(txs: seq<Transaction>): (r: seq<Transaction>)
    ensures |r| == |txs|
  {
    if txs == [] then [] else [txs[|txs| - 1]] + Reverse(txs[..|txs| - 1])
  }

  /** `transactions.slice(-5).reverse()` */
  function RecentTransactions(txs: seq<Transaction>): seq<Transaction>
  {
    Reverse(txs[if |txs| <= 5 then 0 else |txs| - 5..])
  }

  /** The "Remaining" figure: `Math.max(0, totalBudget - totalSpent)`. */
  function Remaining(s: AppState): (r: real)
    ensures r >= 0.0 && r >= s.totalBudget - s.totalSpent
    ensures r == 0.0 || r == s.totalBudget - s.totalSpent
  {
    if s.totalBudget - s.totalSpent > 0.0 then s.totalBudget - s.totalSpent else 0.0
  }

  /** The cached totals agree with the transaction list. */
  ghost predicate Consistent(s: AppState)
  {
    && s.totalSpent == Sum(s.transactions)
    && forall i :: 0 <= i < |s.budgets| ==> s.budgets[i].spent == CategorySum(s.transactions, s.budgets[i].category)
  }

  class Dashboard {
    var state: AppState

    constructor ()
      ensures state == Seed
    {
      state := Seed;
    }

    /**
     * `sendStateToServer`: posts the current state overlaid with `update`; an
     * OK reply replaces the state wholesale, anything else leaves it as it was.
     */
    method SendStateToServer(update: Patch, reply: Reply) returns (payload: AppState)
      modifies this
      ensures payload == Overlay(old(state), update)
      ensures reply.Accepted? ==> state == reply.body
      ensures !reply.Accepted? ==> state == old(state)
    {
      payload := Overlay(state, update);
      if reply.Accepted? {
        state := reply.body;
      }
    }

    /**
     * `addTransaction`: with an empty amount, category or description nothing
     * is sent and nothing changes; otherwise the new expense is appended, the
     * total and the matching budgets are charged, and the result is sent.
     */
    method AddTransaction(amountText: string, category: string, description: string,
                          amount: real, id: string, nowIso: string, preview: Option<string>,
                          reply: Reply)
      returns (sent: Option<AppState>)
      modifies this
      ensures amountText == "" || category == "" || description == "" ==>
        sent == None && state == old(state)
      ensures amountText != "" && category != "" && description != "" ==>
        && sent == Some(Overlay(old(state), AddPatch(old(state),
                          NewTransaction(amount, category, description, id, nowIso, preview))))
        && (reply.Accepted? ==> state == reply.body)
        && (!reply.Accepted? ==> state == old(state))
    {
      if amountText == "" || category == "" || description == "" {
        return None;
      }
      var t := NewTransaction(amount, category, description, id, nowIso, preview);
      var payload := SendStateToServer(AddPatch(state, t), reply);
      sent := Some(payload);
    }
  }

  lemma {:induction false} SumAppend(txs: seq<Transaction>, t: Transaction)
    ensures Sum(txs + [t]) == Sum(txs) + t.amount
  {
    assert (txs + [t])[..|txs + [t]| - 1] == txs;
  }

  lemma {:induction false} CategorySumAppend(txs: seq<Transaction>, t: Transaction, c: string)
    ensures CategorySum(txs + [t], c) == CategorySum(txs, c) + (if t.category == c then t.amount else 0.0)
  {
    var all := txs + [t];
    assert all[..|all| - 1] == txs;
    if t.category == c {
      SumAppend(Filter(txs, c), t);
    }
  }

  /** The payload `addTransaction` sends: old list plus the transaction, totals charged, the rest kept. */
  lemma AddPayloadShape(s: AppState, t: Transaction)
    ensures var p := Overlay(s, AddPatch(s, t));
      && p.transactions == s.transactions + [t]
      && p.totalSpent == s.totalSpent + t.amount
      && p.totalBudget == s.totalBudget
      && p.categories == s.categories
      && |p.budgets| == |s.budgets|
      && forall i :: 0 <= i < |s.budgets| ==>
           p.budgets[i] == (if s.budgets[i].category == t.category
                            then s.budgets[i].(spent := s.budgets[i].spent + t.amount)
                            else s.budgets[i])
  {
  }

  /** A transaction of a category no budget has changes no budget, only the total. */
  lemma UnknownCategoryChargesNoBudget(s: AppState, t: Transaction)
    requires forall i :: 0 <= i < |s.budgets| ==> s.budgets[i].category != t.category
    ensures Overlay(s, AddPatch(s, t)).budgets == s.budgets
    ensures Overlay(s, AddPatch(s, t)).totalSpent == s.totalSpent + t.amount
  {
  }

  /** The payload of `addTransaction` keeps the cached totals in step with the list. */
  lemma {:induction false} AddPreservesConsistency(s: AppState, t: Transaction)
    requires Consistent(s)
    ensures Consistent(Overlay(s, AddPatch(s, t)))
  {
    var p := Overlay(s, AddPatch(s, t));
    SumAppend(s.transactions, t);
    forall i | 0 <= i < |p.budgets|
      ensures p.budgets[i].spent == CategorySum(p.transactions, p.budgets[i].category)
    {
      CategorySumAppend(s.transactions, t, s.budgets[i].category);
    }
  }

  lemma SeedConsistent()
    ensures Consistent(Seed)
  {
  }

  /** On a consistent state the recomputed view and the cached `spent` fields never disagree. */
  lemma SpendingMatchesCache(s: AppState)
    requires Consistent(s)
    ensures forall i :: 0 <= i < |s.budgets| ==> SpendingByCategory(s)[i].spent == s.budgets[i].spent
  {
  }

  lemma {:induction false} ReverseAt(txs: seq<Transaction>, k: nat)
    requires k < |txs|
    ensures Reverse(txs)[k] == txs[|txs| - 1 - k]
  {
    if k > 0 {
      ReverseAt(txs[..|txs| - 1], k - 1);
    }
  }

  /** At most five transactions, the newest first. */
  lemma RecentTransactionsSpec(txs: seq<Transaction>)
    ensures |RecentTransactions(txs)| == if |txs| < 5 then |txs| else 5
    ensures forall k :: 0 <= k < |RecentTransactions(txs)| ==> RecentTransactions(txs)[k] == txs[|txs| - 1 - k]
  {
    var tail := txs[if |txs| <= 5 then 0 else |txs| - 5..];
    forall k | 0 <= k < |tail|
      ensures RecentTransactions(txs)[k] == txs[|txs| - 1 - k]
    {
      ReverseAt(tail, k);
    }
  }

  /** Seed, then 120 on "Food": total 120, and the Food row reads 120 of 500, 24 percent. */
  lemma FoodScenario(t: Transaction)
    requires t.amount == 120.0 && t.category == "Food"
    ensures var s := Overlay(Seed, AddPatch(Seed, t));
      && s.totalSpent == 120.0
      && SpendingByCategory(s)[0] == CategorySpending("Food", 120.0, 500.0, 24.0)
  {
    var s := Overlay(Seed, AddPatch(Seed, t));
    assert Seed.budgets[0] == Budget("Food", 500.0, 0.0);
    assert s.transactions == [] + [t];
    assert Filter(s.transactions, "Food") == [t] by {
      assert s.transactions[..0] == [];
    }
    assert CategorySum(s.transactions, "Food") == 120.0 by {
      SumAppend([], t);
    }
    var row := SpendingByCategory(s)[0];
    assert row.category == "Food" && row.limit == 500.0 && row.spent == 120.0;
    assert row.percentage * 500.0 == 12000.0;
  }
}
