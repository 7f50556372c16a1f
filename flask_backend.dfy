/**
 * The Flask reference backend for the budget tracker: an in-memory
 * `budget_data` store that `/api/update-budget` overwrites from the posted
 * state and then re-aggregates into one budget row per configured category,
 * and the request checks of `/api/upload-receipt`.
 */
module FlaskBackend {
  import opened Wrappers
  import opened Json
  import RichDashboard

  /** One rebuilt budget row: `{'category', 'spent', 'limit'}`. */
  datatype BudgetRow = BudgetRow(category: string, spent: real, limit: int)

  /** The whole store, as `jsonify(budget_data)` returns it. */
  datatype Snapshot = Snapshot(
    transactions: Value, budgets: seq<BudgetRow>,
    totalBudget: Value, totalSpent: Value, categories: seq<string>)

  /** The Python exceptions the aggregation can raise. */
  datatype Failure =
    | NotIterable   // TypeError: the stored transactions cannot be iterated
    | NotADict      // AttributeError: a transaction has no `.get`
    | Unhashable    // TypeError: a category that is a list or a dict
    | BadOperand    // TypeError: an amount that cannot be added to a number

  const Categories: seq<string> :=
    ["Food", "Transportation", "Entertainment", "Utilities", "Shopping", "Healthcare"]

  const DefaultLimit: int := 500

  /** What `for x in v` visits: list items, the characters of a string, the keys of a dict. */
  function Elements(v: Value): (r: Result<seq<Value>, Failure>)
    ensures v.List? ==> r == Ok(v.items)
    ensures r.Err? <==> !(v.List? || v.Str? || v.Object?)
  {
    match v
    case List(xs) => Ok(xs)
    case Str(s) => Ok(seq(|s|, i requires 0 <= i < |s| => Str([s[i]])))
    case Object(fs) => Ok(seq(|fs|, i requires 0 <= i < |fs| => Str(fs[i].key)))
    case _ => Err(NotIterable)
  }

  /** `transaction.get('category', 'Other')` */
  function CategoryOf(t: seq<Field>): Value
  {
    GetOr(t, "category", Str("Other"))
  }

  /** `transaction.get('amount', 0)` */
  function AmountOf(t: seq<Field>): Value
  {
    GetOr(t, "amount", Int(0))
  }

  predicate Hashable(v: Value)
  {
    !(v.List? || v.Object?)
  }

  /** The number a value contributes to `0 + amount`; a bool counts as 0 or 1. */
  function Numeric(v: Value): (r: Option<real>)
    ensures r.Some? <==> v.Int? || v.Float? || v.Bool?
  {
    match v
    case Int(i) => Some(i as real)
    case Float(f) => Some(f)
    case Bool(b) => Some(if b then 1.0 else 0.0)
    case _ => None
  }

  /** The exception one loop iteration raises, if any, in the order the code meets them. */
  function StepFault(t: Value): Option<Failure>
  {
    if !t.Object? then Some(NotADict)
    else if !Hashable(CategoryOf(t.fields)) then Some(Unhashable)
    else if Numeric(AmountOf(t.fields)).None? then Some(BadOperand)
    else None
  }

  /** The first exception the loop over `txs` raises. */
  function Fault(txs: seq<Value>): Option<Failure>
  {
    if txs == [] then None
    else if Fault(txs[..|txs| - 1]).Some? then Fault(txs[..|txs| - 1])
    else StepFault(txs[|txs| - 1])
  }

  /** `category_spending.get(c, 0)` after the loop: the amounts of transactions of category `c`. */
  function SpentOn(txs: seq<Value>, c: string): real
  {
    if txs == [] then 0.0
    else SpentOn(txs[..|txs| - 1], c) + Share(txs[|txs| - 1], c)
  }

  /** What one transaction adds to the total of category `c`. */
  function Share(t: Value, c: string): real
  {
    if t.Object? && CategoryOf(t.fields) == Str(c) then Numeric(AmountOf(t.fields)).GetOr(0.0) else 0.0
  }

  /** The list `update_budget` rebuilds: one row per configured category, in order. */
  function Rebuilt(categories: seq<string>, txs: seq<Value>): (rows: seq<BudgetRow>)
    ensures |rows| == |categories|
    ensures forall i :: 0 <= i < |categories| ==>
      rows[i] == BudgetRow(categories[i], SpentOn(txs, categories[i]), DefaultLimit)
  {
    seq(|categories|, i requires 0 <= i < |categories| =>
      BudgetRow(categories[i], SpentOn(txs, categories[i]), DefaultLimit))
  }

  /** A category that no transaction carries totals 0. */
  lemma {:induction false} SpentOnUnused(txs: seq<Value>, c: string)
    requires forall i :: 0 <= i < |txs| && txs[i].Object? ==> CategoryOf(txs[i].fields) != Str(c)
    ensures SpentOn(txs, c) == 0.0
  {
    if txs != [] {
      var n := |txs| - 1;
      assert forall i :: 0 <= i < n ==> txs[..n][i] == txs[i];
      SpentOnUnused(txs[..n], c);
    }
  }

  /** The rebuilt row of a category without transactions has spent 0 and the default limit. */
  lemma RebuiltUnspent(categories: seq<string>, txs: seq<Value>, k: nat)
    requires k < |categories|
    requires forall i :: 0 <= i < |txs| && txs[i].Object? ==> CategoryOf(txs[i].fields) != Str(categories[k])
    ensures Rebuilt(categories, txs)[k] == BudgetRow(categories[k], 0.0, 500)
  {
    SpentOnUnused(txs, categories[k]);
  }

  /** What the aggregation makes of the stored transactions: their items, or the exception. */
  function Tally(transactions: Value): (r: Result<seq<Value>, Failure>)
    ensures Elements(transactions).Err? ==> r == Err(Elements(transactions).error)
    ensures r.Ok? ==> Elements(transactions) == Ok(r.value) && Fault(r.value) == None
    ensures r.Err? ==> Elements(transactions).Err? || Fault(Elements(transactions).value) == Some(r.error)
  {
    match Elements(transactions)
    case Err(e) => Err(e)
    case Ok(txs) => if Fault(txs).Some? then Err(Fault(txs).value) else Ok(txs)
  }

  function Lookup(m: map<Value, real>, k: Value): real
  {
    if k in m then m[k] else 0.0
  }

  lemma {:induction false} FaultSticky(txs: seq<Value>, j: nat)
    requires j <= |txs|
    requires Fault(txs[..j]).Some?
    ensures Fault(txs) == Fault(txs[..j])
    decreases |txs| - j
  {
    if j < |txs| {
      assert txs[..j + 1][..j] == txs[..j];
      FaultSticky(txs, j + 1);
    } else {
      assert txs[..j] == txs;
    }
  }

  /**
   * The first loop of `update_budget`: `category_spending`, or the exception
   * the loop raises first.
   */
  method AggregateSpending(txs: seq<Value>) returns (r: Result<map<Value, real>, Failure>)
    ensures r.Err? <==> Fault(txs).Some?
    ensures r.Err? ==> r.error == Fault(txs).value
    ensures r.Ok? ==> forall c: string :: Lookup(r.value, Str(c)) == SpentOn(txs, c)
  {
    var spending: map<Value, real> := map[];
    var i := 0;
    while i < |txs|
      invariant 0 <= i <= |txs|
      invariant Fault(txs[..i]) == None
      invariant forall c: string :: Lookup(spending, Str(c)) == SpentOn(txs[..i], c)
    {
      var t := txs[i];
      assert txs[..i + 1][..i] == txs[..i] && txs[..i + 1][i] == t;
      if !t.Object? {
        FaultSticky(txs, i + 1);
        return Err(NotADict);
      }
      var category := GetOr(t.fields, "category", Str("Other"));
      var amount := GetOr(t.fields, "amount", Int(0));
      if !Hashable(category) {
        FaultSticky(txs, i + 1);
        return Err(Unhashable);
      }
      var n := Numeric(amount);
      if n.None? {
        FaultSticky(txs, i + 1);
        return Err(BadOperand);
      }
      spending := spending[category := Lookup(spending, category) + n.value];
      i := i + 1;
    }
    assert txs[..i] == txs;
    r := Ok(spending);
  }

  /** The second loop of `update_budget`: one row per configured category. */
  method RebuildBudgets(categories: seq<string>, txs: seq<Value>, spending: map<Value, real>)
    returns (updated: seq<BudgetRow>)
    requires forall c: string :: Lookup(spending, Str(c)) == SpentOn(txs, c)
    ensures updated == Rebuilt(categories, txs)
  {
    updated := [];
    var j := 0;
    while j < |categories|
      invariant 0 <= j <= |categories|
      invariant |updated| == j
      invariant forall k :: 0 <= k < j ==>
        updated[k] == BudgetRow(categories[k], SpentOn(txs, categories[k]), DefaultLimit)
    {
      var category := categories[j];
      var spent := Lookup(spending, Str(category));
      updated := updated + [BudgetRow(category, spent, DefaultLimit)];
      j := j + 1;
    }
  }

  class Store {
    var transactions: Value
    var budgets: seq<BudgetRow>
    var totalBudget: Value
    var totalSpent: Value
    var categories: seq<string>

    constructor ()
      ensures transactions == List([]) && budgets == []
      ensures totalBudget == Int(0) && totalSpent == Int(0)
      ensures categories == Categories
    {
      transactions := List([]);
      budgets := [];
      totalBudget := Int(0);
      totalSpent := Int(0);
      categories := Categories;
    }

    function Contents(): Snapshot
      reads this
    {
      Snapshot(transactions, budgets, totalBudget, totalSpent, categories)
    }

    /**
     * `update_budget`: `transactions`, `totalSpent` and `totalBudget` are
     * taken from `state` when it has them (anything else it carries is
     * ignored); then the budgets are rebuilt from the stored transactions and
     * the whole store is returned. If the aggregation raises, the copied keys
     * stay written and the old budgets stay.
     */
    method UpdateBudget(state: seq<Field>) returns (r: Result<Snapshot, Failure>)
      modifies this
      ensures transactions == GetOr(state, "transactions", old(transactions))
      ensures totalSpent == GetOr(state, "totalSpent", old(totalSpent))
      ensures totalBudget == GetOr(state, "totalBudget", old(totalBudget))
      ensures categories == old(categories)
      ensures Tally(transactions).Err? ==>
        r == Err(Tally(transactions).error) && budgets == old(budgets)
      ensures Tally(transactions).Ok? ==>
        budgets == Rebuilt(categories, Tally(transactions).value) && r == Ok(Contents())
    {
      if Has(state, "transactions") {
        transactions := Get(state, "transactions").value;
      }
      if Has(state, "totalSpent") {
        totalSpent := Get(state, "totalSpent").value;
      }
      if Has(state, "totalBudget") {
        totalBudget := Get(state, "totalBudget").value;
      }

      var elems := Elements(transactions);
      if elems.Err? {
        return Err(elems.error);
      }
      var spending := AggregateSpending(elems.value);
      if spending.Err? {
        return Err(spending.error);
      }
      budgets := RebuildBudgets(categories, elems.value, spending.value);
      r := Ok(Contents());
    }
  }

  /** A multipart field of the upload request. */
  datatype Part = Part(name: string, filename: string)

  datatype UploadError = UploadError(message: string, status: int)

  /**
   * The checks `upload_receipt` makes before saving anything: a missing
   * `receipt` part and an empty file name are both answered with 400. As
   * `request.files['receipt']` does, the first part of that name is the one
   * taken.
   */
  function CheckUpload(files: seq<Part>): (r: Result<Part, UploadError>)
    ensures r.Err? ==> r.error.status == 400
    ensures (r == Err(UploadError("No receipt file provided", 400))) <==>
      forall p :: p in files ==> p.name != "receipt"
    ensures r.Err? ==>
      (r.error.message == "No receipt file provided" ||
       exists p :: p in files && p.name == "receipt" && p.filename == "")
    ensures r.Ok? ==> r.value in files && r.value.name == "receipt" && r.value.filename != ""
    ensures forall i ::
      (0 <= i < |files| && files[i].name == "receipt" &&
       forall j :: 0 <= j < i ==> files[j].name != "receipt") ==>
      r == if files[i].filename == "" then Err(UploadError("No file selected", 400)) else Ok(files[i])
  {
    if files == [] then Err(UploadError("No receipt file provided", 400))
    else if files[0].name == "receipt" then
      if files[0].filename == "" then Err(UploadError("No file selected", 400)) else Ok(files[0])
    else CheckUpload(files[1..])
  }

  // ----- Agreement with the client's own aggregation -----

  /** How the client's `JSON.stringify` presents a transaction to this server. */
  function Encode(t: RichDashboard.Transaction): Value
  {
    Object([
      Field("id", Str(t.id)),
      Field("amount", Float(t.amount)),
      Field("category", Str(t.category)),
      Field("description", Str(t.description)),
      Field("date", Str(t.date)),
      Field("type", Str(if t.kind.Expense? then "expense" else "income"))
    ] + (if t.receipt.Some? then [Field("receipt", Str(t.receipt.value))] else []))
  }

  /** The client's transaction list as this server receives it. */
  function EncodeAll(txs: seq<RichDashboard.Transaction>): (r: seq<Value>)
    ensures |r| == |txs|
  {
    if txs == [] then [] else EncodeAll(txs[..|txs| - 1]) + [Encode(txs[|txs| - 1])]
  }

  /** One more transaction adds its share to every category total. */
  lemma SpentOnSnoc(vs: seq<Value>, v: Value, c: string)
    ensures SpentOn(vs + [v], c) == SpentOn(vs, c) + Share(v, c)
  {
    assert (vs + [v])[..|vs|] == vs;
  }

  /** One more transaction raises only if the loop already had, or it fails its own checks. */
  lemma FaultSnoc(vs: seq<Value>, v: Value)
    ensures Fault(vs + [v]) == if Fault(vs).Some? then Fault(vs) else StepFault(v)
  {
    assert (vs + [v])[..|vs|] == vs;
  }

  /** An encoded transaction passes every check of the loop and adds its amount to its own category only. */
  lemma EncodedStep(t: RichDashboard.Transaction, c: string)
    ensures StepFault(Encode(t)) == None
    ensures Share(Encode(t), c) == if t.category == c then t.amount else 0.0
  {
    var fs := Encode(t).fields;
    assert fs[0].key == "id" && fs[1..][0] == Field("amount", Float(t.amount));
    assert fs[1..][1..][0] == Field("category", Str(t.category));
    assert Get(fs, "amount") == Get(fs[1..], "amount") == Some(Float(t.amount));
    assert Get(fs, "category") == Get(fs[1..], "category") == Get(fs[1..][1..], "category") == Some(Str(t.category));
  }

  /** The aggregation raises nothing on the client's transactions. */
  lemma {:induction false} EncodedFaultFree(txs: seq<RichDashboard.Transaction>)
    ensures Fault(EncodeAll(txs)) == None
  {
    if txs != [] {
      var n := |txs| - 1;
      EncodedFaultFree(txs[..n]);
      EncodedStep(txs[n], "");
      FaultSnoc(EncodeAll(txs[..n]), Encode(txs[n]));
    }
  }

  /**
   * The budgets the server rebuilds from the client's transactions carry the
   * same per-category sums as the client's `getSpendingByCategory`.
   */
  lemma {:induction false} ServerAgreesWithClient(txs: seq<RichDashboard.Transaction>, c: string)
    ensures SpentOn(EncodeAll(txs), c) == RichDashboard.CategorySum(txs, c)
  {
    if txs != [] {
      var n := |txs| - 1;
      ServerAgreesWithClient(txs[..n], c);
      EncodedStep(txs[n], c);
      SpentOnSnoc(EncodeAll(txs[..n]), Encode(txs[n]), c);
    }
  }

  /** The server's reply to a client payload holds the client's category sums. */
  lemma ReplyMatchesClient(txs: seq<RichDashboard.Transaction>)
    ensures Tally(List(EncodeAll(txs))) == Ok(EncodeAll(txs))
    ensures forall i :: 0 <= i < |Categories| ==>
      Rebuilt(Categories, EncodeAll(txs))[i].spent == RichDashboard.CategorySum(txs, Categories[i])
  {
    EncodedFaultFree(txs);
    forall i | 0 <= i < |Categories|
      ensures Rebuilt(Categories, EncodeAll(txs))[i].spent == RichDashboard.CategorySum(txs, Categories[i])
    {
      ServerAgreesWithClient(txs, Categories[i]);
    }
  }
}
