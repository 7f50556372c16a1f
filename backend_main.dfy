/**
 * The demo backend's `/api/update-state` endpoint (`src/backend/main.py`):
 * it appends a fixed sample transaction to the incoming state's
 * transaction list, in place, blanks the receipt, and answers with the
 * state it changed. The request body arrives already decoded.
 */
module BackendMain {
  import opened Wrappers
  import opened Json

  /** The transaction every call appends. */
  const Sample: Value := Object([
    Field("name", Str("Costco")),
    Field("amount", Float(20.5)),
    Field("date", Str("2025-09-14")),
    Field("category", Str("Food & Dining"))])

  /** The state after a successful call: the sample appended to `items`, then "receipt" blanked. */
  function Updated(state: seq<Field>, items: seq<Value>): seq<Field>
  {
    Set(Set(state, "transactions", List(items + [Sample])), "receipt", Str(""))
  }

  /**
   * After a successful call the list is the old one with the sample at its
   * end, "receipt" is "", and every other key keeps its value.
   */
  lemma UpdatedGet(state: seq<Field>, items: seq<Value>)
    requires Get(state, "transactions") == Some(List(items))
    ensures var out := Updated(state, items);
      && Get(out, "transactions") == Some(List(items + [Sample]))
      && Get(out, "receipt") == Some(Str(""))
      && (forall k :: k != "transactions" && k != "receipt" ==> Get(out, k) == Get(state, k))
  {
    var txs := List(items + [Sample]);
    var appended := Set(state, "transactions", txs);
    SetGet(appended, "receipt", Str(""), "transactions");
    SetGet(state, "transactions", txs, "transactions");
    SetGet(appended, "receipt", Str(""), "receipt");
    forall k | k != "transactions" && k != "receipt"
      ensures Get(Updated(state, items), k) == Get(state, k)
    {
      SetGet(state, "transactions", txs, k);
      SetGet(appended, "receipt", Str(""), k);
    }
  }

  /** A successful call keeps every key in its place and adds "receipt" last when it was missing. */
  lemma UpdatedKeys(state: seq<Field>, items: seq<Value>)
    requires Get(state, "transactions") == Some(List(items))
    ensures Keys(Updated(state, items)) == Keys(state) + (if Has(state, "receipt") then [] else ["receipt"])
  {
    var txs := List(items + [Sample]);
    var appended := Set(state, "transactions", txs);
    SetKeys(state, "transactions", txs);
    SetKeys(appended, "receipt", Str(""));
  }

  /**
   * `update_state`. A body that is not a dict, or a state that is not one,
   * fails before anything changes; so does a state without "transactions"
   * (KeyError) and one whose "transactions" is not a list (no `append`).
   * Otherwise the list gains the sample in place and "receipt" is blanked,
   * and the changed state is the answer.
   */
  method UpdateState(data: Value) returns (r: Result<Value, PyError>)
    ensures StateOf(data).Err? ==> r == StateOf(data)
    ensures StateOf(data).Ok? && !StateOf(data).value.Object? ==> r == Err(TypeError)
    ensures StateOf(data).Ok? && StateOf(data).value.Object? ==>
      var state := StateOf(data).value.fields;
      match Get(state, "transactions")
      case None => r == Err(KeyError)
      case Some(txs) => r == if txs.List? then Ok(Object(Updated(state, txs.items))) else Err(AttributeError)
  {
    var current := StateOf(data);
    if current.Err? {
      return current;
    }
    if !current.value.Object? {
      return Err(TypeError);
    }
    var state := current.value.fields;
    var txs := Get(state, "transactions");
    if txs.None? {
      return Err(KeyError);
    }
    if !txs.value.List? {
      return Err(AttributeError);
    }
    state := Set(state, "transactions", List(txs.value.items + [Sample]));
    state := Set(state, "receipt", Str(""));
    r := Ok(Object(state));
  }
}
