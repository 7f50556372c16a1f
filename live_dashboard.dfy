/**
 * The live budget dashboard component: a budget of 3000, a running `spent`
 * total and a newest-first list of expenses, changed only by `addTransaction`.
 * React state setters become field assignments; the form's text fields, the
 * number `parseFloat` makes of the amount text and the clock reading are
 * parameters of the operation.
 */
module LiveDashboard {
  import opened Wrappers

  /** A recorded expense: the form's name, the parsed amount and an ISO timestamp. */
  datatype Expense = Expense(name: string, amount: real, date: string)

  /** The body posted to `/api/update-state` after each accepted expense. */
  datatype Payload = Payload(transactions: seq<Expense>, spent: real)

  const InitialBudget: real := 3000.0

  /** Sum of the amounts of a list of expenses. */
  function Total(txs: seq<Expense>): real
  {
    if txs == [] then 0.0 else txs[0].amount + Total(txs[1..])
  }

  class Dashboard {
    var budget: real
    var spent: real
    var transactions: seq<Expense>

    /** The running total is the sum of the list, and the budget is the fixed one. */
    ghost predicate Valid()
      reads this
    {
      spent == Total(transactions) && budget == InitialBudget
    }

    constructor ()
      ensures Valid()
      ensures transactions == [] && spent == 0.0 && budget == InitialBudget
    {
      budget := InitialBudget;
      spent := 0.0;
      transactions := [];
    }

    /** `remaining = budget - spent`; not clamped at zero in this version. */
    function Remaining(): (r: real)
      reads this
      requires Valid()
      ensures r == InitialBudget - Total(transactions)
      ensures r < 0.0 <==> Total(transactions) > InitialBudget
    {
      budget - spent
    }

    /**
     * `addTransaction`: ignored when the name or the amount text is empty
     * (no state change and nothing sent). Otherwise the expense goes FIRST,
     * `spent` grows by the parsed amount (its sign is not checked) and the
     * new list and total are sent to the backend, whose reply is only logged.
     */
    method AddTransaction(name: string, amountText: string, parsed: real, now: string)
      returns (sent: Option<Payload>)
      requires Valid()
      modifies this
      ensures Valid()
      ensures budget == old(budget)
      ensures name == "" || amountText == "" ==>
        sent == None && transactions == old(transactions) && spent == old(spent)
      ensures name != "" && amountText != "" ==>
        && transactions == [Expense(name, parsed, now)] + old(transactions)
        && spent == old(spent) + parsed
        && sent == Some(Payload(transactions, spent))
    {
      if name == "" || amountText == "" {
        return None;
      }
      var tx := Expense(name, parsed, now);
      var updatedTransactions := [tx] + transactions;
      var updatedSpent := spent + parsed;
      assert updatedTransactions[1..] == transactions;
      transactions := updatedTransactions;
      spent := updatedSpent;
      sent := Some(Payload(updatedTransactions, updatedSpent));
    }
  }
}
