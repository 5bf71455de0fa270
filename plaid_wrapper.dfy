/** The `PlaidAPI` wrapper that `UserBank` uses: the same arithmetic as the
    middleware's class, plus a per-object cache of the balance. */
module PlaidWrapper {
  import opened Common
  import opened Plaid

  class PlaidApi {
    /** The `balance` attribute: None until a balance is first computed. */
    var balance: Option<real>

    constructor ()
      ensures balance == None
    {
      balance := None;
    }

    /** The test `if self.balance:` passes: a number was stored and it is not
        zero (a zero balance is falsy and so never counts as cached). */
    predicate Cached()
      reads this
    {
      balance.Some? && balance.value != 0.0
    }

    /** `PlaidAPI.current_balance`: the cached value if there is one, otherwise
        the signed sum over `accounts` (the accounts response), which is stored. */
    method CurrentBalance(accounts: seq<Account>) returns (r: real)
      modifies this
      ensures old(Cached()) ==> r == old(balance).value && balance == old(balance)
      ensures !old(Cached()) ==> r == SignedBalance(accounts) && balance == Some(r)
    {
      if Cached() {
        return balance.value;
      }
      r := SignedBalance(accounts);
      balance := Some(r);
    }

    /** `PlaidAPI.historical_data`: the history starts from this object's
        `current_balance`, cached or not. */
    method HistoricalData(accounts: seq<Account>, today: Date, txs: seq<Transaction>)
      returns (list: seq<Entry>)
      modifies this
      ensures var b := if old(Cached()) then old(balance).value else SignedBalance(accounts);
              list == History(Entry(today, b), txs)
              && balance == (if old(Cached()) then old(balance) else Some(b))
    {
      var value := CurrentBalance(accounts);
      list := WalkTransactions(value, today, txs);
    }
  }

  /** Two balance requests on one fresh object: the first computes; the
      second returns the first result unless that was zero, in which case it
      computes again from its own response. */
  method RepeatedBalance(first: seq<Account>, second: seq<Account>) returns (r1: real, r2: real)
    ensures r1 == SignedBalance(first)
    ensures r1 != 0.0 ==> r2 == r1
    ensures r1 == 0.0 ==> r2 == SignedBalance(second)
  {
    var api := new PlaidApi();
    r1 := api.CurrentBalance(first);
    r2 := api.CurrentBalance(second);
  }
}
