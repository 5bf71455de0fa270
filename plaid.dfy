/** Bank-data arithmetic over Plaid responses (the uncached `PlaidAPI` of the
    middleware, whose rules the cached wrapper repeats): the signed balance
    over the accounts, the first account's name, the running-balance history
    and the income / expenditure sums. The responses are inputs. */
module Plaid {
  import opened Common

  /** One entry of an accounts response: `balances.available` (absent,
      i.e. None, for some account kinds), `balances.current`, `subtype`, `name`. */
  datatype Account = Account(available: Option<real>, current: real, subtype: string, name: string)

  /** One entry of a transactions response. */
  datatype Transaction = Transaction(date: Date, amount: real)

  /** One `(date, balance)` tuple of the history. */
  datatype Entry = Entry(date: Date, value: real)

  const CreditCard: string := "credit card"

  // ---------------------------------------------------------------------------
  // Balance

  /** The amount one account contributes: `available`, or `current` when
      `available` is None, negated for a credit card. */
  function Contribution(a: Account): real
  {
    (if a.available.Some? then a.available.value else a.current)
    * (if a.subtype != CreditCard then 1.0 else -1.0)
  }

  function Amount(a: Account): real
  {
    if a.available.Some? then a.available.value else a.current
  }

  /** `PlaidAPI.current_balance` without a cache: the sum over the accounts,
      which is what the ordinary accounts hold minus what the credit cards
      hold. */
  function SignedBalance(accounts: seq<Account>): (r: real)
    ensures r == Assets(accounts) - CardDebt(accounts)
  {
    if accounts == [] then 0.0
    else SignedBalance(accounts[..|accounts| - 1]) + Contribution(accounts[|accounts| - 1])
  }

  /** What the accounts hold outside credit cards. */
  function Assets(accounts: seq<Account>): (r: real)
  {
    if accounts == [] then 0.0
    else
      var last := accounts[|accounts| - 1];
      Assets(accounts[..|accounts| - 1]) + (if last.subtype != CreditCard then Amount(last) else 0.0)
  }

  /** What the credit cards hold. */
  function CardDebt(accounts: seq<Account>): (r: real)
  {
    if accounts == [] then 0.0
    else
      var last := accounts[|accounts| - 1];
      CardDebt(accounts[..|accounts| - 1]) + (if last.subtype == CreditCard then Amount(last) else 0.0)
  }

  /** `PlaidAPI.account_name`: the first account's name; an empty account list
      raises `IndexError`. */
  function AccountName(accounts: seq<Account>): (r: Result<string>)
    ensures r.Ok? <==> accounts != []
    ensures r.Ok? ==> r.value == accounts[0].name
    ensures r.Err? ==> r.error == NoAccounts
  {
    if accounts == [] then Err(NoAccounts) else Ok(accounts[0].name)
  }

  // ---------------------------------------------------------------------------
  // Income and expenditure

  /** The sum of all amounts, in order. */
  function Total(txs: seq<Transaction>): real
  {
    if txs == [] then 0.0 else Total(txs[..|txs| - 1]) + txs[|txs| - 1].amount
  }

  /** `PlaidAPI.income`: the sum of the strictly positive amounts. */
  function Income(txs: seq<Transaction>): (r: real)
    ensures r >= 0.0
  {
    if txs == [] then 0.0
    else
      var a := txs[|txs| - 1].amount;
      Income(txs[..|txs| - 1]) + (if a > 0.0 then a else 0.0)
  }

  /** `PlaidAPI.expenditure`: the sum of the strictly negative amounts. */
  function Expenditure(txs: seq<Transaction>): (r: real)
    ensures r <= 0.0
  {
    if txs == [] then 0.0
    else
      var a := txs[|txs| - 1].amount;
      Expenditure(txs[..|txs| - 1]) + (if a < 0.0 then a else 0.0)
  }

  /** Income and expenditure split the transactions' total between them. */
  lemma {:induction false} IncomePlusExpenditureIsTotal(txs: seq<Transaction>)
    ensures Income(txs) + Expenditure(txs) == Total(txs)
  {
    if txs != [] {
      IncomePlusExpenditureIsTotal(txs[..|txs| - 1]);
    }
  }

  lemma {:induction false} TotalAppend(txs: seq<Transaction>, t: Transaction)
    ensures Total(txs + [t]) == Total(txs) + t.amount
  {
    assert (txs + [t])[..|txs|] == txs;
  }

  // ---------------------------------------------------------------------------
  // Running-balance history

  /** `historical_data` as a value: start from `(today, balance)`; each
      transaction lowers the running value by its amount and adds an entry
      unless its date equals the last entry's date. */
  function History(start: Entry, txs: seq<Transaction>): (r: seq<Entry>)
    ensures |r| >= 1 && r[0] == start
    ensures |r| <= 1 + |txs|
  {
    if txs == [] then [start]
    else
      var h := History(start, txs[..|txs| - 1]);
      var t := txs[|txs| - 1];
      if h[|h| - 1].date == t.date then h
      else h + [Entry(t.date, start.value - Total(txs))]
  }

  /** The date the next transaction is compared against: the previous
      transaction's date, or `today` before the first. */
  function PreviousDate(start: Entry, txs: seq<Transaction>, k: nat): Date
    requires k <= |txs|
  {
    if k == 0 then start.date else txs[k - 1].date
  }

  /** The last entry always carries the date of the last transaction seen
      (whether or not that transaction added it). */
  lemma {:induction false} LastHistoryDate(start: Entry, txs: seq<Transaction>)
    ensures var h := History(start, txs);
            h[|h| - 1].date == PreviousDate(start, txs, |txs|)
  {
    if txs != [] {
      LastHistoryDate(start, txs[..|txs| - 1]);
    }
  }

  /** A transaction adds an entry exactly when its date differs from the
      previous transaction's (or, for the first, from today), and the entry
      it adds holds the balance minus every amount up to and including it. */
  lemma {:induction false} HistoryStep(start: Entry, txs: seq<Transaction>, t: Transaction)
    ensures var h := History(start, txs);
            var h' := History(start, txs + [t]);
            && (t.date == PreviousDate(start, txs, |txs|) ==> h' == h)
            && (t.date != PreviousDate(start, txs, |txs|) ==>
                  h' == h + [Entry(t.date, start.value - Total(txs + [t]))])
  {
    var all := txs + [t];
    assert all[..|all| - 1] == txs;
    assert all[|all| - 1] == t;
    LastHistoryDate(start, txs);
  }

  /** Adjacent entries never share a date. */
  lemma {:induction false} HistoryDatesChange(start: Entry, txs: seq<Transaction>)
    ensures var h := History(start, txs);
            forall i :: 0 <= i < |h| - 1 ==> h[i].date != h[i + 1].date
  {
    if txs != [] {
      var init := txs[..|txs| - 1];
      HistoryDatesChange(start, init);
      LastHistoryDate(start, init);
    }
  }

  /** `e` is the entry transaction `k` adds: its date, and the balance minus
      the amounts of every transaction up to and including it. */
  predicate AddedBy(start: Entry, txs: seq<Transaction>, k: nat, e: Entry)
  {
    k < |txs| && e == Entry(txs[k].date, start.value - Total(txs[..k + 1]))
  }

  /** Every entry after the first was added by some transaction `k`. */
  lemma {:induction false} HistoryEntrySource(start: Entry, txs: seq<Transaction>, i: nat) returns (k: nat)
    requires 1 <= i < |History(start, txs)|
    ensures AddedBy(start, txs, k, History(start, txs)[i])
  {
    var init := txs[..|txs| - 1];
    var h0 := History(start, init);
    assert txs[..|txs|] == txs;
    if i < |h0| {
      k := HistoryEntrySource(start, init, i);
      assert init[..k + 1] == txs[..k + 1];
    } else {
      k := |txs| - 1;
    }
  }

  /** The middleware's `historical_data`: the history from today's balance of
      the accounts response back through the transactions. */
  method HistoricalData(accounts: seq<Account>, today: Date, txs: seq<Transaction>) returns (list: seq<Entry>)
    ensures list == History(Entry(today, SignedBalance(accounts)), txs)
    ensures list[0] == Entry(today, SignedBalance(accounts))
  {
    var balance := SignedBalance(accounts);
    list := WalkTransactions(balance, today, txs);
  }

  /** The loop of `historical_data`, shared by both wrappers: start from
      `(today, balance)` and walk the transactions, appending an entry
      whenever the date changes. */
  method WalkTransactions(balance: real, today: Date, txs: seq<Transaction>) returns (list: seq<Entry>)
    ensures list == History(Entry(today, balance), txs)
  {
    var start := Entry(today, balance);
    var value := balance;
    list := [start];
    for k := 0 to |txs|
      invariant list == History(start, txs[..k])
      invariant value == balance - Total(txs[..k])
    {
      var t := txs[k];
      assert txs[..k + 1] == txs[..k] + [t];
      HistoryStep(start, txs[..k], t);
      TotalAppend(txs[..k], t);
      LastHistoryDate(start, txs[..k]);
      value := value - t.amount;
      if list[|list| - 1].date != t.date {
        list := list + [Entry(t.date, value)];
      }
    }
    assert txs[..|txs|] == txs;
  }
}
