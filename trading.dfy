/** The trade ledger (`TradingAccount`, `TradeStock`, `TradeBucket`): signed
    trades valued at the price on their timestamp, the account's cash as the
    sum of those values, and the account table with its uniqueness rule. */
module Trading {
  import opened Common
  import opened Stocks
  import opened Buckets

  /** One `TradeStock` row: a positive quantity buys, a negative one sells. */
  datatype StockTrade = StockTrade(stock: Stock, quantity: real, timestamp: Date)

  /** One `TradeBucket` row, referring to its bucket by key. */
  datatype BucketTrade = BucketTrade(bucket: BucketId, quantity: real, timestamp: Date)

  /** The rows of every bucket a trade may refer to, by bucket key. */
  type Book = map<BucketId, seq<Config>>

  // ---------------------------------------------------------------------------
  // Valuation of single trades

  /** `TradeStock.current_value`: the quote on the trade's day times the
      negated quantity. */
  function StockTradeValue(t: StockTrade, now: Date): (r: Result<real>)
    ensures r.Ok? <==> LatestQuote(t.stock.quotes, Some(t.timestamp), now).Ok?
  {
    match LatestQuote(t.stock.quotes, Some(t.timestamp), now)
    case Err(e) => Err(e)
    case Ok(q) => Ok(q.value * (-1.0 * t.quantity))
  }

  /** Buying a valid stock never adds cash, and selling never takes cash away. */
  lemma {:induction false} TradeValueSign(t: StockTrade, now: Date)
    requires ValidStock(t.stock) && StockTradeValue(t, now).Ok?
    ensures t.quantity >= 0.0 ==> StockTradeValue(t, now).value <= 0.0
    ensures t.quantity <= 0.0 ==> StockTradeValue(t, now).value >= 0.0
  {
    LatestQuoteSpec(t.stock.quotes, Some(t.timestamp), now);
    var q := LatestQuote(t.stock.quotes, Some(t.timestamp), now).value;
    assert q.value >= 0.0;
  }

  /** `TradeBucket.current_value`: the bucket's `value_on` the trade's day
      times the negated quantity. */
  function BucketTradeValue(book: Book, t: BucketTrade, now: Date): (r: Result<real>)
    requires t.bucket in book
    ensures r.Ok? <==> BucketValueOn(book[t.bucket], Some(t.timestamp), now).Ok?
  {
    match BucketValueOn(book[t.bucket], Some(t.timestamp), now)
    case Err(e) => Err(e)
    case Ok(v) => Ok(v * (-1.0 * t.quantity))
  }

  // ---------------------------------------------------------------------------
  // The account's cash

  predicate Known(book: Book, trades: seq<BucketTrade>)
  {
    forall i :: 0 <= i < |trades| ==> trades[i].bucket in book
  }

  /** The sum over the stock trades, left to right (the first failure wins). */
  function SumStockTrades(trades: seq<StockTrade>, now: Date): (r: Result<real>)
    ensures r.Ok? <==> forall i :: 0 <= i < |trades| ==> StockTradeValue(trades[i], now).Ok?
  {
    if trades == [] then Ok(0.0)
    else
      var init := trades[..|trades| - 1];
      assert forall i :: 0 <= i < |init| ==> init[i] == trades[i];
      match SumStockTrades(init, now)
      case Err(e) => Err(e)
      case Ok(s) =>
        match StockTradeValue(trades[|trades| - 1], now)
        case Err(e) => Err(e)
        case Ok(v) => Ok(s + v)
  }

  /** The sum over the bucket trades, left to right (the first failure wins). */
  function SumBucketTrades(book: Book, trades: seq<BucketTrade>, now: Date): (r: Result<real>)
    requires Known(book, trades)
    ensures r.Ok? <==> forall i :: 0 <= i < |trades| ==> BucketTradeValue(book, trades[i], now).Ok?
  {
    if trades == [] then Ok(0.0)
    else
      var init := trades[..|trades| - 1];
      assert forall i :: 0 <= i < |init| ==> init[i] == trades[i];
      match SumBucketTrades(book, init, now)
      case Err(e) => Err(e)
      case Ok(s) =>
        match BucketTradeValue(book, trades[|trades| - 1], now)
        case Err(e) => Err(e)
        case Ok(v) => Ok(s + v)
  }

  /** `TradingAccount.available_cash`: the stock trades' values plus the
      bucket trades' values; the stock trades are valued first. */
  function AvailableCash(trades: seq<StockTrade>, book: Book, bucketTrades: seq<BucketTrade>,
                         now: Date): (r: Result<real>)
    requires Known(book, bucketTrades)
    ensures trades == [] && bucketTrades == [] ==> r == Ok(0.0)
    ensures r.Ok? <==> SumStockTrades(trades, now).Ok? && SumBucketTrades(book, bucketTrades, now).Ok?
  {
    match SumStockTrades(trades, now)
    case Err(e) => Err(e)
    case Ok(s) =>
      match SumBucketTrades(book, bucketTrades, now)
      case Err(e) => Err(e)
      case Ok(b) => Ok(s + b)
  }

  /** A new bucket trade moves the account's cash by exactly that trade's value. */
  lemma {:induction false} CashAfterBucketTrade(trades: seq<StockTrade>, book: Book, bucketTrades: seq<BucketTrade>,
                             t: BucketTrade, now: Date)
    requires Known(book, bucketTrades) && t.bucket in book
    requires AvailableCash(trades, book, bucketTrades, now).Ok? && BucketTradeValue(book, t, now).Ok?
    ensures Known(book, bucketTrades + [t])
    ensures AvailableCash(trades, book, bucketTrades + [t], now)
            == Ok(AvailableCash(trades, book, bucketTrades, now).value + BucketTradeValue(book, t, now).value)
  {
    var all := bucketTrades + [t];
    assert all[..|all| - 1] == bucketTrades;
  }

  /** A new stock trade moves the account's cash by exactly that trade's value. */
  lemma {:induction false} CashAfterStockTrade(trades: seq<StockTrade>, book: Book, bucketTrades: seq<BucketTrade>,
                            t: StockTrade, now: Date)
    requires Known(book, bucketTrades)
    requires AvailableCash(trades, book, bucketTrades, now).Ok? && StockTradeValue(t, now).Ok?
    ensures AvailableCash(trades + [t], book, bucketTrades, now)
            == Ok(AvailableCash(trades, book, bucketTrades, now).value + StockTradeValue(t, now).value)
  {
    var all := trades + [t];
    assert all[..|all| - 1] == trades;
  }

  // ---------------------------------------------------------------------------
  // Holdings, as the trading tests read them (the source defines none of these)

  /** The signed sum of the quantities traded in one stock. */
  function HeldStock(trades: seq<StockTrade>, id: StockId): real
  {
    if trades == [] then 0.0
    else HeldStock(trades[..|trades| - 1], id)
         + (if trades[|trades| - 1].stock.id == id then trades[|trades| - 1].quantity else 0.0)
  }

  /** The signed sum of the quantities traded in one bucket. */
  function HeldBucket(trades: seq<BucketTrade>, id: BucketId): real
  {
    if trades == [] then 0.0
    else HeldBucket(trades[..|trades| - 1], id)
         + (if trades[|trades| - 1].bucket == id then trades[|trades| - 1].quantity else 0.0)
  }

  /** A trade changes the holding of its own bucket by its quantity and leaves
      every other bucket's holding alone. */
  lemma {:induction false} HeldBucketAfterTrade(trades: seq<BucketTrade>, t: BucketTrade, id: BucketId)
    ensures HeldBucket(trades + [t], id)
            == HeldBucket(trades, id) + (if t.bucket == id then t.quantity else 0.0)
  {
    var all := trades + [t];
    assert all[..|all| - 1] == trades;
  }

  lemma {:induction false} HeldStockAfterTrade(trades: seq<StockTrade>, t: StockTrade, id: StockId)
    ensures HeldStock(trades + [t], id)
            == HeldStock(trades, id) + (if t.stock.id == id then t.quantity else 0.0)
  {
    var all := trades + [t];
    assert all[..|all| - 1] == trades;
  }

  /** The holding is the sum over that bucket's trades only: trades in other
      buckets may be dropped without changing it. */
  lemma {:induction false} HeldBucketIgnoresOthers(trades: seq<BucketTrade>, id: BucketId)
    ensures HeldBucket(trades, id) == HeldBucket(Filter(trades, (t: BucketTrade) => t.bucket == id), id)
  {
    if trades != [] {
      var init := trades[..|trades| - 1];
      var last := trades[|trades| - 1];
      assert trades == init + [last];
      HeldBucketIgnoresOthers(init, id);
      FilterAppend(init, [last], (t: BucketTrade) => t.bucket == id);
      var kept := Filter(init, (t: BucketTrade) => t.bucket == id);
      if last.bucket == id {
        assert Filter([last], (t: BucketTrade) => t.bucket == id) == [last];
        HeldBucketAfterTrade(kept, last, id);
      } else {
        assert Filter([last], (t: BucketTrade) => t.bucket == id) == [];
        assert kept + [] == kept;
      }
    }
  }

  /** `has_enough_stock` / `has_enough_bucket` as the tests use them. */
  predicate HasEnough(held: real, quantity: real)
  {
    held >= quantity
  }

  /** The check the tests expect a trade to pass: a sell may not exceed the
      holding and a buy may not cost more than the available cash. */
  predicate TradeAllowedAsTested(held: real, cash: real, price: real, quantity: real)
  {
    if quantity < 0.0 then HasEnough(held, -quantity) else price * quantity <= cash
  }

  // ---------------------------------------------------------------------------
  // Accounts

  class TradingAccount {
    const profile: ProfileId
    const name: string
    /** The account's `trades` rows. */
    var trades: seq<StockTrade>
    /** The account's `buckettrades` rows. */
    var bucketTrades: seq<BucketTrade>

    constructor (profile: ProfileId, name: string)
      ensures this.profile == profile && this.name == name
      ensures trades == [] && bucketTrades == []
    {
      this.profile, this.name := profile, name;
      trades, bucketTrades := [], [];
    }

    /** `TradingAccount.trade_bucket`: records one bucket trade stamped now,
        with no check of cash or holdings. */
    method TradeBucket(bucket: BucketId, quantity: real, now: Date)
      modifies this`bucketTrades
      ensures bucketTrades == old(bucketTrades) + [BucketTrade(bucket, quantity, now)]
      ensures HeldBucket(bucketTrades, bucket) == HeldBucket(old(bucketTrades), bucket) + quantity
      ensures forall id :: id != bucket ==> HeldBucket(bucketTrades, id) == HeldBucket(old(bucketTrades), id)
    {
      var t := BucketTrade(bucket, quantity, now);
      HeldBucketAfterTrade(bucketTrades, t, bucket);
      forall id | id != bucket
        ensures HeldBucket(bucketTrades + [t], id) == HeldBucket(bucketTrades, id)
      {
        HeldBucketAfterTrade(bucketTrades, t, id);
      }
      bucketTrades := bucketTrades + [t];
    }
  }

  /** The trade the tests make first in `test_trading_acc_trade_bucket`: a
      sell of 2 from an empty holding. The check the tests expect refuses it,
      yet `trade_bucket` records it and the holding goes negative. */
  lemma {:induction false} UncheckedSellGoesNegative(b: BucketId, now: Date, cash: real, price: real)
    ensures !TradeAllowedAsTested(HeldBucket([], b), cash, price, -2.0)
    ensures HeldBucket([BucketTrade(b, -2.0, now)], b) == -2.0
  {
    HeldBucketAfterTrade([], BucketTrade(b, -2.0, now), b);
  }

  predicate AccountTaken(accounts: seq<TradingAccount>, profile: ProfileId, name: string)
  {
    exists i :: 0 <= i < |accounts| && accounts[i].profile == profile && accounts[i].name == name
  }

  /** `TradingAccount`'s field checks: a name of 1..30 characters, unique
      per profile. */
  function AccountCheck(accounts: seq<TradingAccount>, profile: ProfileId, name: string): (r: Outcome)
    ensures r.Pass? <==> 1 <= |name| <= 30 && !AccountTaken(accounts, profile, name)
    ensures AccountTaken(accounts, profile, name) && 1 <= |name| <= 30 ==>
              r == Fail(NotUnique(["profile", "account_name"]))
  {
    if NameCheck("account_name", name, 30).Fail? then NameCheck("account_name", name, 30)
    else if AccountTaken(accounts, profile, name) then Fail(NotUnique(["profile", "account_name"]))
    else Pass
  }

  /** The `TradingAccount` table. */
  class AccountTable {
    var accounts: seq<TradingAccount>

    /** `unique_together = ('profile', 'account_name')`. */
    ghost predicate Valid()
      reads this
    {
      forall i, j :: 0 <= i < j < |accounts| ==>
        accounts[i].profile != accounts[j].profile || accounts[i].name != accounts[j].name
    }

    constructor ()
      ensures Valid() && accounts == []
    {
      accounts := [];
    }

    /** `trading_accounts.create(account_name=...)` for a profile: the new row
        is added only if it passes the checks. */
    method Create(profile: ProfileId, name: string) returns (r: Result<TradingAccount>)
      requires Valid()
      modifies this
      ensures Valid()
      ensures r.Ok? <==> AccountCheck(old(accounts), profile, name).Pass?
      ensures r.Err? ==> r.error == AccountCheck(old(accounts), profile, name).error
                         && accounts == old(accounts)
      ensures r.Ok? ==> fresh(r.value) && accounts == old(accounts) + [r.value]
                        && r.value.profile == profile && r.value.name == name
                        && r.value.trades == [] && r.value.bucketTrades == []
    {
      var check := AccountCheck(accounts, profile, name);
      if check.Fail? {
        return Err(check.error);
      }
      var acc := new TradingAccount(profile, name);
      accounts := accounts + [acc];
      r := Ok(acc);
    }
  }
}
