/** Stocks and their daily price history (the `Stock` and `DailyStockQuote`
    models): the point-in-time price lookup, the range query, the name search,
    stock creation and the field validators that every save runs. */
module Stocks {
  import opened Common

  datatype Quote = Quote(date: Date, value: real)

  /** A stock row together with the quotes that reference it (`daily_quote`). */
  datatype Stock = Stock(id: StockId, name: string, ticker: string, quotes: seq<Quote>)

  // ---------------------------------------------------------------------------
  // Price lookup

  /** A quote that `latest_quote(date)` may return: any quote when no date is
      given, otherwise one dated on or before `date`. */
  predicate Eligible(q: Quote, date: Option<Date>)
  {
    date.None? || q.date <= date.value
  }

  /** The eligible quote with the greatest date (the first row of the query
      filtered on the date and ordered by `-date`); an earlier position wins a
      tie. */
  function NewestEligible(qs: seq<Quote>, date: Option<Date>): Option<Quote>
  {
    if qs == [] then None
    else
      var rest := NewestEligible(qs[1..], date);
      if !Eligible(qs[0], date) then rest
      else match rest
        case None => Some(qs[0])
        case Some(n) => if qs[0].date >= n.date then Some(qs[0]) else Some(n)
  }

  lemma {:induction false} NewestEligibleSpec(qs: seq<Quote>, date: Option<Date>)
    ensures NewestEligible(qs, date).None? <==> forall q :: q in qs ==> !Eligible(q, date)
    ensures NewestEligible(qs, date).Some? ==>
              var n := NewestEligible(qs, date).value;
              n in qs && Eligible(n, date) && forall q :: q in qs && Eligible(q, date) ==> q.date <= n.date
  {
    if qs != [] {
      assert qs == [qs[0]] + qs[1..];
      NewestEligibleSpec(qs[1..], date);
    }
  }

  /** `Stock.latest_quote`: a date later than `now` is refused; otherwise the
      newest quote among the eligible ones, or "No quote found". */
  function LatestQuote(qs: seq<Quote>, date: Option<Date>, now: Date): (r: Result<Quote>)
    ensures date.Some? && date.value > now ==> r == Err(FutureDate)
    ensures r.Err? ==> r.error == FutureDate || r.error == NoQuote
  {
    if date.Some? && date.value > now then Err(FutureDate)
    else
      match NewestEligible(qs, date)
      case None => Err(NoQuote)
      case Some(q) => Ok(q)
  }

  /** What the lookup returns: it fails exactly when no quote is eligible, and
      otherwise returns an eligible quote of maximal date. */
  lemma {:induction false} LatestQuoteSpec(qs: seq<Quote>, date: Option<Date>, now: Date)
    ensures var r := LatestQuote(qs, date, now);
            && ((date.None? || date.value <= now) ==>
                  (r.Err? <==> forall q :: q in qs ==> !Eligible(q, date)))
            && (r.Ok? ==> r.value in qs && Eligible(r.value, date))
            && (r.Ok? ==> forall q :: q in qs && Eligible(q, date) ==> q.date <= r.value.date)
  {
    NewestEligibleSpec(qs, date);
  }

  /** With unique dates (the `unique_together = ('stock', 'date')` constraint)
      the lookup is determined: any eligible quote with the maximal date is it. */
  lemma {:induction false} LatestQuoteIsDetermined(qs: seq<Quote>, date: Option<Date>, now: Date, q: Quote)
    requires UniqueDates(qs)
    requires date.None? || date.value <= now
    requires q in qs && Eligible(q, date)
    requires forall p :: p in qs && Eligible(p, date) ==> p.date <= q.date
    ensures LatestQuote(qs, date, now) == Ok(q)
  {
    LatestQuoteSpec(qs, date, now);
    var r := LatestQuote(qs, date, now);
    assert r.Ok?;
    var i, j :| 0 <= i < |qs| && 0 <= j < |qs| && qs[i] == q && qs[j] == r.value;
  }

  predicate UniqueDates(qs: seq<Quote>)
  {
    forall i, j :: 0 <= i < j < |qs| ==> qs[i].date != qs[j].date
  }

  // ---------------------------------------------------------------------------
  // Range query

  predicate InRange(q: Quote, start: Option<Date>, end: Option<Date>)
  {
    (start.None? || start.value <= q.date) && (end.None? || q.date <= end.value)
  }

  /** Ordered by `-date`, as the query's `order_by('-date')` asks. */
  predicate NewestFirst(s: seq<Quote>)
  {
    forall i, j :: 0 <= i < j < |s| ==> s[i].date >= s[j].date
  }

  /** The order the range test expects (ascending by date). */
  predicate OldestFirst(s: seq<Quote>)
  {
    forall i, j :: 0 <= i < j < |s| ==> s[i].date <= s[j].date
  }

  lemma {:induction false} ConsNewestFirst(x: Quote, s: seq<Quote>)
    requires NewestFirst(s)
    requires s != [] ==> s[0].date <= x.date
    ensures NewestFirst([x] + s)
  {
    var r := [x] + s;
    forall i, j | 0 <= i < j < |r| ensures r[i].date >= r[j].date {
      assert r[j] == s[j - 1];
      if i > 0 { assert r[i] == s[i - 1]; } else { assert s[0].date >= s[j - 1].date; }
    }
  }

  /** One step of an insertion sort on dates, newest first. */
  function Insert(q: Quote, s: seq<Quote>): (r: seq<Quote>)
    requires NewestFirst(s)
    ensures NewestFirst(r)
    ensures multiset(r) == multiset(s) + multiset{q}
    ensures |r| == |s| + 1
    ensures r[0] == q || (s != [] && r[0] == s[0])
  {
    if s == [] then [q]
    else if q.date >= s[0].date then
      ConsNewestFirst(q, s);
      assert multiset([q] + s) == multiset{q} + multiset(s);
      [q] + s
    else
      assert s == [s[0]] + s[1..];
      var rest := Insert(q, s[1..]);
      ConsNewestFirst(s[0], rest);
      assert multiset([s[0]] + rest) == multiset{s[0]} + multiset(rest);
      assert multiset(s) == multiset{s[0]} + multiset(s[1..]);
      [s[0]] + rest
  }

  function SortNewestFirst(qs: seq<Quote>): (r: seq<Quote>)
    ensures NewestFirst(r)
    ensures multiset(r) == multiset(qs)
  {
    if qs == [] then []
    else
      assert qs == [qs[0]] + qs[1..];
      Insert(qs[0], SortNewestFirst(qs[1..]))
  }

  /** `Stock.quote_in_range`: the quotes within the optional inclusive bounds,
      ordered newest first. */
  function QuoteInRange(qs: seq<Quote>, start: Option<Date>, end: Option<Date>): (r: seq<Quote>)
    ensures forall q :: q in r <==> q in qs && InRange(q, start, end)
    ensures multiset(r) == multiset(Filter(qs, q => InRange(q, start, end)))
    ensures NewestFirst(r)
    ensures start.Some? && end.Some? && start.value > end.value ==> r == []
  {
    FilterSpec(qs, q => InRange(q, start, end));
    var r := SortNewestFirst(Filter(qs, q => InRange(q, start, end)));
    assert forall q :: q in r <==> q in multiset(r);
    r
  }

  /** A sequence in both orders has one date throughout, so on any range with
      two distinct dates the query's order is not the one its test expects. */
  lemma {:induction false} BothOrdersMeansOneDate(s: seq<Quote>, i: nat, j: nat)
    requires NewestFirst(s) && OldestFirst(s)
    requires i < |s| && j < |s|
    ensures s[i].date == s[j].date
  {
    if i < j {
      assert s[i].date >= s[j].date && s[i].date <= s[j].date;
    } else if j < i {
      assert s[j].date >= s[i].date && s[j].date <= s[i].date;
    }
  }

  // ---------------------------------------------------------------------------
  // Name search

  function LowerAscii(c: char): char
  {
    if 'A' <= c <= 'Z' then (c as int + 32) as char else c
  }

  function Folded(s: string): (r: string)
    ensures |r| == |s|
  {
    seq(|s|, i requires 0 <= i < |s| => LowerAscii(s[i]))
  }

  /** `needle` occurs in `hay` as a contiguous run. */
  predicate ContainsText(hay: string, needle: string)
    decreases |hay|
  {
    |needle| <= |hay| && (hay[..|needle|] == needle || (|hay| > 0 && ContainsText(hay[1..], needle)))
  }

  /** The `name__icontains=text` filter (ASCII case folding). */
  predicate NameMatches(s: Stock, text: string)
  {
    ContainsText(Folded(s.name), Folded(text))
  }

  /** `Stock.find_stock`: the stocks whose name contains `text`, cut to the
      first `first` of them when `first` is given and non-zero. */
  function FindStock(stocks: seq<Stock>, text: string, first: Option<int>): (r: Result<seq<Stock>>)
    ensures first.Some? && first.value < 0 ==> r == Err(NegativeSlice)
    ensures r.Ok? ==> forall s :: s in r.value ==> s in stocks && NameMatches(s, text)
    ensures (first.None? || first.value == 0) ==>
              r.Ok? && forall s :: s in r.value <==> s in stocks && NameMatches(s, text)
    ensures first.Some? && first.value > 0 ==>
              r.Ok? && |r.value| == Min(first.value, |Filter(stocks, s => NameMatches(s, text))|)
              && r.value <= Filter(stocks, s => NameMatches(s, text))
  {
    FilterSpec(stocks, s => NameMatches(s, text));
    var matching := Filter(stocks, s => NameMatches(s, text));
    if first.None? || first.value == 0 then Ok(matching)
    else if first.value < 0 then Err(NegativeSlice)
    else Ok(matching[..Min(first.value, |matching|)])
  }

  function Min(a: int, b: int): int
  {
    if a <= b then a else b
  }

  lemma {:induction false} EveryNameContainsEmptyText(stocks: seq<Stock>)
    ensures Filter(stocks, s => NameMatches(s, "")) == stocks
  {
    if stocks != [] {
      assert Folded("") == "";
      assert NameMatches(stocks[0], "");
      EveryNameContainsEmptyText(stocks[1..]);
    }
  }

  /** An empty search text finds every stock, in table order. */
  lemma {:induction false} FindEmptyTextFindsAll(stocks: seq<Stock>)
    ensures FindStock(stocks, "", None) == Ok(stocks)
  {
    EveryNameContainsEmptyText(stocks);
  }

  // ---------------------------------------------------------------------------
  // Field validation (`pre_save_any` runs `full_clean` and raises its first
  // message). A blank CharField fails Django's own blank check before any
  // validator runs, so the models' MinLength(1) messages are never the first.

  function NameCheck(field: string, s: string, limit: nat): (r: Outcome)
    ensures r.Pass? <==> 1 <= |s| <= limit
  {
    if |s| == 0 then Fail(Blank(field))
    else if |s| > limit then Fail(TooLong(field, limit))
    else Pass
  }

  /** `DailyStockQuote.value`: the MinValue(0.0) validator. */
  function QuoteCheck(q: Quote): (r: Outcome)
    ensures r.Pass? <==> q.value >= 0.0
    ensures r.Fail? ==> r.error == BelowMinimum("Daily stock quote can not be negative")
  {
    if q.value < 0.0 then Fail(BelowMinimum("Daily stock quote can not be negative")) else Pass
  }

  /** A quote may be saved for a stock when its value passes its validator and
      no other quote of the stock has its date. */
  function QuoteSaveCheck(existing: seq<Quote>, q: Quote): (r: Outcome)
    ensures r.Pass? <==> q.value >= 0.0 && forall p :: p in existing ==> p.date != q.date
  {
    if QuoteCheck(q).Fail? then QuoteCheck(q)
    else if exists p :: p in existing && p.date == q.date then Fail(NotUnique(["stock", "date"]))
    else Pass
  }

  predicate TickerTaken(existing: seq<Stock>, ticker: string)
  {
    exists s :: s in existing && s.ticker == ticker
  }

  /** `Stock` fields: name (1..255 characters), ticker (1..10 characters,
      unique). `validate_ticker`, as a field validator, returns a boolean and
      never raises, so it rejects nothing here. */
  function StockCheck(existing: seq<Stock>, name: string, ticker: string): (r: Outcome)
    ensures r.Pass? <==> 1 <= |name| <= 255 && 1 <= |ticker| <= 10 && !TickerTaken(existing, ticker)
  {
    if NameCheck("name", name, 255).Fail? then NameCheck("name", name, 255)
    else if NameCheck("ticker", ticker, 10).Fail? then NameCheck("ticker", ticker, 10)
    else if TickerTaken(existing, ticker) then Fail(NotUnique(["ticker"]))
    else Pass
  }

  /** `Stock.create_new_stock`: the ticker must pass the market-data check
      (`validTicker`, the external price source), then the row must pass its
      field checks. The new stock has no quotes yet. */
  function CreateNewStock(existing: seq<Stock>, id: StockId, ticker: string, name: string,
                          validTicker: string -> bool): (r: Result<Stock>)
    ensures !validTicker(ticker) ==> r == Err(InvalidTicker)
    ensures r.Ok? <==> validTicker(ticker) && StockCheck(existing, name, ticker).Pass?
    ensures r.Ok? ==> r.value == Stock(id, name, ticker, []) && !TickerTaken(existing, ticker)
    ensures r.Err? && validTicker(ticker) ==> r.error == StockCheck(existing, name, ticker).error
  {
    if !validTicker(ticker) then Err(InvalidTicker)
    else match StockCheck(existing, name, ticker)
      case Fail(e) => Err(e)
      case Pass => Ok(Stock(id, name, ticker, []))
  }

  /** A stock as the database holds it: valid fields and quotes, one quote per day. */
  predicate ValidStock(s: Stock)
  {
    && 1 <= |s.name| <= 255 && 1 <= |s.ticker| <= 10
    && (forall q :: q in s.quotes ==> q.value >= 0.0)
    && UniqueDates(s.quotes)
  }
}
