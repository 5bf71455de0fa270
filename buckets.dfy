/** Investment buckets (`InvestmentBucket`, `InvestmentStockConfiguration`,
    `InvestmentBucketDescription`): positions with validity windows, their
    point-in-time valuation, liquidation, atomic re-composition and the
    free-text attributes of a bucket. */
module Buckets {
  import opened Common
  import opened Stocks

  /** One `InvestmentStockConfiguration` row: `quantity` of `stock` held from
      `start`, until `end` when it is set. */
  datatype Config = Config(stock: Stock, quantity: real, start: Date, end: Option<Date>)

  /** One entry of the composition asked for by `change_config`. */
  datatype ConfigRequest = ConfigRequest(id: StockId, quantity: real)

  /** One `InvestmentBucketDescription` row of a bucket. */
  datatype Description = Description(text: string, isGood: bool)

  /** The cash a bucket is created with when none is given. */
  const DefaultEndowment: real := 1000.0

  // ---------------------------------------------------------------------------
  // Which positions a query selects

  predicate IsOpen(c: Config)
  {
    c.end.None?
  }

  /** The filter `end__gte=date, start__lte=date` as the database evaluates it:
      a NULL `end` fails the comparison, so an open row is never active on a
      given day. This is the one place to change for the other reading. */
  predicate ActiveOn(c: Config, d: Date)
  {
    c.end.Some? && d <= c.end.value && c.start <= d
  }

  /** The reading the bucket tests take: an open row is active from its start on. */
  predicate ActiveOnAsTested(c: Config, d: Date)
  {
    c.start <= d && (c.end.None? || d <= c.end.value)
  }

  /** The rows `get_stock_configs(date)` selects: the open ones when no date
      is given, otherwise those active on that day. */
  predicate Selected(c: Config, date: Option<Date>)
  {
    match date
    case None => IsOpen(c)
    case Some(d) => ActiveOn(c, d)
  }

  /** `InvestmentBucket.get_stock_configs`, in row order. */
  function GetStockConfigs(configs: seq<Config>, date: Option<Date>): (r: seq<Config>)
    ensures |r| <= |configs|
  {
    Filter(configs, c => Selected(c, date))
  }

  /** The query returns rows of the bucket, only selected ones, and all of them. */
  lemma {:induction false} GetStockConfigsSpec(configs: seq<Config>, date: Option<Date>)
    ensures var r := GetStockConfigs(configs, date);
            && |r| <= |configs|
            && (forall i :: 0 <= i < |r| ==> r[i] in configs && Selected(r[i], date))
            && (forall i :: 0 <= i < |configs| && Selected(configs[i], date) ==> configs[i] in r)
            && multiset(r) <= multiset(configs)
  {
    FilterSpec(configs, c => Selected(c, date));
  }

  /** The bucket test's three rows (days 6 and 8 standing for 2016-06-06 and
      2016-06-08): as written the day queries select one row each, while the
      test expects two and three; the open-row query selects two either way. */
  lemma {:induction false} StockConfigsOnTestRows()
    ensures var s1 := Stock(1, "Name1X", "TKRC", []);
            var s2 := Stock(2, "Name2X", "TKRCF", []);
            var rows := [Config(s1, 1.0, 6, Some(8)), Config(s1, 1.0, 8, None), Config(s2, 1.0, 6, None)];
            && |GetStockConfigs(rows, None)| == 2
            && |GetStockConfigs(rows, Some(6))| == 1
            && |GetStockConfigs(rows, Some(8))| == 1
            && |Filter(rows, c => ActiveOnAsTested(c, 6))| == 2
            && |Filter(rows, c => ActiveOnAsTested(c, 8))| == 3
  {
    var s1 := Stock(1, "Name1X", "TKRC", []);
    var s2 := Stock(2, "Name2X", "TKRCF", []);
    var rows := [Config(s1, 1.0, 6, Some(8)), Config(s1, 1.0, 8, None), Config(s2, 1.0, 6, None)];
    assert rows[1..][1..] == [rows[2]];
  }

  // ---------------------------------------------------------------------------
  // Valuation

  /** `InvestmentStockConfiguration.value_on`: the row's quantity at the price
      of the stock's latest quote on or before `date`; price lookup errors
      propagate. */
  function ConfigValue(c: Config, date: Option<Date>, now: Date): (r: Result<real>)
    ensures r.Ok? <==> LatestQuote(c.stock.quotes, date, now).Ok?
    ensures r.Err? ==> r.error == LatestQuote(c.stock.quotes, date, now).error
  {
    match LatestQuote(c.stock.quotes, date, now)
    case Err(e) => Err(e)
    case Ok(q) => Ok(q.value * c.quantity)
  }

  /** A row of a valid stock with a non-negative quantity is worth at least 0. */
  lemma {:induction false} ConfigValueNonNegative(c: Config, date: Option<Date>, now: Date)
    requires ValidStock(c.stock) && c.quantity >= 0.0
    requires ConfigValue(c, date, now).Ok?
    ensures ConfigValue(c, date, now).value >= 0.0
  {
    LatestQuoteSpec(c.stock.quotes, date, now);
  }

  /** The sum of the rows' values, evaluated left to right as the list
      comprehension does: the first failing row's error wins. */
  function SumValues(cs: seq<Config>, date: Option<Date>, now: Date): (r: Result<real>)
    ensures r.Ok? <==> forall i :: 0 <= i < |cs| ==> ConfigValue(cs[i], date, now).Ok?
  {
    if cs == [] then Ok(0.0)
    else
      var init := cs[..|cs| - 1];
      assert forall i :: 0 <= i < |init| ==> init[i] == cs[i];
      match SumValues(init, date, now)
      case Err(e) => Err(e)
      case Ok(t) =>
        match ConfigValue(cs[|cs| - 1], date, now)
        case Err(e) => Err(e)
        case Ok(v) => Ok(t + v)
  }

  /** Positions in valid stocks with non-negative quantities sum to at least 0. */
  lemma {:induction false} SumValuesNonNegative(cs: seq<Config>, date: Option<Date>, now: Date)
    requires forall i :: 0 <= i < |cs| ==> ValidStock(cs[i].stock) && cs[i].quantity >= 0.0
    requires SumValues(cs, date, now).Ok?
    ensures SumValues(cs, date, now).value >= 0.0
  {
    if cs != [] {
      var init := cs[..|cs| - 1];
      assert forall i :: 0 <= i < |init| ==> init[i] == cs[i];
      SumValuesNonNegative(init, date, now);
      ConfigValueNonNegative(cs[|cs| - 1], date, now);
    }
  }

  /** Once a prefix fails, the whole sum fails with the same error. */
  lemma {:induction false} SumValuesErrorSticks(cs: seq<Config>, k: nat, date: Option<Date>, now: Date)
    requires k <= |cs|
    requires SumValues(cs[..k], date, now).Err?
    ensures SumValues(cs, date, now) == SumValues(cs[..k], date, now)
    decreases |cs| - k
  {
    if k < |cs| {
      assert cs[..k + 1][..k] == cs[..k];
      SumValuesErrorSticks(cs, k + 1, date, now);
    } else {
      assert cs[..k] == cs;
    }
  }

  lemma {:induction false} SumValuesAppend(a: seq<Config>, b: seq<Config>, date: Option<Date>, now: Date)
    requires SumValues(a, date, now).Ok? && SumValues(b, date, now).Ok?
    ensures SumValues(a + b, date, now) == Ok(SumValues(a, date, now).value + SumValues(b, date, now).value)
    decreases |b|
  {
    if b == [] {
      assert a + b == a;
    } else {
      var b' := b[..|b| - 1];
      assert (a + b)[..|a + b| - 1] == a + b';
      assert forall i :: 0 <= i < |b'| ==> b'[i] == b[i];
      SumValuesAppend(a, b', date, now);
    }
  }

  /** `InvestmentBucket.value_on`: the value of the rows selected for `date`;
      the bucket's cash is not part of it. */
  function BucketValueOn(configs: seq<Config>, date: Option<Date>, now: Date): (r: Result<real>)
    ensures GetStockConfigs(configs, date) == [] ==> r == Ok(0.0)
    ensures r.Ok? <==> forall i :: 0 <= i < |GetStockConfigs(configs, date)| ==>
                         ConfigValue(GetStockConfigs(configs, date)[i], date, now).Ok?
  {
    SumValues(GetStockConfigs(configs, date), date, now)
  }

  /** Asking for a day after `now` fails as soon as any row is selected. */
  lemma {:induction false} FutureValueOnFails(configs: seq<Config>, d: Date, now: Date)
    requires d > now && GetStockConfigs(configs, Some(d)) != []
    ensures BucketValueOn(configs, Some(d), now) == Err(FutureDate)
  {
    var selected := GetStockConfigs(configs, Some(d));
    assert selected[..1][..0] == [];
    assert SumValues(selected[..1], Some(d), now) == Err(FutureDate);
    SumValuesErrorSticks(selected, 1, Some(d), now);
  }

  /** The value of the open rows, each at its latest quote. */
  function OpenValue(configs: seq<Config>, now: Date): Result<real>
  {
    SumValues(GetStockConfigs(configs, None), None, now)
  }

  /** `InvestmentBucket.current_value`: the open rows plus the cash. */
  function CurrentValue(available: real, configs: seq<Config>, now: Date): (r: Result<real>)
    ensures r.Ok? <==> OpenValue(configs, now).Ok?
  {
    match OpenValue(configs, now)
    case Err(e) => Err(e)
    case Ok(v) => Ok(v + available)
  }

  /** The two valuations differ by exactly the cash: `value_on` without a date
      leaves `available` out, `current_value` adds it. */
  lemma {:induction false} CurrentValueExceedsValueOnByCash(available: real, configs: seq<Config>, now: Date)
    requires CurrentValue(available, configs, now).Ok?
    ensures BucketValueOn(configs, None, now).Ok?
    ensures CurrentValue(available, configs, now).value == BucketValueOn(configs, None, now).value + available
  {
  }

  // ---------------------------------------------------------------------------
  // Liquidation

  function Close(c: Config, now: Date): Config
  {
    if IsOpen(c) then c.(end := Some(now)) else c
  }

  /** The bulk `update(end=now)` on the open rows. */
  function CloseOpen(configs: seq<Config>, now: Date): (r: seq<Config>)
    ensures |r| == |configs|
    ensures forall i :: 0 <= i < |r| ==>
              r[i].stock == configs[i].stock && r[i].quantity == configs[i].quantity
              && r[i].start == configs[i].start
              && r[i].end == (if configs[i].end.None? then Some(now) else configs[i].end)
  {
    seq(|configs|, i requires 0 <= i < |configs| => Close(configs[i], now))
  }

  /** After the bulk update no row is open. */
  lemma {:induction false} NoOpenRowAfterClosing(configs: seq<Config>, now: Date)
    ensures GetStockConfigs(CloseOpen(configs, now), None) == []
  {
    var closed := CloseOpen(configs, now);
    NoneSelected(closed, None);
  }

  lemma {:induction false} NoneSelected(cs: seq<Config>, date: Option<Date>)
    requires forall i :: 0 <= i < |cs| ==> !Selected(cs[i], date)
    ensures GetStockConfigs(cs, date) == []
  {
    if cs != [] {
      NoneSelected(cs[1..], date);
    }
  }

  /** Liquidation at one instant is value-neutral: the open rows' value moves
      into the cash and the bucket's current value is unchanged. */
  lemma {:induction false} SellingAllKeepsCurrentValue(available: real, configs: seq<Config>, now: Date)
    requires OpenValue(configs, now).Ok?
    ensures CurrentValue(available + OpenValue(configs, now).value, CloseOpen(configs, now), now)
            == CurrentValue(available, configs, now)
  {
    var closed := CloseOpen(configs, now);
    NoOpenRowAfterClosing(configs, now);
    assert OpenValue(closed, now) == SumValues([], None, now) == Ok(0.0);
  }

  // ---------------------------------------------------------------------------
  // Re-composition

  /** `Stock.objects.get(id=...)`: the stock with that primary key. */
  function FindById(market: seq<Stock>, id: StockId): (r: Option<Stock>)
    ensures r.Some? ==> r.value in market && r.value.id == id
    ensures r.None? <==> forall s :: s in market ==> s.id != id
  {
    if market == [] then None
    else if market[0].id == id then Some(market[0])
    else
      assert market == [market[0]] + market[1..];
      FindById(market[1..], id)
  }

  /** `InvestmentStockConfiguration.quantity`: the MinValue(0.0) validator. */
  function ConfigCheck(quantity: real): (r: Outcome)
    ensures r.Pass? <==> quantity >= 0.0
    ensures r.Fail? ==> r.error == BelowMinimum("The quantity can not be negative.")
  {
    if quantity < 0.0 then Fail(BelowMinimum("The quantity can not be negative.")) else Pass
  }

  /** What the loop of `change_config` does with the requested entries: either
      every entry became a new open row (and `cost` was debited in all), or the
      loop raised `error` after debiting `debited`. */
  datatype Plan = Planned(cost: real, rows: seq<Config>) | Aborted(error: Error, debited: real)

  /** One iteration of the loop of `change_config`: look the stock up, take
      its latest quote, debit quote times quantity, then create the row (whose
      save validates the quantity). */
  function PlanStep(p: Plan, req: ConfigRequest, market: seq<Stock>, now: Date): Plan
  {
    match p
    case Aborted(_, _) => p
    case Planned(cost, rows) =>
      match FindById(market, req.id)
      case None => Aborted(UnknownStock, cost)
      case Some(stock) =>
        match LatestQuote(stock.quotes, None, now)
        case Err(e) => Aborted(e, cost)
        case Ok(q) =>
          var debit := cost + q.value * req.quantity;
          match ConfigCheck(req.quantity)
          case Fail(e) => Aborted(e, debit)
          case Pass => Planned(debit, rows + [Config(stock, req.quantity, now, None)])
  }

  /** The whole loop of `change_config` over the requested entries, in order. */
  function PlanConfig(cfg: seq<ConfigRequest>, market: seq<Stock>, now: Date): (r: Plan)
    ensures r.Planned? ==> |r.rows| == |cfg|
  {
    if cfg == [] then Planned(0.0, [])
    else PlanStep(PlanConfig(cfg[..|cfg| - 1], market, now), cfg[|cfg| - 1], market, now)
  }

  lemma {:induction false} PlanAbortSticks(cfg: seq<ConfigRequest>, k: nat, market: seq<Stock>, now: Date)
    requires k <= |cfg|
    requires PlanConfig(cfg[..k], market, now).Aborted?
    ensures PlanConfig(cfg, market, now) == PlanConfig(cfg[..k], market, now)
    decreases |cfg| - k
  {
    if k < |cfg| {
      assert cfg[..k + 1][..k] == cfg[..k];
      PlanAbortSticks(cfg, k + 1, market, now);
    } else {
      assert cfg[..k] == cfg;
    }
  }

  /** A step that completes opens one row for the requested stock and
      quantity, starting now, and debits that row's current value. */
  lemma {:induction false} PlanStepPlanned(p: Plan, req: ConfigRequest, market: seq<Stock>, now: Date)
    requires PlanStep(p, req, market, now).Planned?
    ensures p.Planned? && FindById(market, req.id).Some? && req.quantity >= 0.0
    ensures var row := Config(FindById(market, req.id).value, req.quantity, now, None);
            var p' := PlanStep(p, req, market, now);
            && ConfigValue(row, None, now).Ok?
            && p'.rows == p.rows + [row]
            && p'.cost == p.cost + ConfigValue(row, None, now).value
  {
  }

  /** A completed plan opens exactly one row per requested entry, in order,
      starting now, for the requested stock and quantity; and what it debits
      is the new rows' current value. */
  lemma {:induction false} PlannedRows(cfg: seq<ConfigRequest>, market: seq<Stock>, now: Date)
    requires PlanConfig(cfg, market, now).Planned?
    ensures var p := PlanConfig(cfg, market, now);
            && |p.rows| == |cfg|
            && (forall i :: 0 <= i < |cfg| ==>
                  && p.rows[i].stock in market && p.rows[i].stock.id == cfg[i].id
                  && p.rows[i].quantity == cfg[i].quantity && cfg[i].quantity >= 0.0
                  && p.rows[i].start == now && p.rows[i].end == None)
            && SumValues(p.rows, None, now).Ok?
            && SumValues(p.rows, None, now).value == p.cost
  {
    if cfg != [] {
      var init := cfg[..|cfg| - 1];
      var p0 := PlanConfig(init, market, now);
      PlanStepPlanned(p0, cfg[|cfg| - 1], market, now);
      PlannedRows(init, market, now);
      var p := PlanConfig(cfg, market, now);
      assert p.rows[..|p.rows| - 1] == p0.rows;
      assert forall i :: 0 <= i < |init| ==> init[i] == cfg[i];
    }
  }

  /** The open rows after a successful re-composition are exactly the new ones. */
  lemma {:induction false} OpenRowsAfterRecomposition(configs: seq<Config>, rows: seq<Config>, now: Date)
    requires forall i :: 0 <= i < |rows| ==> rows[i].end == None
    ensures GetStockConfigs(CloseOpen(configs, now) + rows, None) == rows
  {
    var closed := CloseOpen(configs, now);
    FilterAppend(closed, rows, c => Selected(c, None));
    NoOpenRowAfterClosing(configs, now);
    AllOpenKept(rows);
  }

  lemma {:induction false} AllOpenKept(rows: seq<Config>)
    requires forall i :: 0 <= i < |rows| ==> rows[i].end == None
    ensures Filter(rows, c => Selected(c, None)) == rows
  {
    if rows != [] {
      assert Selected(rows[0], None);
      AllOpenKept(rows[1..]);
    }
  }

  /** Re-composition at one instant is value-neutral: closing the open rows,
      crediting their value, then opening rows whose value is debited leaves
      the bucket's current value unchanged. With `PlannedRows`, this covers
      every completed `change_config` plan. */
  lemma {:induction false} RecompositionKeepsCurrentValue(available: real, configs: seq<Config>,
                                       rows: seq<Config>, cost: real, now: Date)
    requires OpenValue(configs, now).Ok?
    requires forall i :: 0 <= i < |rows| ==> rows[i].end == None
    requires SumValues(rows, None, now).Ok? && SumValues(rows, None, now).value == cost
    ensures CurrentValue(available + OpenValue(configs, now).value - cost,
                         CloseOpen(configs, now) + rows, now)
            == CurrentValue(available, configs, now)
  {
    OpenRowsAfterRecomposition(configs, rows, now);
  }

  // ---------------------------------------------------------------------------
  // Field validation of buckets and descriptions

  /** `InvestmentBucket` fields: name (1..255 characters), available (>= 0). */
  function BucketCheck(name: string, available: real): (r: Outcome)
    ensures r.Pass? <==> 1 <= |name| <= 255 && available >= 0.0
  {
    if NameCheck("name", name, 255).Fail? then NameCheck("name", name, 255)
    else if available < 0.0 then Fail(BelowMinimum("The available money can not be negative."))
    else Pass
  }

  predicate TextTaken(descriptions: seq<Description>, text: string, except: int)
  {
    exists j :: 0 <= j < |descriptions| && j != except && descriptions[j].text == text
  }

  /** `InvestmentBucketDescription.text`: 3..255 characters, unique within the
      bucket (`except` is the row being edited, which does not clash with itself). */
  function DescriptionCheck(descriptions: seq<Description>, text: string, except: int): (r: Outcome)
    ensures r.Pass? <==> 3 <= |text| <= 255 && !TextTaken(descriptions, text, except)
    ensures |text| == 1 || |text| == 2 ==>
              r == Fail(BelowMinimum("The description should at least be 3 characters long."))
  {
    if |text| == 0 then Fail(Blank("text"))
    else if |text| < 3 then Fail(BelowMinimum("The description should at least be 3 characters long."))
    else if |text| > 255 then Fail(TooLong("text", 255))
    else if TextTaken(descriptions, text, except) then Fail(NotUnique(["text", "bucket"]))
    else Pass
  }

  predicate DescriptionsValid(descriptions: seq<Description>)
  {
    forall i :: 0 <= i < |descriptions| ==> DescriptionCheck(descriptions, descriptions[i].text, i).Pass?
  }

  // ---------------------------------------------------------------------------
  // The bucket object

  class InvestmentBucket {
    const id: BucketId
    const name: string
    const owner: ProfileId
    const public: bool
    /** The Python object's `available` attribute. */
    var available: real
    /** The `available` column as last saved. */
    var storedAvailable: real
    /** The bucket's `InvestmentStockConfiguration` rows. */
    var configs: seq<Config>
    /** The bucket's `InvestmentBucketDescription` rows. */
    var descriptions: seq<Description>

    /** What every save has enforced on the stored rows. */
    ghost predicate Valid()
      reads this
    {
      && BucketCheck(name, storedAvailable).Pass?
      && (forall i :: 0 <= i < |configs| ==> configs[i].quantity >= 0.0)
      && DescriptionsValid(descriptions)
    }

    constructor (id: BucketId, name: string, owner: ProfileId, public: bool, available: real)
      requires BucketCheck(name, available).Pass?
      ensures Valid()
      ensures this.id == id && this.name == name && this.owner == owner && this.public == public
      ensures this.available == available && storedAvailable == available
      ensures configs == [] && descriptions == []
    {
      this.id, this.name, this.owner, this.public := id, name, owner, public;
      this.available, storedAvailable := available, available;
      configs, descriptions := [], [];
    }

    /** `InvestmentBucket.add_attribute`: creates a description row; its save
        validates the text. */
    method AddAttribute(text: string, isGood: bool) returns (r: Outcome)
      requires Valid()
      modifies this`descriptions
      ensures Valid()
      ensures r.Pass? <==> 3 <= |text| <= 255 && !TextTaken(old(descriptions), text, -1)
      ensures descriptions == if r.Pass? then old(descriptions) + [Description(text, isGood)]
                              else old(descriptions)
    {
      r := DescriptionCheck(descriptions, text, -1);
      if r.Pass? {
        var before := descriptions;
        descriptions := descriptions + [Description(text, isGood)];
        forall i | 0 <= i < |descriptions|
          ensures DescriptionCheck(descriptions, descriptions[i].text, i).Pass?
        {
          if i < |before| {
            assert DescriptionCheck(before, before[i].text, i).Pass?;
            assert descriptions[i] == before[i];
            assert !TextTaken(descriptions, before[i].text, i);
          } else {
            assert !TextTaken(descriptions, text, i);
          }
        }
      }
    }

    /** `InvestmentBucketDescription.change_description` on row `k`: the new
        text is kept only if the row's save accepts it. */
    method ChangeDescription(k: nat, text: string) returns (r: Outcome)
      requires Valid()
      requires k < |descriptions|
      modifies this`descriptions
      ensures Valid()
      ensures r.Pass? <==> 3 <= |text| <= 255 && !TextTaken(old(descriptions), text, k)
      ensures descriptions == if r.Pass? then old(descriptions)[k := old(descriptions)[k].(text := text)]
                              else old(descriptions)
    {
      r := DescriptionCheck(descriptions, text, k);
      if r.Pass? {
        var before := descriptions;
        descriptions := descriptions[k := descriptions[k].(text := text)];
        forall i | 0 <= i < |descriptions|
          ensures DescriptionCheck(descriptions, descriptions[i].text, i).Pass?
        {
          if i != k {
            assert DescriptionCheck(before, before[i].text, i).Pass?;
            assert !TextTaken(descriptions, before[i].text, i);
          } else {
            assert !TextTaken(descriptions, text, k);
          }
        }
      }
    }

    /** `InvestmentBucket._sell_all`: adds the open rows' current value to the
        in-memory cash and closes those rows as of `now`. It does not save, so
        the stored cash is untouched. A failing price lookup aborts the
        transaction before anything changes. */
    method SellAll(now: Date) returns (r: Outcome)
      requires Valid()
      modifies this`available, this`configs
      ensures Valid()
      ensures OpenValue(old(configs), now).Err? ==>
                r == Fail(OpenValue(old(configs), now).error)
                && available == old(available) && configs == old(configs)
      ensures OpenValue(old(configs), now).Ok? ==>
                r == Pass
                && available == old(available) + OpenValue(old(configs), now).value
                && configs == CloseOpen(old(configs), now)
    {
      var current := GetStockConfigs(configs, None);
      var balanceChange := 0.0;
      for k := 0 to |current|
        invariant SumValues(current[..k], None, now) == Ok(balanceChange)
      {
        var v := ConfigValue(current[k], None, now);
        assert current[..k + 1][..k] == current[..k];
        if v.Err? {
          SumValuesErrorSticks(current, k + 1, None, now);
          return Fail(v.error);
        }
        balanceChange := balanceChange + v.value;
      }
      assert current[..|current|] == current;
      available := available + balanceChange;
      configs := CloseOpen(configs, now);
      r := Pass;
    }

    /** `InvestmentBucket.change_config`, inside one transaction: sell every
        open row, then for each requested entry debit its latest quote times
        its quantity and open a row starting now; refuse the result if the
        cash went negative, otherwise save. When it raises, the rows and the
        stored cash roll back, but the in-memory `available` keeps whatever
        was added and debited before the raise. */
    method ChangeConfig(cfg: seq<ConfigRequest>, market: seq<Stock>, now: Date) returns (r: Outcome)
      requires Valid()
      modifies this`available, this`storedAvailable, this`configs
      ensures Valid()
      ensures r.Fail? ==> configs == old(configs) && storedAvailable == old(storedAvailable)
      ensures OpenValue(old(configs), now).Err? ==>
                r == Fail(OpenValue(old(configs), now).error) && available == old(available)
      ensures OpenValue(old(configs), now).Ok? ==>
                var sold := old(available) + OpenValue(old(configs), now).value;
                match PlanConfig(cfg, market, now)
                case Aborted(e, debited) => r == Fail(e) && available == sold - debited
                case Planned(cost, rows) =>
                  && available == sold - cost
                  && (r.Pass? <==> available >= 0.0)
                  && (r.Fail? ==> r.error == NotEnoughMoney)
                  && (r.Pass? ==> configs == CloseOpen(old(configs), now) + rows
                                  && storedAvailable == available)
    {
      var snapshot := configs;
      r := SellAll(now);
      if r.Fail? {
        return;
      }
      r := Repurchase(cfg, market, now);
      if r.Fail? {
        configs := snapshot;
        return;
      }
      if available < 0.0 {
        configs := snapshot;
        return Fail(NotEnoughMoney);
      }
      storedAvailable := available;
    }

    /** The loop of `change_config` after the sale: one debit and one new open
        row per requested entry, stopping at the first entry that raises. */
    method Repurchase(cfg: seq<ConfigRequest>, market: seq<Stock>, now: Date) returns (r: Outcome)
      requires forall j :: 0 <= j < |configs| ==> configs[j].quantity >= 0.0
      modifies this`available, this`configs
      ensures forall j :: 0 <= j < |configs| ==> configs[j].quantity >= 0.0
      ensures match PlanConfig(cfg, market, now)
              case Aborted(e, debited) => r == Fail(e) && available == old(available) - debited
              case Planned(cost, rows) =>
                r == Pass && available == old(available) - cost && configs == old(configs) + rows
    {
      ghost var debited := 0.0;
      ghost var rows: seq<Config> := [];
      var i := 0;
      while i < |cfg|
        invariant 0 <= i <= |cfg|
        invariant PlanConfig(cfg[..i], market, now) == Planned(debited, rows)
        invariant available == old(available) - debited
        invariant configs == old(configs) + rows
        invariant forall j :: 0 <= j < |configs| ==> configs[j].quantity >= 0.0
      {
        var req := cfg[i];
        assert cfg[..i + 1][..i] == cfg[..i];
        assert PlanConfig(cfg[..i + 1], market, now) == PlanStep(Planned(debited, rows), req, market, now);
        var stock := FindById(market, req.id);
        if stock.None? {
          assert PlanConfig(cfg[..i + 1], market, now) == Aborted(UnknownStock, debited);
          PlanAbortSticks(cfg, i + 1, market, now);
          return Fail(UnknownStock);
        }
        var quote := LatestQuote(stock.value.quotes, None, now);
        if quote.Err? {
          assert PlanConfig(cfg[..i + 1], market, now) == Aborted(quote.error, debited);
          PlanAbortSticks(cfg, i + 1, market, now);
          return Fail(quote.error);
        }
        available := available - quote.value.value * req.quantity;
        debited := debited + quote.value.value * req.quantity;
        var check := ConfigCheck(req.quantity);
        if check.Fail? {
          assert PlanConfig(cfg[..i + 1], market, now) == Aborted(check.error, debited);
          PlanAbortSticks(cfg, i + 1, market, now);
          return check;
        }
        var row := Config(stock.value, req.quantity, now, None);
        assert PlanConfig(cfg[..i + 1], market, now) == Planned(debited, rows + [row]);
        configs := configs + [row];
        rows := rows + [row];
        i := i + 1;
      }
      assert cfg[..|cfg|] == cfg;
      r := Pass;
    }
  }

  /** `InvestmentBucket.create_new_bucket`: a new bucket with the given cash,
      if its fields pass their checks and no bucket of the same owner already
      has the name. */
  method CreateNewBucket(existing: seq<InvestmentBucket>, id: BucketId, name: string, public: bool,
                         owner: ProfileId, available: real := DefaultEndowment)
    returns (r: Result<InvestmentBucket>)
    ensures r.Ok? <==> BucketCheck(name, available).Pass? && !NameTaken(existing, name, owner)
    ensures r.Ok? ==> fresh(r.value) && r.value.Valid()
                      && r.value.id == id && r.value.name == name && r.value.owner == owner
                      && r.value.public == public && r.value.available == available
                      && r.value.storedAvailable == available
                      && r.value.configs == [] && r.value.descriptions == []
    ensures r.Err? && BucketCheck(name, available).Fail? ==> r.error == BucketCheck(name, available).error
    ensures r.Err? && BucketCheck(name, available).Pass? ==> r.error == NotUnique(["name", "owner"])
  {
    var check := BucketCheck(name, available);
    if check.Fail? {
      return Err(check.error);
    }
    if NameTaken(existing, name, owner) {
      return Err(NotUnique(["name", "owner"]));
    }
    var b := new InvestmentBucket(id, name, owner, public, available);
    r := Ok(b);
  }

  predicate NameTaken(existing: seq<InvestmentBucket>, name: string, owner: ProfileId)
  {
    exists b :: b in existing && b.name == name && b.owner == owner
  }

  /** A profile may view the buckets it owns and every public bucket. */
  predicate Accessible(b: InvestmentBucket, profile: ProfileId)
  {
    b.owner == profile || b.public
  }

  /** `InvestmentBucket.accessible_buckets`: the buckets a profile owns, and
      every public bucket, in table order. */
  function AccessibleBuckets(all: seq<InvestmentBucket>, profile: ProfileId): (r: seq<InvestmentBucket>)
    ensures forall i :: 0 <= i < |r| ==> r[i] in all && Accessible(r[i], profile)
    ensures forall i :: 0 <= i < |all| && Accessible(all[i], profile) ==> all[i] in r
    ensures multiset(r) <= multiset(all)
  {
    FilterSpec(all, b => Accessible(b, profile));
    Filter(all, b => Accessible(b, profile))
  }

  /** The query keeps the table's order: the buckets of a table split in two
      are those of the first part followed by those of the second, so a
      bucket added to the table comes last. */
  lemma {:induction false} AccessibleBucketsFollowTable(front: seq<InvestmentBucket>, back: seq<InvestmentBucket>,
                                                        profile: ProfileId)
    ensures AccessibleBuckets(front + back, profile) == AccessibleBuckets(front, profile) + AccessibleBuckets(back, profile)
    ensures AccessibleBuckets([], profile) == []
  {
    FilterAppend(front, back, b => Accessible(b, profile));
  }
}
