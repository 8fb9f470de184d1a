/** The `FuturesOrders` order manager of bybit_order.py: instrument filters,
    flooring a quantity to the instrument's precision, market orders by base
    or quote amount, leverage synchronisation and the position query. The
    exchange client is replaced by its responses, given as inputs, and by a
    log of the calls that change the account. */
module BybitOrder {
  import opened Wrappers
  import opened Precision
  import opened DecimalText
  import opened Exchange

  // ---------------------------------------------------------------------
  // Instrument filters (get_filters)

  /** The quantity precision and the minimum order quantity of an instrument. */
  datatype Filters = Filters(qtyDecimals: nat, minQty: real)

  function Abs(x: int): nat
  {
    if x < 0 then -x else x
  }

  /** `rl.get('lotSizeFilter', {}).get('minOrderQty', '0.0')` on the first
      instrument: its `minOrderQty` text, or "0.0" when the field is
      missing. */
  function MinOrderQtyText(info: InstrumentsInfo): (text: string)
    requires info.list != []
    ensures info.list[0].minOrderQty.Some? ==> text == info.list[0].minOrderQty.value
    ensures info.list[0].minOrderQty.None? ==> text == "0.0"
  {
    info.list[0].minOrderQty.GetOr("0.0")
  }

  /** `get_filters`: qty_decimals is |exponent| of Decimal(minOrderQty) and
      min_qty its value. Whatever Parse accepts is well-formed,
      so only an unparsable text raises InvalidOperation. */
  function GetFilters(info: InstrumentsInfo): (r: Outcome<Filters>)
    ensures info.list == [] ==> r == Raised(InstrumentNotFound)
    ensures info.list != [] && Parse(MinOrderQtyText(info)).None? ==>
      r == Raised(InvalidDecimal(MinOrderQtyText(info)))
    ensures r.Value? ==> OnGrid(r.value.minQty, r.value.qtyDecimals)
  {
    if info.list == [] then Raised(InstrumentNotFound)
    else
      var text := MinOrderQtyText(info);
      match Parse(text)
      case Some(lit) => if WellFormed(lit) then Value(FiltersOf(lit)) else Raised(InvalidDecimal(text))
      case None => Raised(InvalidDecimal(text))
  }

  /** The filters a minimum order quantity literal gives: its minimum lies on
      the grid of its own precision. */
  function FiltersOf(lit: Literal): (f: Filters)
    requires WellFormed(lit)
    ensures OnGrid(f.minQty, f.qtyDecimals)
  {
    ScaleOnGrid(Coefficient(lit), Exponent(lit));
    Filters(Abs(Exponent(lit)), LiteralValue(lit))
  }

  /** The filters of an instrument whose minimum parses to `lit`; in
      particular get_filters succeeds whenever the text parses. */
  lemma GetFiltersOf(info: InstrumentsInfo, lit: Literal)
    requires info.list != [] && Parse(MinOrderQtyText(info)) == Some(lit)
    ensures WellFormed(lit)
    ensures GetFilters(info) == Value(Filters(Abs(Exponent(lit)), LiteralValue(lit)))
  {
  }

  /** For a plain "w.f" minimum, qty_decimals is the number of digits after
      the point, trailing zeros included, and min_qty is w + f / 10^|f|. */
  lemma GetFiltersPlain(info: InstrumentsInfo, whole: string, frac: string)
    requires info.list != [] && MinOrderQtyText(info) == whole + "." + frac
    requires AllDigits(whole) && AllDigits(frac) && |whole| + |frac| > 0
    ensures GetFilters(info) == Value(Filters(|frac|,
      DigitsValue(whole) as real + DigitsValue(frac) as real / Pow10(|frac|) as real))
  {
    GetFiltersPlainLiteral(info, whole, frac);
    FiltersOfPlain(whole, frac);
  }

  lemma GetFiltersPlainLiteral(info: InstrumentsInfo, whole: string, frac: string)
    requires info.list != [] && MinOrderQtyText(info) == whole + "." + frac
    requires AllDigits(whole) && AllDigits(frac) && |whole| + |frac| > 0
    ensures GetFilters(info) == Value(FiltersOf(Literal(Unsigned, whole, true, frac, None)))
  {
    PlainDecimalParse(whole, frac);
    GetFiltersOf(info, Literal(Unsigned, whole, true, frac, None));
  }

  lemma FiltersOfPlain(whole: string, frac: string)
    requires AllDigits(whole) && AllDigits(frac) && |whole| + |frac| > 0
    ensures FiltersOf(Literal(Unsigned, whole, true, frac, None)) == Filters(|frac|,
      DigitsValue(whole) as real + DigitsValue(frac) as real / Pow10(|frac|) as real)
  {
    PlainDecimalParse(whole, frac);
    PlainDecimalValue(whole, frac);
  }

  /** get_filters on a plain "w.f" minimum whose value is known to be q. */
  lemma GetFiltersPlainValue(info: InstrumentsInfo, whole: string, frac: string, q: real)
    requires info.list != [] && MinOrderQtyText(info) == whole + "." + frac
    requires AllDigits(whole) && AllDigits(frac) && |whole| + |frac| > 0
    requires DigitsValue(whole) as real + DigitsValue(frac) as real / Pow10(|frac|) as real == q
    ensures GetFilters(info) == Value(Filters(|frac|, q))
  {
    GetFiltersPlainLiteral(info, whole, frac);
    FiltersOfPlainValue(whole, frac, q);
  }

  lemma FiltersOfPlainValue(whole: string, frac: string, q: real)
    requires AllDigits(whole) && AllDigits(frac) && |whole| + |frac| > 0
    requires DigitsValue(whole) as real + DigitsValue(frac) as real / Pow10(|frac|) as real == q
    ensures FiltersOf(Literal(Unsigned, whole, true, frac, None)) == Filters(|frac|, q)
  {
    FiltersOfPlain(whole, frac);
  }

  /** "0.001" gives three decimals and 0.001. */
  lemma GetFiltersMilli(info: InstrumentsInfo)
    requires info.list != [] && info.list[0].minOrderQty == Some("0.001")
    ensures GetFilters(info) == Value(Filters(3, 0.001))
  {
    var whole, frac := PlainParts(MinOrderQtyText(info), "0", "001");
    DigitsOf(whole, "0", 0);
    DigitsOf(frac, "001", 1);
    GetFiltersPlainValue(info, whole, frac, 0.001);
  }

  /** "0.010" gives three decimals, not two: trailing zeros count. */
  lemma GetFiltersTrailingZero(info: InstrumentsInfo)
    requires info.list != [] && info.list[0].minOrderQty == Some("0.010")
    ensures GetFilters(info) == Value(Filters(3, 0.01))
  {
    var whole, frac := PlainParts(MinOrderQtyText(info), "0", "010");
    DigitsOf(whole, "0", 0);
    DigitsOf(frac, "010", 10);
    GetFiltersPlainValue(info, whole, frac, 0.01);
  }

  /** A missing minOrderQty reads as "0.0": one decimal and a minimum of 0. */
  lemma GetFiltersDefaults(info: InstrumentsInfo)
    requires info.list != [] && info.list[0].minOrderQty.None?
    ensures GetFilters(info) == Value(Filters(1, 0.0))
  {
    var whole, frac := PlainParts(MinOrderQtyText(info), "0", "0");
    DigitsOf(whole, "0", 0);
    DigitsOf(frac, "0", 0);
    GetFiltersPlainValue(info, whole, frac, 0.0);
  }

  // The worked examples below go through the general lemmas above with
  // their digit strings held in variables: stated on the literals directly,
  // the verifier would evaluate the whole parser on each literal.

  /** Splits a concrete "w.f" text at its point, as a pair of variables. */
  lemma PlainParts(s: string, w: string, f: string) returns (whole: string, frac: string)
    requires s == w + "." + f
    requires AllDigits(w) && AllDigits(f) && |w| + |f| > 0
    ensures whole == w && frac == f && s == whole + "." + frac
  {
    whole, frac := w, f;
  }

  /** The numerals of the digit strings used by the examples, and the power
      of ten their length gives. */
  lemma DigitsOf(s: string, t: string, n: nat)
    requires s == t
    requires || (t == "0" && n == 0) || (t == "1" && n == 1) || (t == "10" && n == 10)
             || (t == "001" && n == 1) || (t == "010" && n == 10)
    ensures AllDigits(s) && DigitsValue(s) == n
    ensures Pow10(|s|) == if |s| == 1 then 10 else if |s| == 2 then 100 else 1000
  {
    assert Pow10(1) == 10;
    assert Pow10(2) == 100;
    if |t| == 2 {
      assert s[..1] == "1" && s[..1][..0] == [];
      assert DigitsValue(s[..1]) == 1;
    } else if |t| == 3 {
      var p := s[..2];
      assert p[..1] == "0" && p[..1][..0] == [];
      assert DigitsValue(p[..1]) == 0;
      assert DigitsValue(p) == if t == "001" then 0 else 1;
      assert Pow10(3) == 1000;
    }
  }

  // ---------------------------------------------------------------------
  // Order requests (place_market_order_by_base)

  predicate IsUpper(c: char)
  {
    'A' <= c <= 'Z'
  }

  predicate IsLower(c: char)
  {
    'a' <= c <= 'z'
  }

  function ToUpper(c: char): char
  {
    if IsLower(c) then (c as int - 32) as char else c
  }

  function ToLower(c: char): char
  {
    if IsUpper(c) then (c as int + 32) as char else c
  }

  /** `str.lower` on ASCII text: no upper-case letter is left, every other
      character stays as it is, and each upper-case letter becomes its own
      lower-case form. */
  function Lower(s: string): (r: string)
    ensures |r| == |s|
    ensures forall i | 0 <= i < |r| :: !IsUpper(r[i])
    ensures forall i | 0 <= i < |s| && !IsUpper(s[i]) :: r[i] == s[i]
    ensures forall i | 0 <= i < |s| && IsUpper(s[i]) :: IsLower(r[i]) && ToUpper(r[i]) == s[i]
  {
    seq(|s|, i requires 0 <= i < |s| => ToLower(s[i]))
  }

  /** `str.capitalize` on ASCII text: the same letters, case aside, with a
      first character that is not lower case and no upper-case letter after
      it. */
  function Capitalize(s: string): (r: string)
    ensures |r| == |s|
    ensures forall i | 0 <= i < |s| :: ToLower(r[i]) == ToLower(s[i])
    ensures r != [] ==> !IsLower(r[0])
    ensures forall i | 1 <= i < |r| :: !IsUpper(r[i])
  {
    if s == [] then [] else [ToUpper(s[0])] + Lower(s[1..])
  }

  /** Capitalising ignores the case of its input and is idempotent, so
      "buy", "Buy" and "BUY" all become "Buy". */
  lemma CapitalizeNormalises(s: string)
    ensures Capitalize(Lower(s)) == Capitalize(s)
    ensures Capitalize(Capitalize(s)) == Capitalize(s)
    ensures |Capitalize(s)| == |s|
  {
    if s != [] {
      assert Lower(s)[1..] == Lower(s[1..]);
      var c := Capitalize(s);
      assert c[1..] == Lower(s[1..]);
      assert Lower(c[1..]) == c[1..];
    }
  }

  /** Any casing of "buy" ("buy", "Buy", "BUY", ...) becomes "Buy", and any
      casing of "sell" becomes "Sell". */
  lemma CapitalizeSides(s: string)
    ensures Lower(s) == "buy" ==> Capitalize(s) == "Buy"
    ensures Lower(s) == "sell" ==> Capitalize(s) == "Sell"
  {
    CapitalizeNormalises(s);
    var l := Lower(s);
    if l == "buy" {
      assert l[1..] == "uy" && Lower(l[1..]) == "uy";
    } else if l == "sell" {
      assert l[1..] == "ell" && Lower(l[1..]) == "ell";
    }
  }

  /** The fixed fields of every order the manager places: a market order,
      good till cancel, neither reduce-only nor close-on-trigger. */
  predicate IsMarketOrder(o: OrderRequest)
  {
    && o.orderType == "Market"
    && o.marketUnit == "quoteCoin"
    && o.timeInForce == "GoodTillCancel"
    && !o.reduceOnly
    && !o.closeOnTrigger
  }

  /** The request place_market_order_by_base sends for an (already floored)
      quantity. */
  function MarketOrder(category: string, symbol: string, side: string, qty: real,
                       orderLinkId: string): (o: OrderRequest)
    ensures IsMarketOrder(o)
    ensures o.side == Capitalize(side) && o.qty == qty
    ensures o.category == category && o.symbol == symbol && o.orderLinkId == orderLinkId
  {
    OrderRequest(category, symbol, Capitalize(side), "Market", qty, "quoteCoin",
                 "GoodTillCancel", false, false, orderLinkId)
  }

  // ---------------------------------------------------------------------
  // Quantity of an order by quote value (place_market_order_by_quote)

  /** The quantity place_market_order_by_quote submits for `quote` at
      `price`, or what it raises: floor(quote / price) at the instrument's
      precision, refused when below the minimum. */
  function QuoteQuantity(quote: real, price: real, filters: Filters): (r: Outcome<real>)
    ensures price == 0.0 ==> r == Raised(ZeroDivision)
    ensures price != 0.0 && r.Raised? ==>
      r.error == QtyTooSmall(FloorTo(quote / price, filters.qtyDecimals))
      && FloorTo(quote / price, filters.qtyDecimals) < filters.minQty
    ensures r.Value? ==>
      && OnGrid(r.value, filters.qtyDecimals)
      && filters.minQty <= r.value <= quote / price
      && quote / price - r.value < Unit(filters.qtyDecimals)
  {
    if price == 0.0 then Raised(ZeroDivision)
    else
      var qty := FloorTo(quote / price, filters.qtyDecimals);
      if qty < filters.minQty then Raised(QtyTooSmall(qty)) else Value(qty)
  }

  /** With a minimum that has the instrument's precision (as get_filters
      always yields), an order is refused exactly when quote / price itself
      is below the minimum; a quotient equal to the minimum is accepted
      unchanged. */
  lemma QuoteRefusedIffBelowMinimum(quote: real, price: real, filters: Filters)
    requires price != 0.0 && OnGrid(filters.minQty, filters.qtyDecimals)
    ensures QuoteQuantity(quote, price, filters).Raised? <==> quote / price < filters.minQty
    ensures quote / price == filters.minQty ==>
      QuoteQuantity(quote, price, filters) == Value(filters.minQty)
  {
    FloorToBelowGridPoint(quote / price, filters.qtyDecimals, filters.minQty);
    if quote / price == filters.minQty {
      FloorToFixesGrid(filters.minQty, filters.qtyDecimals);
    }
  }

  /** The worked cases: at price 10000 with a 0.001 minimum, 1000 buys 0.1
      and 0 is refused as too small. */
  lemma QuoteQuantityExamples()
    ensures QuoteQuantity(1000.0, 10000.0, Filters(3, 0.001)) == Value(0.1)
    ensures QuoteQuantity(0.0, 10000.0, Filters(3, 0.001)) == Raised(QtyTooSmall(0.0))
  {
    FloorToExamples();
    assert Pow10(3) == 1000;
    assert FloorTo(0.0, 3) == 0.0 by {
      assert (0.0 / Unit(3)).Floor == 0;
    }
  }

  // ---------------------------------------------------------------------
  // Leverage synchronisation (set_leverage)

  /** What set_leverage does with the positions it read. */
  datatype LeverageStep =
    | NoLeverage                      // reading list[0]['leverage'] failed: return None
    | AlreadySet                      // current == requested: return None
    | BadLeverage(text: string)       // float(current) raised ValueError
    | Update(request: LeverageRequest) // one set_leverage call

  function PlanLeverage(category: string, symbol: string, positions: PositionsInfo,
                        leverage: real): (step: LeverageStep)
    ensures step.NoLeverage? <==> positions.list == [] || positions.list[0].leverage.None?
    ensures step.AlreadySet? <==>
      positions.list != [] && positions.list[0].leverage.Some?
      && ParseNumber(positions.list[0].leverage.value) == Some(leverage)
    ensures step.BadLeverage? <==>
      positions.list != [] && positions.list[0].leverage.Some?
      && ParseNumber(positions.list[0].leverage.value).None?
    ensures step.Update? ==>
      && step.request.buyLeverage == step.request.sellLeverage == leverage
      && step.request.category == category && step.request.symbol == symbol
  {
    if positions.list == [] || positions.list[0].leverage.None? then NoLeverage
    else
      var current := positions.list[0].leverage.value;
      match ParseNumber(current)
      case None => BadLeverage(current)
      case Some(x) =>
        if x == leverage then AlreadySet
        else Update(LeverageRequest(category, symbol, leverage, leverage))
  }

  /** "10" reads as 10. */
  lemma ParseTen(s: string)
    requires s == "10"
    ensures ParseNumber(s) == Some(10.0)
  {
    DigitsOf(s, "10", 10);
    IntegerNumber(s);
  }

  /** The worked cases: with the exchange reporting leverage "10", asking
      for 10 makes no call and asking for 20 sends buy = sell = 20; with no
      position entry there is nothing to compare and no call. */
  lemma PlanLeverageExamples(category: string, symbol: string, positions: PositionsInfo)
    requires positions.list != [] && positions.list[0].leverage == Some("10")
    ensures PlanLeverage(category, symbol, positions, 10.0) == AlreadySet
    ensures PlanLeverage(category, symbol, positions, 20.0)
         == Update(LeverageRequest(category, symbol, 20.0, 20.0))
    ensures PlanLeverage(category, symbol, PositionsInfo([], None), 20.0) == NoLeverage
  {
    ParseTen(positions.list[0].leverage.value);
  }

  // ---------------------------------------------------------------------
  // Position query (get_position)

  /** The record get_position builds. `side` and `leverage` are copied as
      they are (None when missing). */
  datatype Position = Position(
    avgPrice: real,
    side: Option<string>,
    leverage: Option<string>,
    unrelPnl: real,
    qty: real,
    revSide: string)

  /** What get_position returns: None, a field of the record, or the whole
      record. */
  datatype PyValue = PyNone | Number(x: real) | Text(s: string) | Record(position: Position)

  /** `("Sell", "Buy")[side == 'Sell']`: always one of the two sides, and
      "Buy" exactly for a "Sell" position. */
  function ReverseSide(side: Option<string>): (r: string)
    ensures r == "Buy" || r == "Sell"
    ensures r == "Buy" <==> side == Some("Sell")
  {
    if side == Some("Sell") then "Buy" else "Sell"
  }

  /** The reverse of a side is the other side, and reversing twice gives
      the side back. */
  lemma ReverseSideSwaps(side: string)
    requires side == "Buy" || side == "Sell"
    ensures ReverseSide(Some(side)) != side
    ensures ReverseSide(Some(ReverseSide(Some(side)))) == side
  {
  }

  function OptionalText(v: Option<string>): PyValue
  {
    if v.Some? then Text(v.value) else PyNone
  }

  /** The keys of the record get_position builds. */
  const RecordKeys: set<string> := {"avg_price", "side", "leverage", "unrel_pnl", "qty", "rev_side"}

  /** The dict `ret` that get_position builds from the record: six keys,
      with None for a side or leverage the entry did not have. */
  function RecordDict(p: Position): map<string, PyValue>
  {
    map["avg_price" := Number(p.avgPrice), "side" := OptionalText(p.side),
        "leverage" := OptionalText(p.leverage), "unrel_pnl" := Number(p.unrelPnl),
        "qty" := Number(p.qty), "rev_side" := Text(p.revSide)]
  }

  /** `ret.get(key)` on the record: the dict's value for a key it holds and
      None for any other; None exactly for an unknown key or a side or
      leverage the entry did not have; never a whole record. */
  function Field(p: Position, key: string): (r: PyValue)
    ensures r == if key in RecordDict(p) then RecordDict(p)[key] else PyNone
    ensures !r.Record?
    ensures r.PyNone? <==>
      key !in RecordKeys || (key == "side" && p.side.None?) || (key == "leverage" && p.leverage.None?)
    ensures key == "qty" ==> r == Number(p.qty)
    ensures key == "rev_side" ==> r == Text(p.revSide)
  {
    if key == "avg_price" then Number(p.avgPrice)
    else if key == "side" then OptionalText(p.side)
    else if key == "leverage" then OptionalText(p.leverage)
    else if key == "unrel_pnl" then Number(p.unrelPnl)
    else if key == "qty" then Number(p.qty)
    else if key == "rev_side" then Text(p.revSide)
    else PyNone
  }

  /** `float(d.get(k, '0.0'))` on a field `v`: a missing field is 0 (the
      reading of the default "0.0", NumberFieldDefault); a present one is
      its value, or ValueError naming the text. */
  function NumberField(v: Option<string>): (r: Outcome<real>)
    ensures v.None? ==> r == Value(0.0)
    ensures v.Some? ==> (r.Raised? <==> ParseNumber(v.value).None?)
    ensures r.Raised? ==> v.Some? && r.error == InvalidNumber(v.value)
  {
    if v.None? then Value(0.0)
    else
      match ParseNumber(v.value)
      case Some(x) => Value(x)
      case None => Raised(InvalidNumber(v.value))
  }

  /** NumberField is `float` of the field with "0.0" in place of a missing
      one. */
  lemma NumberFieldDefault(v: Option<string>)
    ensures var text := v.GetOr("0.0");
      NumberField(v) == if ParseNumber(text).Some? then Value(ParseNumber(text).value)
                        else Raised(InvalidNumber(text))
  {
    if v.None? {
      ParseZero(v.GetOr("0.0"));
    }
  }

  /** The entry's `avgPrice` and `unrealisedPnl` both read as numbers. */
  predicate FieldsReadable(rl: PositionEntry)
  {
    NumberField(rl.avgPrice).Value? && NumberField(rl.unrealisedPnl).Value?
  }

  /** The ValueError of the first of the two that does not read. */
  function FieldsError(rl: PositionEntry): Error
    requires !FieldsReadable(rl)
  {
    if NumberField(rl.avgPrice).Raised? then NumberField(rl.avgPrice).error
    else NumberField(rl.unrealisedPnl).error
  }

  /** `if key`: no key, or the empty text, asks for the whole record. */
  predicate Keyless(key: Option<string>)
  {
    key.None? || key.value == ""
  }

  /** `v` is the record get_position builds from entry `rl` and quantity
      `qty`: the entry's numbers read, its side and leverage copied, and the
      reverse side. */
  predicate RecordOf(v: PyValue, rl: PositionEntry, qty: real)
  {
    && v.Record?
    && NumberField(rl.avgPrice) == Value(v.position.avgPrice)
    && NumberField(rl.unrealisedPnl) == Value(v.position.unrelPnl)
    && v.position.side == rl.side && v.position.leverage == rl.leverage
    && v.position.qty == qty && v.position.revSide == ReverseSide(rl.side)
  }

  /** The record for the first position entry and quantity `qty`, or the
      requested field of it: it raises the ValueError of an unreadable
      `avgPrice` or `unrealisedPnl`, and otherwise returns the whole record
      exactly when no key is asked for. */
  function PositionRecord(rl: PositionEntry, qty: real, key: Option<string>): (r: Outcome<PyValue>)
    ensures !FieldsReadable(rl) ==> r == Raised(FieldsError(rl))
    ensures FieldsReadable(rl) && Keyless(key) ==> r.Value? && RecordOf(r.value, rl, qty)
    ensures FieldsReadable(rl) && !Keyless(key) ==> r.Value? && !r.value.Record?
  {
    match NumberField(rl.avgPrice)
    case Raised(e) => Raised(e)
    case Value(avgPrice) =>
      match NumberField(rl.unrealisedPnl)
      case Raised(e) => Raised(e)
      case Value(pnl) =>
        var p := Position(avgPrice, rl.side, rl.leverage, pnl, qty, ReverseSide(rl.side));
        if Keyless(key) then Value(Record(p)) else Value(Field(p, key.value))
  }

  /** The position for the first entry of `res` and a quantity read as
      `quantity`: None at or below 0. */
  function PositionOf(res: PositionsInfo, quantity: Outcome<real>, key: Option<string>): (r: Outcome<PyValue>)
    requires res.list != []
    ensures quantity.Raised? ==> r == Raised(quantity.error)
    ensures quantity.Value? && quantity.value <= 0.0 ==> r == Value(PyNone)
    ensures quantity.Value? && quantity.value > 0.0 ==> r == PositionRecord(res.list[0], quantity.value, key)
  {
    match quantity
    case Raised(e) => Raised(e)
    case Value(qty) =>
      if qty <= 0.0 then Value(PyNone) else PositionRecord(res.list[0], qty, key)
  }

  /** `get_position` as written: the quantity is read from the `size` key of
      the response's top level (default "0.0"), not from the entry. None for
      an empty list or a quantity at or below 0; otherwise the record (or its
      field), or the ValueError of the first number that does not read. */
  function GetPosition(res: PositionsInfo, key: Option<string>): (r: Outcome<PyValue>)
    ensures res.list == [] ==> r == Value(PyNone)
    ensures res.list != [] && NumberField(res.size).Raised? ==> r == Raised(NumberField(res.size).error)
    ensures res.list != [] && NumberField(res.size).Value? && NumberField(res.size).value <= 0.0 ==>
      r == Value(PyNone)
    ensures res.list != [] && NumberField(res.size).Value? && NumberField(res.size).value > 0.0 ==>
      && (!FieldsReadable(res.list[0]) ==> r == Raised(FieldsError(res.list[0])))
      && (FieldsReadable(res.list[0]) && Keyless(key) ==>
            r.Value? && RecordOf(r.value, res.list[0], NumberField(res.size).value))
    ensures r.Value? && r.value.Record? ==>
      && res.list != [] && NumberField(res.size).Value? && NumberField(res.size).value > 0.0
      && RecordOf(r.value, res.list[0], NumberField(res.size).value)
  {
    if res.list == [] then Value(PyNone) else PositionOf(res, NumberField(res.size), key)
  }

  /** get_position with the quantity read from the entry's own `size`, as
      the exchange reports it; otherwise the same. */
  function GetPositionFromEntry(res: PositionsInfo, key: Option<string>): (r: Outcome<PyValue>)
    ensures res.list == [] ==> r == Value(PyNone)
    ensures res.list != [] && NumberField(res.list[0].size).Raised? ==>
      r == Raised(NumberField(res.list[0].size).error)
    ensures res.list != [] && NumberField(res.list[0].size).Value? && NumberField(res.list[0].size).value <= 0.0 ==>
      r == Value(PyNone)
    ensures res.list != [] && NumberField(res.list[0].size).Value? && NumberField(res.list[0].size).value > 0.0 ==>
      && (!FieldsReadable(res.list[0]) ==> r == Raised(FieldsError(res.list[0])))
      && (FieldsReadable(res.list[0]) && Keyless(key) ==>
            r.Value? && RecordOf(r.value, res.list[0], NumberField(res.list[0].size).value))
    ensures r.Value? && r.value.Record? ==>
      && res.list != [] && NumberField(res.list[0].size).Value? && NumberField(res.list[0].size).value > 0.0
      && RecordOf(r.value, res.list[0], NumberField(res.list[0].size).value)
  {
    if res.list == [] then Value(PyNone) else PositionOf(res, NumberField(res.list[0].size), key)
  }

  /** Asking for a key gives that field of the record get_position builds
      without one (and None where it builds none). */
  lemma GetPositionKey(res: PositionsInfo, key: string)
    requires key != ""
    ensures GetPosition(res, Some(key))
         == match GetPosition(res, None)
            case Value(Record(p)) => Value(Field(p, key))
            case other => other
  {
  }

  /** As written, a response without a top-level `size` never yields a
      position, whatever its entries say. */
  lemma GetPositionIgnoresEntries(res: PositionsInfo, key: Option<string>)
    requires res.size.None?
    ensures GetPosition(res, key) == Value(PyNone)
  {
  }

  /** The default "0.0" reads as 0. */
  lemma ParseZero(s: string)
    requires s == "0.0"
    ensures ParseNumber(s) == Some(0.0)
  {
    var whole, frac := PlainParts(s, "0", "0");
    DigitsOf(whole, "0", 0);
    DigitsOf(frac, "0", 0);
    PlainValueIs(whole, frac, 0.0);
    PlainNumber(s, whole, frac);
  }

  /** "1.0" reads as 1. */
  lemma ParseOne(s: string)
    requires s == "1.0"
    ensures ParseNumber(s) == Some(1.0)
  {
    var whole, frac := PlainParts(s, "1", "0");
    DigitsOf(whole, "1", 1);
    DigitsOf(frac, "0", 0);
    PlainValueIs(whole, frac, 1.0);
    PlainNumber(s, whole, frac);
  }

  /** For every response whose first entry reports an open position (a
      positive `size` inside the entry) and no top-level `size`, get_position
      as written answers "no position", while reading the entry's size finds
      the position, with the reverse of its side. */
  lemma GetPositionMissesOpenPositions(entry: PositionEntry, qty: real)
    requires NumberField(entry.size) == Value(qty) && qty > 0.0
    requires FieldsReadable(entry)
    ensures GetPosition(PositionsInfo([entry], None), None) == Value(PyNone)
    ensures var r := GetPositionFromEntry(PositionsInfo([entry], None), None);
      r.Value? && RecordOf(r.value, entry, qty)
  {
    GetPositionIgnoresEntries(PositionsInfo([entry], None), None);
  }

  /** "10000.0" reads as 10000. */
  lemma ParseTenThousand(s: string)
    requires s == "10000.0"
    ensures ParseNumber(s) == Some(10000.0)
  {
    var whole, frac := PlainParts(s, "10000", "0");
    TenThousandDigits(whole);
    DigitsOf(frac, "0", 0);
    PlainValueIs(whole, frac, 10000.0);
    PlainNumber(s, whole, frac);
  }

  /** The digits "10000" spell 10000. */
  lemma TenThousandDigits(s: string)
    requires s == "10000"
    ensures AllDigits(s) && DigitsValue(s) == 10000
  {
    DigitsOf(s[..2], "10", 10);
    assert s[..3][..2] == s[..2] && s[..4][..3] == s[..3] && s[..4] == s[..|s| - 1];
    assert DigitsValue(s[..3]) == 100;
    assert DigitsValue(s[..4]) == 1000;
  }

  /** The concrete case, the position entry mocked by the unit tests: a long
      of size "1.0" at price "10000.0" with leverage "10" and no profit. */
  lemma GetPositionMissesOpenLong(entry: PositionEntry)
    requires entry == PositionEntry(Some("10000.0"), Some("Buy"), Some("10"), Some("0.0"), Some("1.0"))
    ensures var res := PositionsInfo([entry], None);
      && GetPosition(res, None) == Value(PyNone)
      && GetPositionFromEntry(res, None)
         == Value(Record(Position(10000.0, Some("Buy"), Some("10"), 0.0, 1.0, "Sell")))
  {
    ParseOne(entry.size.value);
    ParseTenThousand(entry.avgPrice.value);
    ParseZero(entry.unrealisedPnl.value);
    GetPositionMissesOpenPositions(entry, 1.0);
  }

  // ---------------------------------------------------------------------
  // The order manager

  /** A `FuturesOrders` object: one symbol of one market category, with the
      filters read once when it is created, and the log of the calls it has
      made that change the account. */
  class FuturesOrders {
    const symbol: string
    const category: string
    const qtyDecimals: nat
    const minQty: real
    ghost var calls: seq<Call>

    /** Every call made so far is for this symbol and category; every order
        is a market order whose quantity has the instrument's precision, and
        every leverage update sets buy and sell leverage alike. */
    ghost predicate Valid()
      reads this
    {
      forall i | 0 <= i < |calls| :: ValidCall(calls[i])
    }

    ghost predicate ValidCall(c: Call)
    {
      match c
      case PlaceOrderCall(o) =>
        && o.category == category && o.symbol == symbol
        && IsMarketOrder(o) && OnGrid(o.qty, qtyDecimals)
      case SetLeverageCall(l) =>
        && l.category == category && l.symbol == symbol
        && l.buyLeverage == l.sellLeverage
    }

    constructor (symbol: string, category: string, filters: Filters)
      ensures this.symbol == symbol && this.category == category
      ensures qtyDecimals == filters.qtyDecimals && minQty == filters.minQty
      ensures calls == [] && Valid()
    {
      this.symbol := symbol;
      this.category := category;
      this.qtyDecimals := filters.qtyDecimals;
      this.minQty := filters.minQty;
      calls := [];
    }

    /** `FuturesOrders(symbol, category)`: reads the instrument's filters and
        raises when get_filters does. */
    static method Open(symbol: string, category: string, info: InstrumentsInfo)
      returns (r: Outcome<FuturesOrders>)
      ensures GetFilters(info).Raised? ==> r == Raised(GetFilters(info).error)
      ensures GetFilters(info).Value? ==>
        && r.Value? && fresh(r.value)
        && r.value.symbol == symbol && r.value.category == category
        && r.value.Filtered() == GetFilters(info).value
        && OnGrid(r.value.minQty, r.value.qtyDecimals)
        && r.value.calls == [] && r.value.Valid()
    {
      match GetFilters(info)
      case Raised(e) =>
        r := Raised(e);
      case Value(filters) =>
        var orders := new FuturesOrders(symbol, category, filters);
        r := Value(orders);
    }

    function Filtered(): Filters
    {
      Filters(qtyDecimals, minQty)
    }

    /** `floor_qty`: a quantity at this instrument's precision. */
    function FloorQty(value: real): (r: real)
      ensures OnGrid(r, qtyDecimals) && r <= value && value - r < Unit(qtyDecimals)
    {
      FloorTo(value, qtyDecimals)
    }

    /** `place_market_order_by_base`: one place_order call for the floored
        quantity; the exchange's answer (`reply`) is returned as it is,
        raised errors included. */
    method PlaceMarketOrderByBase(qty: real, side: string, orderLinkId: string,
                                  reply: Outcome<Response>) returns (r: Outcome<Response>)
      requires Valid()
      modifies this
      ensures Valid()
      ensures calls == old(calls) + [PlaceOrderCall(MarketOrder(category, symbol, side, FloorQty(qty), orderLinkId))]
      ensures r == reply
    {
      var order := MarketOrder(category, symbol, side, FloorQty(qty), orderLinkId);
      assert ValidCall(PlaceOrderCall(order));
      calls := calls + [PlaceOrderCall(order)];
      r := reply;
    }

    /** `place_market_order_by_quote` at ask price `askPrice`: raises, with no
        call, when the floored quantity is below the minimum; otherwise places
        one order for exactly that quantity (flooring it again inside
        place_market_order_by_base changes nothing) and returns None, or
        raises what place_order raised. */
    method PlaceMarketOrderByQuote(quote: real, side: string, askPrice: real, orderLinkId: string,
                                   reply: Outcome<Response>) returns (r: Outcome<()>)
      requires Valid()
      modifies this
      ensures Valid()
      ensures QuoteQuantity(quote, askPrice, Filtered()).Raised? ==>
        calls == old(calls) && r == Raised(QuoteQuantity(quote, askPrice, Filtered()).error)
      ensures QuoteQuantity(quote, askPrice, Filtered()).Value? ==>
        && calls == old(calls) + [PlaceOrderCall(MarketOrder(category, symbol, side,
                                     QuoteQuantity(quote, askPrice, Filtered()).value, orderLinkId))]
        && r == (if reply.Value? then Value(()) else Raised(reply.error))
    {
      if askPrice == 0.0 {
        return Raised(ZeroDivision);
      }
      var qty := FloorQty(quote / askPrice);
      if qty < minQty {
        return Raised(QtyTooSmall(qty));
      }
      FloorToIdempotent(quote / askPrice, qtyDecimals);
      var res := PlaceMarketOrderByBase(qty, side, orderLinkId, reply);
      r := if res.Value? then Value(()) else Raised(res.error);
    }

    /** `set_leverage`: reads the current leverage from the first position
        entry; returns None without a call when it cannot be read or already
        equals `leverage`; otherwise makes one symmetric set_leverage call and
        returns its answer. */
    method SetLeverage(leverage: real, positions: PositionsInfo, reply: Outcome<Response>)
      returns (r: Outcome<Option<Response>>)
      requires Valid()
      modifies this
      ensures Valid()
      ensures match PlanLeverage(category, symbol, positions, leverage)
        case NoLeverage => calls == old(calls) && r == Value(None)
        case AlreadySet => calls == old(calls) && r == Value(None)
        case BadLeverage(text) => calls == old(calls) && r == Raised(InvalidNumber(text))
        case Update(request) =>
          && calls == old(calls) + [SetLeverageCall(request)]
          && r == (if reply.Value? then Value(Some(reply.value)) else Raised(reply.error))
    {
      if positions.list == [] || positions.list[0].leverage.None? {
        return Value(None);
      }
      var current := positions.list[0].leverage.value;
      var parsed := ParseNumber(current);
      if parsed.None? {
        return Raised(InvalidNumber(current));
      }
      if parsed.value == leverage {
        return Value(None);
      }
      var request := LeverageRequest(category, symbol, leverage, leverage);
      assert ValidCall(SetLeverageCall(request));
      calls := calls + [SetLeverageCall(request)];
      r := if reply.Value? then Value(Some(reply.value)) else Raised(reply.error);
    }
  }

  /** A session combining the unit-test scenarios on one object: filters
      from "0.001", leverage moved from 10 to 20, then 1000 quote at price
      10000 — exactly two calls, the second an order for 0.1. */
  method SessionExample(symbol: string, orderLinkId: string, reply: Response,
                        info: InstrumentsInfo, positions: PositionsInfo)
    returns (orders: FuturesOrders)
    requires info == InstrumentsInfo([Instrument(Some("0.001"))])
    requires positions == PositionsInfo([PositionEntry(Some("10000.0"), Some("Buy"), Some("10"), Some("0.0"), Some("1.0"))], None)
    ensures orders.calls == [
      SetLeverageCall(LeverageRequest("linear", symbol, 20.0, 20.0)),
      PlaceOrderCall(MarketOrder("linear", symbol, "Buy", 0.1, orderLinkId))]
  {
    GetFiltersMilli(info);
    var created := FuturesOrders.Open(symbol, "linear", info);
    orders := created.value;
    SessionTrades(orders, orderLinkId, reply, positions);
  }

  /** The two calls of that session, on a fresh "linear" object with the
      filters of "0.001". */
  method SessionTrades(orders: FuturesOrders, orderLinkId: string, reply: Response,
                       positions: PositionsInfo)
    requires orders.Filtered() == Filters(3, 0.001) && orders.category == "linear"
    requires orders.calls == [] && orders.Valid()
    requires positions.list != [] && positions.list[0].leverage == Some("10")
    modifies orders
    ensures orders.calls == [
      SetLeverageCall(LeverageRequest("linear", orders.symbol, 20.0, 20.0)),
      PlaceOrderCall(MarketOrder("linear", orders.symbol, "Buy", 0.1, orderLinkId))]
  {
    PlanLeverageExamples("linear", orders.symbol, positions);
    var leverageReply := orders.SetLeverage(20.0, positions, Value(reply));
    QuoteQuantityExamples();
    var orderReply := orders.PlaceMarketOrderByQuote(1000.0, "Buy", 10000.0, orderLinkId, Value(reply));
  }
}
