# Bybit futures order manager — a Dafny model

This project models the `FuturesOrders` class of `bybit_order.py`. The class places
market orders on one Bybit derivatives symbol:

- It reads the instrument's lot-size filter once, when it is created.
- It floors every order quantity to the precision that filter allows.
- It turns an amount of quote currency into an order quantity at the current ask price.
- It refuses quantities below the instrument's minimum.
- It synchronises the account's leverage.
- It reports the open position.

The exchange client is not modelled:

- The answers of the read-only queries are inputs. These are the instrument info, the ask price and the positions.
- The two calls that change the account are `place_order` and `set_leverage`. Each one is appended to a ghost log `calls` on the object. Contracts can therefore say "no call was made" and "exactly this one call was made".
- The exchange's reply to such a call is an input. It is either a response or an error that the call raised.

Quantities and prices are exact reals. Python's `Decimal(...)` and `float(...)` parse decimal text. They are modelled by one literal grammar: `[sign] whole[.frac] [e|E [sign] digits]`, where whole and frac are digit strings and at least one of them is non-empty. Printing and parsing of that grammar are proved inverse to each other.

Files:

- `wrappers.dfy`: `Option`.
- `exchange.dfy`: responses, requests, the call log entries and the errors, named after the Python exceptions.
- `precision.dfy`: `_floor`.
- `decimal_text.dfy`: decimal literals, their exponent and their value.
- `bybit_order.dfy`: the order manager.

A Python exception is modelled as the `Raised(error)` case of an `Outcome`.

## Model

| member | source | states |
|---|---|---|
| Precision.FloorTo | bybit_order.py:161-168 | `_floor(value, d)` is a multiple of 10^-d, is at most `value`, and lies less than 10^-d below it |
| Precision.FloorToGreatest | bybit_order.py:167-168 | every multiple of 10^-d not above `value` is at most `_floor(value, d)`: the result is the greatest grid point below the value |
| Precision.FloorToFixesGrid | bybit_order.py:167-168 | a quantity that already has d decimals is left unchanged |
| Precision.FloorToIdempotent | bybit_order.py:167-168 | flooring a floored value changes nothing |
| Precision.FloorToMonotone | bybit_order.py:167-168 | flooring preserves the order of two values |
| Precision.FloorToBelowGridPoint | bybit_order.py:167-168 | against a bound with d decimals, the floored value is below the bound exactly when the value itself is |
| Precision.FloorToExamples | test_bybit_order.py:76-78 | 0.1234 and 0.123456 floor to 0.123 at 3 decimals; 0.0005 floors to 0; 0.001 stays; 1000/10000 stays 0.1 |
| DecimalText.FindFirst | bybit_order.py:46 | the index of the first separator of a text (its length when there is none); no earlier character is a separator |
| DecimalText.SplitMantissa | bybit_order.py:46 | the whole part, the point and the fractional part of a mantissa join back to it; the whole part holds no point; the point is reported exactly when the mantissa has one; without a point the fractional part is empty |
| DecimalText.Parse | bybit_order.py:46 | `Decimal(text)`: a text it accepts is a well-formed literal, and printing that literal gives the text back |
| DecimalText.ParsePrint | bybit_order.py:46-47 | every well-formed literal is parsed back from its printed text |
| DecimalText.ScaleOnGrid | bybit_order.py:46-47 | the value of a literal with exponent e has at most abs(e) decimals, so `min_qty` always lies on the grid of `qty_decimals` |
| DecimalText.PlainDecimalParse | bybit_order.py:46 | "w.f" parses as an unsigned literal whose exponent is minus the number of digits of f, trailing zeros included |
| DecimalText.PlainDecimalValue | bybit_order.py:47 | the value of "w.f" is w + f / 10^len(f) |
| DecimalText.Exponent | bybit_order.py:46 | `.as_tuple().exponent`: without an exponent part it is minus the number of digits after the point, trailing zeros included; fraction digits never raise it above the written exponent |
| DecimalText.LiteralValue | bybit_order.py:47 | the number a literal denotes has the written sign, and a literal of digits alone denotes the integer they spell |
| DecimalText.ParseNumber | bybit_order.py:47 | `float(text)` succeeds exactly when `Decimal(text)` does, that is, when the text is a literal of the grammar |
| DecimalText.ParseNumberOf | bybit_order.py:47 | a text that parses as a literal reads as that literal's value |
| DecimalText.PlainNumber | bybit_order.py:47 | a text "w.f" reads as the value of the literal with whole part w and fraction f |
| DecimalText.IntegerNumber | bybit_order.py:135 | a text made only of digits reads as the integer those digits spell |
| BybitOrder.MinOrderQtyText | bybit_order.py:44-45 | the first instrument's `minOrderQty`, or "0.0" when it has none |
| BybitOrder.GetFilters | bybit_order.py:37-50 | no instrument raises an IndexError; an unparsable minimum raises InvalidOperation naming the text; otherwise the filters are returned, and `min_qty` has `qty_decimals` decimals |
| BybitOrder.FiltersOf | bybit_order.py:46-47 | the filters of a literal: its minimum always lies on the grid of its own precision |
| BybitOrder.GetFiltersOf | bybit_order.py:44-47 | whenever the minimum text parses, get_filters succeeds with the absolute exponent and the value of that literal |
| BybitOrder.GetFiltersPlain | bybit_order.py:45-47 | for a minimum "w.f", `qty_decimals` is the number of digits after the point, trailing zeros included, and `min_qty` is its value |
| BybitOrder.GetFiltersMilli | test_bybit_order.py:35-38 | "0.001" gives 3 decimals and a minimum of 0.001 |
| BybitOrder.GetFiltersTrailingZero | bybit_order.py:46-47 | "0.010" gives 3 decimals (the trailing zero counts) and a minimum of 0.01 |
| BybitOrder.GetFiltersDefaults | bybit_order.py:44-47 | a missing `minOrderQty` on the first instrument reads as "0.0", giving 1 decimal and minimum 0 |
| BybitOrder.Lower | bybit_order.py:93 | lower-casing keeps the length, leaves no upper-case letter, leaves every other character as it is, and turns each upper-case letter into its own lower-case form |
| BybitOrder.Capitalize | bybit_order.py:93 | `side.capitalize()` keeps the length and the letters, case aside; its first character is not lower case and no later one is upper case |
| BybitOrder.CapitalizeNormalises | bybit_order.py:93 | `side.capitalize()` keeps the length, ignores the case of its input and is idempotent |
| BybitOrder.CapitalizeSides | bybit_order.py:93 | every casing of "buy" ("buy", "Buy", "BUY", ...) becomes "Buy", and every casing of "sell" becomes "Sell" |
| BybitOrder.MarketOrder | bybit_order.py:90-101 | every request is a market order in quote-coin units, good till cancel, neither reduce-only nor close-on-trigger, with the capitalised side and the given quantity, category, symbol and link id |
| BybitOrder.QuoteQuantity | bybit_order.py:114-117 | price 0 raises ZeroDivisionError; a refusal names the floored quantity, which is below the minimum; an accepted quantity is on the grid, at least the minimum, at most quote / price and less than one step below it |
| BybitOrder.QuoteRefusedIffBelowMinimum | bybit_order.py:115-117 | with a minimum on the grid, the order is refused exactly when quote / price is below the minimum; a quotient equal to the minimum is submitted as the minimum |
| BybitOrder.QuoteQuantityExamples | test_bybit_order.py:53-67 | 1000 at price 10000 with minimum 0.001 gives 0.1; a quote of 0 is refused as too small, naming 0 |
| BybitOrder.PlanLeverage | bybit_order.py:126-145 | no entry or no leverage gives "return None"; an equal current leverage gives "return None"; an unparsable one raises ValueError; each exactly when it holds; otherwise one update with buy and sell leverage both equal to the requested value |
| BybitOrder.ParseTen | test_bybit_order.py:25 | the leverage text "10" reads as 10 |
| BybitOrder.PlanLeverageExamples | test_bybit_order.py:70-73 | current "10": requesting 10 is skipped, requesting 20 updates both sides to 20; an empty list is skipped |
| BybitOrder.NumberField | bybit_order.py:69 | `float(d.get(k, '0.0'))`: a missing field is 0; a present one raises ValueError naming its text exactly when it does not parse |
| BybitOrder.NumberFieldDefault | bybit_order.py:69 | NumberField is exactly `float` of the field's text with "0.0" in place of a missing field |
| BybitOrder.ReverseSide | bybit_order.py:81 | `rev_side` is always "Buy" or "Sell", and is "Buy" exactly when the entry's side is "Sell" (a missing side counts as not "Sell") |
| BybitOrder.Field | bybit_order.py:73-84 | `ret.get(key)`: the value the dict `ret` of lines 73-81 holds for one of its six keys (`RecordDict`), None for any other key; None exactly for an unknown key or a side or leverage the entry lacked; never the whole record |
| BybitOrder.ReverseSideSwaps | bybit_order.py:81 | `rev_side` of "Buy" is "Sell" and of "Sell" is "Buy"; reversing twice gives the side back |
| BybitOrder.PositionRecord | bybit_order.py:74-84 | an unreadable `avgPrice` or `unrealisedPnl` raises the ValueError of the first one; otherwise, without a key, the result is the record holding both numbers, the entry's side and leverage, the given quantity and the reversed side; with a key it is not the whole record |
| BybitOrder.GetPosition | bybit_order.py:61-84 | an empty list gives None; an unparsable top-level `size` raises ValueError; a quantity at most 0 gives None; a positive quantity gives the ValueError of an unreadable entry number, or else, without a key, always the record of the first entry with that quantity; a record is returned only in that case |
| BybitOrder.GetPositionKey | bybit_order.py:84 | with a non-empty key the result is that field of the record built without a key, or None where there is no record |
| BybitOrder.GetPositionIgnoresEntries | bybit_order.py:69 | a response without a top-level `size` never yields a position |
| BybitOrder.ParseZero | bybit_order.py:69 | the default "0.0" reads as 0 |
| BybitOrder.ParseOne | test_bybit_order.py:27 | the size "1.0" reads as 1 |
| BybitOrder.GetPositionFromEntry | bybit_order.py:61-84 | the same cases as GetPosition, with the quantity, and its ValueError, taken from the first entry's own `size` |
| BybitOrder.GetPositionMissesOpenPositions | bybit_order.py:69 | for every first entry with a positive `size` and no top-level `size`, GetPosition answers None while GetPositionFromEntry finds the position |
| BybitOrder.ParseTenThousand | test_bybit_order.py:23 | the mocked "10000.0" reads as 10000 |
| BybitOrder.GetPositionMissesOpenLong | test_bybit_order.py:21-29 | the mocked entry (a long of size "1.0" at "10000.0", leverage "10", profit "0.0") is reported as no position as written, and as exactly the record (10000, "Buy", "10", 0, 1, `rev_side` "Sell") when the entry's size is read |
| BybitOrder.FuturesOrders.constructor | bybit_order.py:26-35 | the object holds its symbol, its category and the filters; the call log is empty |
| BybitOrder.FuturesOrders.Open | bybit_order.py:26-35 | creating the manager raises what `get_filters` raises; otherwise the object holds the filters and has made no call |
| BybitOrder.FuturesOrders.FloorQty | bybit_order.py:170-171 | `floor_qty` is on the instrument's grid, at most the value and less than one step below it |
| BybitOrder.FuturesOrders.PlaceMarketOrderByBase | bybit_order.py:86-107 | exactly one `place_order` call, for the market order of the floored quantity, is appended to the log; the exchange's answer or raised error is returned unchanged; the log invariant is kept |
| BybitOrder.FuturesOrders.PlaceMarketOrderByQuote | bybit_order.py:109-119 | a refused quantity raises with no call made; otherwise exactly one order, for floor(quote / price) and not floored further, is appended; the result is None or the raised error of `place_order` |
| BybitOrder.FuturesOrders.SetLeverage | bybit_order.py:121-152 | no call and None when the leverage cannot be read or is already set; ValueError with no call for unparsable leverage; otherwise exactly one symmetric `set_leverage` call, whose answer is returned |
| BybitOrder.SessionExample | test_bybit_order.py:21-73 | the unit-test scenarios combined on one object, with minimum "0.001" and the mocked position entry (leverage "10"): setting 20 and then buying for 1000 at 10000 logs exactly one leverage update to 20 and one market order for 0.1 |
| BybitOrder.SessionTrades | test_bybit_order.py:53-73 | on a fresh "linear" object with the filters of "0.001", setting leverage 20 over a current "10" and then buying for 1000 at 10000 logs exactly those two calls |

The class `BybitOrder.FuturesOrders` also keeps the invariant `Valid()`, which every method maintains:

- every logged call is for the object's symbol and category;
- every logged order is a market order whose quantity has the instrument's precision;
- every logged leverage update sets buy and sell leverage alike.

## Left out

- The pybit HTTP client, request signing and the network. Query answers are inputs, and the calls that change the account become entries of the log.
- Exceptions raised by the query calls `get_instruments_info`, `get_tickers` and `get_positions`. A missing `result` or `list` in the instruments answer reads as the empty list, so get_filters raises IndexError as `[][0]` does. The ticker answer of `get_price` is not modelled at all.
- Loading credentials with dotenv, logger setup and the stack-inspecting `log` helper. They do not affect any result.
- The `time.time()` based `orderLinkId`. It is a parameter.
- `get_price`. The ask price is an input of `PlaceMarketOrderByQuote`. A price of 0 raises ZeroDivisionError, as `quote / curr_price` does.
- IEEE floating point. Quantities, prices and the `//` of `_floor` are exact reals. Where float rounding would make a result differ from the exact one, the model gives the exact one.
- Precision.FloorTo: its grid and one-step bounds hold of exact arithmetic only. With doubles, `_floor(0.3, 1)` is `0.3 // 0.1 * 0.1` = 0.2, a full step low, and `_floor(0.7, 1)` is 0.6000000000000001, which is off the grid. The model gives 0.3 and 0.7.
- The default `category="linear"` of the constructor: `Open` always takes the category explicitly.
- A requested leverage that is not a number. `float(leverage)` then raises ValueError at bybit_order.py:135, but `SetLeverage` takes a real and cannot express it.
- JSON null values in an answer. `float(None)` raises TypeError, but the model reads a null field as a missing one.
- Text that Python's `Decimal()` or `float()` accept beyond the literal grammar: surrounding whitespace, underscores between digits, decimal digits of other Unicode scripts, and the special values in any letter case and with an optional sign ("inf", "Infinity", "nan", and for `Decimal()` also "sNaN" and a NaN with a payload such as "NaN123"). The model reads all of these as unparsable.
- BybitOrder.Capitalize: only ASCII letters change case. Python's `str.capitalize` also maps other Unicode letters.
- BybitOrder.FuturesOrders.SetLeverage: the request carries the leverage as a number, not as the text `str(leverage)` that the source sends.
- `parse_arguments` and `main` in bybit_order.py, and main.py: command-line plumbing.
- The model follows bybit_order.py as written in these places:
  - non-positive leverage is not rejected;
  - `place_market_order_by_quote` returns None, not the exchange's answer;
  - `_floor` rounds toward minus infinity, which differs from rounding toward zero only for negative values;
  - `get_position` reads the top-level `size` (see Findings).

## Findings

| source | as written | input that shows it | evidently intended | confidence | as-written member | corrected member |
|---|---|---|---|---|---|---|
| bybit_order.py:69 | the quantity of the position is read from the `size` key of the whole response, which defaults to "0.0" | a positions answer whose first entry has `size` "1.0" and no top-level `size`, the shape of the answer mocked at test_bybit_order.py:21-29: get_position returns None | the quantity is the first entry's `size`, so an open position is reported | not executed | BybitOrder.GetPositionMissesOpenPositions | BybitOrder.GetPositionFromEntry |
