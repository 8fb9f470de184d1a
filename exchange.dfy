/** What the order manager exchanges with the Bybit client: the responses of
    the read-only queries (reduced to the fields it reads), the requests of
    the two calls that change the account, and the errors an operation can
    raise. */
module Exchange {
  import opened Wrappers

  /** Why an operation raised, named after what the Python code raises. */
  datatype Error =
    | InstrumentNotFound                          // IndexError: no instrument in the list
    | InvalidDecimal(text: string)                // decimal.InvalidOperation from Decimal(text)
    | InvalidNumber(text: string)                 // ValueError from float(text)
    | ZeroDivision                                // ZeroDivisionError from quote / price
    | QtyTooSmall(qty: real)                      // Exception("<qty> is to small")
    | InvalidRequest(status: int, message: string) // pybit InvalidRequestError
    | FailedRequest(status: int, message: string)  // pybit FailedRequestError
    | Other(message: string)                      // any other exception of the client

  /** A Python call either returns a value or raises. */
  datatype Outcome<+T> = Value(value: T) | Raised(error: Error)

  /** The decoded body of an answer of the exchange, passed on untouched. */
  datatype Response = Response(body: string)

  /** `get_instruments_info`: for each instrument of `result.list`, its
      `lotSizeFilter.minOrderQty` (None when either key is missing). A
      missing `result` or `list` reads as the empty list. */
  datatype Instrument = Instrument(minOrderQty: Option<string>)
  datatype InstrumentsInfo = InstrumentsInfo(list: seq<Instrument>)

  /** One entry of `get_positions`' `result.list`; None for a missing key. */
  datatype PositionEntry = PositionEntry(
    avgPrice: Option<string>,
    side: Option<string>,
    leverage: Option<string>,
    unrealisedPnl: Option<string>,
    size: Option<string>)

  /** `get_positions`: the entries of `result.list` and the `size` key of the
      response's top level. */
  datatype PositionsInfo = PositionsInfo(list: seq<PositionEntry>, size: Option<string>)

  /** The keyword arguments of `place_order`. */
  datatype OrderRequest = OrderRequest(
    category: string,
    symbol: string,
    side: string,
    orderType: string,
    qty: real,
    marketUnit: string,
    timeInForce: string,
    reduceOnly: bool,
    closeOnTrigger: bool,
    orderLinkId: string)

  /** The keyword arguments of `set_leverage` (the leverages as numbers;
      the source sends `str(leverage)`). */
  datatype LeverageRequest = LeverageRequest(
    category: string,
    symbol: string,
    buyLeverage: real,
    sellLeverage: real)

  /** A call that changes the account, as recorded in the call log. */
  datatype Call = PlaceOrderCall(order: OrderRequest) | SetLeverageCall(setting: LeverageRequest)
}
