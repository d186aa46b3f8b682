/**
 * The order service's records: orders, their JSON form (the cache value and
 * the event payload), trades and lifecycle messages.
 */
module OrderTypes {
  import opened Wrappers

  /** The five statuses an order row can carry. */
  datatype OrderStatus = Pending | PartFilled | Filled | Cancelled | Rejected

  /** The values of an order type column. */
  datatype TypeName = Limit | Market | OtherType(text: string)

  /** Order type. The stored column is free text: anything other than the two
      named constants is kept as `OtherType`, so each text has exactly one
      representation. */
  type OrderType = t: TypeName | t.OtherType? ==> t.text != "limit" && t.text != "market" witness Limit

  /** The values of an order side column. */
  datatype SideName = Buy | Sell | OtherSide(text: string)

  /** Order side, free text like the type. */
  type OrderSide = s: SideName | s.OtherSide? ==> s.text != "buy" && s.text != "sell" witness Buy

  /** The action named in a lifecycle message. `Update` is documented as a
      possible action but no operation emits it. */
  datatype Action = Create | Update | Cancel | Fill

  function StatusText(s: OrderStatus): string {
    match s
    case Pending => "pending"
    case PartFilled => "part_filled"
    case Filled => "filled"
    case Cancelled => "cancelled"
    case Rejected => "rejected"
  }

  /** The read side of the status column: the status a stored text names;
      unknown text is no status. The status filter of the user-orders query
      compares through it. */
  function StatusOf(text: string): (r: Option<OrderStatus>)
    ensures r.Some? ==> StatusText(r.value) == text
  {
    if text == "pending" then Some(Pending)
    else if text == "part_filled" then Some(PartFilled)
    else if text == "filled" then Some(Filled)
    else if text == "cancelled" then Some(Cancelled)
    else if text == "rejected" then Some(Rejected)
    else None
  }

  /** Every status is written as a distinct text that reads back as itself. */
  lemma StatusTextRoundTrip(s: OrderStatus)
    ensures StatusOf(StatusText(s)) == Some(s)
  {
  }

  function TypeText(t: OrderType): string {
    match t
    case Limit => "limit"
    case Market => "market"
    case OtherType(text) => text
  }

  /** The read side of the type column: classifies a stored text; text that
      is neither constant is kept verbatim. */
  function TypeOf(text: string): (t: OrderType)
    ensures TypeText(t) == text
    ensures t.OtherType? <==> text != "limit" && text != "market"
  {
    if text == "limit" then Limit else if text == "market" then Market else OtherType(text)
  }

  /** A type is stored as a text that reads back as that type, so two types
      are equal exactly when their texts are. */
  lemma TypeTextRoundTrip(t: OrderType)
    ensures TypeOf(TypeText(t)) == t
  {
  }

  function SideText(s: OrderSide): string {
    match s
    case Buy => "buy"
    case Sell => "sell"
    case OtherSide(text) => text
  }

  /** The read side of the side column: classifies a stored text; text that
      is neither constant is kept verbatim. */
  function SideOf(text: string): (s: OrderSide)
    ensures SideText(s) == text
    ensures s.OtherSide? <==> text != "buy" && text != "sell"
  {
    if text == "buy" then Buy else if text == "sell" then Sell else OtherSide(text)
  }

  /** A side is stored as a text that reads back as that side. */
  lemma SideTextRoundTrip(s: OrderSide)
    ensures SideOf(SideText(s)) == s
  {
  }

  /** An order row. `id`, `createdAt` and `updatedAt` are store-managed
      (surrogate key and timestamps, 0 standing for the zero time); the rest
      are the business fields. Prices and quantities are exact reals. */
  datatype Order = Order(
    id: nat,
    createdAt: int,
    updatedAt: int,
    orderId: string,
    userId: int,
    symbol: string,
    orderType: OrderType,
    orderSide: OrderSide,
    price: real,
    amount: real,
    filledAmount: real,
    fee: real,
    feeAsset: string,
    status: OrderStatus,
    cancelReason: string)

  /** The JSON form of an order: every field except the three store-managed ones. */
  datatype OrderDoc = OrderDoc(
    orderId: string,
    userId: int,
    symbol: string,
    orderType: OrderType,
    orderSide: OrderSide,
    price: real,
    amount: real,
    filledAmount: real,
    fee: real,
    feeAsset: string,
    status: OrderStatus,
    cancelReason: string)

  /** The order with its store-managed fields reset to zero values. */
  function Business(o: Order): Order {
    o.(id := 0, createdAt := 0, updatedAt := 0)
  }

  /** Deserialises an order document; store-managed fields come back zero. */
  function Decode(d: OrderDoc): (o: Order)
    ensures o == Business(o)
  {
    Order(0, 0, 0, d.orderId, d.userId, d.symbol, d.orderType, d.orderSide,
          d.price, d.amount, d.filledAmount, d.fee, d.feeAsset, d.status, d.cancelReason)
  }

  /** Serialises an order: decoding the document gives back every business
      field and zero for the store-managed ones. */
  function Encode(o: Order): (d: OrderDoc)
    ensures Decode(d) == Business(o)
  {
    OrderDoc(o.orderId, o.userId, o.symbol, o.orderType, o.orderSide,
             o.price, o.amount, o.filledAmount, o.fee, o.feeAsset, o.status, o.cancelReason)
  }

  /** Two orders serialise alike exactly when their business fields agree. */
  lemma EncodeIgnoresStoreFields(a: Order, b: Order)
    ensures Encode(a) == Encode(b) <==> Business(a) == Business(b)
  {
    if Encode(a) == Encode(b) {
      assert Decode(Encode(a)) == Decode(Encode(b));
    }
  }

  /** Every document is the encoding of the order it decodes to. */
  lemma DecodeEncode(d: OrderDoc)
    ensures Encode(Decode(d)) == d
  {
  }

  /** An execution record. `id` and `createdAt` are store-managed. */
  datatype Trade = Trade(
    id: nat,
    createdAt: int,
    tradeId: string,
    orderId: string,
    symbol: string,
    price: real,
    amount: real,
    fee: real,
    feeAsset: string)

  /** The value of a lifecycle message: the action and the order snapshot. */
  datatype OrderMessage = OrderMessage(action: Action, orderId: string, data: OrderDoc)

  /** A message on the log, with its partition key. */
  datatype Message = Message(key: string, value: OrderMessage)

  /** Store column defaults for `fee_asset` and `status`. */
  const ColumnDefaultFeeAsset: string := "USDT"
  const ColumnDefaultStatus: OrderStatus := Pending
}
