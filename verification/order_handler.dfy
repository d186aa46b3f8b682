/**
 * The six HTTP handlers of the order service: the parameter checks each makes
 * before calling the lifecycle manager, and the fee-rate default of the fill
 * handler. Query parameters arrive as the result of number parsing, whose
 * error the handlers ignore: a decimal parameter that is absent or does not
 * parse is `None` and reads as zero; an integer parameter reads as the value
 * the 64-bit integer parser returns alongside its error.
 */
module OrderHandler {
  import opened Wrappers
  import opened OrderTypes
  import opened OrderLogic
  import opened OrderQueries
  import opened OrderInvariants
  import opened Sorting

  /** Why a request failed: the body did not parse, a handler check refused
      it, or the lifecycle manager returned an error. */
  datatype Failure = BadBody | BadRequest(message: string) | Logic(err: Error)

  /** A handler's effect on the system and what it answers. */
  datatype Response<T> = Response(sys: System, reply: Result<T, Failure>)

  const DefaultFeeRate: real := 0.001

  /** A parsed number, zero when parsing failed. */
  function OrZero(parsed: Option<real>): real {
    parsed.GetOr(0.0)
  }

  const MaxInt64: int := 0x7fff_ffff_ffff_ffff
  const MinInt64: int := -0x8000_0000_0000_0000

  type int64 = x: int | MinInt64 <= x <= MaxInt64

  /** How a 64-bit integer parameter parses: a value, text that is not a
      number, or a number beyond the 64-bit range on one side. */
  datatype IntParse = IntValue(value: int64) | NotANumber | OutOfRange(negative: bool)

  /** The value the parser returns with its error, which the handler keeps:
      zero for text that is not a number, and the bound on the number's side
      for one out of range. */
  function ParsedInt(p: IntParse): (v: int64)
    ensures p.IntValue? ==> v == p.value
    ensures p.NotANumber? ==> v == 0
    ensures p.OutOfRange? ==> (v > 0 <==> !p.negative) && (v == MaxInt64 || v == MinInt64)
  {
    match p
    case IntValue(n) => n
    case NotANumber => 0
    case OutOfRange(negative) => if negative then MinInt64 else MaxInt64
  }

  /** The fee rate passed to the logic: the given rate when positive, the
      default otherwise. Always positive. */
  function EffectiveFeeRate(feeRate: Option<real>): (r: real)
    ensures r > 0.0
    ensures OrZero(feeRate) > 0.0 ==> r == OrZero(feeRate)
    ensures OrZero(feeRate) <= 0.0 ==> r == DefaultFeeRate
  {
    if OrZero(feeRate) <= 0.0 then DefaultFeeRate else OrZero(feeRate)
  }

  /** The reply for a logic call that returns only an error. */
  function Acknowledge(out: Outcome): (res: Response<()>)
    ensures res.sys == out.sys
    ensures res.reply.Success? <==> out.err.None?
    ensures out.err.Some? ==> res.reply == Failure(Logic(out.err.value))
  {
    if out.err.Some? then Response(out.sys, Failure(Logic(out.err.value))) else Response(out.sys, Success(()))
  }

  /** Create: a body that does not parse is refused; otherwise every check is
      CreateOrder's own. */
  function CreateOrderHandler(sys: System, body: Option<Order>, env: Env, stamp: Stamp): (res: Response<()>)
    ensures body.None? ==> res == Response(sys, Failure(BadBody))
    ensures body.Some? ==> res.sys == CreateOrder(sys, body.value, env, stamp).sys
    ensures body.Some? ==> (res.reply.Success? <==> CreateOrder(sys, body.value, env, stamp).err.None?)
  {
    if body.None? then Response(sys, Failure(BadBody))
    else Acknowledge(CreateOrder(sys, body.value, env, stamp))
  }

  /** Cancel: an empty order_id is refused before the logic runs. */
  function CancelOrderHandler(sys: System, orderId: string, reason: string, env: Env, now: int): (res: Response<()>)
    ensures orderId == "" ==> res == Response(sys, Failure(BadRequest("order_id is required")))
    ensures orderId != "" ==> res.sys == CancelOrder(sys, orderId, reason, env, now).sys
    ensures orderId != "" ==> (res.reply.Success? <==> CancelOrder(sys, orderId, reason, env, now).err.None?)
  {
    if orderId == "" then Response(sys, Failure(BadRequest("order_id is required")))
    else Acknowledge(CancelOrder(sys, orderId, reason, env, now))
  }

  /** Whether the fill handler's own checks pass. */
  function FillParamsValid(orderId: string, price: Option<real>, amount: Option<real>): (b: bool)
    ensures b <==> orderId != "" && price.Some? && price.value > 0.0 && amount.Some? && amount.value > 0.0
  {
    orderId != "" && OrZero(price) > 0.0 && OrZero(amount) > 0.0
  }

  /** Fill: an empty order_id or a price or amount that is not positive is
      refused; a missing or non-positive fee rate becomes the default. */
  function FillOrderHandler(sys: System, orderId: string, price: Option<real>, amount: Option<real>,
                            feeRate: Option<real>, env: Env, stamp: Stamp): (res: Response<()>)
    ensures !FillParamsValid(orderId, price, amount) ==>
      res == Response(sys, Failure(BadRequest("invalid parameters")))
    ensures FillParamsValid(orderId, price, amount) ==>
      var out := FillOrder(sys, orderId, OrZero(price), OrZero(amount), EffectiveFeeRate(feeRate), env, stamp);
      res.sys == out.sys && (res.reply.Success? <==> out.err.None?)
  {
    if !FillParamsValid(orderId, price, amount) then Response(sys, Failure(BadRequest("invalid parameters")))
    else Acknowledge(FillOrder(sys, orderId, OrZero(price), OrZero(amount), EffectiveFeeRate(feeRate), env, stamp))
  }

  /** Get: an empty order_id is refused; an error from GetOrder, the failed
      cache write-back included, is answered as an error. */
  function GetOrderHandler(sys: System, orderId: string, env: Env): (res: Response<Order>)
    ensures orderId == "" ==> res == Response(sys, Failure(BadRequest("order_id is required")))
    ensures orderId != "" ==> res.sys == GetOrder(sys, orderId, env).sys
    ensures orderId != "" ==>
      (res.reply.Success? <==> GetOrder(sys, orderId, env).err.None?)
      && (res.reply.Success? ==> Some(res.reply.value) == GetOrder(sys, orderId, env).order)
  {
    if orderId == "" then Response(sys, Failure(BadRequest("order_id is required")))
    else
      var look := GetOrder(sys, orderId, env);
      if look.err.Some? then Response(look.sys, Failure(Logic(look.err.value)))
      else Response(look.sys, Success(look.order.value))
  }

  /** User orders: a user_id that is missing, not a number or not positive is
      refused, while one beyond the 64-bit range is read as the largest
      64-bit value and queried; the status text goes to the query unchanged;
      a failed store read is an error. */
  method GetUserOrdersHandler(sys: System, userId: IntParse, status: string, env: Env)
    returns (res: Response<seq<Order>>)
    ensures res.sys == sys
    ensures ParsedInt(userId) <= 0 ==> res.reply == Failure(BadRequest("user_id is required"))
    ensures ParsedInt(userId) > 0 && !env.storeRead ==> res.reply == Failure(Logic(StoreFailed))
    ensures res.reply.Success? <==> ParsedInt(userId) > 0 && env.storeRead
    ensures userId.OutOfRange? ==> (res.reply.Success? <==> !userId.negative && env.storeRead)
    ensures res.reply.Success? ==>
      var id := ParsedInt(userId);
      && (forall o :: o in res.reply.value ==> o in sys.store.Values && MatchesUser(o, id, status))
      && (forall k :: k in sys.store && MatchesUser(sys.store[k], id, status) ==> sys.store[k] in res.reply.value)
      && |res.reply.value| == |MatchingKeys(sys.store, sys.store.Keys, id, status)|
      && SortedBy(res.reply.value, NewestFirst)
  {
    var id := ParsedInt(userId);
    if id <= 0 {
      return Response(sys, Failure(BadRequest("user_id is required")));
    }
    if !env.storeRead {
      return Response(sys, Failure(Logic(StoreFailed)));
    }
    var orders := GetUserOrders(sys.store, id, status);
    return Response(sys, Success(orders));
  }

  /** Trades: an empty order_id is refused; a failed store read is an error;
      otherwise the order's trades, oldest first. */
  function GetOrderTradesHandler(sys: System, orderId: string, env: Env): (res: Response<seq<Trade>>)
    ensures res.sys == sys
    ensures orderId == "" ==> res.reply == Failure(BadRequest("order_id is required"))
    ensures orderId != "" && !env.storeRead ==> res.reply == Failure(Logic(StoreFailed))
    ensures res.reply.Success? <==> orderId != "" && env.storeRead
    ensures res.reply.Success? ==>
      && (forall t :: t in res.reply.value <==> t in sys.trades && t.orderId == orderId)
      && multiset(res.reply.value) == multiset(TradesOf(sys.trades, orderId))
      && SortedBy(res.reply.value, OldestFirst)
  {
    if orderId == "" then Response(sys, Failure(BadRequest("order_id is required")))
    else if !env.storeRead then Response(sys, Failure(Logic(StoreFailed)))
    else Response(sys, Success(GetOrderTrades(sys.trades, orderId)))
  }

  /** A fill of positive price and amount at a positive rate costs a positive fee. */
  lemma FillFeePositive(price: real, amount: real, rate: real)
    requires price > 0.0 && amount > 0.0 && rate > 0.0
    ensures FillFee(price, amount, rate) > 0.0
  {
    assert amount * price > 0.0;
    assert (amount * price) * rate > 0.0;
  }

  /** Through the handler, every fill accepted in a synced system strictly
      increases both the filled amount and the fee of the stored order. A
      stale cached copy can make it lower them instead (see
      `OrderProperties.StaleCacheLowersFill`). */
  lemma HandledFillIncreases(sys: System, orderId: string, price: Option<real>, amount: Option<real>,
                             feeRate: Option<real>, env: Env, stamp: Stamp)
    requires Synced(sys)
    requires FillOrderHandler(sys, orderId, price, amount, feeRate, env, stamp).reply.Success?
    ensures
      var after := FillOrderHandler(sys, orderId, price, amount, feeRate, env, stamp).sys;
      && orderId in sys.store && orderId in after.store
      && after.store[orderId].filledAmount > sys.store[orderId].filledAmount
      && after.store[orderId].fee > sys.store[orderId].fee
  {
    assert FillParamsValid(orderId, price, amount);
    var p := OrZero(price);
    var a := OrZero(amount);
    var r := EffectiveFeeRate(feeRate);
    var out := FillOrder(sys, orderId, p, a, r, env, stamp);
    assert out.err.None?;
    SyncedFillAccumulates(sys, orderId, p, a, r, env, stamp);
    FillFeePositive(p, a, r);
  }
}
