/**
 * The order lifecycle manager: create, cancel, fill and get over the system
 * of record (order rows and trade rows), the order cache and the message log.
 *
 * Every command is a pure transition of `System`. Whether each adapter call
 * succeeds is an input (`Env`), as are the clock and the generated row and
 * trade identities (`Stamp`). A mutation runs its steps in a fixed order:
 * store write, (for a fill) trade insert, cache write, message publish; the
 * first failing step ends the command and every later step is skipped.
 */
module OrderLogic {
  import opened Wrappers
  import opened OrderTypes

  /** A cache value: a decodable order document or bytes that do not decode. */
  datatype CacheValue = Payload(doc: OrderDoc) | Corrupt

  datatype System = System(
    store: map<string, Order>,        // order rows, unique on order_id
    trades: seq<Trade>,               // trade rows in insertion order
    cache: map<string, CacheValue>,   // cache entries by key
    events: seq<Message>)             // published messages in order

  /** Success of each adapter call one command may make. */
  datatype Env = Env(
    cacheGet: bool,       // the cache lookup in GetOrder answers
    storeRead: bool,      // the store lookup in GetOrder answers
    cacheRefresh: bool,   // GetOrder's write-back of a store read succeeds
    storeWrite: bool,     // the order insert or update succeeds
    tradeInsert: bool,    // the trade insert of a fill succeeds
    cacheSet: bool,       // the cache write after the store write succeeds
    publish: bool)        // the message publish succeeds

  /** Values the command takes from the clock and from identity generators. */
  datatype Stamp = Stamp(now: int, rowId: nat, tradeId: string)

  datatype Error =
    | Invalid(reason: string)          // rejected input
    | NotFound                         // no row with that order_id
    | NotCancellable(status: OrderStatus)
    | StoreFailed                      // store read or write error, unique-key violation included
    | CacheFailed
    | PublishFailed

  /** The system after a command and the error it returned, if any. */
  datatype Outcome = Outcome(sys: System, err: Option<Error>)

  /** What GetOrder returns: an order, an error, or both (an order read from
      the store whose cache write-back failed). */
  datatype Lookup = Lookup(order: Option<Order>, err: Option<Error>, sys: System)

  const CacheKeyPrefix: string := "order:"
  const DefaultSymbol: string := "BTC/USDT"
  const TradeFeeAsset: string := "USDT"

  /** The cache key of an order. */
  function CacheKey(orderId: string): string {
    CacheKeyPrefix + orderId
  }

  /** Distinct orders have distinct cache keys. */
  lemma CacheKeyInjective(a: string, b: string)
    ensures CacheKey(a) == CacheKey(b) <==> a == b
  {
    if CacheKey(a) == CacheKey(b) {
      assert a == CacheKey(a)[|CacheKeyPrefix|..];
      assert b == CacheKey(b)[|CacheKeyPrefix|..];
    }
  }

  /** Whether every adapter call succeeds. */
  predicate Healthy(env: Env) {
    env.cacheGet && env.storeRead && env.cacheRefresh && env.storeWrite
    && env.tradeInsert && env.cacheSet && env.publish
  }

  /** The message announcing `action` on `o`, keyed by its order_id. */
  function OrderEvent(action: Action, o: Order): (m: Message)
    ensures m.key == o.orderId && m.value.orderId == o.orderId && m.value.action == action
    ensures Decode(m.value.data) == Business(o)
  {
    Message(o.orderId, OrderMessage(action, o.orderId, Encode(o)))
  }

  /** Caches `o` under its key; a later read of that key decodes to `o`'s
      business fields, and every other key is untouched. */
  function UpdateOrderCache(cache: map<string, CacheValue>, o: Order): (c: map<string, CacheValue>)
    ensures CacheKey(o.orderId) in c && c[CacheKey(o.orderId)].Payload?
    ensures Decode(c[CacheKey(o.orderId)].doc) == Business(o)
    ensures forall k :: k != CacheKey(o.orderId) ==> (k in c <==> k in cache)
    ensures forall k :: k in cache && k != CacheKey(o.orderId) ==> c[k] == cache[k]
  {
    cache[CacheKey(o.orderId) := Payload(Encode(o))]
  }

  /** The order row written over an existing one. The surrogate key and the
      creation time stay those of the row; a row that does not exist is not
      created (an update that matches no row is not an error). */
  function StoreUpdate(store: map<string, Order>, orderId: string, o: Order): (s: map<string, Order>)
    ensures s.Keys == store.Keys
    ensures forall k :: k in store && k != orderId ==> s[k] == store[k]
    ensures orderId in store ==>
      && Business(s[orderId]) == Business(o)
      && s[orderId].id == store[orderId].id && s[orderId].createdAt == store[orderId].createdAt
      && s[orderId].updatedAt == o.updatedAt
  {
    if orderId in store then
      store[orderId := o.(id := store[orderId].id, createdAt := store[orderId].createdAt)]
    else store
  }

  /** Whether a trade with this trade_id already exists (unique index). */
  predicate TradeIdTaken(trades: seq<Trade>, tradeId: string) {
    exists i :: 0 <= i < |trades| && trades[i].tradeId == tradeId
  }

  /** The steps after the durable writes: cache write, then publish. */
  function Propagate(sys: System, action: Action, o: Order, env: Env): (out: Outcome)
    ensures out.sys.store == sys.store && out.sys.trades == sys.trades
    ensures out.err.None? <==> env.cacheSet && env.publish
    ensures out.sys.cache == if env.cacheSet then UpdateOrderCache(sys.cache, o) else sys.cache
    ensures out.sys.events == if out.err.None? then sys.events + [OrderEvent(action, o)] else sys.events
    ensures out.err.Some? ==> out.err.value == (if env.cacheSet then PublishFailed else CacheFailed)
  {
    if !env.cacheSet then Outcome(sys, Some(CacheFailed))
    else
      var cached := sys.(cache := UpdateOrderCache(sys.cache, o));
      if !env.publish then Outcome(cached, Some(PublishFailed))
      else Outcome(cached.(events := cached.events + [OrderEvent(action, o)]), None)
  }

  // ---------------------------------------------------------------- create

  /** The checks CreateOrder makes, in order; the first one that fails names the error. */
  function CreateCheck(req: Order): (r: Option<string>)
    ensures r.None? <==> req.orderId != "" && req.userId != 0 && req.price > 0.0 && req.amount > 0.0
  {
    if req.orderId == "" then Some("order_id is required")
    else if req.userId == 0 then Some("user_id is required")
    else if req.price <= 0.0 then Some("price must be positive")
    else if req.amount <= 0.0 then Some("amount must be positive")
    else None
  }

  /** The row CreateOrder writes: empty symbol, type and side take their
      defaults, everything else the caller gave is kept, execution state starts
      empty, and the store assigns the surrogate key and timestamps. */
  function NewOrder(req: Order, stamp: Stamp): (o: Order)
    ensures o.orderId == req.orderId && o.userId == req.userId
    ensures o.price == req.price && o.amount == req.amount
    ensures o.symbol == if req.symbol == "" then DefaultSymbol else req.symbol
    ensures TypeText(o.orderType) == if TypeText(req.orderType) == "" then "limit" else TypeText(req.orderType)
    ensures SideText(o.orderSide) == if SideText(req.orderSide) == "" then "buy" else SideText(req.orderSide)
    ensures o.status == Pending && o.status == ColumnDefaultStatus
    ensures o.filledAmount == 0.0 && o.fee == 0.0 && o.cancelReason == ""
    ensures o.feeAsset == ColumnDefaultFeeAsset
    ensures o.id == stamp.rowId && o.createdAt == stamp.now && o.updatedAt == stamp.now
  {
    var symbol := if req.symbol == "" then DefaultSymbol else req.symbol;
    var orderType := if TypeText(req.orderType) == "" then Limit else req.orderType;
    var orderSide := if SideText(req.orderSide) == "" then Buy else req.orderSide;
    req.(id := stamp.rowId, createdAt := stamp.now, updatedAt := stamp.now,
         symbol := symbol, orderType := orderType, orderSide := orderSide,
         filledAmount := 0.0, fee := 0.0, feeAsset := "USDT", status := Pending, cancelReason := "")
  }

  /** Creates an order: validate, insert the row, cache it, publish "create". */
  function CreateOrder(sys: System, req: Order, env: Env, stamp: Stamp): (out: Outcome)
    // rejected input changes nothing
    ensures CreateCheck(req).Some? ==> out == Outcome(sys, Some(Invalid(CreateCheck(req).value)))
    // success needs valid input, a fresh order_id and every adapter call
    ensures out.err.None? <==>
      CreateCheck(req).None? && req.orderId !in sys.store && env.storeWrite && env.cacheSet && env.publish
    // trades are never touched; the only row that can appear is the new order
    ensures out.sys.trades == sys.trades
    ensures out.sys.store == sys.store || out.sys.store == sys.store[req.orderId := NewOrder(req, stamp)]
    // write order: no cache write without the row, no message without the cache write
    ensures out.sys.cache != sys.cache ==>
      out.sys.store == sys.store[req.orderId := NewOrder(req, stamp)]
      && out.sys.cache == UpdateOrderCache(sys.cache, NewOrder(req, stamp))
    ensures out.sys.events == (if out.err.None? then sys.events + [OrderEvent(Create, NewOrder(req, stamp))] else sys.events)
    // a valid, new order whose row write fails leaves everything as it was
    ensures CreateCheck(req).None? && (req.orderId in sys.store || !env.storeWrite) ==>
      out == Outcome(sys, Some(StoreFailed))
    // once the row is written it stays written, whatever the cache write and the publish do
    ensures CreateCheck(req).None? && req.orderId !in sys.store && env.storeWrite ==>
      && out.sys.store == sys.store[req.orderId := NewOrder(req, stamp)]
      && out.sys.cache == (if env.cacheSet then UpdateOrderCache(sys.cache, NewOrder(req, stamp)) else sys.cache)
      && out.err == (if !env.cacheSet then Some(CacheFailed) else if !env.publish then Some(PublishFailed) else None)
  {
    if CreateCheck(req).Some? then Outcome(sys, Some(Invalid(CreateCheck(req).value)))
    else
      var o := NewOrder(req, stamp);
      if !env.storeWrite || o.orderId in sys.store then Outcome(sys, Some(StoreFailed))
      else Propagate(sys.(store := sys.store[o.orderId := o]), Create, o, env)
  }

  // ---------------------------------------------------------------- get

  /** Whether the cache answers with a decodable payload for `orderId`. */
  predicate CacheHit(sys: System, orderId: string, env: Env) {
    env.cacheGet && CacheKey(orderId) in sys.cache && sys.cache[CacheKey(orderId)].Payload?
  }

  /** Reads an order cache-first. A hit is returned as decoded, without a
      store read. Otherwise the store row is read and written back to the
      cache; when that write-back fails the order is returned together with
      the error. */
  function GetOrder(sys: System, orderId: string, env: Env): (look: Lookup)
    ensures look.sys.store == sys.store && look.sys.trades == sys.trades && look.sys.events == sys.events
    ensures look.err.None? ==> look.order.Some?
    ensures CacheHit(sys, orderId, env) ==>
      look == Lookup(Some(Decode(sys.cache[CacheKey(orderId)].doc)), None, sys)
    ensures !CacheHit(sys, orderId, env) && env.storeRead && orderId in sys.store ==>
      look.order == Some(sys.store[orderId])
      && look.err == (if env.cacheRefresh then None else Some(CacheFailed))
      && look.sys.cache == (if env.cacheRefresh then UpdateOrderCache(sys.cache, sys.store[orderId]) else sys.cache)
    ensures !CacheHit(sys, orderId, env) && !(env.storeRead && orderId in sys.store) ==>
      look.order.None? && look.err.Some? && look.sys == sys
    ensures !CacheHit(sys, orderId, env) && !env.storeRead ==> look.err == Some(StoreFailed)
    ensures !CacheHit(sys, orderId, env) && env.storeRead && orderId !in sys.store ==> look.err == Some(NotFound)
  {
    if CacheHit(sys, orderId, env) then
      Lookup(Some(Decode(sys.cache[CacheKey(orderId)].doc)), None, sys)
    else if !env.storeRead then Lookup(None, Some(StoreFailed), sys)
    else if orderId !in sys.store then Lookup(None, Some(NotFound), sys)
    else
      var o := sys.store[orderId];
      if env.cacheRefresh then Lookup(Some(o), None, sys.(cache := UpdateOrderCache(sys.cache, o)))
      else Lookup(Some(o), Some(CacheFailed), sys)
  }

  // ---------------------------------------------------------------- cancel

  /** The statuses a cancel is allowed from. */
  function Cancellable(s: OrderStatus): (b: bool)
    ensures b <==> s != Filled && s != Cancelled && s != Rejected
  {
    s == Pending || s == PartFilled
  }

  /** Cancels an order: read it, check its status, rewrite the row, cache it,
      publish "cancel". A lookup error, the cache write-back error included,
      ends the command. */
  function CancelOrder(sys: System, orderId: string, reason: string, env: Env, now: int): (out: Outcome)
    ensures out.sys.trades == sys.trades
    // a lookup that fails ends the command with its error
    ensures GetOrder(sys, orderId, env).err.Some? ==>
      out == Outcome(GetOrder(sys, orderId, env).sys, GetOrder(sys, orderId, env).err)
    // the status guard
    ensures GetOrder(sys, orderId, env).err.None? && !Cancellable(GetOrder(sys, orderId, env).order.value.status) ==>
      out == Outcome(GetOrder(sys, orderId, env).sys, Some(NotCancellable(GetOrder(sys, orderId, env).order.value.status)))
    // success iff the lookup succeeds, the status allows it and every write succeeds
    ensures out.err.None? <==>
      GetOrder(sys, orderId, env).err.None? && Cancellable(GetOrder(sys, orderId, env).order.value.status)
      && env.storeWrite && env.cacheSet && env.publish
    ensures out.err.None? ==>
      var before := GetOrder(sys, orderId, env).order.value;
      var after := CancelledOrder(before, reason, now);
      && out.sys.store == StoreUpdate(sys.store, orderId, after)
      && out.sys.cache == UpdateOrderCache(GetOrder(sys, orderId, env).sys.cache, after)
      && out.sys.events == sys.events + [OrderEvent(Cancel, after)]
    ensures out.err.Some? ==> out.sys.events == sys.events
    // a failed row write leaves the system as the lookup left it
    ensures
      var look := GetOrder(sys, orderId, env);
      look.err.None? && Cancellable(look.order.value.status) && !env.storeWrite ==>
        out == Outcome(look.sys, Some(StoreFailed))
    // once the row is written it stays written; the cache follows only a successful cache write
    ensures
      var look := GetOrder(sys, orderId, env);
      look.err.None? && Cancellable(look.order.value.status) && env.storeWrite ==>
        var after := CancelledOrder(look.order.value, reason, now);
        && out.sys.store == StoreUpdate(sys.store, orderId, after)
        && out.sys.cache == (if env.cacheSet then UpdateOrderCache(look.sys.cache, after) else look.sys.cache)
        && out.err == (if !env.cacheSet then Some(CacheFailed) else if !env.publish then Some(PublishFailed) else None)
  {
    var look := GetOrder(sys, orderId, env);
    if look.err.Some? then Outcome(look.sys, look.err)
    else
      var cur := look.order.value;
      if !Cancellable(cur.status) then Outcome(look.sys, Some(NotCancellable(cur.status)))
      else
        var o := CancelledOrder(cur, reason, now);
        if !env.storeWrite then Outcome(look.sys, Some(StoreFailed))
        else Propagate(look.sys.(store := StoreUpdate(look.sys.store, orderId, o)), Cancel, o, env)
  }

  /** The order after a cancel: cancelled with the reason, quantities, price
      and fee untouched. */
  function CancelledOrder(cur: Order, reason: string, now: int): (o: Order)
    ensures o.status == Cancelled && o.cancelReason == reason && o.updatedAt == now
    ensures o.(status := cur.status, cancelReason := cur.cancelReason, updatedAt := cur.updatedAt) == cur
  {
    cur.(status := Cancelled, cancelReason := reason, updatedAt := now)
  }

  // ---------------------------------------------------------------- fill

  /** The fee charged for one execution. */
  function FillFee(fillPrice: real, fillAmount: real, feeRate: real): real {
    fillAmount * fillPrice * feeRate
  }

  /** The status after a fill brought the cumulative quantity to `filled`. */
  function StatusAfterFill(filled: real, amount: real, prior: OrderStatus): (s: OrderStatus)
    ensures s == Filled <==> filled >= amount || (filled <= 0.0 && prior == Filled)
    ensures s == PartFilled <==> (0.0 < filled < amount) || (filled <= 0.0 && filled < amount && prior == PartFilled)
    ensures filled <= 0.0 && filled < amount ==> s == prior
  {
    if filled >= amount then Filled
    else if filled > 0.0 then PartFilled
    else prior
  }

  /** The order after one execution: the quantity and fee accumulate, the
      status is recomputed, nothing else changes. There is no status guard
      and overshooting `amount` is accepted. */
  function FilledOrder(cur: Order, fillPrice: real, fillAmount: real, feeRate: real, now: int): (o: Order)
    ensures o.filledAmount == cur.filledAmount + fillAmount
    ensures o.fee == cur.fee + FillFee(fillPrice, fillAmount, feeRate)
    ensures o.status == StatusAfterFill(o.filledAmount, cur.amount, cur.status)
    ensures o.updatedAt == now
    ensures o.(filledAmount := cur.filledAmount, fee := cur.fee, status := cur.status, updatedAt := cur.updatedAt) == cur
  {
    var filled := cur.filledAmount + fillAmount;
    cur.(filledAmount := filled,
         fee := cur.fee + FillFee(fillPrice, fillAmount, feeRate),
         status := StatusAfterFill(filled, cur.amount, cur.status),
         updatedAt := now)
  }

  /** The trade row a fill inserts. */
  function FillTrade(orderId: string, o: Order, fillPrice: real, fillAmount: real, feeRate: real, stamp: Stamp): (t: Trade)
    ensures t.orderId == orderId && t.symbol == o.symbol && t.price == fillPrice && t.amount == fillAmount
    ensures t.fee == FillFee(fillPrice, fillAmount, feeRate) && t.feeAsset == TradeFeeAsset
    ensures t.tradeId == stamp.tradeId && t.createdAt == stamp.now
  {
    Trade(stamp.rowId, stamp.now, stamp.tradeId, orderId, o.symbol, fillPrice, fillAmount,
          FillFee(fillPrice, fillAmount, feeRate), "USDT")
  }

  /** Fills an order: read it, accumulate, rewrite the row, insert the trade,
      cache it, publish "fill". The order row is written before the trade, so
      a failed trade insert leaves the row updated without its trade. */
  function FillOrder(sys: System, orderId: string, fillPrice: real, fillAmount: real, feeRate: real,
                     env: Env, stamp: Stamp): (out: Outcome)
    ensures GetOrder(sys, orderId, env).err.Some? ==>
      out == Outcome(GetOrder(sys, orderId, env).sys, GetOrder(sys, orderId, env).err)
    // success iff the lookup succeeds, the trade_id is new and every write succeeds
    ensures out.err.None? <==>
      GetOrder(sys, orderId, env).err.None? && env.storeWrite && env.tradeInsert
      && !TradeIdTaken(sys.trades, stamp.tradeId) && env.cacheSet && env.publish
    ensures GetOrder(sys, orderId, env).err.None? && env.storeWrite ==>
      var after := FilledOrder(GetOrder(sys, orderId, env).order.value, fillPrice, fillAmount, feeRate, stamp.now);
      out.sys.store == StoreUpdate(sys.store, orderId, after)
    // the trade is appended exactly when the row write and the insert succeed
    ensures out.sys.trades == sys.trades || (
      GetOrder(sys, orderId, env).err.None? && env.storeWrite && env.tradeInsert
      && out.sys.trades == sys.trades + [FillTrade(orderId, FilledOrder(GetOrder(sys, orderId, env).order.value,
           fillPrice, fillAmount, feeRate, stamp.now), fillPrice, fillAmount, feeRate, stamp)])
    ensures out.err.None? ==>
      var after := FilledOrder(GetOrder(sys, orderId, env).order.value, fillPrice, fillAmount, feeRate, stamp.now);
      && |out.sys.trades| == |sys.trades| + 1
      && out.sys.cache == UpdateOrderCache(GetOrder(sys, orderId, env).sys.cache, after)
      && out.sys.events == sys.events + [OrderEvent(Fill, after)]
    ensures out.err.Some? ==> out.sys.events == sys.events
    // a failed row write leaves the system as the lookup left it
    ensures
      var look := GetOrder(sys, orderId, env);
      look.err.None? && !env.storeWrite ==> out == Outcome(look.sys, Some(StoreFailed))
    // once the row is written it stays written; the trade insert comes next, and a
    // failed insert skips the cache write
    ensures
      var look := GetOrder(sys, orderId, env);
      look.err.None? && env.storeWrite ==>
        var after := FilledOrder(look.order.value, fillPrice, fillAmount, feeRate, stamp.now);
        var inserted := env.tradeInsert && !TradeIdTaken(sys.trades, stamp.tradeId);
        && out.sys.trades == (if inserted then sys.trades + [FillTrade(orderId, after, fillPrice, fillAmount, feeRate, stamp)] else sys.trades)
        && out.sys.cache == (if inserted && env.cacheSet then UpdateOrderCache(look.sys.cache, after) else look.sys.cache)
        && out.err == (if !inserted then Some(StoreFailed) else if !env.cacheSet then Some(CacheFailed)
                       else if !env.publish then Some(PublishFailed) else None)
  {
    var look := GetOrder(sys, orderId, env);
    if look.err.Some? then Outcome(look.sys, look.err)
    else
      var o := FilledOrder(look.order.value, fillPrice, fillAmount, feeRate, stamp.now);
      if !env.storeWrite then Outcome(look.sys, Some(StoreFailed))
      else
        var written := look.sys.(store := StoreUpdate(look.sys.store, orderId, o));
        if !env.tradeInsert || TradeIdTaken(written.trades, stamp.tradeId) then Outcome(written, Some(StoreFailed))
        else
          var t := FillTrade(orderId, o, fillPrice, fillAmount, feeRate, stamp);
          Propagate(written.(trades := written.trades + [t]), Fill, o, env)
  }
}
