/**
 * Properties relating several commands of the order lifecycle manager, and
 * concrete runs on one order, stated as the code behaves.
 */
module OrderProperties {
  import opened Wrappers
  import opened OrderTypes
  import opened OrderLogic
  import opened OrderQueries
  import opened OrderInvariants
  import opened OrderHandler

  /** After a successful create, a read that reaches the cache returns the
      new order's business fields, with no store read. */
  lemma CreateThenGet(sys: System, req: Order, env: Env, stamp: Stamp, env2: Env)
    requires CreateOrder(sys, req, env, stamp).err.None? && env2.cacheGet
    ensures
      var after := CreateOrder(sys, req, env, stamp).sys;
      GetOrder(after, req.orderId, env2) == Lookup(Some(Business(NewOrder(req, stamp))), None, after)
  {
  }

  /** After a successful cancel, a read that reaches the cache returns the
      cancelled order. */
  lemma CancelThenGet(sys: System, id: string, reason: string, env: Env, now: int, env2: Env)
    requires Sound(sys)
    requires CancelOrder(sys, id, reason, env, now).err.None? && env2.cacheGet
    ensures
      var after := CancelOrder(sys, id, reason, env, now).sys;
      var look := GetOrder(after, id, env2);
      && look.err.None? && look.order.value.status == Cancelled && look.order.value.cancelReason == reason
  {
    LookupSound(sys, id, env);
  }

  /** After a successful fill, a read that reaches the cache returns the
      filled order. */
  lemma FillThenGet(sys: System, id: string, price: real, amount: real, rate: real, env: Env, stamp: Stamp, env2: Env)
    requires Sound(sys)
    requires FillOrder(sys, id, price, amount, rate, env, stamp).err.None? && env2.cacheGet
    ensures
      var before := GetOrder(sys, id, env).order.value;
      var look := GetOrder(FillOrder(sys, id, price, amount, rate, env, stamp).sys, id, env2);
      && look.err.None?
      && look.order.value.filledAmount == before.filledAmount + amount
      && look.order.value.fee == before.fee + FillFee(price, amount, rate)
  {
    LookupSound(sys, id, env);
  }

  /** A read that went to the store and refreshed the cache is answered from
      the cache next time, with the same business fields. */
  lemma MissThenHit(sys: System, id: string, env: Env, env2: Env)
    requires Sound(sys)
    requires !CacheHit(sys, id, env) && env.storeRead && env.cacheRefresh && id in sys.store
    requires env2.cacheGet
    ensures
      var first := GetOrder(sys, id, env);
      var second := GetOrder(first.sys, id, env2);
      && first.order == Some(sys.store[id])
      && second.sys == first.sys
      && second.order == Some(Business(sys.store[id]))
  {
  }

  /** In a sound system, once a cancel succeeded every further cancel of that
      order fails, whatever the adapters do, and the stored row stays cancelled. */
  lemma CancelTwiceFails(sys: System, id: string, r1: string, env1: Env, t1: int, r2: string, env2: Env, t2: int)
    requires Sound(sys)
    requires CancelOrder(sys, id, r1, env1, t1).err.None?
    ensures
      var mid := CancelOrder(sys, id, r1, env1, t1).sys;
      var last := CancelOrder(mid, id, r2, env2, t2);
      && last.err.Some?
      && (GetOrder(mid, id, env2).err.None? ==> last.err == Some(NotCancellable(Cancelled)))
      && id in last.sys.store && last.sys.store[id].status == Cancelled
  {
    LookupSound(sys, id, env1);
    var mid := CancelOrder(sys, id, r1, env1, t1).sys;
    CancelKeepsSound(sys, id, r1, env1, t1);
    var look := GetOrder(mid, id, env2);
    LookupSound(mid, id, env2);
  }

  /** A fill has no status guard: on a cancelled order whose lookup and
      writes succeed it is accepted, and a positive quantity moves the order
      out of `Cancelled`. */
  lemma FillRevivesCancelled(sys: System, id: string, price: real, amount: real, rate: real, env: Env, stamp: Stamp)
    requires Healthy(env) && !TradeIdTaken(sys.trades, stamp.tradeId)
    requires GetOrder(sys, id, env).order.Some? && GetOrder(sys, id, env).err.None?
    requires GetOrder(sys, id, env).order.value.status == Cancelled
    requires GetOrder(sys, id, env).order.value.filledAmount >= 0.0 && amount > 0.0
    ensures FillOrder(sys, id, price, amount, rate, env, stamp).err.None?
    ensures
      var after := FilledOrder(GetOrder(sys, id, env).order.value, price, amount, rate, stamp.now);
      after.status == Filled || after.status == PartFilled
  {
  }

  /** A failed trade insert leaves the order row updated without its trade:
      after one such fill the synced system is no longer synced. */
  lemma TradeInsertFailureBreaksSums()
    ensures
      var o := NewOrder(Order(0, 0, 0, "O1", 7, "ETH/USDT", Limit, Buy, 100.0, 10.0, 0.0, 0.0, "", Pending, ""),
                        Stamp(1, 1, ""));
      var sys := System(map["O1" := o], [], map[], []);
      var env := Env(true, true, true, true, false, true, true);
      var out := FillOrder(sys, "O1", 100.0, 4.0, 0.001, env, Stamp(2, 1, "trade_2"));
      && Synced(sys)
      && out.err == Some(StoreFailed)
      && out.sys.store["O1"].filledAmount == 4.0
      && out.sys.trades == []
      && !Synced(out.sys)
  {
    var o := NewOrder(Order(0, 0, 0, "O1", 7, "ETH/USDT", Limit, Buy, 100.0, 10.0, 0.0, 0.0, "", Pending, ""),
                      Stamp(1, 1, ""));
    var sys := System(map["O1" := o], [], map[], []);
    var env := Env(true, true, true, true, false, true, true);
    var out := FillOrder(sys, "O1", 100.0, 4.0, 0.001, env, Stamp(2, 1, "trade_2"));
    assert SumAmounts(TradesOf(out.sys.trades, "O1")) == 0.0;
  }

  const AllSucceed: Env := Env(true, true, true, true, true, true, true)

  /** A fill served from a cached copy of `o`, every adapter call succeeding:
      the row, the cache and the trade list all carry the filled order. */
  lemma FillFromCache(sys: System, id: string, o: Order, price: real, amount: real, rate: real, stamp: Stamp)
    requires id in sys.store && CacheKey(id) in sys.cache && sys.cache[CacheKey(id)] == Payload(Encode(o))
    requires o.orderId == id && !TradeIdTaken(sys.trades, stamp.tradeId)
    ensures
      var out := FillOrder(sys, id, price, amount, rate, AllSucceed, stamp);
      var after := FilledOrder(Business(o), price, amount, rate, stamp.now);
      && out.err.None?
      && Business(out.sys.store[id]) == Business(after)
      && out.sys.cache == sys.cache[CacheKey(id) := Payload(Encode(after))]
      && out.sys.trades == sys.trades + [FillTrade(id, after, price, amount, rate, stamp)]
  {
    assert CacheHit(sys, id, AllSucceed);
  }

  // A create, fill, fill, cancel run on O1, step by step: fill 4 then 6 at
  // price 100 with fee rate 0.001, all adapters succeeding.
  const O1Request: Order :=
    Order(0, 0, 0, "O1", 7, "ETH/USDT", OtherType(""), OtherSide(""), 100.0, 10.0, 0.0, 0.0, "", Pending, "")
  const O1Created: Outcome := CreateOrder(Empty, O1Request, AllSucceed, Stamp(1, 1, ""))
  const O1FirstFill: Outcome := FillOrder(O1Created.sys, "O1", 100.0, 4.0, 0.001, AllSucceed, Stamp(2, 1, "trade_2"))
  const O1SecondFill: Outcome := FillOrder(O1FirstFill.sys, "O1", 100.0, 6.0, 0.001, AllSucceed, Stamp(3, 2, "trade_3"))
  const O1Cancel: Outcome := CancelOrder(O1SecondFill.sys, "O1", "", AllSucceed, 4)

  /** The create succeeds with a pending, unfilled limit buy order. */
  lemma ScenarioCreate()
    ensures O1Created.err.None?
    ensures O1Created.sys.store == map["O1" := NewOrder(O1Request, Stamp(1, 1, ""))]
    ensures O1Created.sys.cache == map[CacheKey("O1") := Payload(Encode(NewOrder(O1Request, Stamp(1, 1, ""))))]
    ensures O1Created.sys.trades == []
    ensures O1Created.sys.store["O1"].status == Pending && O1Created.sys.store["O1"].filledAmount == 0.0
    ensures O1Created.sys.store["O1"].orderType == Limit && O1Created.sys.store["O1"].orderSide == Buy
  {
  }

  /** The first fill leaves O1 part-filled at 4 with fee 0.4 and one trade of 4. */
  lemma ScenarioFirstFill()
    ensures O1FirstFill.err.None?
    ensures "O1" in O1FirstFill.sys.store && CacheKey("O1") in O1FirstFill.sys.cache
    ensures O1FirstFill.sys.store["O1"].filledAmount == 4.0 && O1FirstFill.sys.store["O1"].fee == 0.4
    ensures O1FirstFill.sys.store["O1"].status == PartFilled
    ensures |O1FirstFill.sys.trades| == 1 && O1FirstFill.sys.trades[0].amount == 4.0
    ensures O1FirstFill.sys.cache[CacheKey("O1")] == Payload(Encode(O1FirstFill.sys.store["O1"]))
  {
    ScenarioCreate();
    var o1 := NewOrder(O1Request, Stamp(1, 1, ""));
    FillFromCache(O1Created.sys, "O1", o1, 100.0, 4.0, 0.001, Stamp(2, 1, "trade_2"));
    var o2 := FilledOrder(Business(o1), 100.0, 4.0, 0.001, 2);
    assert o2.filledAmount == 4.0 && o2.fee == 0.4 && o2.status == PartFilled;
    EncodeIgnoresStoreFields(O1FirstFill.sys.store["O1"], o2);
  }

  /** The second fill completes O1. */
  lemma ScenarioSecondFill()
    ensures O1SecondFill.err.None?
    ensures "O1" in O1SecondFill.sys.store && CacheKey("O1") in O1SecondFill.sys.cache
    ensures O1SecondFill.sys.store["O1"].filledAmount == 10.0 && O1SecondFill.sys.store["O1"].status == Filled
    ensures O1SecondFill.sys.cache[CacheKey("O1")] == Payload(Encode(O1SecondFill.sys.store["O1"]))
  {
    ScenarioFirstFill();
    var o2 := O1FirstFill.sys.store["O1"];
    assert !TradeIdTaken(O1FirstFill.sys.trades, "trade_3");
    FillFromCache(O1FirstFill.sys, "O1", o2, 100.0, 6.0, 0.001, Stamp(3, 2, "trade_3"));
    var o3 := FilledOrder(Business(o2), 100.0, 6.0, 0.001, 3);
    EncodeIgnoresStoreFields(O1SecondFill.sys.store["O1"], o3);
  }

  /** A cancel of an order whose cached copy has a final status is refused
      without any change, whatever the writes would have done. */
  lemma CancelRefusedFromCache(sys: System, id: string, o: Order, reason: string, env: Env, now: int)
    requires env.cacheGet && CacheKey(id) in sys.cache && sys.cache[CacheKey(id)] == Payload(Encode(o))
    requires !Cancellable(o.status)
    ensures CancelOrder(sys, id, reason, env, now) == Outcome(sys, Some(NotCancellable(o.status)))
  {
    assert CacheHit(sys, id, env);
    assert Decode(Encode(o)).status == o.status;
  }

  /** Cancelling the filled O1 fails on its status. */
  lemma ScenarioCancelFilled()
    ensures O1Cancel.err == Some(NotCancellable(Filled))
  {
    ScenarioSecondFill();
    CancelRefusedFromCache(O1SecondFill.sys, "O1", O1SecondFill.sys.store["O1"], "", AllSucceed, 4);
  }

  /** The code does not treat cancelled as final: after a cancel of O2, a
      fill is still accepted and the order is part-filled again. */
  lemma ScenarioCancelThenFill()
    ensures
      var req := Order(0, 0, 0, "O2", 7, "", Market, Sell, 100.0, 5.0, 0.0, 0.0, "", Pending, "");
      var s1 := CreateOrder(Empty, req, AllSucceed, Stamp(1, 1, ""));
      var s2 := CancelOrder(s1.sys, "O2", "user requested", AllSucceed, 2);
      var s3 := FillOrder(s2.sys, "O2", 100.0, 1.0, 0.001, AllSucceed, Stamp(3, 1, "trade_3"));
      && s1.sys.store["O2"].symbol == DefaultSymbol
      && s2.err.None? && s2.sys.store["O2"].status == Cancelled
      && s2.sys.store["O2"].cancelReason == "user requested"
      && s3.err.None? && s3.sys.store["O2"].status == PartFilled
  {
  }

  /** A create with price 0 fails validation and leaves store, cache and
      log untouched. */
  lemma ScenarioZeroPrice(sys: System, env: Env, stamp: Stamp)
    ensures
      var req := Order(0, 0, 0, "O3", 7, "ETH/USDT", Limit, Buy, 0.0, 5.0, 0.0, 0.0, "", Pending, "");
      CreateOrder(sys, req, env, stamp) == Outcome(sys, Some(Invalid("price must be positive")))
  {
  }

  /** The adapter outcomes of a fill whose cache write fails. */
  const CacheWriteFails: Env := Env(true, true, true, true, true, false, true)

  /** The run on O1 stays synced through its first fill. */
  lemma FirstFillSynced()
    ensures Synced(O1FirstFill.sys)
  {
    EmptySynced();
    CreateKeepsSynced(Empty, O1Request, AllSucceed, Stamp(1, 1, ""));
    ScenarioCreate();
    assert !TradeIdTaken(O1Created.sys.trades, "trade_2");
    FillKeepsSynced(O1Created.sys, "O1", 100.0, 4.0, 0.001, AllSucceed, Stamp(2, 1, "trade_2"));
  }

  /** The fill of 6 on O1 after its first fill, with a failing cache write. */
  const O1StaleFill: Outcome := FillOrder(O1FirstFill.sys, "O1", 100.0, 6.0, 0.001, CacheWriteFails, Stamp(3, 2, "trade_3"))

  /** That fill writes 10 to the row and inserts its trade, but the cache
      still holds the copy with 4. */
  lemma StaleFill()
    ensures O1StaleFill.err == Some(CacheFailed)
    ensures "O1" in O1StaleFill.sys.store && O1StaleFill.sys.store["O1"].filledAmount == 10.0
    ensures O1StaleFill.sys.cache == O1FirstFill.sys.cache
    ensures !TradeIdTaken(O1StaleFill.sys.trades, "trade_4")
  {
    ScenarioFirstFill();
    var sys := O1FirstFill.sys;
    var o := sys.store["O1"];
    assert !TradeIdTaken(sys.trades, "trade_3");
    FillCacheWriteFails(sys, "O1", o, 100.0, 6.0, 0.001, Stamp(3, 2, "trade_3"));
    assert sys.trades[0].tradeId == "trade_2";
  }

  /** A fill served from a cached copy of `o` whose cache write fails: the row
      and the trade list carry the filled order, the cache keeps `o`. */
  lemma FillCacheWriteFails(sys: System, id: string, o: Order, price: real, amount: real, rate: real, stamp: Stamp)
    requires id in sys.store && CacheKey(id) in sys.cache && sys.cache[CacheKey(id)] == Payload(Encode(o))
    requires o.orderId == id && !TradeIdTaken(sys.trades, stamp.tradeId)
    ensures
      var out := FillOrder(sys, id, price, amount, rate, CacheWriteFails, stamp);
      var after := FilledOrder(Business(o), price, amount, rate, stamp.now);
      && out.err == Some(CacheFailed)
      && Business(out.sys.store[id]) == Business(after)
      && out.sys.cache == sys.cache
      && out.sys.trades == sys.trades + [FillTrade(id, after, price, amount, rate, stamp)]
  {
    assert CacheHit(sys, id, CacheWriteFails);
  }

  /** A later healthy fill of 1 on O1 through the handler, at the default fee rate. */
  const O1Refill: Response<()> :=
    FillOrderHandler(O1StaleFill.sys, "O1", Some(100.0), Some(1.0), None, AllSucceed, Stamp(4, 3, "trade_4"))

  /** A failed cache write leaves a stale cached copy, and a later fill reads
      it and writes it back: after O1 is filled to 4, a fill of 6 whose cache
      write fails stores 10 but leaves 4 in the cache, and a healthy fill of 1
      through the handler is accepted and lowers the stored amount to 5. */
  lemma StaleCacheLowersFill()
    ensures Synced(O1FirstFill.sys)
    ensures O1StaleFill.err == Some(CacheFailed)
    ensures "O1" in O1StaleFill.sys.store && O1StaleFill.sys.store["O1"].filledAmount == 10.0
    ensures O1Refill.reply.Success?
    ensures "O1" in O1Refill.sys.store && O1Refill.sys.store["O1"].filledAmount == 5.0
  {
    FirstFillSynced();
    StaleFill();
    Refill();
  }

  /** A fill through the handler at the default rate, served from a cached
      copy of `o`, every adapter call succeeding, stores `o`'s filled amount
      plus the fill quantity. */
  lemma HandledFillFromCache(sys: System, id: string, o: Order, price: real, amount: real, stamp: Stamp)
    requires id in sys.store && CacheKey(id) in sys.cache && sys.cache[CacheKey(id)] == Payload(Encode(o))
    requires o.orderId == id && !TradeIdTaken(sys.trades, stamp.tradeId)
    requires id != "" && price > 0.0 && amount > 0.0
    ensures
      var res := FillOrderHandler(sys, id, Some(price), Some(amount), None, AllSucceed, stamp);
      && res.reply.Success?
      && id in res.sys.store && res.sys.store[id].filledAmount == o.filledAmount + amount
  {
    assert EffectiveFeeRate(None) == 0.001;
    assert FillParamsValid(id, Some(price), Some(amount));
    FillFromCache(sys, id, o, price, amount, 0.001, stamp);
  }

  /** The healthy fill of 1 reads the stale copy with 4 and stores 5. */
  lemma Refill()
    ensures O1Refill.reply.Success?
    ensures "O1" in O1Refill.sys.store && O1Refill.sys.store["O1"].filledAmount == 5.0
  {
    ScenarioFirstFill();
    StaleFill();
    HandledFillFromCache(O1StaleFill.sys, "O1", O1FirstFill.sys.store["O1"], 100.0, 1.0, Stamp(4, 3, "trade_4"));
  }

  /** The same stale copy lets a second cancel succeed: when the cache write of
      a cancel fails, the row is cancelled but the cache still says pending,
      and a second cancel reads that copy and is accepted. */
  lemma StaleCacheCancelsTwice()
    ensures
      var req := Order(0, 0, 0, "O2", 7, "", Market, Sell, 100.0, 5.0, 0.0, 0.0, "", Pending, "");
      var s1 := CreateOrder(Empty, req, AllSucceed, Stamp(1, 1, ""));
      var s2 := CancelOrder(s1.sys, "O2", "first", CacheWriteFails, 2);
      var s3 := CancelOrder(s2.sys, "O2", "second", AllSucceed, 3);
      && s2.err == Some(CacheFailed) && s2.sys.store["O2"].status == Cancelled
      && s3.err.None? && s3.sys.store["O2"].cancelReason == "second"
  {
  }
}
