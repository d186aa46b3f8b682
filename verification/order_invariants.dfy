/**
 * System-wide properties of the order lifecycle manager.
 *
 * `Sound` holds whatever the adapters do: rows are keyed by their order_id,
 * cache payloads sit under their own order's key and refer to a stored order,
 * trades refer to stored orders, and no order is ever `Rejected`.
 * `Synced` adds that the cache agrees with the store and that each order's
 * trades add up to its filled amount; commands keep it when every adapter call
 * succeeds, and a failure between steps can break it.
 */
module OrderInvariants {
  import opened Wrappers
  import opened OrderTypes
  import opened OrderLogic
  import opened OrderQueries

  ghost predicate Sound(sys: System) {
    && (forall id :: id in sys.store ==> sys.store[id].orderId == id && sys.store[id].status != Rejected)
    && (forall key :: key in sys.cache && sys.cache[key].Payload? ==>
          && key == CacheKey(sys.cache[key].doc.orderId)
          && sys.cache[key].doc.orderId in sys.store
          && sys.cache[key].doc.status != Rejected)
    && (forall i :: 0 <= i < |sys.trades| ==> sys.trades[i].orderId in sys.store)
  }

  /** The cached copy of every stored order is its current encoding. */
  ghost predicate CacheFresh(sys: System) {
    forall id :: id in sys.store && CacheKey(id) in sys.cache ==>
      sys.cache[CacheKey(id)] == Payload(Encode(sys.store[id]))
  }

  /** Every stored order's trades add up to its filled amount. */
  ghost predicate TradesMatch(sys: System) {
    forall id :: id in sys.store ==> SumAmounts(TradesOf(sys.trades, id)) == sys.store[id].filledAmount
  }

  ghost predicate Synced(sys: System) {
    Sound(sys) && CacheFresh(sys) && TradesMatch(sys)
  }

  const Empty: System := System(map[], [], map[], [])

  /** The empty system is synced. */
  lemma EmptySynced()
    ensures Synced(Empty)
  {
  }

  /** What a lookup in a sound system returns: the stored order of that id,
      never a rejected one, and the write-back keeps the system sound. */
  lemma LookupSound(sys: System, id: string, env: Env)
    requires Sound(sys)
    ensures Sound(GetOrder(sys, id, env).sys)
    ensures GetOrder(sys, id, env).order.Some? ==>
      && id in sys.store
      && GetOrder(sys, id, env).order.value.orderId == id
      && GetOrder(sys, id, env).order.value.status != Rejected
  {
    var look := GetOrder(sys, id, env);
    if CacheHit(sys, id, env) {
      var d := sys.cache[CacheKey(id)].doc;
      CacheKeyInjective(id, d.orderId);
    } else if look.order.Some? {
      var c := look.sys.cache;
      forall key | key in c && c[key].Payload?
        ensures key == CacheKey(c[key].doc.orderId) && c[key].doc.orderId in sys.store && c[key].doc.status != Rejected
      {
        if key != CacheKey(id) {
          assert key in sys.cache;
        }
      }
    }
  }

  /** In a synced system a lookup returns the business fields of the stored
      order, and keeps the system synced. */
  lemma LookupSynced(sys: System, id: string, env: Env)
    requires Synced(sys)
    ensures Synced(GetOrder(sys, id, env).sys)
    ensures GetOrder(sys, id, env).order.Some? ==>
      id in sys.store && Business(GetOrder(sys, id, env).order.value) == Business(sys.store[id])
  {
    LookupSound(sys, id, env);
    var look := GetOrder(sys, id, env);
    if CacheHit(sys, id, env) {
      DecodeEncode(Encode(sys.store[id]));
      EncodeIgnoresStoreFields(look.order.value, sys.store[id]);
    } else if look.order.Some? {
      forall j | j in sys.store && CacheKey(j) in look.sys.cache
        ensures look.sys.cache[CacheKey(j)] == Payload(Encode(sys.store[j]))
      {
        CacheKeyInjective(j, id);
      }
    }
  }

  /** A mutation that wrote `o` over row `id`, possibly cached it and kept
      every trade pointing at a stored order keeps the system sound. */
  lemma WriteKeepsSound(sys: System, id: string, o: Order, trades: seq<Trade>, cache: map<string, CacheValue>)
    requires Sound(sys) && id in sys.store && o.orderId == id && o.status != Rejected
    requires forall i :: 0 <= i < |trades| ==> trades[i].orderId in sys.store
    requires cache == sys.cache || cache == UpdateOrderCache(sys.cache, o)
    ensures Sound(System(StoreUpdate(sys.store, id, o), trades, cache, sys.events))
  {
    var store := StoreUpdate(sys.store, id, o);
    forall key | key in cache && cache[key].Payload?
      ensures key == CacheKey(cache[key].doc.orderId) && cache[key].doc.orderId in store && cache[key].doc.status != Rejected
    {
      if key != CacheKey(id) {
        assert key in sys.cache;
      }
    }
  }

  /** Create keeps the system sound under any adapter failures. */
  lemma CreateKeepsSound(sys: System, req: Order, env: Env, stamp: Stamp)
    requires Sound(sys)
    ensures Sound(CreateOrder(sys, req, env, stamp).sys)
  {
    var out := CreateOrder(sys, req, env, stamp);
    if out.sys != sys {
      var o := NewOrder(req, stamp);
      forall key | key in out.sys.cache && out.sys.cache[key].Payload?
        ensures key == CacheKey(out.sys.cache[key].doc.orderId) && out.sys.cache[key].doc.orderId in out.sys.store
          && out.sys.cache[key].doc.status != Rejected
      {
        if key != CacheKey(o.orderId) {
          assert key in sys.cache;
        }
      }
    }
  }

  /** Cancel keeps the system sound under any adapter failures; in particular
      it never produces a rejected order. */
  lemma CancelKeepsSound(sys: System, id: string, reason: string, env: Env, now: int)
    requires Sound(sys)
    ensures Sound(CancelOrder(sys, id, reason, env, now).sys)
  {
    LookupSound(sys, id, env);
    var look := GetOrder(sys, id, env);
    if look.err.None? && Cancellable(look.order.value.status) && env.storeWrite {
      var o := CancelledOrder(look.order.value, reason, now);
      var out := CancelOrder(sys, id, reason, env, now);
      WriteKeepsSound(look.sys, id, o, out.sys.trades, out.sys.cache);
    }
  }

  /** A trade for a stored order keeps every trade referring to a stored order. */
  lemma AppendKeepsRefs(trades: seq<Trade>, t: Trade, store: map<string, Order>)
    requires forall i :: 0 <= i < |trades| ==> trades[i].orderId in store
    requires t.orderId in store
    ensures forall i :: 0 <= i < |trades + [t]| ==> (trades + [t])[i].orderId in store
  {
    forall i | 0 <= i < |trades + [t]| ensures (trades + [t])[i].orderId in store {
      if i < |trades| {
        assert (trades + [t])[i] == trades[i];
      }
    }
  }

  /** Fill keeps the system sound under any adapter failures; in particular
      it never produces a rejected order, and its trade refers to a stored order. */
  lemma FillKeepsSound(sys: System, id: string, price: real, amount: real, rate: real, env: Env, stamp: Stamp)
    requires Sound(sys)
    ensures Sound(FillOrder(sys, id, price, amount, rate, env, stamp).sys)
  {
    LookupSound(sys, id, env);
    var look := GetOrder(sys, id, env);
    if look.err.None? && env.storeWrite {
      var o := FilledOrder(look.order.value, price, amount, rate, stamp.now);
      if !env.tradeInsert || TradeIdTaken(sys.trades, stamp.tradeId) {
        WriteKeepsSound(look.sys, id, o, sys.trades, look.sys.cache);
      } else {
        var t := FillTrade(id, o, price, amount, rate, stamp);
        AppendKeepsRefs(sys.trades, t, sys.store);
        var cache := if env.cacheSet then UpdateOrderCache(look.sys.cache, o) else look.sys.cache;
        WriteKeepsSound(look.sys, id, o, sys.trades + [t], cache);
      }
    }
  }

  /** A trade appended for `id` adds its amount to `id`'s total only. */
  lemma AppendTradeSums(trades: seq<Trade>, t: Trade, j: string)
    ensures SumAmounts(TradesOf(trades + [t], j)) ==
      SumAmounts(TradesOf(trades, j)) + (if t.orderId == j then t.amount else 0.0)
  {
    TradesOfAppend(trades, t, j);
    var extra := if t.orderId == j then [t] else [];
    SumAmountsConcat(TradesOf(trades, j), extra);
    if t.orderId == j {
      assert SumAmounts([t]) == t.amount + SumAmounts([t][1..]);
    }
  }

  /** With every adapter call succeeding, create keeps the system synced. */
  lemma CreateKeepsSynced(sys: System, req: Order, env: Env, stamp: Stamp)
    requires Synced(sys) && Healthy(env)
    ensures Synced(CreateOrder(sys, req, env, stamp).sys)
  {
    CreateKeepsSound(sys, req, env, stamp);
    var out := CreateOrder(sys, req, env, stamp);
    if out.err.None? {
      var o := NewOrder(req, stamp);
      var id := req.orderId;
      NoTradesSumZero(sys.trades, id);
      forall j | j in out.sys.store && CacheKey(j) in out.sys.cache
        ensures out.sys.cache[CacheKey(j)] == Payload(Encode(out.sys.store[j]))
      {
        CacheKeyInjective(j, id);
      }
    }
  }

  /** After a successful cancel of a synced system, the cache agrees with the store. */
  lemma CancelKeepsFresh(sys: System, id: string, reason: string, env: Env, now: int)
    requires Synced(sys) && CancelOrder(sys, id, reason, env, now).err.None?
    ensures CacheFresh(CancelOrder(sys, id, reason, env, now).sys)
  {
    LookupSynced(sys, id, env);
    var look := GetOrder(sys, id, env);
    var out := CancelOrder(sys, id, reason, env, now);
    var o := CancelledOrder(look.order.value, reason, now);
    forall j | j in out.sys.store && CacheKey(j) in out.sys.cache
      ensures out.sys.cache[CacheKey(j)] == Payload(Encode(out.sys.store[j]))
    {
      CacheKeyInjective(j, id);
      if j == id {
        EncodeIgnoresStoreFields(out.sys.store[j], o);
      }
    }
  }

  /** With every adapter call succeeding, cancel keeps the system synced. */
  lemma CancelKeepsSynced(sys: System, id: string, reason: string, env: Env, now: int)
    requires Synced(sys) && Healthy(env)
    ensures Synced(CancelOrder(sys, id, reason, env, now).sys)
  {
    CancelKeepsSound(sys, id, reason, env, now);
    LookupSynced(sys, id, env);
    if CancelOrder(sys, id, reason, env, now).err.None? {
      CancelKeepsFresh(sys, id, reason, env, now);
      LookupSound(sys, id, env);
    }
  }

  /** After a successful fill of a synced system, the cache agrees with the store. */
  lemma FillKeepsFresh(sys: System, id: string, price: real, amount: real, rate: real, env: Env, stamp: Stamp)
    requires Synced(sys) && FillOrder(sys, id, price, amount, rate, env, stamp).err.None?
    ensures CacheFresh(FillOrder(sys, id, price, amount, rate, env, stamp).sys)
  {
    LookupSynced(sys, id, env);
    var look := GetOrder(sys, id, env);
    var out := FillOrder(sys, id, price, amount, rate, env, stamp);
    var o := FilledOrder(look.order.value, price, amount, rate, stamp.now);
    forall j | j in out.sys.store && CacheKey(j) in out.sys.cache
      ensures out.sys.cache[CacheKey(j)] == Payload(Encode(out.sys.store[j]))
    {
      CacheKeyInjective(j, id);
      if j == id {
        EncodeIgnoresStoreFields(out.sys.store[j], o);
      }
    }
  }

  /** After a successful fill of a synced system, every order's trades still
      add up to its filled amount: the new trade carries exactly the growth. */
  lemma FillKeepsTradesMatch(sys: System, id: string, price: real, amount: real, rate: real, env: Env, stamp: Stamp)
    requires Synced(sys) && FillOrder(sys, id, price, amount, rate, env, stamp).err.None?
    ensures TradesMatch(FillOrder(sys, id, price, amount, rate, env, stamp).sys)
  {
    LookupSynced(sys, id, env);
    var look := GetOrder(sys, id, env);
    var out := FillOrder(sys, id, price, amount, rate, env, stamp);
    var o := FilledOrder(look.order.value, price, amount, rate, stamp.now);
    var t := FillTrade(id, o, price, amount, rate, stamp);
    assert out.sys.trades == sys.trades + [t];
    forall j | j in out.sys.store
      ensures SumAmounts(TradesOf(out.sys.trades, j)) == out.sys.store[j].filledAmount
    {
      AppendTradeSums(sys.trades, t, j);
    }
  }

  /** With every adapter call succeeding and a trade_id not used before, fill
      keeps the system synced. */
  lemma FillKeepsSynced(sys: System, id: string, price: real, amount: real, rate: real, env: Env, stamp: Stamp)
    requires Synced(sys) && Healthy(env) && !TradeIdTaken(sys.trades, stamp.tradeId)
    ensures Synced(FillOrder(sys, id, price, amount, rate, env, stamp).sys)
  {
    FillKeepsSound(sys, id, price, amount, rate, env, stamp);
    if FillOrder(sys, id, price, amount, rate, env, stamp).err.None? {
      FillKeepsFresh(sys, id, price, amount, rate, env, stamp);
      FillKeepsTradesMatch(sys, id, price, amount, rate, env, stamp);
    } else {
      LookupSynced(sys, id, env);
    }
  }

  /** In a synced system a successful fill adds its quantity and its fee to
      the stored row. */
  lemma SyncedFillAccumulates(sys: System, id: string, price: real, amount: real, rate: real, env: Env, stamp: Stamp)
    requires Synced(sys)
    requires FillOrder(sys, id, price, amount, rate, env, stamp).err.None?
    ensures
      var after := FillOrder(sys, id, price, amount, rate, env, stamp).sys;
      && id in sys.store && id in after.store
      && after.store[id].filledAmount == sys.store[id].filledAmount + amount
      && after.store[id].fee == sys.store[id].fee + FillFee(price, amount, rate)
  {
    LookupSynced(sys, id, env);
    var before := GetOrder(sys, id, env).order.value;
    var filled := FilledOrder(before, price, amount, rate, stamp.now);
    var after := FillOrder(sys, id, price, amount, rate, env, stamp).sys;
    assert Business(after.store[id]) == Business(filled);
    assert Business(before) == Business(sys.store[id]);
  }

  /** The three mutating commands of the lifecycle manager. */
  datatype Command =
    | CreateCmd(req: Order, stamp: Stamp)
    | CancelCmd(orderId: string, reason: string, now: int)
    | FillCmd(orderId: string, price: real, amount: real, rate: real, stamp: Stamp)

  function Run(sys: System, cmd: Command, env: Env): Outcome {
    match cmd
    case CreateCmd(req, stamp) => CreateOrder(sys, req, env, stamp)
    case CancelCmd(id, reason, now) => CancelOrder(sys, id, reason, env, now)
    case FillCmd(id, price, amount, rate, stamp) => FillOrder(sys, id, price, amount, rate, env, stamp)
  }

  /** No message on the log carries the `update` action. */
  ghost predicate NoUpdateEvents(events: seq<Message>) {
    forall i :: 0 <= i < |events| ==> events[i].value.action != Update
  }

  /** The action a command announces. */
  function CommandAction(cmd: Command): Action {
    match cmd
    case CreateCmd(_, _) => Create
    case CancelCmd(_, _, _) => Cancel
    case FillCmd(_, _, _, _, _) => Fill
  }

  /** Every command keeps the system sound, and publishes at most one message,
      keyed by the order_id it carries, whose action is the command's own and
      never `update`. */
  lemma RunKeepsSound(sys: System, cmd: Command, env: Env)
    requires Sound(sys) && NoUpdateEvents(sys.events)
    ensures Sound(Run(sys, cmd, env).sys)
    ensures NoUpdateEvents(Run(sys, cmd, env).sys.events)
    ensures
      var events := Run(sys, cmd, env).sys.events;
      && |sys.events| <= |events| <= |sys.events| + 1
      && events[..|sys.events|] == sys.events
      && (|events| > |sys.events| ==>
            && events[|sys.events|].value.action == CommandAction(cmd)
            && events[|sys.events|].key == events[|sys.events|].value.orderId)
  {
    var out := Run(sys, cmd, env);
    match cmd
    case CreateCmd(req, stamp) =>
      CreateKeepsSound(sys, req, env, stamp);
      AppendEvent(sys.events, out.sys.events, out.err.None?, OrderEvent(Create, NewOrder(req, stamp)));
    case CancelCmd(id, reason, now) =>
      CancelKeepsSound(sys, id, reason, env, now);
      if out.err.None? {
        var o := CancelledOrder(GetOrder(sys, id, env).order.value, reason, now);
        AppendEvent(sys.events, out.sys.events, true, OrderEvent(Cancel, o));
      }
    case FillCmd(id, price, amount, rate, stamp) =>
      FillKeepsSound(sys, id, price, amount, rate, env, stamp);
      if out.err.None? {
        var o := FilledOrder(GetOrder(sys, id, env).order.value, price, amount, rate, stamp.now);
        AppendEvent(sys.events, out.sys.events, true, OrderEvent(Fill, o));
      }
  }

  /** Appending one message that is not `update`, or none, keeps the log free
      of `update` and keeps its old messages in place. */
  lemma AppendEvent(before: seq<Message>, after: seq<Message>, appended: bool, m: Message)
    requires NoUpdateEvents(before) && m.value.action != Update
    requires after == if appended then before + [m] else before
    ensures NoUpdateEvents(after)
    ensures |before| <= |after| <= |before| + 1 && after[..|before|] == before
    ensures |after| > |before| ==> after[|before|] == m
  {
    assert after[..|before|] == before;
  }
}
