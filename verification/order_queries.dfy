/**
 * The two list queries of the order service: a user's orders, newest first,
 * optionally restricted to one status; and an order's trades, oldest first.
 */
module OrderQueries {
  import opened Wrappers
  import opened OrderTypes
  import opened Sorting

  /** Whether `o` belongs to the user and, when a status text is given, has it.
      The empty status text means no status filter. */
  function MatchesUser(o: Order, userId: int, status: string): (b: bool)
    ensures b <==> o.userId == userId && (status == "" || StatusOf(status) == Some(o.status))
  {
    o.userId == userId && (status == "" || StatusText(o.status) == status)
  }

  /** Sort key putting the newest order first. */
  function NewestFirst(o: Order): int {
    -o.createdAt
  }

  /** Sort key putting the oldest trade first. */
  function OldestFirst(t: Trade): int {
    t.createdAt
  }

  /** The keys among `keys` whose rows match the query. */
  ghost function MatchingKeys(store: map<string, Order>, keys: set<string>, userId: int, status: string): set<string>
    requires keys <= store.Keys
  {
    set k | k in keys && MatchesUser(store[k], userId, status)
  }

  /** Looking at one more key adds it to the matches exactly when its row matches. */
  lemma MatchingKeysAdd(store: map<string, Order>, keys: set<string>, k: string, userId: int, status: string)
    requires keys <= store.Keys && k in store && k !in keys
    ensures |MatchingKeys(store, keys + {k}, userId, status)|
      == |MatchingKeys(store, keys, userId, status)| + (if MatchesUser(store[k], userId, status) then 1 else 0)
  {
    if MatchesUser(store[k], userId, status) {
      assert MatchingKeys(store, keys + {k}, userId, status) == MatchingKeys(store, keys, userId, status) + {k};
    } else {
      assert MatchingKeys(store, keys + {k}, userId, status) == MatchingKeys(store, keys, userId, status);
    }
  }

  /** `r` lists, newest first, exactly the matching rows among the keys `seen`, one per key. */
  ghost predicate Collected(store: map<string, Order>, seen: set<string>, r: seq<Order>, userId: int, status: string)
    requires seen <= store.Keys
  {
    && (forall o :: o in r ==> o in store.Values && MatchesUser(o, userId, status))
    && (forall k :: k in seen && MatchesUser(store[k], userId, status) ==> store[k] in r)
    && |r| == |MatchingKeys(store, seen, userId, status)|
    && SortedBy(r, NewestFirst)
  }

  /** A matching row under one more key, inserted in order, keeps `Collected`. */
  lemma CollectMatch(store: map<string, Order>, seen: set<string>, k: string, r: seq<Order>, userId: int, status: string)
    requires seen <= store.Keys && k in store && k !in seen
    requires MatchesUser(store[k], userId, status)
    requires Collected(store, seen, r, userId, status)
    ensures Collected(store, seen + {k}, InsertBy(store[k], r, NewestFirst), userId, status)
  {
    MatchingKeysAdd(store, seen, k, userId, status);
    var r' := InsertBy(store[k], r, NewestFirst);
    assert store[k] in store.Values;
    forall j | j in seen + {k} && MatchesUser(store[j], userId, status)
      ensures store[j] in r'
    {
      if j != k {
        assert store[j] in r;
      }
    }
  }

  /** A row under one more key that does not match leaves `Collected` as it was. */
  lemma CollectSkip(store: map<string, Order>, seen: set<string>, k: string, r: seq<Order>, userId: int, status: string)
    requires seen <= store.Keys && k in store && k !in seen
    requires !MatchesUser(store[k], userId, status)
    requires Collected(store, seen, r, userId, status)
    ensures Collected(store, seen + {k}, r, userId, status)
  {
    MatchingKeysAdd(store, seen, k, userId, status);
  }

  /** Lists the user's orders, newest first: exactly the matching rows, one per row. */
  method GetUserOrders(store: map<string, Order>, userId: int, status: string) returns (r: seq<Order>)
    ensures forall o :: o in r ==> o in store.Values && MatchesUser(o, userId, status)
    ensures forall k :: k in store && MatchesUser(store[k], userId, status) ==> store[k] in r
    ensures |r| == |MatchingKeys(store, store.Keys, userId, status)|
    ensures SortedBy(r, NewestFirst)
  {
    r := [];
    var rest := store.Keys;
    ghost var seen: set<string> := {};
    while rest != {}
      invariant rest + seen == store.Keys && rest !! seen
      invariant Collected(store, seen, r, userId, status)
      decreases rest
    {
      var k :| k in rest;
      if MatchesUser(store[k], userId, status) {
        CollectMatch(store, seen, k, r, userId, status);
        r := InsertBy(store[k], r, NewestFirst);
      } else {
        CollectSkip(store, seen, k, r, userId, status);
      }
      rest := rest - {k};
      seen := seen + {k};
    }
    assert seen == store.Keys;
  }

  /** The trades of one order, in the order they were inserted. */
  function TradesOf(trades: seq<Trade>, orderId: string): seq<Trade> {
    if |trades| == 0 then []
    else (if trades[0].orderId == orderId then [trades[0]] else []) + TradesOf(trades[1..], orderId)
  }

  /** The trades of an order are exactly the trades that refer to it. */
  lemma {:induction false} TradesOfMembers(trades: seq<Trade>, orderId: string)
    ensures forall t :: t in TradesOf(trades, orderId) <==> t in trades && t.orderId == orderId
    decreases |trades|
  {
    if |trades| > 0 {
      TradesOfMembers(trades[1..], orderId);
      assert trades == [trades[0]] + trades[1..];
    }
  }

  /** Total executed quantity over a list of trades. */
  function SumAmounts(ts: seq<Trade>): real {
    if |ts| == 0 then 0.0 else ts[0].amount + SumAmounts(ts[1..])
  }

  /** Appending a trade adds it to the order it refers to and to no other. */
  lemma {:induction false} TradesOfAppend(trades: seq<Trade>, t: Trade, orderId: string)
    ensures TradesOf(trades + [t], orderId) == TradesOf(trades, orderId) + (if t.orderId == orderId then [t] else [])
    decreases |trades|
  {
    if |trades| == 0 {
      assert trades + [t] == [t];
      assert [t][1..] == [];
    } else {
      var head := if trades[0].orderId == orderId then [trades[0]] else [];
      var extra := if t.orderId == orderId then [t] else [];
      assert (trades + [t])[0] == trades[0];
      assert (trades + [t])[1..] == trades[1..] + [t];
      TradesOfAppend(trades[1..], t, orderId);
      assert TradesOf(trades + [t], orderId) == head + (TradesOf(trades[1..], orderId) + extra);
      assert TradesOf(trades, orderId) == head + TradesOf(trades[1..], orderId);
    }
  }

  /** The total of a concatenation is the sum of the totals. */
  lemma {:induction false} SumAmountsConcat(a: seq<Trade>, b: seq<Trade>)
    ensures SumAmounts(a + b) == SumAmounts(a) + SumAmounts(b)
    decreases |a|
  {
    if |a| == 0 {
      assert a + b == b;
    } else {
      assert (a + b)[1..] == a[1..] + b;
      SumAmountsConcat(a[1..], b);
    }
  }

  /** An order no trade refers to has no trades and total zero. */
  lemma {:induction false} NoTradesSumZero(trades: seq<Trade>, orderId: string)
    requires forall i :: 0 <= i < |trades| ==> trades[i].orderId != orderId
    ensures TradesOf(trades, orderId) == []
    ensures SumAmounts(TradesOf(trades, orderId)) == 0.0
    decreases |trades|
  {
    if |trades| > 0 {
      NoTradesSumZero(trades[1..], orderId);
    }
  }

  /** Inserting into a sorted list adds the trade's amount to the total. */
  lemma {:induction false} InsertBySum(x: Trade, s: seq<Trade>)
    requires SortedBy(s, OldestFirst)
    ensures SumAmounts(InsertBy(x, s, OldestFirst)) == x.amount + SumAmounts(s)
    decreases |s|
  {
    if |s| == 0 {
      assert InsertBy(x, s, OldestFirst) == [x];
      assert [x][1..] == [];
    } else if OldestFirst(x) <= OldestFirst(s[0]) {
      assert InsertBy(x, s, OldestFirst) == [x] + s;
      assert ([x] + s)[1..] == s;
    } else {
      var tail := InsertBy(x, s[1..], OldestFirst);
      assert InsertBy(x, s, OldestFirst) == [s[0]] + tail;
      assert ([s[0]] + tail)[1..] == tail;
      InsertBySum(x, s[1..]);
      assert SumAmounts(s) == s[0].amount + SumAmounts(s[1..]);
    }
  }

  /** Sorting trades does not change their total. */
  lemma {:induction false} SortBySum(s: seq<Trade>)
    ensures SumAmounts(SortBy(s, OldestFirst)) == SumAmounts(s)
    decreases |s|
  {
    if |s| > 0 {
      SortBySum(s[1..]);
      InsertBySum(s[0], SortBy(s[1..], OldestFirst));
    }
  }

  /** Lists an order's trades, oldest first: exactly its trades, whose amounts
      add up to the same total as in insertion order. */
  function GetOrderTrades(trades: seq<Trade>, orderId: string): (r: seq<Trade>)
    ensures forall t :: t in r <==> t in trades && t.orderId == orderId
    ensures multiset(r) == multiset(TradesOf(trades, orderId))
    ensures SortedBy(r, OldestFirst)
    ensures SumAmounts(r) == SumAmounts(TradesOf(trades, orderId))
  {
    var mine := TradesOf(trades, orderId);
    TradesOfMembers(trades, orderId);
    SortBySum(mine);
    SortBy(mine, OldestFirst)
  }
}
