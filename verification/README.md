# Order service, token instruction decoder and calculator, in Dafny

This project models three pieces of the Web3 repository and proves properties about them.

**The order lifecycle of the `five` service.** A trading-order service keeps order rows and trade rows in a relational store. It caches each order as JSON under `order:<order_id>` and publishes a lifecycle message for every change.
- The logic (`five/internal/logic/order/order.go`) creates, cancels, fills and reads orders, and lists a user's orders and an order's trades.
- The six HTTP handlers (`five/internal/handler/order/order.go`) check parameters and default the fee rate.
- Each command is a pure function over `System`, which holds the store (a map keyed by order_id), the trade list, the cache and the message log.
- Whether each adapter call (cache get, store read, cache write-back, store write, trade insert, cache set, publish) succeeds is an input (`Env`). So is the clock with the generated row id and trade id (`Stamp`).
- JSON is a field projection: `Encode` drops the surrogate id and the two timestamps.

**The Solana token program (`six/solana.rs`).**
- `Unpack` decodes instruction data: a tag byte, then a decimals byte or a little-endian u64 amount.
- `ProcessInstruction` dispatches to one of three instruction handlers, whose account checks run in the source's order.
- The token library's own operations are inputs (`Runtime`).

**The command-line calculator (`Week2/calculator.go`).** It checks the argument count, parses both operands and applies one of `+ - * / %`. Its `%` uses Go's truncated remainder, written out as `GoRem` because Dafny's `%` is Euclidean.

The model follows the code, also where it departs from what an order lifecycle would be expected to do:
- A fill has no status guard. A cancelled or filled order is filled again and its status recomputed (`FillRevivesCancelled`, `ScenarioCancelThenFill`).
- A failed cache write-back in `GetOrder` makes cancel and fill fail, although the order was read.
- Create refuses only `user_id == 0`; a negative user id is accepted. The list handler refuses `user_id <= 0`.
- No operation ever produces `rejected`.
- A fill writes the order row before inserting the trade, so a failed insert leaves the filled amount ahead of the trades (`TradeInsertFailureBreaksSums`).
- A failed cache write after the row write leaves a stale cached copy, and cancel and fill read the cache first. A later fill then writes the stale copy back and lowers the stored filled amount (`StaleCacheLowersFill`). A cancelled order whose cache write failed can be cancelled again (`StaleCacheCancelsTwice`). This lost update needs no concurrency.

Modules: `Wrappers` (Option/Result), `Sorting`, `OrderTypes`, `OrderLogic`, `OrderQueries`, `OrderInvariants`, `OrderProperties`, `OrderHandler`, `TokenProgram`, `Calculator`.

## Model

| member | source | states |
|---|---|---|
| OrderTypes.StatusTextRoundTrip | five/internal/types/order.go:24-32 | each of the five statuses is stored as its own text and reads back as itself |
| OrderTypes.StatusOf | five/internal/types/order.go:24-32 | a text read as a status is that status's stored text; other text is no status |
| OrderTypes.TypeOf | five/internal/types/order.go:8-13 | any type text is representable and kept verbatim; it is "other" exactly when it is neither `limit` nor `market` |
| OrderTypes.TypeTextRoundTrip | five/internal/types/order.go:8-13 | every order type is stored as a text that reads back as that type, so one text has one representation |
| OrderTypes.SideOf | five/internal/types/order.go:16-21 | any side text is kept verbatim; it is "other" exactly when it is neither `buy` nor `sell` |
| OrderTypes.SideTextRoundTrip | five/internal/types/order.go:16-21 | every order side is stored as a text that reads back as that side |
| OrderTypes.Encode | five/internal/types/order.go:34-50 | decoding the JSON form of an order gives every business field back, with id and timestamps zero |
| OrderTypes.Decode | five/internal/types/order.go:35-37 | a decoded order has zero id and timestamps |
| OrderTypes.EncodeIgnoresStoreFields | five/internal/types/order.go:35-37 | two orders have the same JSON exactly when their business fields agree |
| OrderTypes.DecodeEncode | five/internal/types/order.go:34-50 | every JSON document is the encoding of the order it decodes to |
| OrderLogic.CacheKeyInjective | five/internal/logic/order/order.go:161 | two order ids share a cache key exactly when they are equal |
| OrderLogic.OrderEvent | five/internal/logic/order/order.go:191-204 | a lifecycle message is keyed by the order_id and carries the action, the order_id and the order's business fields |
| OrderLogic.UpdateOrderCache | five/internal/logic/order/order.go:185-189 | the order's key then decodes to its business fields and every other key is untouched |
| OrderLogic.StoreUpdate | five/internal/logic/order/order.go:91-95 | an update by order_id replaces the business fields of that row only, keeps its id and creation time, and creates no row |
| OrderLogic.Propagate | five/internal/logic/order/order.go:63-69 | the cache write comes before the publish; a message is appended only when both succeed, and a failed cache write skips the publish |
| OrderLogic.CreateCheck | five/internal/logic/order/order.go:29-34 | the input is accepted exactly when order_id is non-empty, user_id is not 0, and price and amount are positive |
| OrderLogic.NewOrder | five/internal/logic/order/order.go:35-56 | empty symbol, type and side become `BTC/USDT`, `limit` and `buy`; other values are kept; the order starts pending and unfilled with fee asset `USDT`, matching the column defaults |
| OrderLogic.CreateOrder | five/internal/logic/order/order.go:27-70 | invalid input changes nothing; a taken order_id or a failed row write changes nothing; once the row is written it holds `NewOrder` whatever the cache write and publish do, the cache holds it exactly when the cache write succeeds, and a failed cache write skips the publish; a `create` message exactly on success |
| OrderLogic.GetOrder | five/internal/logic/order/order.go:159-182 | a decodable cache entry is returned without a store read; otherwise the store row is returned and written back, and a failed write-back returns the order and an error; a failed store read is `StoreFailed` and a missing row `NotFound` |
| OrderLogic.Cancellable | five/internal/logic/order/order.go:80-83 | a cancel is allowed from every status except filled, cancelled and rejected |
| OrderLogic.CancelOrder | five/internal/logic/order/order.go:73-104 | a lookup error ends the command; only pending and part-filled orders can be cancelled; a failed row write leaves the system as the lookup left it; once the row is written it stays cancelled whatever follows, the cache holds the cancelled order exactly when the cache write succeeds, and a failed cache write skips the publish; a `cancel` message exactly on success |
| OrderLogic.CancelledOrder | five/internal/logic/order/order.go:86-88 | a cancel changes status, reason and update time and nothing else |
| OrderLogic.StatusAfterFill | five/internal/logic/order/order.go:120-124 | filled exactly when the cumulative quantity reaches the amount; part-filled when it is positive but short; otherwise the status is unchanged |
| OrderLogic.FilledOrder | five/internal/logic/order/order.go:115-125 | a fill adds its quantity to filled_amount and quantity times price times rate to the fee, recomputes the status, and changes nothing else |
| OrderLogic.FillTrade | five/internal/logic/order/order.go:135-143 | the trade carries the fill's order id, symbol, price, quantity and fee, in `USDT` |
| OrderLogic.FillOrder | five/internal/logic/order/order.go:107-156 | a lookup error ends the command; a failed row write leaves the system as the lookup left it; once the row is written it stays written; the trade is appended exactly when the insert succeeds with a new trade_id; a failed insert skips the cache write and the publish, and a failed cache write skips the publish; one trade and one `fill` message on success |
| OrderQueries.MatchesUser | five/internal/logic/order/order.go:238-241 | a row matches when its user_id is the requested one and, unless the status text is empty, the text names the row's status |
| OrderQueries.GetUserOrders | five/internal/logic/order/order.go:236-247 | exactly the user's rows, restricted to the status when one is given, one per row, newest first |
| OrderQueries.TradesOfMembers | five/internal/logic/order/order.go:252 | an order's trades are exactly the trades that carry its order_id |
| OrderQueries.GetOrderTrades | five/internal/logic/order/order.go:250-256 | exactly the order's trades, oldest first, a permutation of them in insertion order with the same total quantity |
| Sorting.SortBy | five/internal/logic/order/order.go:243 | the result is sorted by the key and is a permutation of the input |
| OrderInvariants.LookupSound | five/internal/logic/order/order.go:159-182 | in a sound system a lookup returns an order carrying that id whose row exists (possibly a stale cached copy), never a rejected one, and keeps the system sound |
| OrderInvariants.LookupSynced | five/internal/logic/order/order.go:159-182 | in a synced system a lookup returns the business fields of the stored row |
| OrderInvariants.CreateKeepsSound | five/internal/logic/order/order.go:27-70 | create keeps rows keyed by order_id, the cache pointing at stored orders, and no rejected status, whatever fails |
| OrderInvariants.CancelKeepsSound | five/internal/logic/order/order.go:73-104 | cancel keeps the system sound whatever fails |
| OrderInvariants.FillKeepsSound | five/internal/logic/order/order.go:107-156 | fill keeps the system sound whatever fails; its trade refers to a stored order |
| OrderInvariants.CreateKeepsSynced | five/internal/logic/order/order.go:27-70 | with every call succeeding, create keeps the cache equal to the store and the trade sums equal to the filled amounts |
| OrderInvariants.CancelKeepsSynced | five/internal/logic/order/order.go:73-104 | with every call succeeding, cancel keeps the system synced |
| OrderInvariants.FillKeepsTradesMatch | five/internal/logic/order/order.go:115-147 | a successful fill of a synced system keeps each order's trade quantities summing to its filled amount |
| OrderInvariants.FillKeepsSynced | five/internal/logic/order/order.go:107-156 | with every call succeeding and a new trade_id, fill keeps the system synced |
| OrderInvariants.SyncedFillAccumulates | five/internal/logic/order/order.go:115-117 | in a synced system a successful fill adds its quantity and its fee to the stored row |
| OrderInvariants.RunKeepsSound | five/internal/types/order.go:52-56 | every command keeps the system sound and publishes at most one message, keyed by the order, whose action is its own; `update` is never published |
| OrderProperties.CreateThenGet | five/internal/logic/order/order.go:59-69 | after a create, a read served from the cache returns the new order's business fields |
| OrderProperties.CancelThenGet | five/internal/logic/order/order.go:85-100 | after a cancel, a cached read returns the cancelled order with its reason |
| OrderProperties.FillThenGet | five/internal/logic/order/order.go:114-152 | after a fill, a cached read shows the accumulated quantity and fee |
| OrderProperties.MissThenHit | five/internal/logic/order/order.go:170-181 | a read that went to the store is answered from the cache next time with the same business fields |
| OrderProperties.CancelTwiceFails | five/internal/logic/order/order.go:80-83 | once a cancel succeeded, a second cancel fails whatever the adapters do, with `NotCancellable(Cancelled)` when its lookup succeeds, and the row stays cancelled |
| OrderProperties.CancelRefusedFromCache | five/internal/logic/order/order.go:75-83 | a cancel of an order cached with a final status is refused with no change |
| OrderProperties.FillRevivesCancelled | five/internal/logic/order/order.go:107-124 | a fill of a cancelled order is accepted and moves it to filled or part-filled |
| OrderProperties.TradeInsertFailureBreaksSums | five/internal/logic/order/order.go:128-147 | a failed trade insert after the row write leaves the filled amount without a trade, breaking the sum |
| OrderProperties.StaleCacheLowersFill | five/internal/logic/order/order.go:127-152 | after a fill whose cache write fails, the cache keeps the old copy, and a later fill accepted through the handler lowers the stored filled amount from 10 to 5 |
| OrderProperties.StaleCacheCancelsTwice | five/internal/logic/order/order.go:75-100 | after a cancel whose cache write fails, the cache still says pending and a second cancel is accepted |
| OrderProperties.FillFromCache | five/internal/logic/order/order.go:107-156 | a fill served from a cached copy updates the row, the cache and the trade list with the filled order |
| OrderProperties.ScenarioCreate | five/internal/logic/order/order.go:35-69 | creating O1 with empty type and side stores a pending, unfilled limit buy order and caches it |
| OrderProperties.ScenarioFirstFill | five/internal/logic/order/order.go:115-124 | filling 4 of 10 at 100 with rate 0.001 gives filled 4, fee 0.4, part-filled, one trade |
| OrderProperties.ScenarioSecondFill | five/internal/logic/order/order.go:120-121 | filling the remaining 6 makes the order filled at 10 |
| OrderProperties.ScenarioCancelFilled | five/internal/logic/order/order.go:81-83 | cancelling the filled order fails on its status |
| OrderProperties.ScenarioCancelThenFill | five/internal/logic/order/order.go:106-124 | a cancelled order is still filled and becomes part-filled |
| OrderProperties.ScenarioZeroPrice | five/internal/logic/order/order.go:44-46 | a create with price 0 is refused and changes nothing |
| OrderHandler.EffectiveFeeRate | five/internal/handler/order/order.go:56-66 | a missing, unparsable or non-positive fee rate becomes 0.001, so the rate passed on is always positive |
| OrderHandler.CreateOrderHandler | five/internal/handler/order/order.go:14-30 | an unparsable body is refused; otherwise the outcome is exactly that of create, with no check of its own |
| OrderHandler.CancelOrderHandler | five/internal/handler/order/order.go:32-49 | an empty order_id is refused without calling the logic; otherwise the outcome is that of cancel |
| OrderHandler.FillParamsValid | five/internal/handler/order/order.go:53-61 | the fill parameters pass exactly when order_id is non-empty and price and amount parse to positive numbers; an absent or unparsable price or amount is refused |
| OrderHandler.FillOrderHandler | five/internal/handler/order/order.go:51-76 | an empty order_id or a price or amount that is not positive is refused without calling the logic; otherwise the outcome is that of fill at the effective rate |
| OrderHandler.GetOrderHandler | five/internal/handler/order/order.go:78-94 | an empty order_id is refused; any lookup error, the failed write-back included, is an error; otherwise the looked-up order |
| OrderHandler.ParsedInt | five/internal/handler/order/order.go:98 | the value kept from the 64-bit integer parser: the number itself, zero for text that is not a number, and the 64-bit bound on its side for a number out of range |
| OrderHandler.GetUserOrdersHandler | five/internal/handler/order/order.go:96-114 | a user_id that is missing, not a number or not positive is refused, and one beyond the 64-bit range is queried as the largest 64-bit value; a store failure is an error; otherwise exactly the matching orders, one per row, newest first |
| OrderHandler.GetOrderTradesHandler | five/internal/handler/order/order.go:116-132 | an empty order_id is refused; a store failure is an error; otherwise exactly the order's trades with their multiplicities, oldest first |
| OrderHandler.FillFeePositive | five/internal/logic/order/order.go:115 | a positive price, amount and rate give a positive fee |
| OrderHandler.HandledFillIncreases | five/internal/handler/order/order.go:58-69 | in a synced system every fill accepted through the handler strictly increases the stored filled amount and fee |
| TokenProgram.FromLe | six/solana.rs:47 | n little-endian bytes denote a number below 256^n |
| TokenProgram.ToLe | six/solana.rs:47 | the n-byte little-endian encoding of a number below 256^n decodes to that number |
| TokenProgram.ToLeFromLe | six/solana.rs:47 | encoding the value of a byte string gives back the byte string |
| TokenProgram.Pow256Eight | six/solana.rs:47 | eight bytes hold exactly the u64 range |
| TokenProgram.Unpack | six/solana.rs:35-61 | a lone tag 0 panics; empty input, a tag of 3 or more, or a tag 1 or 2 with fewer than eight bytes after it is refused with InvalidInstructionData; a decoded instruction's kind is the tag's |
| TokenProgram.UnpackOutcomes | six/solana.rs:35-61 | empty input, a tag of 3 or more, or a tag 1 or 2 with fewer than 8 bytes after it is refused with InvalidInstructionData; a lone tag 0 panics; everything else decodes |
| TokenProgram.UnpackAmount | six/solana.rs:43-58 | tag 1 and tag 2 carry the little-endian value of bytes 1 to 8 |
| TokenProgram.UnpackPack | six/solana.rs:35-61 | any instruction followed by any bytes decodes to itself |
| TokenProgram.AmountRoundTrip | six/solana.rs:43-58 | for every u64 amount and suffix, tag 1 or 2 with the 8-byte amount decodes to mint or transfer of that amount |
| TokenProgram.AmountIsPrefix | six/solana.rs:43-58 | a decoded mint or transfer is exactly the first nine bytes of the input |
| TokenProgram.UnpackIsPrefix | six/solana.rs:38-59 | whatever decodes starts with the encoding of the decoded instruction; later bytes are ignored |
| TokenProgram.Pack | six/solana.rs:18-31 | an initialize-mint instruction is two bytes long and a mint or transfer nine |
| TokenProgram.LoadMint | six/solana.rs:144 | an account reads as a mint exactly when its data holds one; otherwise InvalidAccountData |
| TokenProgram.LoadToken | six/solana.rs:188-189 | an account reads as a token account exactly when its data holds one; otherwise InvalidAccountData |
| TokenProgram.InitializeMintIx | six/solana.rs:89-123 | success exactly when three accounts are given, the third is the rent sysvar, the authority signed and the library steps succeed; an unsigned authority is refused with MissingRequiredSignature |
| TokenProgram.MintTokensIx | six/solana.rs:126-167 | the signature is checked before any data is read, then the mint authority, then the destination's mint; success exactly when all pass and the library steps succeed |
| TokenProgram.TransferTokensIx | six/solana.rs:170-209 | the signature first, then same mint, then the source owner; success exactly when all pass and the library steps succeed |
| TokenProgram.ProcessInstruction | six/solana.rs:65-86 | a decode failure is returned before any account is looked at; a decoded instruction runs its own handler only |
| TokenProgram.EffectMatchesInstruction | six/solana.rs:70-85 | a successful run's effect is of the decoded instruction's kind and carries its decimals or amount |
| Calculator.Trunc | Week2/calculator.go:60 | float-to-int conversion truncates toward zero |
| Calculator.WholeIffFloor | Week2/calculator.go:60 | a number survives conversion to int and back exactly when it equals its floor |
| Calculator.GoRem | Week2/calculator.go:63 | the remainder and the truncated quotient rebuild the dividend, the remainder is smaller than the divisor, and it has the dividend's sign |
| Calculator.GoRemUnique | Week2/calculator.go:63 | the truncated quotient and remainder are the only pair with those properties |
| Calculator.RemainderFollowsDividend | Week2/calculator.go:63 | -7 % 2 is -1 in Go where Dafny's Euclidean remainder gives 1 |
| Calculator.Apply | Week2/calculator.go:42-68 | + - * always succeed; an unsupported operator is reported exactly for strings other than the five operators |
| Calculator.Calculate | Week2/calculator.go:21-68 | anything but three arguments is refused, then an unparsable operand, then the operator decides |
| Calculator.ApplyOutcomes | Week2/calculator.go:42-68 | a result exactly for + - *, for / with a non-zero divisor, and for % with a non-zero divisor and whole operands; the zero divisor is reported before a fraction |
| Calculator.AddSubtractMeaning | Week2/calculator.go:43-46 | the sum minus the second operand and the difference plus it give the first operand |
| Calculator.MultiplyDivideMeaning | Week2/calculator.go:47-54 | with a non-zero second operand, product divided by it and quotient multiplied by it give the first operand |
| Calculator.RemainderMeaning | Week2/calculator.go:55-65 | a % result is whole, smaller than the divisor, has the dividend's sign, and rebuilds the dividend with the truncated quotient |

## Left out

- The message consumer loop (five/internal/logic/order/order.go:207-233): a concurrent loop that only prints.
- Concurrent commands and their races: the model is sequential. The lost update of a stale cached copy happens without them and is modelled.
- The real store, cache and message clients: each call is a success flag in `Env`. A duplicate order_id or trade_id is a failed write.
- The 24-hour cache expiry: entries never expire.
- Partial updates: the store update replaces the whole business record. The store's habit of skipping zero-valued fields on update is not modelled.
- The byte-level JSON encoding: JSON is a field projection. A corrupt cache entry is a distinct value.
- Timestamps and generated ids: they are inputs (`Stamp`).
- `GetOrder` reports a missing row as `NotFound` and any other store read failure as `StoreFailed`. The source passes the store's own error through.
- Floating point: prices, quantities and fees are exact reals. Rounding, NaN and infinities from number parsing, and Go's int overflow on conversion are not modelled.
- Decimal number parsing in the fill handler and the calculator is a parameter: `None` for a failed parse, which the fill handler reads as zero. The infinities `strconv.ParseFloat` returns for out-of-range text are not modelled (floating point). The integer user_id parse is modelled with its out-of-range result.
- OrderHandler.HandledFillIncreases: proved only for a synced system (cache equal to the store, trade sums equal to the filled amounts). Without that, a stale cached copy left by a failed cache write makes an accepted fill lower the stored amount (`StaleCacheLowersFill`), so the unconditional property is false of the code.
- The create handler's request parsing is reduced to an optional body.
- Error messages written in Chinese in the source are represented by error constructors rather than texts.
- The token library (`Mint::new`, `mint_to`, `transfer`, account serialisation, the rent check) is represented by its outcomes in `Runtime`. Account data is already-decoded records. Balances and supply arithmetic are not modelled.
- `TokenProgram.InitializeMintIx`: a rent account that cannot be read is refused with InvalidArgument, which stands for whatever the sysvar loader reports.
- The `msg!` log lines and the unused `program_id` parameter of the token program.
- The calculator's I/O: argument reading, printing the usage text, exit codes and the integer/`%g` output formatting.
