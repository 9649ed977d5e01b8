# Trade-finance lifecycle chaincode, in Dafny

This project models a small Hyperledger Fabric chaincode, `go/sc.go`. The
chaincode runs one trade through a letter-of-credit workflow. The trade is one
record, `TradeContract`, stored in the ledger's world state under its trade id.
Four transitions move its status along a fixed order:

`Trade initiated` → `LOC created` → `LOC approved` → `Shipment initiated` → `BOL created`

Each transition sets one hard-coded field: the importing bank, the exporting
bank, the delivery date or the shipper.

Files:

- `wrappers.dfy`: `Option`.
- `trade.dfy` (module `Trade`) holds these parts:
  - the record, with Go's zero values as defaults;
  - the status strings and their order (`Lifecycle`, `Stage`);
  - the four transitions as a table (`Step`, with `Guard`, `Next` and `Mark`);
  - `Advance`, which gives the record one transition writes back;
  - `Run`, for a sequence of transitions, and lemmas about it.
- `ledger.dfy` (module `Ledger`) holds these parts:
  - the stub's world state, a class `Stub` holding `map<string, TradeRecord>`, with `GetState` and `PutState`;
  - the decoding of a read (`Read`: an absent key decodes to the zero record);
  - the ledger invariants `Keyed` and `Consistent`;
  - `Transition`, the ledger after one transition on a key.
- `chaincode.dfy` (module `Chaincode`) holds the entry points as imperative methods over a `Stub`:
  - `SetupTrade` and `Init`;
  - the four transitions;
  - `Query` and `Invoke`;
  - two client methods that walk the seed trade through its lifecycle.

Behaviour kept as the code has it:

- Status is a free string. A transition fires only when the status equals its guard string exactly.
- A failed guard is not an error. The record read is written back unchanged, and the call still returns success.
- A transition on a key with no record reads the all-zero record. That record fails every guard, and the chaincode then asks to write it back under key `""`, because the write goes to the `tradeId` of the record read, not to the argument.
- In the model that write replaces any record already stored under `""`. The ledger invariant `Consistent` therefore requires whatever is under `""` to be the zero record. An empty ledger meets it, and setup and every transition keep it. On a ledger that meets it, no transition ever makes a stored status regress.
- `setupTrade` writes the seed unconditionally. A repeated `Init`, as on a chaincode upgrade, resets `"FTE_1"` to the seed record with status "Trade initiated", whatever stage it had reached. `SetupTrade`'s contract states this.
- `Invoke` recognises only `"createLOC"`. It applies it to the receiver's own `tradeId`, not to an argument. The chaincode is started with `new(TradeContract)`, so that id is `""`. `Invoke`'s contract states the consequence: on a keyed ledger, a dispatched `createLOC` never changes any record under a non-empty key. `approveLOC`, `initiateShipment`, `deliverGoods` and `query` cannot be reached through `Invoke` at all.

The code reports no error for an unknown trade, a failed guard or a repeated setup. It takes no creation fields from its caller, and it writes the record back even when a guard fails.

## Model

| member | source | states |
|---|---|---|
| Trade.Stage | go/sc.go:61-117 | Gives each of the five status strings its position in the lifecycle order. Every other string is outside the lifecycle. |
| Trade.Advance | go/sc.go:61-121 | Reads its guard string, next status and field value from the step table (`Step.Guard`, `Step.Next`, `Step.Mark`). If the status equals the step's guard, the status becomes the step's next status and only the step's field gets its hard-coded value. Otherwise the record is unchanged. Identity fields never change. The status stays the same or moves forward exactly one stage. A "BOL created" record is fixed. The lifecycle invariant is preserved. |
| Trade.RunNeverRegresses | go/sc.go:61-117 | Over any sequence of transitions, a record with a lifecycle status moves forward at most one stage per step and never back. A record with any other status is never changed. Identity fields and the lifecycle invariant are kept. |
| Trade.CompletedIsFinal | go/sc.go:115-117 | Once a record is "BOL created", no sequence of transitions changes it. |
| Trade.FullLifecycle | go/sc.go:56-127 | The four transitions in order take an initiated record with no transition fields set to "BOL created", with exactly the four fields set. |
| Ledger.Read | go/sc.go:57-59 | Reads through `Get` and `Unmarshal`, which decodes nothing into the zero record `TradeContract{}`. A read of a present key yields the stored record. A read of an absent key yields the zero record, whose empty status is outside the lifecycle. |
| Ledger.Transition | go/sc.go:57-69 | On a keyed ledger, a transition on a present key rewrites only that key, with the advanced record. A failed guard leaves a keyed ledger unchanged. An absent key writes the zero record under `""`. Keyedness and the ledger invariant `Consistent` are preserved. On a consistent ledger, every stored record's status stays the same or moves exactly one stage forward. |
| Ledger.SingleTradeTransition | go/sc.go:57-69 | On a ledger holding one trade under its own id, a transition on that id replaces just that record with the advanced one. |
| Ledger.Stub.GetState | go/sc.go:57 | Returns the stored record when the key is present, and nothing when it is absent. |
| Ledger.Stub.PutState | go/sc.go:69 | Stores the value under the key and leaves other keys unchanged. |
| Chaincode.SetupTrade | go/sc.go:40-54 | Writes under "FTE_1" the record with tradeId "FTE_1", buyer "FTE_B_1", seller "FTE_S_1", sku "SKU001", prices 10000 and 1000, and status "Trade initiated". Every other field is empty or zero. No other key changes. Preserves the ledger invariant. Returns success. |
| Chaincode.Init | go/sc.go:27-29 | Is exactly the seed write of `SetupTrade`, with a success response. |
| Chaincode.CreateLoc | go/sc.go:56-72 | The new ledger is the `LocCreation` transition ("Trade initiated" → "LOC created", import bank "BNK_I_1") applied at the key. Always returns success. |
| Chaincode.ApproveLoc | go/sc.go:74-90 | The new ledger is the `LocApproval` transition ("LOC created" → "LOC approved", export bank "BNK_E_1") applied at the key. Always returns success. |
| Chaincode.InitiateShipment | go/sc.go:92-108 | The new ledger is the `ShipmentStart` transition ("LOC approved" → "Shipment initiated", delivery date "2017-10-31") applied at the key. Always returns success. |
| Chaincode.DeliverGoods | go/sc.go:110-127 | The new ledger is the `Delivery` transition ("Shipment initiated" → "BOL created", shipper "SHP_1") applied at the key. Always returns success. |
| Chaincode.Query | go/sc.go:130-159 | Errors when the argument count is not one. Errors when no record is stored under the argument. Otherwise returns the stored record. Never modifies the ledger. |
| Chaincode.Invoke | go/sc.go:31-38 | "createLOC" applies the LOC-creation transition at the receiver's tradeId and succeeds. Any other name returns "Invalid function name" and leaves the ledger unchanged. With the zero receiver, no record under a non-empty key changes. |

## Left out

- `main` and `shim.Start` (go/sc.go:161-167) are left out: they are process bootstrap. The receiver they create is passed to `Invoke` as a parameter.
- The JSON codec is not modelled. Records are stored in the map as values, and no round-trip is claimed. Every field of `TradeContract` is unexported, so Go's `json.Marshal` would actually write `{}` and every read would decode to the zero record. The model instead keeps what the stored record evidently stands for.
- `peer.Response` and `shim.Success`/`shim.Error` are foreign library types. They become the `Response` datatype. A query's payload is the stored record rather than its bytes.
- `GetFunctionAndParameters` is part of the stub. It becomes the `functionName` and `args` parameters of `Invoke`.
- The `fmt.Printf` logging is output only and is left out.
- Ledger.Stub.PutState accepts the empty key. The Fabric shim's `PutState` is not part of this model, and it refuses an empty key with an error that the transitions discard (go/sc.go:69, 87, 105, 124), so on a real peer nothing is stored under `""`. `Transition`'s absent-key clause (`key !in state ==> s' == state["" := Blank]`) and the `""` part of `Consistent` describe the write the chaincode asks for, not what the ledger keeps.
- Chaincode.Query: the nil-trade error message keeps its text, "Nil trade for " plus the key, but drops the JSON braces around it.
- Chaincode.Query: the first read and decode in `query` (go/sc.go:139-141) only feeds a log line, so one read is modelled.
- Chaincode.Query: `GetState` never fails in the model. The store-failure branch (go/sc.go:146-149) is not modelled, and neither are the errors the transitions discard.
- `query` is declared with `pb.Response`, but the package is imported as `peer`. The model gives the evidently intended signature.
- Go's `int` width does not matter here. The prices are constants and no arithmetic is done on them. `totalPrice` is never computed and stays zero.
- Consensus, replication and concurrent access to one key belong to the ledger runtime and are left out.
