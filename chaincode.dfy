/**
 * The chaincode's entry points: setting up the seed trade, the four
 * lifecycle transitions, the guarded query and the name dispatcher. Each
 * works on the ledger through the stub, in the order the chaincode does:
 * read, decode, check the status, update, write back.
 */
module Chaincode {
  import opened Wrappers
  import opened Trade
  import opened Ledger

  /** A peer response: success with an optional payload, or an error message. */
  datatype Response = Success(payload: Option<TradeRecord>) | Error(message: string)

  const InvalidFunctionName := "Invalid function name"
  const IncorrectArgumentCount := "Incorrect number of arguments. Expecting name of the person to query"

  /** Writes the seed trade under "FTE_1", in stage "Trade initiated". */
  method SetupTrade(stub: Stub) returns (r: Response)
    modifies stub
    ensures "FTE_1" in stub.state
    ensures var tc := stub.state["FTE_1"];
              && tc.tradeId == "FTE_1" && tc.buyerTaxId == "FTE_B_1" && tc.sellerTaxId == "FTE_S_1"
              && tc.skuid == "SKU001" && tc.tradePrice == 10000 && tc.shippingPrice == 1000
              && tc.status == TradeInitiated
              && tc.exportBankId == "" && tc.importBankId == "" && tc.deliveryDate == ""
              && tc.shipperId == "" && tc.totalPrice == 0
    ensures stub.state.Keys == old(stub.state).Keys + {"FTE_1"}
    ensures forall k :: k in old(stub.state) && k != "FTE_1" ==> stub.state[k] == old(stub.state)[k]
    ensures Consistent(old(stub.state)) ==> Consistent(stub.state)
    ensures r == Success(None)
  {
    var tradeContract := TradeRecord(
      tradeId := "FTE_1",
      buyerTaxId := "FTE_B_1",
      sellerTaxId := "FTE_S_1",
      skuid := "SKU001",
      tradePrice := 10000,
      shippingPrice := 1000,
      status := TradeInitiated);
    stub.PutState(tradeContract.tradeId, tradeContract);
    r := Success(None);
  }

  /** Chaincode instantiation: sets up the seed trade. */
  method Init(stub: Stub) returns (r: Response)
    modifies stub
    ensures stub.state == old(stub.state)["FTE_1" := TradeRecord(
              tradeId := "FTE_1", buyerTaxId := "FTE_B_1", sellerTaxId := "FTE_S_1", skuid := "SKU001",
              tradePrice := 10000, shippingPrice := 1000, status := TradeInitiated)]
    ensures r == Success(None)
  {
    r := SetupTrade(stub);
  }

  /** "Trade initiated" to "LOC created", recording the importing bank. */
  method CreateLoc(stub: Stub, tradeId: string) returns (r: Response)
    modifies stub
    ensures stub.state == Transition(LocCreation, old(stub.state), tradeId)
    ensures r == Success(None)
  {
    var blob := stub.GetState(tradeId);
    var tc := Unmarshal(blob);
    if tc.status == TradeInitiated {
      tc := tc.(importBankId := ImportBank);
      tc := tc.(status := LocCreated);
    }
    stub.PutState(tc.tradeId, tc);
    r := Success(None);
  }

  /** "LOC created" to "LOC approved", recording the exporting bank. */
  method ApproveLoc(stub: Stub, tradeId: string) returns (r: Response)
    modifies stub
    ensures stub.state == Transition(LocApproval, old(stub.state), tradeId)
    ensures r == Success(None)
  {
    var blob := stub.GetState(tradeId);
    var tc := Unmarshal(blob);
    if tc.status == LocCreated {
      tc := tc.(exportBankId := ExportBank);
      tc := tc.(status := LocApproved);
    }
    stub.PutState(tc.tradeId, tc);
    r := Success(None);
  }

  /** "LOC approved" to "Shipment initiated", recording the delivery date. */
  method InitiateShipment(stub: Stub, tradeId: string) returns (r: Response)
    modifies stub
    ensures stub.state == Transition(ShipmentStart, old(stub.state), tradeId)
    ensures r == Success(None)
  {
    var blob := stub.GetState(tradeId);
    var tc := Unmarshal(blob);
    if tc.status == LocApproved {
      tc := tc.(deliveryDate := DeliveryDate);
      tc := tc.(status := ShipmentInitiated);
    }
    stub.PutState(tc.tradeId, tc);
    r := Success(None);
  }

  /** "Shipment initiated" to "BOL created", recording the shipper. */
  method DeliverGoods(stub: Stub, tradeId: string) returns (r: Response)
    modifies stub
    ensures stub.state == Transition(Delivery, old(stub.state), tradeId)
    ensures r == Success(None)
  {
    var blob := stub.GetState(tradeId);
    var tc := Unmarshal(blob);
    if tc.status == ShipmentInitiated {
      tc := tc.(shipperId := Shipper);
      tc := tc.(status := BolCreated);
    }
    stub.PutState(tc.tradeId, tc);
    r := Success(None);
  }

  /**
   * Returns the record stored under the single argument. Errors when there is
   * not exactly one argument, or when nothing is stored under it. Changes
   * nothing: the method has no modifies clause.
   */
  method Query(stub: Stub, args: seq<string>) returns (r: Response)
    ensures |args| != 1 ==> r == Error(IncorrectArgumentCount)
    ensures |args| == 1 && args[0] !in stub.state ==> r == Error("Nil trade for " + args[0])
    ensures |args| == 1 && args[0] in stub.state ==> r == Success(Some(stub.state[args[0]]))
  {
    if |args| != 1 {
      return Error(IncorrectArgumentCount);
    }
    var a := args[0];
    var avalBytes := stub.GetState(a);
    if avalBytes.None? {
      return Error("Nil trade for " + a);
    }
    return Success(avalBytes);
  }

  /**
   * The dispatcher. Only "createLOC" is recognised, and it is applied to the
   * receiver's own tradeId, not to an argument. The receiver the chaincode is
   * started with is the zero record, so on a keyed ledger a dispatched
   * "createLOC" never changes the record under any non-empty key.
   */
  method Invoke(receiver: TradeRecord, stub: Stub, functionName: string, args: seq<string>) returns (r: Response)
    modifies stub
    ensures functionName == "createLOC" ==>
              r == Success(None) && stub.state == Transition(LocCreation, old(stub.state), receiver.tradeId)
    ensures functionName != "createLOC" ==>
              r == Error(InvalidFunctionName) && stub.state == old(stub.state)
    ensures receiver == Blank && Keyed(old(stub.state)) ==>
              forall k :: k in old(stub.state) && k != "" ==> k in stub.state && stub.state[k] == old(stub.state)[k]
  {
    if functionName == "createLOC" {
      r := CreateLoc(stub, receiver.tradeId);
      return;
    }
    r := Error(InvalidFunctionName);
  }

  /**
   * A client of the contracts above: the seed trade walked through its whole
   * lifecycle on an empty ledger, read back, then a repeated transition that
   * its guard turns into a no-op.
   */
  method SeedLifecycle()
  {
    var stub := new Stub(map[]);
    var r := Init(stub);
    var t0 := stub.state["FTE_1"];
    assert stub.state == map[t0.tradeId := t0];
    SingleTradeTransition(LocCreation, t0);
    r := CreateLoc(stub, "FTE_1");
    var t1 := Advance(LocCreation, t0);
    SingleTradeTransition(LocApproval, t1);
    r := ApproveLoc(stub, "FTE_1");
    var t2 := Advance(LocApproval, t1);
    SingleTradeTransition(ShipmentStart, t2);
    r := InitiateShipment(stub, "FTE_1");
    var t3 := Advance(ShipmentStart, t2);
    SingleTradeTransition(Delivery, t3);
    r := DeliverGoods(stub, "FTE_1");
    var t4 := Advance(Delivery, t3);
    assert stub.state == map["FTE_1" := t4];
    assert t4.status == BolCreated && t4.shipperId == Shipper && t4.importBankId == ImportBank;
    var q := Query(stub, ["FTE_1"]);
    assert q == Success(Some(t4));
    SingleTradeTransition(LocCreation, t4);
    r := CreateLoc(stub, "FTE_1");
    assert stub.state == map["FTE_1" := t4];
  }

  /** A client: after setup, a trade id that was never written has no record to query. */
  method UnknownTradeQuery()
  {
    var stub := new Stub(map[]);
    var r := Init(stub);
    var q := Query(stub, ["T_UNKNOWN"]);
    assert q == Error("Nil trade for T_UNKNOWN");
  }
}
