/**
 * The trade record and its lifecycle: the five status strings in their
 * order, the four guarded transitions as a table, and what one transition
 * (or a sequence of them) does to a record.
 */
module Trade {
  import opened Wrappers

  /**
   * The chaincode's `TradeContract`: nine strings and three integers. Every
   * field defaults to Go's zero value, so `TradeRecord()` is the record
   * `TradeContract{}` and a constructor call naming some fields leaves the
   * others empty or zero, as a Go struct literal does.
   */
  datatype TradeRecord = TradeRecord(
    tradeId: string := "",
    buyerTaxId: string := "",
    skuid: string := "",
    sellerTaxId: string := "",
    exportBankId: string := "",
    importBankId: string := "",
    deliveryDate: string := "",
    shipperId: string := "",
    status: string := "",
    tradePrice: int := 0,
    shippingPrice: int := 0,
    totalPrice: int := 0)

  /** The all-zero record: what a read of a key with no record decodes to. */
  const Blank := TradeRecord()

  // The status strings, compared literally by every guard.
  const TradeInitiated := "Trade initiated"
  const LocCreated := "LOC created"
  const LocApproved := "LOC approved"
  const ShipmentInitiated := "Shipment initiated"
  const BolCreated := "BOL created"

  // The hard-coded business values each transition writes.
  const ImportBank := "BNK_I_1"
  const ExportBank := "BNK_E_1"
  const DeliveryDate := "2017-10-31"
  const Shipper := "SHP_1"

  /** The statuses in lifecycle order; a record only ever moves rightwards. */
  const Lifecycle: seq<string> := [TradeInitiated, LocCreated, LocApproved, ShipmentInitiated, BolCreated]

  /** The position of a status in the lifecycle, or None for any other string. */
  function Stage(status: string): (r: Option<nat>)
    ensures r.Some? ==> r.value < |Lifecycle| && Lifecycle[r.value] == status
    ensures r.None? ==> status !in Lifecycle
  {
    if status == TradeInitiated then Some(0)
    else if status == LocCreated then Some(1)
    else if status == LocApproved then Some(2)
    else if status == ShipmentInitiated then Some(3)
    else if status == BolCreated then Some(4)
    else None
  }

  /** How many transitions a status says have fired: 0 for an unknown status. */
  function Progress(status: string): (r: nat)
  {
    match Stage(status)
    case Some(k) => k
    case None => 0
  }

  /**
   * The lifecycle invariant on one record: each field a transition sets holds
   * that transition's value exactly when the status says the transition has
   * fired, and is empty before.
   */
  ghost predicate FieldsMatchStage(tc: TradeRecord)
  {
    var k := Progress(tc.status);
    && tc.importBankId == (if k >= 1 then ImportBank else "")
    && tc.exportBankId == (if k >= 2 then ExportBank else "")
    && tc.deliveryDate == (if k >= 3 then DeliveryDate else "")
    && tc.shipperId == (if k >= 4 then Shipper else "")
  }

  /** The fields no transition writes: identity, parties, goods and prices. */
  ghost predicate SameIdentity(a: TradeRecord, b: TradeRecord)
  {
    && a.tradeId == b.tradeId
    && a.buyerTaxId == b.buyerTaxId
    && a.sellerTaxId == b.sellerTaxId
    && a.skuid == b.skuid
    && a.tradePrice == b.tradePrice
    && a.shippingPrice == b.shippingPrice
    && a.totalPrice == b.totalPrice
  }

  /** The four transitions, by the business event each records. */
  datatype Step = LocCreation | LocApproval | ShipmentStart | Delivery
  {
    /** The status the transition's guard compares against. */
    function Guard(): (r: string)
    {
      match this
      case LocCreation => TradeInitiated
      case LocApproval => LocCreated
      case ShipmentStart => LocApproved
      case Delivery => ShipmentInitiated
    }

    /** The status the transition moves to when its guard holds. */
    function Next(): (r: string)
    {
      match this
      case LocCreation => LocCreated
      case LocApproval => LocApproved
      case ShipmentStart => ShipmentInitiated
      case Delivery => BolCreated
    }

    /** The one field the transition sets, set to its hard-coded value. */
    function Mark(tc: TradeRecord): (r: TradeRecord)
    {
      match this
      case LocCreation => tc.(importBankId := ImportBank)
      case LocApproval => tc.(exportBankId := ExportBank)
      case ShipmentStart => tc.(deliveryDate := DeliveryDate)
      case Delivery => tc.(shipperId := Shipper)
    }
  }

  /**
   * The record a transition writes back: when the status equals the guard,
   * the step's field is set and the status advanced; otherwise the record
   * read, untouched.
   */
  function Advance(step: Step, tc: TradeRecord): (r: TradeRecord)
    ensures SameIdentity(r, tc)
    ensures tc.status != step.Guard() ==> r == tc
    ensures tc.status == step.Guard() ==> r.status == step.Next()
    ensures r.importBankId == (if step == LocCreation && tc.status == TradeInitiated then ImportBank else tc.importBankId)
    ensures r.exportBankId == (if step == LocApproval && tc.status == LocCreated then ExportBank else tc.exportBankId)
    ensures r.deliveryDate == (if step == ShipmentStart && tc.status == LocApproved then DeliveryDate else tc.deliveryDate)
    ensures r.shipperId == (if step == Delivery && tc.status == ShipmentInitiated then Shipper else tc.shipperId)
    ensures r.status == tc.status || (Stage(tc.status).Some? && Stage(r.status) == Some(Stage(tc.status).value + 1))
    ensures tc.status == BolCreated ==> r == tc
    ensures FieldsMatchStage(tc) ==> FieldsMatchStage(r)
  {
    if tc.status == step.Guard() then step.Mark(tc).(status := step.Next()) else tc
  }

  /** The record after the given transitions, applied in order. */
  ghost function Run(steps: seq<Step>, tc: TradeRecord): (r: TradeRecord)
    decreases |steps|
  {
    if steps == [] then tc else Run(steps[1..], Advance(steps[0], tc))
  }

  /**
   * Status never regresses over any sequence of transitions: a record with a
   * lifecycle status stays in the lifecycle, at the same stage or later, and
   * at most one stage per transition; a record with any other status is never
   * changed; identity fields and the lifecycle invariant are kept throughout.
   */
  lemma {:induction false} RunNeverRegresses(steps: seq<Step>, tc: TradeRecord)
    ensures Stage(tc.status).None? ==> Run(steps, tc) == tc
    ensures Stage(tc.status).Some? ==>
              && Stage(Run(steps, tc).status).Some?
              && Stage(tc.status).value <= Stage(Run(steps, tc).status).value <= Stage(tc.status).value + |steps|
    ensures SameIdentity(Run(steps, tc), tc)
    ensures FieldsMatchStage(tc) ==> FieldsMatchStage(Run(steps, tc))
    decreases |steps|
  {
    if steps != [] {
      RunNeverRegresses(steps[1..], Advance(steps[0], tc));
    }
  }

  /** Once a record has reached "BOL created", no sequence of transitions changes it. */
  lemma {:induction false} CompletedIsFinal(steps: seq<Step>, tc: TradeRecord)
    requires tc.status == BolCreated
    ensures Run(steps, tc) == tc
    decreases |steps|
  {
    if steps != [] {
      CompletedIsFinal(steps[1..], tc);
    }
  }

  /**
   * The four transitions in lifecycle order take an initiated record with no
   * transition fields set to "BOL created", with exactly the four fields set.
   */
  lemma FullLifecycle(tc: TradeRecord)
    requires tc.status == TradeInitiated && FieldsMatchStage(tc)
    ensures Run([LocCreation, LocApproval, ShipmentStart, Delivery], tc)
         == tc.(importBankId := ImportBank, exportBankId := ExportBank,
                deliveryDate := DeliveryDate, shipperId := Shipper, status := BolCreated)
  {
  }
}
