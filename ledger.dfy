/**
 * The ledger the chaincode reaches through its stub: a map from key to
 * stored trade record, read with GetState and overwritten with PutState.
 * Records are stored as values; the JSON codec between them and the
 * ledger's bytes is not modelled.
 */
module Ledger {
  import opened Wrappers
  import opened Trade

  /** What GetState yields for a key: the stored record, or nothing. */
  function Get(state: map<string, TradeRecord>, key: string): (r: Option<TradeRecord>)
  {
    if key in state then Some(state[key]) else None
  }

  /**
   * `tc := TradeContract{}` followed by `json.Unmarshal(bytes, &tc)`: when
   * nothing is stored nothing is decoded, and the zero record remains.
   */
  function Unmarshal(blob: Option<TradeRecord>): (r: TradeRecord)
  {
    match blob
    case Some(tc) => tc
    case None => Blank
  }

  /** The record a transition works on after reading `key`. */
  function Read(state: map<string, TradeRecord>, key: string): (r: TradeRecord)
    ensures key in state ==> r == state[key]
    ensures key !in state ==> r == Blank && r.status !in Lifecycle
  {
    Unmarshal(Get(state, key))
  }

  /** Every stored record's tradeId is the key it is stored under. */
  ghost predicate Keyed(state: map<string, TradeRecord>)
  {
    forall k :: k in state ==> state[k].tradeId == k
  }

  /**
   * The ledger invariant: keyed, every record obeys the lifecycle invariant,
   * and whatever is under the empty key is the zero record (the only record a
   * transition on an unknown key ever writes there).
   */
  ghost predicate Consistent(state: map<string, TradeRecord>)
  {
    && Keyed(state)
    && (forall k :: k in state ==> FieldsMatchStage(state[k]))
    && ("" in state ==> state[""] == Blank)
  }

  /**
   * The ledger after one transition on `key`: the record read is advanced and
   * written back under its own tradeId, whether or not the guard held.
   */
  function Transition(step: Step, state: map<string, TradeRecord>, key: string): (s': map<string, TradeRecord>)
    // On a keyed ledger a present key is written back in place and nothing else changes.
    ensures Keyed(state) && key in state ==>
              && s'.Keys == state.Keys
              && s'[key] == Advance(step, state[key])
              && forall k :: k in state && k != key ==> s'[k] == state[k]
    // A failed guard writes back the record read, so a keyed ledger is unchanged.
    ensures Keyed(state) && key in state && state[key].status != step.Guard() ==> s' == state
    // An absent key decodes to the zero record, which fails every guard and lands under "".
    ensures key !in state ==> s' == state["" := Blank]
    ensures Keyed(state) ==> Keyed(s')
    ensures Consistent(state) ==> Consistent(s')
    // On a consistent ledger no stored status regresses: each stays or moves one stage on.
    ensures Consistent(state) ==>
              forall k :: k in state ==>
                && k in s'
                && (|| s'[k].status == state[k].status
                    || (Stage(state[k].status).Some? && Stage(s'[k].status) == Some(Stage(state[k].status).value + 1)))
  {
    var tc := Read(state, key);
    state[tc.tradeId := Advance(step, tc)]
  }

  /** On a ledger holding one trade under its own id, a transition on that id rewrites just it. */
  lemma SingleTradeTransition(step: Step, tc: TradeRecord)
    ensures Transition(step, map[tc.tradeId := tc], tc.tradeId) == map[tc.tradeId := Advance(step, tc)]
  {
  }

  /** The chaincode stub's view of the world state. */
  class Stub {
    var state: map<string, TradeRecord>

    constructor (initial: map<string, TradeRecord>)
      ensures state == initial
    {
      state := initial;
    }

    /** The stored record for `key`, or None when there is none. */
    method GetState(key: string) returns (blob: Option<TradeRecord>)
      ensures blob.Some? <==> key in state
      ensures blob.Some? ==> blob.value == state[key]
    {
      blob := Get(state, key);
    }

    /** Stores `value` under `key`, replacing whatever was there. */
    method PutState(key: string, value: TradeRecord)
      modifies this
      ensures state == old(state)[key := value]
    {
      state := state[key := value];
    }
  }
}
