/**
 * Stage 5, the distribution receipt (src/distribution.py): cold-chain
 * statistics over the temperature readings and the receipt that records them.
 */
module Distribution {
  import opened Wrappers
  import opened Values
  import opened Core
  import Chain

  /** The cold-chain band in °C, and how many readings may fall outside it. */
  const TargetMin: real := 2.0
  const TargetMax: real := 8.0
  const MaxDeviations: nat := 3

  // ---------------------------------------------------------------------
  // Statistics
  // ---------------------------------------------------------------------

  function Sum(ts: seq<real>): real
  {
    if ts == [] then 0.0 else Sum(ts[..|ts| - 1]) + ts[|ts| - 1]
  }

  function Min(ts: seq<real>): real
    requires ts != []
  {
    if |ts| == 1 then ts[0]
    else var m := Min(ts[..|ts| - 1]); if ts[|ts| - 1] < m then ts[|ts| - 1] else m
  }

  function Max(ts: seq<real>): real
    requires ts != []
  {
    if |ts| == 1 then ts[0]
    else var m := Max(ts[..|ts| - 1]); if ts[|ts| - 1] > m then ts[|ts| - 1] else m
  }

  /** A reading outside the target band. */
  predicate Deviates(t: real)
  {
    t < TargetMin || t > TargetMax
  }

  /** The number of readings outside the target band. */
  function Deviations(ts: seq<real>): (n: nat)
    ensures n <= |ts|
  {
    if ts == [] then 0 else Deviations(ts[..|ts| - 1]) + (if Deviates(ts[|ts| - 1]) then 1 else 0)
  }

  /** The minimum and the maximum are readings, and bound every reading. */
  lemma {:induction false} MinMaxBound(ts: seq<real>)
    requires ts != []
    ensures forall i :: 0 <= i < |ts| ==> Min(ts) <= ts[i] <= Max(ts)
    ensures Min(ts) in ts && Max(ts) in ts
  {
    if |ts| > 1 {
      var init := ts[..|ts| - 1];
      MinMaxBound(init);
      assert forall i :: 0 <= i < |init| ==> ts[i] == init[i];
    }
  }

  /** A lower bound of every reading, times their count, is at most their sum. */
  lemma {:induction false} SumAtLeast(ts: seq<real>, m: real)
    requires forall i :: 0 <= i < |ts| ==> m <= ts[i]
    ensures m * |ts| as real <= Sum(ts)
  {
    if ts != [] {
      var init := ts[..|ts| - 1];
      assert forall i :: 0 <= i < |init| ==> init[i] == ts[i];
      SumAtLeast(init, m);
      assert m * |ts| as real == m * |init| as real + m;
    }
  }

  /** An upper bound of every reading, times their count, is at least their sum. */
  lemma {:induction false} SumAtMost(ts: seq<real>, m: real)
    requires forall i :: 0 <= i < |ts| ==> ts[i] <= m
    ensures Sum(ts) <= m * |ts| as real
  {
    if ts != [] {
      var init := ts[..|ts| - 1];
      assert forall i :: 0 <= i < |init| ==> init[i] == ts[i];
      SumAtMost(init, m);
      assert m * |ts| as real == m * |init| as real + m;
    }
  }

  /** Multiplying by a non-negative number keeps order. */
  lemma Scale(a: real, b: real, n: real)
    requires a <= b && n >= 0.0
    ensures a * n <= b * n
  {
  }

  /** No reading deviates exactly when none lies outside the band. */
  lemma {:induction false} NoDeviations(ts: seq<real>)
    ensures Deviations(ts) == 0 <==> forall i :: 0 <= i < |ts| ==> TargetMin <= ts[i] <= TargetMax
  {
    if ts != [] {
      var init := ts[..|ts| - 1];
      NoDeviations(init);
      assert forall i :: 0 <= i < |init| ==> ts[i] == init[i];
    }
  }

  // ---------------------------------------------------------------------
  // Validation
  // ---------------------------------------------------------------------

  /** The cold-chain block of a distribution receipt; statistics are absent when
      there were no readings. */
  datatype ColdChain = ColdChain(
    enabled: bool,
    avgTempC: Option<real>,
    minTempC: Option<real>,
    maxTempC: Option<real>,
    durationDays: int,
    deviationsCount: nat,
    tempLogHash: Option<string>,
    coldChainPass: bool)

  /** `validate_cold_chain`: no readings disables the block (and fails it); otherwise
      the rounded mean, minimum and maximum are recorded, the readings outside
      2–8 °C are counted, and the chain passes iff the true maximum is at most
      8 °C and at most 3 readings deviate. */
  function ValidateColdChain(temps: seq<real>, durationDays: int, tempLogHash: Option<string>): (c: ColdChain)
    ensures c.durationDays == durationDays && c.tempLogHash == tempLogHash
    ensures c.enabled <==> temps != []
    ensures temps == [] ==>
      c.avgTempC.None? && c.minTempC.None? && c.maxTempC.None? && c.deviationsCount == 0 && !c.coldChainPass
    ensures temps != [] ==>
      && c.avgTempC == Some(Round(Sum(temps) / |temps| as real, 100))
      && c.minTempC == Some(Round(Min(temps), 100))
      && c.maxTempC == Some(Round(Max(temps), 100))
      && c.deviationsCount == Deviations(temps)
      && (c.coldChainPass <==> Max(temps) <= TargetMax && Deviations(temps) <= MaxDeviations)
  {
    if temps == [] then
      ColdChain(false, None, None, None, durationDays, 0, tempLogHash, false)
    else
      var avg := Sum(temps) / |temps| as real;
      var lo, hi := Min(temps), Max(temps);
      var deviations := Deviations(temps);
      ColdChain(true, Some(Round(avg, 100)), Some(Round(lo, 100)), Some(Round(hi, 100)), durationDays,
                deviations, tempLogHash, hi <= TargetMax && deviations <= MaxDeviations)
  }

  /** The mean of the readings, before rounding, lies between their minimum and maximum. */
  lemma MeanBetween(temps: seq<real>)
    requires temps != []
    ensures Min(temps) <= Sum(temps) / |temps| as real <= Max(temps)
  {
    MinMaxBound(temps);
    SumAtLeast(temps, Min(temps));
    SumAtMost(temps, Max(temps));
    Divide(Min(temps), Max(temps), Sum(temps), |temps| as real);
  }

  /** Bounds on a product by a positive number bound the quotient. */
  lemma Divide(lo: real, hi: real, s: real, n: real)
    requires n > 0.0 && lo * n <= s <= hi * n
    ensures lo <= s / n <= hi
  {
    var q := s / n;
    assert q * n == s;
    if lo > q {
      Scale(q, lo, n);
    }
    if q > hi {
      Scale(hi, q, n);
    }
  }

  /** A passing cold chain never went above 8 °C and has at most 3 readings below 2 °C. */
  lemma PassBoundsReadings(temps: seq<real>, durationDays: int, tempLogHash: Option<string>)
    requires ValidateColdChain(temps, durationDays, tempLogHash).coldChainPass
    ensures forall i :: 0 <= i < |temps| ==> temps[i] <= TargetMax
    ensures Deviations(temps) <= MaxDeviations
  {
    MinMaxBound(temps);
  }

  /** A single 12 °C excursion among 2 °C readings is one deviation and fails the chain. */
  lemma HighTempExample()
    ensures var c := ValidateColdChain([2.1, 2.3, 12.0, 2.2, 2.1], 90, None);
      c.maxTempC == Some(12.0) && c.deviationsCount == 1 && !c.coldChainPass
  {
    var ts := [2.1, 2.3, 12.0, 2.2, 2.1];
    MinMaxBound(ts);
    assert Max(ts) == 12.0;
    assert RoundUnits(1200.0) == 1200;
    assert ts == [2.1, 2.3] + [12.0] + [2.2, 2.1];
    DeviationsAppend([2.1, 2.3] + [12.0], [2.2, 2.1]);
    DeviationsAppend([2.1, 2.3], [12.0]);
    NoDeviations([2.1, 2.3]);
    NoDeviations([2.2, 2.1]);
    assert Deviations([12.0]) == 1;
  }

  /** Three readings below 2 °C with a maximum of exactly 8 °C still pass. */
  lemma ThreeDeviationsExample()
    ensures ValidateColdChain([2.1, 2.3, 2.0, 1.0, 1.5, 1.8, 7.9, 8.0, 8.0], 90, None).coldChainPass
  {
    var ts := [2.1, 2.3, 2.0, 1.0, 1.5, 1.8, 7.9, 8.0, 8.0];
    MinMaxBound(ts);
    NoDeviations([2.1, 2.3, 2.0]);
    NoDeviations([7.9, 8.0, 8.0]);
    assert ts == [2.1, 2.3, 2.0] + [1.0, 1.5, 1.8] + [7.9, 8.0, 8.0];
    DeviationsAppend([2.1, 2.3, 2.0] + [1.0, 1.5, 1.8], [7.9, 8.0, 8.0]);
    DeviationsAppend([2.1, 2.3, 2.0], [1.0, 1.5, 1.8]);
    assert Deviations([1.0, 1.5, 1.8]) == 3 by {
      assert [1.0, 1.5, 1.8][..2] == [1.0, 1.5];
      assert [1.0, 1.5][..1] == [1.0];
    }
  }

  lemma {:induction false} DeviationsAppend(a: seq<real>, b: seq<real>)
    ensures Deviations(a + b) == Deviations(a) + Deviations(b)
    decreases |b|
  {
    if b == [] {
      assert a + b == a;
    } else {
      assert (a + b)[..|a + b| - 1] == a + b[..|b| - 1];
      DeviationsAppend(a, b[..|b| - 1]);
    }
  }

  /** No readings: the block is disabled and fails, with no statistics. */
  lemma EmptyReadingsExample()
    ensures ValidateColdChain([], 90, None) == ColdChain(false, None, None, None, 90, 0, None, false)
  {
  }

  // ---------------------------------------------------------------------
  // The receipt
  // ---------------------------------------------------------------------

  function OptNum(o: Option<real>): Value
  {
    if o.Some? then Num(o.value) else Null
  }

  const ColdChainKeys: seq<string> := ["enabled", "avg_temp_c", "min_temp_c", "max_temp_c",
                                       "duration_days", "deviations_count", "temp_log_hash", "cold_chain_pass"]

  /** The block as the receipt stores it; absent statistics are stored as `None`. */
  function ColdChainDict(c: ColdChain): (d: Dict)
    ensures KeysAre(d, ColdChainKeys) && Unique(ColdChainKeys)
    ensures c.maxTempC.None? <==> d[3].val == Null
  {
    [ Entry("enabled", Bool(c.enabled)),
      Entry("avg_temp_c", OptNum(c.avgTempC)),
      Entry("min_temp_c", OptNum(c.minTempC)),
      Entry("max_temp_c", OptNum(c.maxTempC)),
      Entry("duration_days", Num(c.durationDays as real)),
      Entry("deviations_count", Num(c.deviationsCount as real)),
      Entry("temp_log_hash", OptStr(c.tempLogHash)),
      Entry("cold_chain_pass", Bool(c.coldChainPass)) ]
  }

  /** The block substituted when no cold-chain data is given. */
  const DisabledBlock: Dict := ColdChainDict(ColdChain(false, None, None, None, 0, 0, None, false))

  /** The substituted block is exactly what validating no readings over 0 days gives. */
  lemma DisabledBlockIsEmptyValidation()
    ensures DisabledBlock == ColdChainDict(ValidateColdChain([], 0, None))
  {
  }

  function DistributionPayload(distributorId: string, distributorName: string, warehouseId: string,
                               warehouseLocation: string, lot: string, coldChain: Dict,
                               previousHash: string): Dict
  {
    [ Entry("distributor_id", Str(distributorId)),
      Entry("distributor_name", Str(distributorName)),
      Entry("warehouse_id", Str(warehouseId)),
      Entry("warehouse_location", Str(warehouseLocation)),
      Entry("lot_number", Str(lot)),
      Entry("cold_chain", Obj(coldChain)),
      Entry("previous_hash", Str(previousHash)) ]
  }

  /** `create_distribution_receipt`: never fails; substitutes the disabled block
      when no cold-chain data is given, and appends exactly one receipt. */
  method CreateDistributionReceipt(ledger: Ledger, p: Primitives, distributorId: string, distributorName: string,
                                   warehouseId: string, warehouseLocation: string, lot: string,
                                   coldChainData: Option<Dict>, previousHash: string, tenant: Option<string>)
    returns (r: Dict)
    modifies ledger
    ensures r == Envelope(p, "distribution",
                          DistributionPayload(distributorId, distributorName, warehouseId, warehouseLocation, lot,
                                              if coldChainData.Some? then coldChainData.value else DisabledBlock,
                                              previousHash),
                          OptStr(tenant), ledger.clock(|old(ledger.records)|))
    ensures ledger.records == old(ledger.records) + [r]
  {
    var block := DisabledBlock;
    if coldChainData.Some? {
      block := coldChainData.value;
    }
    var payload := DistributionPayload(distributorId, distributorName, warehouseId, warehouseLocation, lot,
                                       block, previousHash);
    r := ledger.Emit(p, "distribution", payload, OptStr(tenant));
  }

  /** `link_to_encapsulation`: the first encapsulation receipt carrying the lot number. */
  method LinkToEncapsulation(ledger: Ledger, lot: string) returns (r: Option<Dict>)
    ensures r == FindFirst(ledger.records, Chain.ByLot("encapsulation", lot))
  {
    r := ledger.FindReceipt("encapsulation", "lot_number", lot);
  }

  /** The keys of a distribution payload, in order. */
  const DistributionKeys: seq<string> := ["distributor_id", "distributor_name", "warehouse_id",
    "warehouse_location", "lot_number", "cold_chain", "previous_hash"]

  /** No key is listed twice, and none is one the envelope writes itself. */
  lemma DistributionKeysUnique()
    ensures Unique(DistributionKeys + ReservedKeys)
  {
  }

  /** The distribution payload has the listed keys and none of the envelope's own. */
  lemma DistributionPayloadKeys(distributorId: string, distributorName: string, warehouseId: string,
                                warehouseLocation: string, lot: string, coldChain: Dict, previousHash: string)
    ensures var d := DistributionPayload(distributorId, distributorName, warehouseId, warehouseLocation, lot,
                                         coldChain, previousHash);
      KeysAre(d, DistributionKeys) && PlainPayload(d)
  {
    var d := DistributionPayload(distributorId, distributorName, warehouseId, warehouseLocation, lot,
                                 coldChain, previousHash);
    assert KeysAre(d, DistributionKeys);
    DistributionKeysUnique();
    PlainByKeys(d, DistributionKeys);
  }

  /** A distribution receipt has its type and records the lot, the cold-chain block
      and the link to the encapsulation receipt as given. */
  lemma DistributionReceiptFields(p: Primitives, distributorId: string, distributorName: string,
                                  warehouseId: string, warehouseLocation: string, lot: string, coldChain: Dict,
                                  previousHash: string, tenant: Value, ts: string)
    ensures var e := Envelope(p, "distribution",
                              DistributionPayload(distributorId, distributorName, warehouseId, warehouseLocation,
                                                  lot, coldChain, previousHash),
                              tenant, ts);
      && Get(e, "receipt_type") == Some(Str("distribution"))
      && Get(e, "lot_number") == Some(Str(lot))
      && Get(e, "cold_chain") == Some(Obj(coldChain))
      && Get(e, "previous_hash") == Some(Str(previousHash))
  {
    var d := DistributionPayload(distributorId, distributorName, warehouseId, warehouseLocation, lot,
                                 coldChain, previousHash);
    DistributionPayloadKeys(distributorId, distributorName, warehouseId, warehouseLocation, lot, coldChain,
                            previousHash);
    EnvelopeType(p, "distribution", d, tenant, ts);
    EnvelopeField(p, "distribution", d, tenant, ts, 4);
    EnvelopeField(p, "distribution", d, tenant, ts, 5);
    EnvelopeField(p, "distribution", d, tenant, ts, 6);
  }
}
