/**
 * Fraud detection (src/fraud.py): four detectors that each read one receipt and
 * write at most one anomaly receipt, and a pass over a receipt chain that runs
 * the detectors matching each receipt's type.
 *
 * Every detector is specified by a function that says what it finds (a
 * `Finding`); the methods that write the anomaly receipts are proved to write
 * exactly the receipts those findings describe.
 */
module Fraud {
  import opened Wrappers
  import opened Values
  import opened Core
  import Chain
  import Processing
  import Testing
  import Distribution

  datatype AnomalyType = YieldHigh | YieldLow | LabelFraud | ContaminantExceed | ColdChainDegradation

  function AnomalyName(t: AnomalyType): string
  {
    match t
    case YieldHigh => "YIELD_HIGH"
    case YieldLow => "YIELD_LOW"
    case LabelFraud => "LABEL_FRAUD"
    case ContaminantExceed => "CONTAMINANT_EXCEED"
    case ColdChainDegradation => "COLD_CHAIN_DEGRADATION"
  }

  datatype Severity = Flag | Warning | Reject

  function SeverityName(s: Severity): string
  {
    match s
    case Flag => "FLAG"
    case Warning => "WARNING"
    case Reject => "REJECT"
  }

  /** What a detector found in a receipt: the anomaly receipt is built from it. */
  datatype Finding = Finding(anomalyType: AnomalyType, severity: Severity, source: Value, details: Dict,
                             tenant: Value)

  /** The checked receipt's `payload_hash` (empty when absent), recorded as the anomaly's source. */
  function SourceHash(r: Dict): Value
  {
    GetOr(r, "payload_hash", Str(""))
  }

  /** The checked receipt's tenant, carried over to the anomaly receipt. */
  function TenantOf(r: Dict): Value
  {
    GetOr(r, "tenant_id", Null)
  }

  function AnomalyPayload(t: AnomalyType, s: Severity, source: Value, details: Dict): Dict
  {
    [ Entry("anomaly_type", Str(AnomalyName(t))),
      Entry("severity", Str(SeverityName(s))),
      Entry("source_receipt_hash", source),
      Entry("details", Obj(details)) ]
  }

  /** The anomaly receipt `emit_receipt` writes for a finding at time `ts`. */
  function AnomalyReceipt(p: Primitives, f: Finding, ts: string): Dict
  {
    Envelope(p, "anomaly", AnomalyPayload(f.anomalyType, f.severity, f.source, f.details), f.tenant, ts)
  }

  /** What a detector returns: the anomaly receipt, or nothing. */
  function Reported(p: Primitives, f: Option<Finding>, ts: string): Option<Dict>
  {
    if f.Some? then Some(AnomalyReceipt(p, f.value, ts)) else None
  }

  function OptSeq<T>(o: Option<T>): (s: seq<T>)
    ensures |s| <= 1
  {
    if o.Some? then [o.value] else []
  }

  // ---------------------------------------------------------------------
  // Yield anomaly
  // ---------------------------------------------------------------------

  function YieldStatusOf(r: Dict): Value
  {
    GetOr(r, "yield_status", Null)
  }

  function YieldRatioOf(r: Dict): Value
  {
    GetOr(r, "yield_ratio", Num(0.0))
  }

  /** A flagged ratio is formatted as a percentage in the message, so it must be a number. */
  predicate YieldReady(r: Dict)
  {
    YieldStatusOf(r) == Str("HIGH_DILUTION_FLAG") || YieldStatusOf(r) == Str("LOW") ==> Numeric(YieldRatioOf(r))
  }

  /** The details of a yield anomaly, ending with the band edge that was crossed. */
  function YieldDetails(r: Dict, edge: string, edgeKey: string, edgeDefault: real): Dict
  {
    [ Entry("yield_ratio", YieldRatioOf(r)),
      Entry("yield_input_kg", GetOr(r, "yield_input_kg", Null)),
      Entry("yield_output_kg", GetOr(r, "yield_output_kg", Null)),
      Entry(edge, GetOr(r, edgeKey, Num(edgeDefault))) ]
  }

  /** `detect_yield_anomaly`: a dilution flag is a FLAG, a low yield a WARNING,
      and a normal (or missing) status is no anomaly. */
  function YieldFinding(r: Dict): (f: Option<Finding>)
    ensures f.Some? <==> YieldStatusOf(r) == Str("HIGH_DILUTION_FLAG") || YieldStatusOf(r) == Str("LOW")
    ensures f.Some? ==> f.value.source == SourceHash(r) && f.value.tenant == TenantOf(r)
    ensures YieldStatusOf(r) == Str("HIGH_DILUTION_FLAG") ==>
      f.value.anomalyType == YieldHigh && f.value.severity == Flag
    ensures YieldStatusOf(r) == Str("LOW") ==> f.value.anomalyType == YieldLow && f.value.severity == Warning
  {
    if YieldStatusOf(r) == Str("HIGH_DILUTION_FLAG") then
      Some(Finding(YieldHigh, Flag, SourceHash(r), YieldDetails(r, "expected_max", "yield_expected_max", 0.18),
                   TenantOf(r)))
    else if YieldStatusOf(r) == Str("LOW") then
      Some(Finding(YieldLow, Warning, SourceHash(r), YieldDetails(r, "expected_min", "yield_expected_min", 0.12),
                   TenantOf(r)))
    else None
  }

  method DetectYieldAnomaly(ledger: Ledger, p: Primitives, r: Dict) returns (a: Option<Dict>)
    requires YieldReady(r)
    modifies ledger
    ensures a == Reported(p, YieldFinding(r), ledger.clock(|old(ledger.records)|))
    ensures ledger.records == old(ledger.records) + OptSeq(a)
  {
    var status := GetOr(r, "yield_status", Null);
    if status == Str("HIGH_DILUTION_FLAG") {
      var details := YieldDetails(r, "expected_max", "yield_expected_max", 0.18);
      var e := ledger.Emit(p, "anomaly", AnomalyPayload(YieldHigh, Flag, SourceHash(r), details), TenantOf(r));
      return Some(e);
    }
    if status == Str("LOW") {
      var details := YieldDetails(r, "expected_min", "yield_expected_min", 0.12);
      var e := ledger.Emit(p, "anomaly", AnomalyPayload(YieldLow, Warning, SourceHash(r), details), TenantOf(r));
      return Some(e);
    }
    return None;
  }

  // ---------------------------------------------------------------------
  // Label fraud
  // ---------------------------------------------------------------------

  predicate PotencyFails(pot: Dict)
  {
    !Truthy(GetOr(pot, "potency_pass", Bool(true)))
  }

  function TotalOf(pot: Dict): Value
  {
    GetOr(pot, "total_omega3_mg", Num(0.0))
  }

  function ClaimOf(pot: Dict): Value
  {
    GetOr(pot, "label_claim_mg", Num(0.0))
  }

  /** The potency block is a dictionary, and a failed one holds numbers to compare and format. */
  predicate LabelReady(r: Dict)
  {
    BlockReady(r, "potency")
    && (PotencyFails(Block(r, "potency")) ==> Numeric(TotalOf(Block(r, "potency"))) && Numeric(ClaimOf(Block(r, "potency"))))
  }

  /** The measured total as a percentage of the label claim; 0 when there is no positive claim. */
  function PercentOfClaim(total: real, claim: real): (pct: real)
    ensures claim <= 0.0 ==> pct == 0.0
    ensures claim > 0.0 ==> pct * claim == total * 100.0
  {
    if claim > 0.0 then total / claim * 100.0 else 0.0
  }

  function LabelDetails(pot: Dict): Dict
    requires Numeric(TotalOf(pot)) && Numeric(ClaimOf(pot))
  {
    [ Entry("actual_mg", TotalOf(pot)),
      Entry("label_claim_mg", ClaimOf(pot)),
      Entry("percentage_of_claim", Num(Round(PercentOfClaim(AsReal(TotalOf(pot)), AsReal(ClaimOf(pot))), 10))),
      Entry("threshold", Str("95%")) ]
  }

  /** `detect_label_fraud`: a failed potency check (a missing one passes) is a FLAG. */
  function LabelFinding(r: Dict): (f: Option<Finding>)
    requires LabelReady(r)
    ensures f.Some? <==> PotencyFails(Block(r, "potency"))
    ensures f.Some? ==> && f.value.anomalyType == LabelFraud && f.value.severity == Flag
                        && f.value.source == SourceHash(r) && f.value.tenant == TenantOf(r)
  {
    var pot := Block(r, "potency");
    if PotencyFails(pot) then Some(Finding(LabelFraud, Flag, SourceHash(r), LabelDetails(pot), TenantOf(r)))
    else None
  }

  method DetectLabelFraud(ledger: Ledger, p: Primitives, r: Dict) returns (a: Option<Dict>)
    requires LabelReady(r)
    modifies ledger
    ensures a == Reported(p, LabelFinding(r), ledger.clock(|old(ledger.records)|))
    ensures ledger.records == old(ledger.records) + OptSeq(a)
  {
    var potency := Block(r, "potency");
    if !Truthy(GetOr(potency, "potency_pass", Bool(true))) {
      var details := LabelDetails(potency);
      var e := ledger.Emit(p, "anomaly", AnomalyPayload(LabelFraud, Flag, SourceHash(r), details), TenantOf(r));
      return Some(e);
    }
    return None;
  }

  // ---------------------------------------------------------------------
  // Contaminant exceedance
  // ---------------------------------------------------------------------

  predicate LevelFails(cont: Dict, passKey: string)
  {
    !Truthy(GetOr(cont, passKey, Bool(true)))
  }

  /** `failed[key] = cont.get(key)` when the level's pass flag is falsy (a missing flag passes). */
  function AddIfFails(failed: Dict, cont: Dict, passKey: string, key: string): Dict
  {
    if LevelFails(cont, passKey) then Put(failed, key, GetOr(cont, key, Null)) else failed
  }

  /** The `failed` dictionary: each failing level under its own key, in the order
      mercury, PCBs, dioxins. */
  function FailedLevels(cont: Dict): (d: Dict)
    ensures |d| <= 3
    ensures d != [] <==>
      LevelFails(cont, "mercury_pass") || LevelFails(cont, "pcbs_pass") || LevelFails(cont, "dioxins_pass")
  {
    var m := AddIfFails([], cont, "mercury_pass", "mercury_ppm");
    var pc := AddIfFails(m, cont, "pcbs_pass", "pcbs_ppm");
    AddIfFails(pc, cont, "dioxins_pass", "dioxins_pg_per_g")
  }

  const ContaminantMessage: string := "One or more contaminants exceed FDA/GOED limits. Product cannot ship."

  function ContaminantDetails(cont: Dict): Dict
  {
    [ Entry("failed_contaminants", Obj(FailedLevels(cont))),
      Entry("message", Str(ContaminantMessage)) ]
  }

  predicate ContaminantReady(r: Dict)
  {
    BlockReady(r, "contaminants")
  }

  /** `detect_contaminant_exceed`: a failed overall contaminant check (a missing one
      passes) is a REJECT. */
  function ContaminantFinding(r: Dict): (f: Option<Finding>)
    requires ContaminantReady(r)
    ensures f.Some? <==> LevelFails(Block(r, "contaminants"), "all_pass")
    ensures f.Some? ==> && f.value.anomalyType == AnomalyType.ContaminantExceed && f.value.severity == Reject
                        && f.value.source == SourceHash(r) && f.value.tenant == TenantOf(r)
  {
    var cont := Block(r, "contaminants");
    if LevelFails(cont, "all_pass") then
      Some(Finding(AnomalyType.ContaminantExceed, Reject, SourceHash(r), ContaminantDetails(cont), TenantOf(r)))
    else None
  }

  method DetectContaminantExceed(ledger: Ledger, p: Primitives, r: Dict) returns (a: Option<Dict>)
    requires ContaminantReady(r)
    modifies ledger
    ensures a == Reported(p, ContaminantFinding(r), ledger.clock(|old(ledger.records)|))
    ensures ledger.records == old(ledger.records) + OptSeq(a)
  {
    var contaminants := Block(r, "contaminants");
    if !Truthy(GetOr(contaminants, "all_pass", Bool(true))) {
      var failed := CollectFailed(contaminants);
      var details := [Entry("failed_contaminants", Obj(failed)), Entry("message", Str(ContaminantMessage))];
      var e := ledger.Emit(p, "anomaly", AnomalyPayload(AnomalyType.ContaminantExceed, Reject, SourceHash(r), details),
                           TenantOf(r));
      return Some(e);
    }
    return None;
  }

  /** Builds `failed` one failing level at a time. */
  method CollectFailed(cont: Dict) returns (failed: Dict)
    ensures failed == FailedLevels(cont)
  {
    failed := [];
    if !Truthy(GetOr(cont, "mercury_pass", Bool(true))) {
      failed := Put(failed, "mercury_ppm", GetOr(cont, "mercury_ppm", Null));
    }
    if !Truthy(GetOr(cont, "pcbs_pass", Bool(true))) {
      failed := Put(failed, "pcbs_ppm", GetOr(cont, "pcbs_ppm", Null));
    }
    if !Truthy(GetOr(cont, "dioxins_pass", Bool(true))) {
      failed := Put(failed, "dioxins_pg_per_g", GetOr(cont, "dioxins_pg_per_g", Null));
    }
  }

  lemma GetAddIfFails(failed: Dict, cont: Dict, passKey: string, key: string, k: string)
    ensures Get(AddIfFails(failed, cont, passKey, key), k) ==
      if k == key && LevelFails(cont, passKey) then Some(GetOr(cont, key, Null)) else Get(failed, k)
    ensures |AddIfFails(failed, cont, passKey, key)| <= |failed| + 1
  {
    if LevelFails(cont, passKey) {
      GetPut(failed, key, GetOr(cont, key, Null), k);
    }
  }

  /** Exactly the failing levels are listed, each with its recorded value. */
  lemma FailedLevelExact(cont: Dict, passKey: string, key: string)
    requires (passKey, key) in {("mercury_pass", "mercury_ppm"), ("pcbs_pass", "pcbs_ppm"),
                                ("dioxins_pass", "dioxins_pg_per_g")}
    ensures Get(FailedLevels(cont), key) == if LevelFails(cont, passKey) then Some(GetOr(cont, key, Null)) else None
    ensures |FailedLevels(cont)| <= 3
  {
    var m := AddIfFails([], cont, "mercury_pass", "mercury_ppm");
    var pc := AddIfFails(m, cont, "pcbs_pass", "pcbs_ppm");
    assert Get([], key) == None;
    GetAddIfFails([], cont, "mercury_pass", "mercury_ppm", key);
    GetAddIfFails(m, cont, "pcbs_pass", "pcbs_ppm", key);
    GetAddIfFails(pc, cont, "dioxins_pass", "dioxins_pg_per_g", key);
  }

  // ---------------------------------------------------------------------
  // Cold-chain degradation
  // ---------------------------------------------------------------------

  /** The anomaly thresholds, which `detect_cold_chain_degradation` writes out itself. */
  const ColdMaxC: real := 8.0
  const ColdMaxDeviations: real := 3.0

  predicate Enabled(cc: Dict)
  {
    Truthy(GetOr(cc, "enabled", Bool(false)))
  }

  function MaxTempOf(cc: Dict): Value
  {
    GetOr(cc, "max_temp_c", Null)
  }

  function DeviationsOf(cc: Dict): Value
  {
    GetOr(cc, "deviations_count", Num(0.0))
  }

  /** `max_temp is not None and max_temp > 8.0`. */
  predicate TooHot(v: Value)
    requires v != Null ==> Numeric(v)
  {
    v != Null && AsReal(v) > ColdMaxC
  }

  /** The block is a dictionary, and the values an enabled block is compared on are numbers. */
  predicate ColdReady(r: Dict)
  {
    BlockReady(r, "cold_chain")
    && var cc := Block(r, "cold_chain");
    Enabled(cc) ==>
      && (MaxTempOf(cc) != Null ==> Numeric(MaxTempOf(cc)))
      && (!TooHot(MaxTempOf(cc)) ==> Numeric(DeviationsOf(cc)))
  }

  function HotDetails(cc: Dict): Dict
  {
    [ Entry("max_temp_c", MaxTempOf(cc)),
      Entry("avg_temp_c", GetOr(cc, "avg_temp_c", Null)),
      Entry("deviations_count", DeviationsOf(cc)),
      Entry("threshold_max_c", Num(ColdMaxC)) ]
  }

  function DeviationDetails(cc: Dict): Dict
  {
    [ Entry("max_temp_c", MaxTempOf(cc)),
      Entry("deviations_count", DeviationsOf(cc)),
      Entry("threshold_deviations", Num(ColdMaxDeviations)) ]
  }

  /** `detect_cold_chain_degradation`: an untracked chain is no anomaly; a recorded
      maximum above 8 °C is a FLAG; otherwise more than 3 deviations is a WARNING. */
  function ColdChainFinding(r: Dict): (f: Option<Finding>)
    requires ColdReady(r)
    ensures var cc := Block(r, "cold_chain");
      f.Some? <==> Enabled(cc) && (TooHot(MaxTempOf(cc)) || AsReal(DeviationsOf(cc)) > ColdMaxDeviations)
    ensures var cc := Block(r, "cold_chain");
      f.Some? ==> && f.value.anomalyType == ColdChainDegradation
                  && (f.value.severity == Flag <==> TooHot(MaxTempOf(cc)))
                  && (f.value.severity == Flag || f.value.severity == Warning)
                  && f.value.source == SourceHash(r) && f.value.tenant == TenantOf(r)
  {
    var cc := Block(r, "cold_chain");
    if !Enabled(cc) then None
    else if TooHot(MaxTempOf(cc)) then
      Some(Finding(ColdChainDegradation, Flag, SourceHash(r), HotDetails(cc), TenantOf(r)))
    else if AsReal(DeviationsOf(cc)) > ColdMaxDeviations then
      Some(Finding(ColdChainDegradation, Warning, SourceHash(r), DeviationDetails(cc), TenantOf(r)))
    else None
  }

  method DetectColdChainDegradation(ledger: Ledger, p: Primitives, r: Dict) returns (a: Option<Dict>)
    requires ColdReady(r)
    modifies ledger
    ensures a == Reported(p, ColdChainFinding(r), ledger.clock(|old(ledger.records)|))
    ensures ledger.records == old(ledger.records) + OptSeq(a)
  {
    var coldChain := Block(r, "cold_chain");
    if !Truthy(GetOr(coldChain, "enabled", Bool(false))) {
      return None;
    }
    var maxTemp := GetOr(coldChain, "max_temp_c", Null);
    var deviations := GetOr(coldChain, "deviations_count", Num(0.0));
    if maxTemp != Null && AsReal(maxTemp) > ColdMaxC {
      var e := ledger.Emit(p, "anomaly",
                           AnomalyPayload(ColdChainDegradation, Flag, SourceHash(r), HotDetails(coldChain)),
                           TenantOf(r));
      return Some(e);
    }
    if AsReal(deviations) > ColdMaxDeviations {
      var e := ledger.Emit(p, "anomaly",
                           AnomalyPayload(ColdChainDegradation, Warning, SourceHash(r), DeviationDetails(coldChain)),
                           TenantOf(r));
      return Some(e);
    }
    return None;
  }

  // ---------------------------------------------------------------------
  // All checks over a chain
  // ---------------------------------------------------------------------

  /** The detectors that apply to a receipt can run on it without failing. */
  predicate Checkable(r: Dict)
  {
    && (Chain.TypeOf(r) == Str("processing") ==> YieldReady(r))
    && (Chain.TypeOf(r) == Str("testing") ==> LabelReady(r) && ContaminantReady(r))
    && (Chain.TypeOf(r) == Str("distribution") ==> ColdReady(r))
  }

  /** Every receipt of the chain can be checked. */
  predicate AllCheckable(chain: seq<Dict>)
  {
    forall i {:trigger Checkable(chain[i])} :: 0 <= i < |chain| ==> Checkable(chain[i])
  }

  /** The findings for one receipt, in the order its detectors run. */
  function ReceiptFindings(r: Dict): (fs: seq<Finding>)
    requires Checkable(r)
    ensures |fs| <= 2
  {
    if Chain.TypeOf(r) == Str("processing") then OptSeq(YieldFinding(r))
    else if Chain.TypeOf(r) == Str("testing") then OptSeq(LabelFinding(r)) + OptSeq(ContaminantFinding(r))
    else if Chain.TypeOf(r) == Str("distribution") then OptSeq(ColdChainFinding(r))
    else []
  }

  /** The findings for a chain, receipt by receipt. */
  function Findings(chain: seq<Dict>): (fs: seq<Finding>)
    requires AllCheckable(chain)
    ensures (forall i :: 0 <= i < |chain| ==> ReceiptFindings(chain[i]) == []) ==> fs == []
  {
    if chain == [] then [] else Findings(chain[..|chain| - 1]) + ReceiptFindings(chain[|chain| - 1])
  }

  /** The receipt written for a finding as the ledger's `k`-th record. */
  function Writer(p: Primitives, clock: nat -> string): (Finding, nat) -> Dict
  {
    (f: Finding, k: nat) => AnomalyReceipt(p, f, clock(k))
  }

  /** The receipts `write` gives for a run of findings written one after another
      from record `n` on: the `i`-th finding becomes record `n + i`. */
  function WrittenFrom(write: (Finding, nat) -> Dict, fs: seq<Finding>, n: nat): (rs: seq<Dict>)
    ensures |rs| == |fs|
  {
    if fs == [] then [] else WrittenFrom(write, fs[..|fs| - 1], n) + [write(fs[|fs| - 1], n + |fs| - 1)]
  }

  /** `run_all_fraud_checks`: runs the detectors each receipt's type calls for
      (label fraud before contaminants on a testing receipt) and returns the
      anomaly receipts in the order they were written. */
  method RunAllFraudChecks(ledger: Ledger, p: Primitives, chain: seq<Dict>) returns (anomalies: seq<Dict>)
    requires AllCheckable(chain)
    modifies ledger
    ensures anomalies == WrittenFrom(Writer(p, ledger.clock), Findings(chain), |old(ledger.records)|)
    ensures ledger.records == old(ledger.records) + anomalies
  {
    ghost var start, write := ledger.records, Writer(p, ledger.clock);
    anomalies := [];
    var i := 0;
    FindingsStart(chain);
    while i < |chain|
      invariant 0 <= i <= |chain|
      invariant AllCheckable(chain[..i])
      invariant anomalies == WrittenFrom(write, Findings(chain[..i]), |start|)
      invariant ledger.records == start + anomalies
    {
      FindingsStep(chain, i);
      ghost var done, next := Findings(chain[..i]), ReceiptFindings(chain[i]);
      ghost var before := ledger.records;
      assert |before| == |start| + |done|;
      var found := CheckReceipt(ledger, p, chain[i]);
      assert found == WrittenFrom(write, next, |before|);
      WrittenAppend(write, done, next, |start|);
      assert anomalies + found == WrittenFrom(write, Findings(chain[..i + 1]), |start|);
      AppendAssoc(start, anomalies, found);
      anomalies := anomalies + found;
      i := i + 1;
    }
    FindingsWhole(chain);
  }

  /** Checking one more receipt of the chain adds that receipt's findings at the end. */
  lemma FindingsStep(chain: seq<Dict>, i: nat)
    requires AllCheckable(chain) && i < |chain|
    ensures AllCheckable(chain[..i]) && AllCheckable(chain[..i + 1])
    ensures Findings(chain[..i + 1]) == Findings(chain[..i]) + ReceiptFindings(chain[i])
  {
    assert chain[..i + 1][..i] == chain[..i];
    assert chain[..i + 1][i] == chain[i];
    assert Checkable(chain[i]);
  }

  lemma FindingsStart(chain: seq<Dict>)
    ensures AllCheckable(chain[..0]) && Findings(chain[..0]) == []
  {
    assert chain[..0] == [];
  }

  lemma FindingsWhole(chain: seq<Dict>)
    requires AllCheckable(chain)
    ensures AllCheckable(chain[..|chain|]) && Findings(chain[..|chain|]) == Findings(chain)
  {
    assert chain[..|chain|] == chain;
  }

  /** The body of the loop over the chain: the detectors for one receipt. */
  method CheckReceipt(ledger: Ledger, p: Primitives, r: Dict) returns (found: seq<Dict>)
    requires Checkable(r)
    modifies ledger
    ensures found == WrittenFrom(Writer(p, ledger.clock), ReceiptFindings(r), |old(ledger.records)|)
    ensures ledger.records == old(ledger.records) + found
  {
    var rtype := GetOr(r, "receipt_type", Null);
    ghost var n := |ledger.records|;
    found := [];
    if rtype == Str("processing") {
      var result := DetectYieldAnomaly(ledger, p, r);
      WrittenOne(p, ledger.clock, YieldFinding(r), n);
      found := OptSeq(result);
    } else if rtype == Str("testing") {
      found := CheckTesting(ledger, p, r);
    } else if rtype == Str("distribution") {
      var coldResult := DetectColdChainDegradation(ledger, p, r);
      WrittenOne(p, ledger.clock, ColdChainFinding(r), n);
      found := OptSeq(coldResult);
    }
  }

  /** The two detectors for a testing receipt, label fraud first. */
  method CheckTesting(ledger: Ledger, p: Primitives, r: Dict) returns (found: seq<Dict>)
    requires LabelReady(r) && ContaminantReady(r)
    modifies ledger
    ensures found == WrittenFrom(Writer(p, ledger.clock), OptSeq(LabelFinding(r)) + OptSeq(ContaminantFinding(r)),
                                 |old(ledger.records)|)
    ensures ledger.records == old(ledger.records) + found
  {
    ghost var n, write := |ledger.records|, Writer(p, ledger.clock);
    ghost var labelRun, contaminantRun := OptSeq(LabelFinding(r)), OptSeq(ContaminantFinding(r));
    var labelResult := DetectLabelFraud(ledger, p, r);
    WrittenOne(p, ledger.clock, LabelFinding(r), n);
    var contaminantResult := DetectContaminantExceed(ledger, p, r);
    WrittenOne(p, ledger.clock, ContaminantFinding(r), n + |labelRun|);
    WrittenAppend(write, labelRun, contaminantRun, n);
    found := OptSeq(labelResult) + OptSeq(contaminantResult);
    AppendAssoc(old(ledger.records), OptSeq(labelResult), OptSeq(contaminantResult));
  }

  /** A detector's result, as a run of at most one receipt, is what writing its finding gives. */
  lemma WrittenOne(p: Primitives, clock: nat -> string, f: Option<Finding>, n: nat)
    ensures WrittenFrom(Writer(p, clock), OptSeq(f), n) == OptSeq(Reported(p, f, clock(n)))
  {
  }

  /** Writing two runs of findings one after the other writes their receipts in that order. */
  lemma {:induction false} WrittenAppend(write: (Finding, nat) -> Dict, fs: seq<Finding>, gs: seq<Finding>, n: nat)
    ensures WrittenFrom(write, fs + gs, n) == WrittenFrom(write, fs, n) + WrittenFrom(write, gs, n + |fs|)
  {
    if gs == [] {
      assert fs + gs == fs;
    } else {
      var gs' := gs[..|gs| - 1];
      assert (fs + gs)[..|fs + gs| - 1] == fs + gs';
      WrittenAppend(write, fs, gs', n);
    }
  }

  /** The `i`-th finding of a run is written as record `n + i`. */
  lemma {:induction false} WrittenAt(write: (Finding, nat) -> Dict, fs: seq<Finding>, n: nat, i: nat)
    requires i < |fs|
    ensures WrittenFrom(write, fs, n)[i] == write(fs[i], n + i)
  {
    if i < |fs| - 1 {
      WrittenAt(write, fs[..|fs| - 1], n, i);
    }
  }

  /** The last element of `a + b` and what comes before it, for a non-empty `b`. */
  lemma InitOfAppend<T>(a: seq<T>, b: seq<T>)
    requires b != []
    ensures (a + b)[..|a + b| - 1] == a + b[..|b| - 1]
    ensures (a + b)[|a + b| - 1] == b[|b| - 1]
  {
  }

  lemma AllCheckableAppend(a: seq<Dict>, b: seq<Dict>)
    requires AllCheckable(a) && AllCheckable(b)
    ensures AllCheckable(a + b)
  {
    forall i | 0 <= i < |a + b|
      ensures Checkable((a + b)[i])
    {
      if i < |a| {
        assert (a + b)[i] == a[i];
        assert Checkable(a[i]);
      } else {
        assert (a + b)[i] == b[i - |a|];
        assert Checkable(b[i - |a|]);
      }
    }
  }

  /** The findings for two chains checked one after the other are the first's followed by the second's. */
  lemma {:induction false} FindingsAppend(a: seq<Dict>, b: seq<Dict>)
    requires AllCheckable(a) && AllCheckable(b)
    ensures AllCheckable(a + b)
    ensures Findings(a + b) == Findings(a) + Findings(b)
  {
    AllCheckableAppend(a, b);
    if b == [] {
      assert a + b == a;
    } else {
      var b' := b[..|b| - 1];
      InitOfAppend(a, b);
      FindingsStep(b, |b| - 1);
      FindingsWhole(b);
      FindingsAppend(a, b');
      AppendAssoc(Findings(a), Findings(b'), ReceiptFindings(b[|b| - 1]));
    }
  }

  /** Only processing, testing and distribution receipts are checked; a testing
      receipt yields at most two anomalies and any other at most one. */
  lemma ReceiptFindingsBound(r: Dict)
    requires Checkable(r)
    ensures Chain.TypeOf(r) !in {Str("processing"), Str("testing"), Str("distribution")} ==> ReceiptFindings(r) == []
    ensures |ReceiptFindings(r)| <= if Chain.TypeOf(r) == Str("testing") then 2 else 1
  {
  }

  /** A chain of n receipts yields at most 2n anomalies. */
  lemma {:induction false} FindingsBound(chain: seq<Dict>)
    requires AllCheckable(chain)
    ensures |Findings(chain)| <= 2 * |chain|
  {
    if chain != [] {
      FindingsBound(chain[..|chain| - 1]);
      ReceiptFindingsBound(chain[|chain| - 1]);
    }
  }

  /** Every finding for a receipt names that receipt's hash as its source and carries its tenant. */
  lemma ReceiptFindingsSource(r: Dict)
    requires Checkable(r)
    ensures forall f :: f in ReceiptFindings(r) ==> f.source == SourceHash(r) && f.tenant == TenantOf(r)
  {
    if Chain.TypeOf(r) == Str("processing") {
      assert ReceiptFindings(r) == OptSeq(YieldFinding(r));
    } else if Chain.TypeOf(r) == Str("testing") {
      assert ReceiptFindings(r) == OptSeq(LabelFinding(r)) + OptSeq(ContaminantFinding(r));
    } else if Chain.TypeOf(r) == Str("distribution") {
      assert ReceiptFindings(r) == OptSeq(ColdChainFinding(r));
    }
  }

  /** Every anomaly names a receipt of the chain as its source and carries that receipt's tenant. */
  lemma {:induction false} FindingsTraceBack(chain: seq<Dict>, j: nat)
    requires AllCheckable(chain) && j < |Findings(chain)|
    ensures exists i :: 0 <= i < |chain| && Findings(chain)[j].source == SourceHash(chain[i])
                                         && Findings(chain)[j].tenant == TenantOf(chain[i])
  {
    var n := |chain| - 1;
    FindingsStep(chain, n);
    FindingsWhole(chain);
    var init := chain[..n];
    if j < |Findings(init)| {
      FindingsTraceBack(init, j);
      var i :| 0 <= i < |init| && Findings(init)[j].source == SourceHash(init[i])
                               && Findings(init)[j].tenant == TenantOf(init[i]);
      assert chain[i] == init[i];
    } else {
      ReceiptFindingsSource(chain[n]);
      assert Findings(chain)[j] in ReceiptFindings(chain[n]);
    }
  }

  /** On a testing receipt that fails both checks, the label-fraud anomaly comes
      before the contaminant one. */
  lemma TestingFindingsOrder(r: Dict)
    requires Checkable(r) && Chain.TypeOf(r) == Str("testing")
    requires PotencyFails(Block(r, "potency")) && LevelFails(Block(r, "contaminants"), "all_pass")
    ensures |ReceiptFindings(r)| == 2
    ensures ReceiptFindings(r)[0].anomalyType == LabelFraud && ReceiptFindings(r)[0].severity == Flag
    ensures ReceiptFindings(r)[1].anomalyType == AnomalyType.ContaminantExceed && ReceiptFindings(r)[1].severity == Reject
  {
  }

  // ---------------------------------------------------------------------
  // The detectors on the receipts the stages write
  // ---------------------------------------------------------------------

  /** On an accepted processing receipt, a yield anomaly is raised exactly when the
      ratio left the 12–18% band: a dilution FLAG above it, a WARNING below it,
      with the stored (rounded) ratio in the details. */
  lemma YieldAnomalyOutOfBand(p: Primitives, facilityId: string, facilityName: string, gmpCertType: string,
                              gmpCertId: string, gmpCertHash: string, batchId: string, extractionMethod: string,
                              extractionTempC: real, inputKg: real, outputKg: real, previousHash: string,
                              tenant: Value, ts: string)
    requires Processing.ValidateYield(inputKg, outputKg).Success?
    ensures var y := Processing.ValidateYield(inputKg, outputKg).value;
      var e := Envelope(p, "processing",
                        Processing.ProcessingPayload(facilityId, facilityName, gmpCertType, gmpCertId, gmpCertHash,
                                                     batchId, extractionMethod, extractionTempC, inputKg, outputKg,
                                                     y, previousHash),
                        tenant, ts);
      && Checkable(e)
      && (YieldFinding(e).Some? <==> y.ratio < Processing.YieldMin || y.ratio > Processing.YieldMax)
      && (y.ratio > Processing.YieldMax ==> YieldFinding(e).value.anomalyType == YieldHigh)
      && (y.ratio < Processing.YieldMin ==> YieldFinding(e).value.anomalyType == YieldLow)
      && (YieldFinding(e).Some? ==> YieldFinding(e).value.details[0] == Entry("yield_ratio", Num(Round(y.ratio, 10000))))
  {
    Processing.ProcessingReceiptFields(p, facilityId, facilityName, gmpCertType, gmpCertId, gmpCertHash, batchId,
                                       extractionMethod, extractionTempC, inputKg, outputKg, previousHash, tenant, ts);
  }

  /** On a receipt whose potency block is the one `validate_potency` produced (as
      on every testing receipt), a label-fraud FLAG is raised exactly when EPA
      plus DHA fell short of 95% of the label claim, and it records the measured
      total, the claim and the percentage of the claim rounded to one place. */
  lemma LabelAnomalyIffShortfall(e: Dict, epa: real, dha: real, labelClaim: real)
    requires Get(e, "potency") == Some(Obj(Testing.PotencyDict(Testing.ValidatePotency(epa, dha, labelClaim))))
    ensures LabelReady(e)
    ensures LabelFinding(e).Some? <==> epa + dha < labelClaim * Testing.PotencyThreshold
    ensures LabelFinding(e).Some? ==>
      LabelFinding(e).value.details ==
        [ Entry("actual_mg", Num(epa + dha)),
          Entry("label_claim_mg", Num(labelClaim)),
          Entry("percentage_of_claim", Num(Round(PercentOfClaim(epa + dha, labelClaim), 10))),
          Entry("threshold", Str("95%")) ]
  {
    var r := Testing.ValidatePotency(epa, dha, labelClaim);
    var pot := Testing.PotencyDict(r);
    assert Block(e, "potency") == pot;
    FirstIndexIs(pot, "total_omega3_mg", 2);
    assert GetOr(pot, "total_omega3_mg", Num(0.0)) == Num(epa + dha);
    FirstIndexIs(pot, "label_claim_mg", 3);
    assert GetOr(pot, "label_claim_mg", Num(0.0)) == Num(labelClaim);
    FirstIndexIs(pot, "potency_pass", 4);
    assert GetOr(pot, "potency_pass", Bool(true)) == Bool(r.potencyPass);
  }

  /** On a receipt whose contaminant block is the one `validate_contaminants`
      produced (as on every testing receipt), a contaminant REJECT is raised
      exactly when a level exceeded its limit, and it lists exactly the exceeded
      levels with their measured values. */
  lemma ContaminantAnomalyExact(e: Dict, mercury: real, pcbs: real, dioxins: real)
    requires Get(e, "contaminants") ==
             Some(Obj(Testing.ContaminantsDict(Testing.ValidateContaminants(mercury, pcbs, dioxins))))
    ensures ContaminantReady(e)
    ensures ContaminantFinding(e).Some? <==>
            mercury > Testing.MercuryLimit || pcbs > Testing.PcbsLimit || dioxins > Testing.DioxinsLimit
    ensures var failed := FailedLevels(Block(e, "contaminants"));
      && (ContaminantFinding(e).Some? ==> ContaminantFinding(e).value.details[0] == Entry("failed_contaminants", Obj(failed)))
      && Get(failed, "mercury_ppm") == (if mercury > Testing.MercuryLimit then Some(Num(mercury)) else None)
      && Get(failed, "pcbs_ppm") == (if pcbs > Testing.PcbsLimit then Some(Num(pcbs)) else None)
      && Get(failed, "dioxins_pg_per_g") == (if dioxins > Testing.DioxinsLimit then Some(Num(dioxins)) else None)
  {
    var cont := Testing.ContaminantsDict(Testing.ValidateContaminants(mercury, pcbs, dioxins));
    assert Block(e, "contaminants") == cont;
    ContaminantsDictFields(Testing.ValidateContaminants(mercury, pcbs, dioxins));
    FailedLevelExact(cont, "mercury_pass", "mercury_ppm");
    FailedLevelExact(cont, "pcbs_pass", "pcbs_ppm");
    FailedLevelExact(cont, "dioxins_pass", "dioxins_pg_per_g");
  }

  /** The values the contaminant detector reads from a recorded contaminant block. */
  lemma ContaminantsDictFields(c: Testing.Contaminants)
    ensures var cont := Testing.ContaminantsDict(c);
      && GetOr(cont, "all_pass", Bool(true)) == Bool(c.allPass)
      && GetOr(cont, "mercury_pass", Bool(true)) == Bool(c.mercuryPass)
      && GetOr(cont, "mercury_ppm", Null) == Num(c.mercuryPpm)
      && GetOr(cont, "pcbs_pass", Bool(true)) == Bool(c.pcbsPass)
      && GetOr(cont, "pcbs_ppm", Null) == Num(c.pcbsPpm)
      && GetOr(cont, "dioxins_pass", Bool(true)) == Bool(c.dioxinsPass)
      && GetOr(cont, "dioxins_pg_per_g", Null) == Num(c.dioxinsPgPerG)
  {
    var cont := Testing.ContaminantsDict(c);
    FirstIndexIs(cont, "all_pass", 6);
    MercuryFields(c);
    PcbsFields(c);
    DioxinsFields(c);
  }

  lemma MercuryFields(c: Testing.Contaminants)
    ensures var cont := Testing.ContaminantsDict(c);
      GetOr(cont, "mercury_pass", Bool(true)) == Bool(c.mercuryPass) && GetOr(cont, "mercury_ppm", Null) == Num(c.mercuryPpm)
  {
    var cont := Testing.ContaminantsDict(c);
    FirstIndexIs(cont, "mercury_pass", 1);
    FirstIndexIs(cont, "mercury_ppm", 0);
  }

  lemma PcbsFields(c: Testing.Contaminants)
    ensures var cont := Testing.ContaminantsDict(c);
      GetOr(cont, "pcbs_pass", Bool(true)) == Bool(c.pcbsPass) && GetOr(cont, "pcbs_ppm", Null) == Num(c.pcbsPpm)
  {
    var cont := Testing.ContaminantsDict(c);
    FirstIndexIs(cont, "pcbs_pass", 3);
    FirstIndexIs(cont, "pcbs_ppm", 2);
  }

  lemma DioxinsFields(c: Testing.Contaminants)
    ensures var cont := Testing.ContaminantsDict(c);
      GetOr(cont, "dioxins_pass", Bool(true)) == Bool(c.dioxinsPass)
      && GetOr(cont, "dioxins_pg_per_g", Null) == Num(c.dioxinsPgPerG)
  {
    var cont := Testing.ContaminantsDict(c);
    FirstIndexIs(cont, "dioxins_pass", 5);
    FirstIndexIs(cont, "dioxins_pg_per_g", 4);
  }

  /** The anomaly check compares the recorded maximum, rounded to two places, so it
      sees a reading above 8 °C exactly when the true maximum exceeds 8.005 °C. */
  lemma RoundedMaxAbove(hi: real)
    ensures TooHot(Num(Round(hi, 100))) <==> hi > 8.005
  {
    RoundUnitsAbove(hi * 100.0, 800);
    var m := RoundUnits(hi * 100.0);
    assert Round(hi, 100) == m as real / 100.0;
    assert m as real / 100.0 > 8.0 <==> m > 800;
  }

  /** On a receipt whose cold-chain block is the one `validate_cold_chain` produced,
      no readings means no anomaly; otherwise there is none exactly when the true
      maximum is at most 8.005 °C and at most 3 readings deviate, the FLAG is
      raised exactly when the maximum exceeds 8.005 °C, and a passing chain never
      raises one. */
  lemma ColdChainAnomalyExact(e: Dict, temps: seq<real>, durationDays: int, tempLogHash: Option<string>)
    requires Get(e, "cold_chain") ==
             Some(Obj(Distribution.ColdChainDict(Distribution.ValidateColdChain(temps, durationDays, tempLogHash))))
    ensures ColdReady(e)
    ensures temps == [] ==> ColdChainFinding(e).None?
    ensures temps != [] ==>
      && (ColdChainFinding(e).None? <==>
            Distribution.Max(temps) <= 8.005 && Distribution.Deviations(temps) <= Distribution.MaxDeviations)
      && (ColdChainFinding(e).Some? && ColdChainFinding(e).value.severity == Flag <==>
            Distribution.Max(temps) > 8.005)
    ensures Distribution.ValidateColdChain(temps, durationDays, tempLogHash).coldChainPass ==>
      ColdChainFinding(e).None?
  {
    var c := Distribution.ValidateColdChain(temps, durationDays, tempLogHash);
    var cc := Distribution.ColdChainDict(c);
    assert Block(e, "cold_chain") == cc;
    FirstIndexIs(cc, "enabled", 0);
    assert GetOr(cc, "enabled", Bool(false)) == Bool(temps != []);
    FirstIndexIs(cc, "max_temp_c", 3);
    assert GetOr(cc, "max_temp_c", Null) == Distribution.OptNum(c.maxTempC);
    FirstIndexIs(cc, "deviations_count", 5);
    assert GetOr(cc, "deviations_count", Num(0.0)) == Num(c.deviationsCount as real);
    if temps != [] {
      RoundedMaxAbove(Distribution.Max(temps));
    }
  }

  /** A single reading of 8.004 °C fails the cold chain, yet a receipt carrying
      that block raises no anomaly. */
  lemma ColdChainRoundingGap(e: Dict)
    requires Get(e, "cold_chain") == Some(Obj(Distribution.ColdChainDict(Distribution.ValidateColdChain([8.004], 1, None))))
    ensures ColdReady(e)
    ensures !Distribution.ValidateColdChain([8.004], 1, None).coldChainPass && ColdChainFinding(e).None?
  {
    ColdChainAnomalyExact(e, [8.004], 1, None);
    assert Distribution.Deviations([8.004]) == 1;
  }
}
