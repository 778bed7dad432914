/**
 * Stage 2, the processing receipt (src/processing.py): GMP and extraction
 * guards and the yield reconciliation that flags dilution.
 */
module Processing {
  import opened Wrappers
  import opened Values
  import opened Core

  const ExtractionMethods: set<string> := {"MolecularDistillation", "Winterization", "SupercriticalCO2"}
  const GmpCertTypes: set<string> := {"NSF", "USP", "Other"}

  /** Expected band of oil output per kg of raw fish. */
  const YieldMin: real := 0.12
  const YieldMax: real := 0.18

  datatype YieldStatus = Low | Normal | HighDilutionFlag

  /** The status as the receipt records it. */
  function StatusName(s: YieldStatus): string
  {
    match s
    case Low => "LOW"
    case Normal => "NORMAL"
    case HighDilutionFlag => "HIGH_DILUTION_FLAG"
  }

  /** The recorded status names tell the statuses apart. */
  lemma StatusNameInjective(s: YieldStatus, t: YieldStatus)
    requires StatusName(s) == StatusName(t)
    ensures s == t
  {
  }

  /** The outcome of a yield reconciliation: output per kg of input and its band. */
  datatype YieldCheck = YieldCheck(ratio: real, status: YieldStatus)

  /** `validate_yield`: rejects non-positive weights; otherwise classifies the
      ratio into exactly one band, both band edges counting as normal. */
  function ValidateYield(inputKg: real, outputKg: real): (r: Result<YieldCheck, StopRule>)
    ensures r.Failure? <==> inputKg <= 0.0 || outputKg <= 0.0
    ensures r.Failure? ==> r.error == InvalidYield(inputKg, outputKg)
    ensures r.Success? ==> r.value.ratio * inputKg == outputKg && r.value.ratio > 0.0
    ensures r.Success? ==> (r.value.status == Low <==> r.value.ratio < YieldMin)
    ensures r.Success? ==> (r.value.status == HighDilutionFlag <==> r.value.ratio > YieldMax)
    ensures r.Success? ==> (r.value.status == Normal <==> YieldMin <= r.value.ratio <= YieldMax)
  {
    if inputKg <= 0.0 || outputKg <= 0.0 then
      Failure(InvalidYield(inputKg, outputKg))
    else
      var ratio := outputKg / inputKg;
      if ratio < YieldMin then Success(YieldCheck(ratio, Low))
      else if ratio > YieldMax then Success(YieldCheck(ratio, HighDilutionFlag))
      else Success(YieldCheck(ratio, Normal))
  }

  /** The reconciliations of a 1000 kg catch: 120 kg and 180 kg sit on the band
      edges and are normal, 119 kg and 100 kg are low, 181 kg and 220 kg are
      dilution flags, and non-positive weights are rejected. */
  lemma ValidateYieldExamples()
    ensures ValidateYield(1000.0, 120.0) == Success(YieldCheck(0.12, Normal))
    ensures ValidateYield(1000.0, 180.0) == Success(YieldCheck(0.18, Normal))
    ensures ValidateYield(1000.0, 119.0).value.status == Low
    ensures ValidateYield(1000.0, 100.0).value.status == Low
    ensures ValidateYield(1000.0, 181.0).value.status == HighDilutionFlag
    ensures ValidateYield(1000.0, 220.0) == Success(YieldCheck(0.22, HighDilutionFlag))
    ensures ValidateYield(0.0, 100.0) == Failure(InvalidYield(0.0, 100.0))
    ensures ValidateYield(1000.0, -10.0).Failure?
  {
  }

  /** The guards of `create_processing_receipt`, in order; the first that fails names the error. */
  function ProcessingCheck(gmpCertType: string, extractionMethod: string, gmpCertHash: string,
                           inputKg: real, outputKg: real): (e: Option<StopRule>)
    ensures e.None? <==>
      && gmpCertType in GmpCertTypes
      && extractionMethod in ExtractionMethods
      && ':' in gmpCertHash
      && ValidateYield(inputKg, outputKg).Success?
    ensures gmpCertType !in GmpCertTypes ==> e == Some(InvalidGmpCertType(gmpCertType))
    ensures gmpCertType in GmpCertTypes && extractionMethod !in ExtractionMethods ==>
      e == Some(InvalidExtractionMethod(extractionMethod))
    ensures gmpCertType in GmpCertTypes && extractionMethod in ExtractionMethods && ':' !in gmpCertHash ==>
      e == Some(MalformedCertHash(gmpCertHash))
    ensures gmpCertType in GmpCertTypes && extractionMethod in ExtractionMethods && ':' in gmpCertHash ==>
      e == if inputKg <= 0.0 || outputKg <= 0.0 then Some(InvalidYield(inputKg, outputKg)) else None
  {
    if gmpCertType !in GmpCertTypes then Some(InvalidGmpCertType(gmpCertType))
    else if extractionMethod !in ExtractionMethods then Some(InvalidExtractionMethod(extractionMethod))
    else if ':' !in gmpCertHash then Some(MalformedCertHash(gmpCertHash))
    else match ValidateYield(inputKg, outputKg)
      case Failure(err) => Some(err)
      case Success(_) => None
  }

  /** The payload of an accepted processing run; the ratio is stored rounded to four places. */
  function ProcessingPayload(facilityId: string, facilityName: string, gmpCertType: string, gmpCertId: string,
                             gmpCertHash: string, batchId: string, extractionMethod: string,
                             extractionTempC: real, inputKg: real, outputKg: real, y: YieldCheck,
                             previousHash: string): Dict
  {
    [ Entry("facility_id", Str(facilityId)),
      Entry("facility_name", Str(facilityName)),
      Entry("gmp_cert_type", Str(gmpCertType)),
      Entry("gmp_cert_id", Str(gmpCertId)),
      Entry("gmp_cert_hash", Str(gmpCertHash)),
      Entry("batch_id", Str(batchId)),
      Entry("extraction_method", Str(extractionMethod)),
      Entry("extraction_temp_c", Num(extractionTempC)),
      Entry("yield_input_kg", Num(inputKg)),
      Entry("yield_output_kg", Num(outputKg)),
      Entry("yield_ratio", Num(Round(y.ratio, 10000))),
      Entry("yield_expected_min", Num(YieldMin)),
      Entry("yield_expected_max", Num(YieldMax)),
      Entry("yield_status", Str(StatusName(y.status))),
      Entry("previous_hash", Str(previousHash)) ]
  }

  /** `create_processing_receipt`: a failed guard writes nothing; otherwise exactly
      one processing receipt is appended. */
  method CreateProcessingReceipt(ledger: Ledger, p: Primitives, facilityId: string, facilityName: string,
                                 gmpCertType: string, gmpCertId: string, gmpCertHash: string, batchId: string,
                                 extractionMethod: string, extractionTempC: real, inputKg: real, outputKg: real,
                                 previousHash: string, tenant: Option<string>)
    returns (r: Result<Dict, StopRule>)
    modifies ledger
    ensures ProcessingCheck(gmpCertType, extractionMethod, gmpCertHash, inputKg, outputKg).Some? ==>
      && r == Failure(ProcessingCheck(gmpCertType, extractionMethod, gmpCertHash, inputKg, outputKg).value)
      && ledger.records == old(ledger.records)
    ensures ProcessingCheck(gmpCertType, extractionMethod, gmpCertHash, inputKg, outputKg).None? ==>
      && r == Success(Envelope(p, "processing",
                               ProcessingPayload(facilityId, facilityName, gmpCertType, gmpCertId, gmpCertHash,
                                                 batchId, extractionMethod, extractionTempC, inputKg, outputKg,
                                                 ValidateYield(inputKg, outputKg).value, previousHash),
                               OptStr(tenant), ledger.clock(|old(ledger.records)|)))
      && ledger.records == old(ledger.records) + [r.value]
  {
    if gmpCertType !in GmpCertTypes {
      return Failure(InvalidGmpCertType(gmpCertType));
    }
    if extractionMethod !in ExtractionMethods {
      return Failure(InvalidExtractionMethod(extractionMethod));
    }
    if ':' !in gmpCertHash {
      return Failure(MalformedCertHash(gmpCertHash));
    }
    var y := ValidateYield(inputKg, outputKg);
    if y.Failure? {
      return Failure(y.error);
    }
    var payload := ProcessingPayload(facilityId, facilityName, gmpCertType, gmpCertId, gmpCertHash, batchId,
                                     extractionMethod, extractionTempC, inputKg, outputKg, y.value, previousHash);
    var receipt := ledger.Emit(p, "processing", payload, OptStr(tenant));
    return Success(receipt);
  }

  /** `link_to_catch`: the first catch receipt carrying the batch id. */
  method LinkToCatch(ledger: Ledger, batchId: string) returns (r: Option<Dict>)
    ensures r == FindFirst(ledger.records, Query(Some("catch"), "batch_id", Str(batchId)))
  {
    r := ledger.FindReceipt("catch", "batch_id", batchId);
  }

  /** The keys of a processing payload, in order. */
  const ProcessingKeys: seq<string> := ["facility_id", "facility_name", "gmp_cert_type", "gmp_cert_id",
    "gmp_cert_hash", "batch_id", "extraction_method", "extraction_temp_c", "yield_input_kg", "yield_output_kg",
    "yield_ratio", "yield_expected_min", "yield_expected_max", "yield_status", "previous_hash"]

  /** No key is listed twice, and none is one the envelope writes itself. */
  lemma ProcessingKeysUnique()
    ensures Unique(ProcessingKeys + ReservedKeys)
  {
  }

  /** The processing payload has the listed keys and none of the envelope's own. */
  lemma ProcessingPayloadKeys(facilityId: string, facilityName: string, gmpCertType: string, gmpCertId: string,
                              gmpCertHash: string, batchId: string, extractionMethod: string,
                              extractionTempC: real, inputKg: real, outputKg: real, y: YieldCheck,
                              previousHash: string)
    ensures var d := ProcessingPayload(facilityId, facilityName, gmpCertType, gmpCertId, gmpCertHash, batchId,
                                       extractionMethod, extractionTempC, inputKg, outputKg, y, previousHash);
      KeysAre(d, ProcessingKeys) && PlainPayload(d)
  {
    var d := ProcessingPayload(facilityId, facilityName, gmpCertType, gmpCertId, gmpCertHash, batchId,
                               extractionMethod, extractionTempC, inputKg, outputKg, y, previousHash);
    assert KeysAre(d, ProcessingKeys);
    ProcessingKeysUnique();
    PlainByKeys(d, ProcessingKeys);
  }

  /** An accepted processing receipt records the rounded ratio, the yield band
      edges 0.12 and 0.18, the computed status and the given link to the catch. */
  lemma ProcessingReceiptFields(p: Primitives, facilityId: string, facilityName: string, gmpCertType: string,
                                gmpCertId: string, gmpCertHash: string, batchId: string, extractionMethod: string,
                                extractionTempC: real, inputKg: real, outputKg: real, previousHash: string,
                                tenant: Value, ts: string)
    requires ValidateYield(inputKg, outputKg).Success?
    ensures var y := ValidateYield(inputKg, outputKg).value;
      var e := Envelope(p, "processing",
                        ProcessingPayload(facilityId, facilityName, gmpCertType, gmpCertId, gmpCertHash, batchId,
                                          extractionMethod, extractionTempC, inputKg, outputKg, y, previousHash),
                        tenant, ts);
      && Get(e, "receipt_type") == Some(Str("processing"))
      && Get(e, "yield_ratio") == Some(Num(Round(y.ratio, 10000)))
      && Get(e, "yield_expected_min") == Some(Num(0.12))
      && Get(e, "yield_expected_max") == Some(Num(0.18))
      && Get(e, "yield_status") == Some(Str(StatusName(y.status)))
      && Get(e, "previous_hash") == Some(Str(previousHash))
  {
    var y := ValidateYield(inputKg, outputKg).value;
    var d := ProcessingPayload(facilityId, facilityName, gmpCertType, gmpCertId, gmpCertHash, batchId,
                               extractionMethod, extractionTempC, inputKg, outputKg, y, previousHash);
    ProcessingPayloadKeys(facilityId, facilityName, gmpCertType, gmpCertId, gmpCertHash, batchId,
                          extractionMethod, extractionTempC, inputKg, outputKg, y, previousHash);
    EnvelopeType(p, "processing", d, tenant, ts);
    EnvelopeField(p, "processing", d, tenant, ts, 10);
    EnvelopeField(p, "processing", d, tenant, ts, 11);
    EnvelopeField(p, "processing", d, tenant, ts, 12);
    EnvelopeField(p, "processing", d, tenant, ts, 13);
    EnvelopeField(p, "processing", d, tenant, ts, 14);
  }
}
