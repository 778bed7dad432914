/**
 * Stage 3, the testing receipt (src/testing.py): contaminant, potency and
 * oxidation checks against fixed regulatory limits, and the two breaches
 * that stop the batch after the receipt has been written.
 */
module Testing {
  import opened Wrappers
  import opened Values
  import opened Core

  const LabCertTypes: set<string> := {"ISO17025", "Other"}

  // Contaminant and oxidation limits (each value passes when at most its limit).
  const MercuryLimit: real := 0.1        // ppm
  const PcbsLimit: real := 0.09          // ppm
  const DioxinsLimit: real := 3.0        // pg/g
  const PeroxideLimit: real := 5.0       // meq/kg
  const AnisidineLimit: real := 20.0
  const TotoxLimit: real := 26.0

  /** Measured omega-3 must reach this fraction of the label claim. */
  const PotencyThreshold: real := 0.95

  const ContaminantKeys: seq<string> := ["mercury_ppm", "mercury_pass", "pcbs_ppm", "pcbs_pass",
                                         "dioxins_pg_per_g", "dioxins_pass", "all_pass"]

  datatype Contaminants = Contaminants(
    mercuryPpm: real, mercuryPass: bool,
    pcbsPpm: real, pcbsPass: bool,
    dioxinsPgPerG: real, dioxinsPass: bool,
    allPass: bool)

  /** `validate_contaminants`: each level passes iff it is at most its limit;
      the batch passes iff all three do. */
  function ValidateContaminants(mercury: real, pcbs: real, dioxins: real): (c: Contaminants)
    ensures c.mercuryPpm == mercury && c.pcbsPpm == pcbs && c.dioxinsPgPerG == dioxins
    ensures c.mercuryPass <==> mercury <= MercuryLimit
    ensures c.pcbsPass <==> pcbs <= PcbsLimit
    ensures c.dioxinsPass <==> dioxins <= DioxinsLimit
    ensures c.allPass <==> c.mercuryPass && c.pcbsPass && c.dioxinsPass
  {
    var mercuryPass := mercury <= MercuryLimit;
    var pcbsPass := pcbs <= PcbsLimit;
    var dioxinsPass := dioxins <= DioxinsLimit;
    Contaminants(mercury, mercuryPass, pcbs, pcbsPass, dioxins, dioxinsPass,
                 mercuryPass && pcbsPass && dioxinsPass)
  }

  /** The contaminant block as `validate_contaminants` returns it. */
  function ContaminantsDict(c: Contaminants): (d: Dict)
    ensures KeysAre(d, ContaminantKeys) && Unique(ContaminantKeys)
  {
    [ Entry("mercury_ppm", Num(c.mercuryPpm)), Entry("mercury_pass", Bool(c.mercuryPass)),
      Entry("pcbs_ppm", Num(c.pcbsPpm)), Entry("pcbs_pass", Bool(c.pcbsPass)),
      Entry("dioxins_pg_per_g", Num(c.dioxinsPgPerG)), Entry("dioxins_pass", Bool(c.dioxinsPass)),
      Entry("all_pass", Bool(c.allPass)) ]
  }

  datatype Potency = Potency(epaMg: real, dhaMg: real, totalOmega3Mg: real, labelClaimMg: real, potencyPass: bool)

  /** `validate_potency`: the total is EPA plus DHA, and it passes iff it reaches
      95% of the label claim. */
  function ValidatePotency(epa: real, dha: real, labelClaim: real): (r: Potency)
    ensures r.epaMg == epa && r.dhaMg == dha && r.labelClaimMg == labelClaim
    ensures r.totalOmega3Mg == epa + dha
    ensures r.potencyPass <==> epa + dha >= labelClaim * PotencyThreshold
  {
    var total := epa + dha;
    Potency(epa, dha, total, labelClaim, total >= labelClaim * PotencyThreshold)
  }

  function PotencyDict(r: Potency): Dict
  {
    [ Entry("epa_mg", Num(r.epaMg)), Entry("dha_mg", Num(r.dhaMg)),
      Entry("total_omega3_mg", Num(r.totalOmega3Mg)), Entry("label_claim_mg", Num(r.labelClaimMg)),
      Entry("potency_pass", Bool(r.potencyPass)) ]
  }

  datatype Oxidation = Oxidation(peroxide: real, anisidine: real, totox: real, oxidationPass: bool)

  /** `validate_oxidation`: TOTOX is twice the peroxide value plus the anisidine
      value (recorded rounded to two places); the oil passes iff all three are
      within their limits, judged on the unrounded TOTOX. */
  function ValidateOxidation(peroxide: real, anisidine: real): (o: Oxidation)
    ensures o.peroxide == peroxide && o.anisidine == anisidine
    ensures o.totox == Round(2.0 * peroxide + anisidine, 100)
    ensures o.oxidationPass <==>
      peroxide <= PeroxideLimit && anisidine <= AnisidineLimit && 2.0 * peroxide + anisidine <= TotoxLimit
  {
    var totox := 2.0 * peroxide + anisidine;
    Oxidation(peroxide, anisidine, Round(totox, 100),
              peroxide <= PeroxideLimit && anisidine <= AnisidineLimit && totox <= TotoxLimit)
  }

  function OxidationDict(o: Oxidation): Dict
  {
    [ Entry("peroxide_meq_per_kg", Num(o.peroxide)), Entry("anisidine", Num(o.anisidine)),
      Entry("totox", Num(o.totox)), Entry("oxidation_pass", Bool(o.oxidationPass)) ]
  }

  /** Levels exactly at the limits pass; one level above its limit fails the batch. */
  lemma ValidateContaminantsExamples()
    ensures ValidateContaminants(0.1, 0.09, 3.0).allPass
    ensures ValidateContaminants(0.02, 0.03, 1.2).allPass
    ensures !ValidateContaminants(0.15, 0.03, 1.2).mercuryPass && !ValidateContaminants(0.15, 0.03, 1.2).allPass
    ensures !ValidateContaminants(0.02, 0.10, 1.2).allPass
    ensures !ValidateContaminants(0.02, 0.03, 3.5).allPass
  {
  }

  /** With a 700 mg claim the threshold is 665 mg: 665 passes, 664 fails. */
  lemma ValidatePotencyExamples()
    ensures ValidatePotency(420.0, 300.0, 700.0).totalOmega3Mg == 720.0
    ensures ValidatePotency(420.0, 300.0, 700.0).potencyPass
    ensures ValidatePotency(365.0, 300.0, 700.0).potencyPass
    ensures !ValidatePotency(364.0, 300.0, 700.0).potencyPass
    ensures !ValidatePotency(350.0, 250.0, 700.0).potencyPass
  {
  }

  /** TOTOX 26 is on the limit and passes; 27 fails; so do peroxide 6 and anisidine 21. */
  lemma ValidateOxidationExamples()
    ensures ValidateOxidation(5.0, 16.0) == Oxidation(5.0, 16.0, 26.0, true)
    ensures ValidateOxidation(5.0, 17.0) == Oxidation(5.0, 17.0, 27.0, false)
    ensures !ValidateOxidation(6.0, 10.0).oxidationPass
    ensures !ValidateOxidation(3.0, 21.0).oxidationPass
  {
    assert RoundUnits(2600.0) == 2600;
    assert RoundUnits(2700.0) == 2700;
  }

  /** The pre-write guards of `create_testing_receipt`, in order. */
  function TestingCheck(labCertType: string, labCertHash: string): (e: Option<StopRule>)
    ensures e.None? <==> labCertType in LabCertTypes && ':' in labCertHash
    ensures labCertType !in LabCertTypes ==> e == Some(InvalidLabCertType(labCertType))
    ensures labCertType in LabCertTypes && ':' !in labCertHash ==> e == Some(MalformedCertHash(labCertHash))
  {
    if labCertType !in LabCertTypes then Some(InvalidLabCertType(labCertType))
    else if ':' !in labCertHash then Some(MalformedCertHash(labCertHash))
    else None
  }

  /** `overall_pass`: every one of the three checks passed. */
  predicate OverallPass(c: Contaminants, r: Potency, o: Oxidation)
    ensures OverallPass(c, r, o) ==> OutcomeOf(c, o) != ContaminantStop
    ensures c == ValidateContaminants(c.mercuryPpm, c.pcbsPpm, c.dioxinsPgPerG) && OverallPass(c, r, o) ==>
      FailedContaminants(c) == []
  {
    c.allPass && r.potencyPass && o.oxidationPass
  }

  /** The names of the contaminants over their limits, in the order they are reported. */
  function FailedContaminants(c: Contaminants): (names: seq<string>)
    ensures ("mercury" in names <==> !c.mercuryPass) && ("pcbs" in names <==> !c.pcbsPass)
            && ("dioxins" in names <==> !c.dioxinsPass)
    ensures forall n :: n in names ==> n in ["mercury", "pcbs", "dioxins"]
  {
    (if c.mercuryPass then [] else ["mercury"])
      + (if c.pcbsPass then [] else ["pcbs"])
      + (if c.dioxinsPass then [] else ["dioxins"])
  }

  /** What happens after the receipt is written: a contaminant breach stops the
      batch, else a TOTOX breach (judged on the rounded TOTOX) does, else it is accepted. */
  datatype Outcome = ContaminantStop | TotoxStop | Accepted

  function OutcomeOf(c: Contaminants, o: Oxidation): (out: Outcome)
    ensures out == Accepted <==> c.allPass && o.totox <= TotoxLimit
    ensures c == ValidateContaminants(c.mercuryPpm, c.pcbsPpm, c.dioxinsPgPerG) ==>
      (out == ContaminantStop <==> FailedContaminants(c) != [])
  {
    if !c.allPass then ContaminantStop
    else if o.totox > TotoxLimit then TotoxStop
    else Accepted
  }

  /** The payload `_emit_testing` writes. */
  function TestingPayload(labName: string, labCertType: string, labCertId: string, labCertHash: string,
                          batchId: string, c: Contaminants, r: Potency, o: Oxidation, overallPass: bool,
                          previousHash: string): Dict
  {
    [ Entry("lab_name", Str(labName)),
      Entry("lab_cert_type", Str(labCertType)),
      Entry("lab_cert_id", Str(labCertId)),
      Entry("lab_cert_hash", Str(labCertHash)),
      Entry("batch_id", Str(batchId)),
      Entry("contaminants", Obj(ContaminantsDict(c))),
      Entry("potency", Obj(PotencyDict(r))),
      Entry("oxidation", Obj(OxidationDict(o))),
      Entry("overall_pass", Bool(overallPass)),
      Entry("previous_hash", Str(previousHash)) ]
  }

  /** `_emit_testing`: appends exactly one testing receipt. */
  method EmitTesting(ledger: Ledger, p: Primitives, labName: string, labCertType: string, labCertId: string,
                     labCertHash: string, batchId: string, c: Contaminants, r: Potency, o: Oxidation,
                     overallPass: bool, previousHash: string, tenant: Option<string>)
    returns (receipt: Dict)
    modifies ledger
    ensures receipt == Envelope(p, "testing",
                                TestingPayload(labName, labCertType, labCertId, labCertHash, batchId, c, r, o,
                                               overallPass, previousHash),
                                OptStr(tenant), ledger.clock(|old(ledger.records)|))
    ensures ledger.records == old(ledger.records) + [receipt]
  {
    var payload := TestingPayload(labName, labCertType, labCertId, labCertHash, batchId, c, r, o,
                                  overallPass, previousHash);
    receipt := ledger.Emit(p, "testing", payload, OptStr(tenant));
  }

  /** The `payload_hash` an emitted testing receipt stores. */
  function StoredHash(p: Primitives, payload: Dict, tenant: Option<string>, ts: string): string
  {
    PayloadHashOf(p, Unsealed("testing", ts, OptStr(tenant), payload))
  }

  /** `create_testing_receipt`: a failed guard writes nothing. Otherwise exactly one
      receipt is written, and then a contaminant breach or a TOTOX breach is
      reported with that receipt's `payload_hash`. */
  method CreateTestingReceipt(ledger: Ledger, p: Primitives, labName: string, labCertType: string,
                              labCertId: string, labCertHash: string, batchId: string,
                              mercuryPpm: real, pcbsPpm: real, dioxinsPgPerG: real,
                              epaMg: real, dhaMg: real, labelClaimMg: real,
                              peroxide: real, anisidine: real, previousHash: string, tenant: Option<string>)
    returns (result: Result<Dict, StopRule>)
    modifies ledger
    ensures TestingCheck(labCertType, labCertHash).Some? ==>
      && result == Failure(TestingCheck(labCertType, labCertHash).value)
      && ledger.records == old(ledger.records)
    ensures TestingCheck(labCertType, labCertHash).None? ==>
      var c := ValidateContaminants(mercuryPpm, pcbsPpm, dioxinsPgPerG);
      var r := ValidatePotency(epaMg, dhaMg, labelClaimMg);
      var o := ValidateOxidation(peroxide, anisidine);
      var payload := TestingPayload(labName, labCertType, labCertId, labCertHash, batchId, c, r, o,
                                    OverallPass(c, r, o), previousHash);
      var ts := ledger.clock(|old(ledger.records)|);
      var e := Envelope(p, "testing", payload, OptStr(tenant), ts);
      && ledger.records == old(ledger.records) + [e]
      && result == match OutcomeOf(c, o)
         case ContaminantStop => Failure(ContaminantExceed(FailedContaminants(c), StoredHash(p, payload, tenant, ts)))
         case TotoxStop => Failure(TotoxExceed(o.totox, StoredHash(p, payload, tenant, ts)))
         case Accepted => Success(e)
  {
    if labCertType !in LabCertTypes {
      return Failure(InvalidLabCertType(labCertType));
    }
    if ':' !in labCertHash {
      return Failure(MalformedCertHash(labCertHash));
    }
    var c := ValidateContaminants(mercuryPpm, pcbsPpm, dioxinsPgPerG);
    var r := ValidatePotency(epaMg, dhaMg, labelClaimMg);
    var o := ValidateOxidation(peroxide, anisidine);
    var overallPass := c.allPass && r.potencyPass && o.oxidationPass;
    ghost var ts := ledger.clock(|ledger.records|);
    ghost var payload := TestingPayload(labName, labCertType, labCertId, labCertHash, batchId, c, r, o,
                                        overallPass, previousHash);
    if !c.allPass {
      var failed := ListFailed(c);
      var receipt := EmitTesting(ledger, p, labName, labCertType, labCertId, labCertHash, batchId, c, r, o,
                                 overallPass, previousHash, tenant);
      var hash := ReadHash(p, payload, tenant, ts, receipt);
      return Failure(ContaminantExceed(failed, hash));
    }
    if o.totox > TotoxLimit {
      var receipt := EmitTesting(ledger, p, labName, labCertType, labCertId, labCertHash, batchId, c, r, o,
                                 overallPass, previousHash, tenant);
      var hash := ReadHash(p, payload, tenant, ts, receipt);
      return Failure(TotoxExceed(o.totox, hash));
    }
    var receipt := EmitTesting(ledger, p, labName, labCertType, labCertId, labCertHash, batchId, c, r, o,
                               overallPass, previousHash, tenant);
    return Success(receipt);
  }

  /** The `failed` list of `create_testing_receipt`, built one breach at a time. */
  method ListFailed(c: Contaminants) returns (failed: seq<string>)
    ensures failed == FailedContaminants(c)
  {
    failed := [];
    if !c.mercuryPass { failed := failed + ["mercury"]; }
    if !c.pcbsPass { failed := failed + ["pcbs"]; }
    if !c.dioxinsPass { failed := failed + ["dioxins"]; }
  }

  /** `receipt['payload_hash']` of a receipt fresh from `emit_receipt`. */
  method ReadHash(p: Primitives, ghost payload: Dict, ghost tenant: Option<string>, ghost ts: string,
                  receipt: Dict)
    returns (hash: string)
    requires receipt == Envelope(p, "testing", payload, OptStr(tenant), ts)
    ensures hash == StoredHash(p, payload, tenant, ts)
  {
    EnvelopeHashes(p, "testing", payload, OptStr(tenant), ts);
    hash := GetOr(receipt, "payload_hash", Null).s;
  }

  /** The testing payload has the listed keys and none of the envelope's own. */
  const TestingKeys: seq<string> := ["lab_name", "lab_cert_type", "lab_cert_id", "lab_cert_hash", "batch_id",
    "contaminants", "potency", "oxidation", "overall_pass", "previous_hash"]

  /** No key is listed twice, and none is one the envelope writes itself. */
  lemma TestingKeysUnique()
    ensures Unique(TestingKeys + ReservedKeys)
  {
  }

  lemma TestingPayloadKeys(labName: string, labCertType: string, labCertId: string, labCertHash: string,
                           batchId: string, c: Contaminants, r: Potency, o: Oxidation, overallPass: bool,
                           previousHash: string)
    ensures var d := TestingPayload(labName, labCertType, labCertId, labCertHash, batchId, c, r, o,
                                    overallPass, previousHash);
      KeysAre(d, TestingKeys) && PlainPayload(d)
  {
    var d := TestingPayload(labName, labCertType, labCertId, labCertHash, batchId, c, r, o,
                            overallPass, previousHash);
    assert KeysAre(d, TestingKeys);
    TestingKeysUnique();
    PlainByKeys(d, TestingKeys);
  }

  /** A testing receipt records the three check blocks, `overall_pass` and the
      link to the processing receipt as given. */
  lemma TestingReceiptFields(p: Primitives, labName: string, labCertType: string, labCertId: string,
                             labCertHash: string, batchId: string, c: Contaminants, r: Potency, o: Oxidation,
                             overallPass: bool, previousHash: string, tenant: Value, ts: string)
    ensures var e := Envelope(p, "testing",
                              TestingPayload(labName, labCertType, labCertId, labCertHash, batchId, c, r, o,
                                             overallPass, previousHash),
                              tenant, ts);
      && Get(e, "receipt_type") == Some(Str("testing"))
      && Get(e, "contaminants") == Some(Obj(ContaminantsDict(c)))
      && Get(e, "potency") == Some(Obj(PotencyDict(r)))
      && Get(e, "oxidation") == Some(Obj(OxidationDict(o)))
      && Get(e, "overall_pass") == Some(Bool(overallPass))
      && Get(e, "previous_hash") == Some(Str(previousHash))
  {
    var d := TestingPayload(labName, labCertType, labCertId, labCertHash, batchId, c, r, o,
                            overallPass, previousHash);
    TestingPayloadKeys(labName, labCertType, labCertId, labCertHash, batchId, c, r, o, overallPass, previousHash);
    EnvelopeType(p, "testing", d, tenant, ts);
    EnvelopeField(p, "testing", d, tenant, ts, 5);
    EnvelopeField(p, "testing", d, tenant, ts, 6);
    EnvelopeField(p, "testing", d, tenant, ts, 7);
    EnvelopeField(p, "testing", d, tenant, ts, 8);
    EnvelopeField(p, "testing", d, tenant, ts, 9);
  }

  /** The TOTOX stop fires exactly when the unrounded TOTOX exceeds 26.005: the
      rounded value is compared, and 26.005 itself rounds down to 26.00. */
  lemma TotoxStopThreshold(c: Contaminants, peroxide: real, anisidine: real)
    requires c.allPass
    ensures OutcomeOf(c, ValidateOxidation(peroxide, anisidine)) == TotoxStop <==>
            2.0 * peroxide + anisidine > 26.005
  {
    RoundUnitsAbove((2.0 * peroxide + anisidine) * 100.0, 2600);
  }

  /** A potency failure, or a peroxide or anisidine breach while TOTOX stays within
      26, does not stop the batch: the receipt is accepted with `overall_pass` false. */
  lemma SoftFailuresAccepted(mercury: real, pcbs: real, dioxins: real, epa: real, dha: real, labelClaim: real,
                             peroxide: real, anisidine: real)
    requires ValidateContaminants(mercury, pcbs, dioxins).allPass
    requires 2.0 * peroxide + anisidine <= TotoxLimit
    requires !ValidatePotency(epa, dha, labelClaim).potencyPass || peroxide > PeroxideLimit
             || anisidine > AnisidineLimit
    ensures var c, o := ValidateContaminants(mercury, pcbs, dioxins), ValidateOxidation(peroxide, anisidine);
      OutcomeOf(c, o) == Accepted && !OverallPass(c, ValidatePotency(epa, dha, labelClaim), o)
  {
    TotoxStopThreshold(ValidateContaminants(mercury, pcbs, dioxins), peroxide, anisidine);
  }

  /** A TOTOX just above 26 but at most 26.005 fails the oxidation check yet does
      not stop the batch, because the stop compares the rounded value. */
  lemma TotoxRoundingGap()
    ensures var o := ValidateOxidation(5.0, 16.004);
      !o.oxidationPass && OutcomeOf(ValidateContaminants(0.0, 0.0, 0.0), o) == Accepted
  {
    TotoxStopThreshold(ValidateContaminants(0.0, 0.0, 0.0), 5.0, 16.004);
  }

  /** A breach of a contaminant is reported under its name and no other. */
  lemma FailedContaminantsExact(mercury: real, pcbs: real, dioxins: real)
    ensures var c := ValidateContaminants(mercury, pcbs, dioxins);
      (FailedContaminants(c) == [] <==> c.allPass)
      && ("mercury" in FailedContaminants(c) <==> mercury > MercuryLimit)
      && ("pcbs" in FailedContaminants(c) <==> pcbs > PcbsLimit)
      && ("dioxins" in FailedContaminants(c) <==> dioxins > DioxinsLimit)
  {
  }
}
