# fishoilproof receipt engine, modelled in Dafny

fishoilproof records the supply chain of a fish-oil lot as a chain of five
receipts: catch, processing, testing, encapsulation and distribution. Each
stage validates its inputs against fixed allow-lists and regulatory limits.
On acceptance it emits a receipt into an append-only ledger. The envelope of
a receipt holds:

- the receipt type, a timestamp and a tenant;
- the stage's payload;
- a dual SHA-256/BLAKE3 `payload_hash` of the canonical encoding;
- a BLAKE3 Merkle root over the field values.

Each receipt links to its predecessor through `previous_hash`. The chain
verifier walks back from a lot's distribution receipt to its catch receipt,
re-hashes every receipt, and decides whether the chain is valid. A fraud
detector scans a chain and appends one anomaly receipt per finding.

The model has one Dafny module per source file:

- `Values` covers the dictionaries the code passes around. They keep
  insertion order, and `d[k] = v` and `d.get(k, default)` are modelled as
  written. It also holds Python truthiness and Python's ties-to-even `round`.
- `Core` covers dual hashing, the Merkle root, the receipt envelope and the
  linear scans. It also holds the `Ledger` class, whose only mutator is
  `Emit`.
- `Chain` covers single-receipt verification, the chain walk, the summary
  and the QR payload.
- `Catch`, `Processing`, `Testing`, `Encapsulation` and `Distribution` hold
  the five stage validators. Each stage's `create_*` is a method on the
  ledger, and each guard chain is a function that names the first failing
  guard.
- `Fraud` holds the four detectors and the loop that runs them over a chain.

The hash algorithms, the JSON encoder, `str(v)` and `fromisoformat` are
fields of a `Primitives` value that every operation takes as a parameter.
The clock is a function from the ledger's length to a timestamp.

Behaviour the code fixes that a reader might expect otherwise:

- `validate_cold_chain` marks an empty readings list as failed
  (`enabled = false`, `cold_chain_pass = false`, `src/distribution.py:31-41`).
  The fraud detector treats such an untracked chain as "not a fail"
  (`src/fraud.py:133`). The model keeps both behaviours
  (`Distribution.EmptyReadingsExample`, `Fraud.ColdChainAnomalyExact`).
- Values are rounded where the code rounds them:
  - the yield ratio to 4 places;
  - TOTOX to 2 places;
  - the cold-chain statistics to 2 places.
- Consequences of that rounding:
  - The TOTOX stop compares the rounded value (`Testing.TotoxStopThreshold`).
  - The cold-chain anomaly compares the rounded maximum (`Fraud.RoundedMaxAbove`).

Two consequences of the code as written are proved rather than assumed:

- A catch payload has no `batch_id`. So `link_to_catch` (a lookup of a catch
  receipt by `batch_id`) never finds a receipt written by
  `create_catch_receipt` (`Catch.CatchReceiptLacksBatchId`).
- A maximum reading between 8.000 and 8.005 °C fails the cold chain but
  raises no anomaly (`Fraud.ColdChainRoundingGap`). Likewise, a TOTOX between
  26.000 and 26.005 fails the oxidation check but does not stop the batch
  (`Testing.TotoxRoundingGap`).

## Model

| member | source | states |
|---|---|---|
| Values.Put | src/core.py:99-104 | `d[k] = v` overwrites an existing key in place (same length, same key order) or appends a new entry at the end |
| Values.GetPut | src/core.py:104 | after `d[k] = v`, `k` holds `v` and every other key keeps its value |
| Values.RoundUnitsAbove | src/testing.py:100 | Python's ties-to-even rounding lands above an even count exactly when the value is more than half a unit above it |
| Core.Hex | src/core.py:41-42 | a hex digest is two characters per byte and never contains `:` |
| Core.DualHash | src/core.py:29-44 | a dual hash starts with `SHA256_` and is as long as both tags plus two hex characters per digest byte |
| Core.HexInjective | src/core.py:41-42 | different digests have different hex forms |
| Core.DualHashShape | src/core.py:29-44 | every dual hash starts with `SHA256_`, carries `BLAKE3_` right after the SHA-256 digest, and has exactly one `:`, at that spot |
| Core.DualHashInjective | src/core.py:41-44 | equal dual hashes mean both digests agree |
| Core.VerifyDualHash | src/core.py:164-175 | acceptance implies the expected string has the dual-hash shape |
| Core.VerifyDualHashSound | src/core.py:164-175 | a recorded dual hash accepts other data only if both SHA-256 and BLAKE3 collide |
| Core.NextLevel | src/core.py:68-75 | a level of n nodes becomes ceil(n/2) nodes; node k hashes children 2k and 2k+1, and an odd last child is paired with itself |
| Core.Reduce | src/core.py:67-77 | repeated rounds end with exactly one node |
| Core.Leaves | src/core.py:59-64 | one BLAKE3 leaf per item |
| Core.MerkleRoot | src/core.py:47-77 | the level-by-level loop computes the specified root; no items gives the fixed `blake3("empty")` sentinel; the root is a hex digest |
| Core.MerkleRootOf | src/core.py:47-77 | the root is a hex digest with no `:`; a single item's root is the BLAKE3 hex digest of that item |
| Core.NextLevelOdd | src/core.py:72-73 | the odd trailing node is hashed with itself |
| Core.MerkleSmall | src/core.py:47-77 | the roots of one, two and three items, written out, including the duplicated third leaf |
| Core.TenantOf | src/core.py:97 | the tenant is the one given when it is truthy and the default otherwise, and is never empty |
| Core.FieldTexts | src/core.py:111 | one text per field value, in insertion order |
| Core.Envelope | src/core.py:96-112 | the receipt `emit_receipt` builds carries both `payload_hash` and `merkle_root`, and its `payload_hash` is a `SHA256_`-prefixed dual hash |
| Core.PayloadHashDistinguishes | src/core.py:106-108 | dictionaries with different contents get different payload hashes, unless both hash functions collide at once; key order does not matter |
| Core.PlainByKeys | src/core.py:99-104 | a payload with unique keys that avoids the envelope's own keys is plain |
| Core.EnvelopeHashes | src/core.py:106-112 | `payload_hash` is the dual hash of the envelope before the two hash fields; `merkle_root` covers that envelope's values plus the payload hash, in order |
| Core.EnvelopeShape | src/core.py:99-112 | without hash fields in the payload, the receipt is the updated header followed by `payload_hash` and `merkle_root` |
| Core.HeaderKeys | src/core.py:99-103 | the header holds exactly `receipt_type`, `ts` and `tenant_id` |
| Core.EnvelopeGet | src/core.py:99-104 | a non-hash field of the receipt comes from the payload when the payload has it, and from the header otherwise |
| Core.EnvelopeField | src/core.py:104 | every payload entry reaches the receipt unchanged |
| Core.EnvelopeType | src/core.py:100-104 | the receipt has the type it was emitted with unless the payload overrides it |
| Core.EnvelopeKeys | src/core.py:96-112 | the receipt carries the three metadata keys, every payload key and both hash fields; the metadata hold the type, the timestamp and the default tenant when none is given |
| Core.TimestampChangesHash | src/core.py:96-108 | the timestamp is hashed: re-emitting the same payload at another time gives another payload hash, unless both hash functions collide at once |
| Core.FirstMatch | src/core.py:158-161 | the position of the first match in ledger order: every earlier record fails to match |
| Core.FindFirst | src/core.py:158-161 | returns a matching ledger record; none exactly when no record matches |
| Core.ScanFirst | src/core.py:158-161 | the linear scan returns the first match |
| Core.FirstMatchIs | src/core.py:158-161 | the first-match position is unique given its defining properties |
| Core.Ledger.constructor | src/core.py:132-134 | a missing ledger holds no receipts |
| Core.Ledger.Emit | src/core.py:80-120 | appends exactly the built envelope, stamped by the clock, and leaves every earlier record unchanged |
| Core.Ledger.Load | src/core.py:123-142 | returns every record in ledger order |
| Core.Ledger.FindReceipt | src/core.py:145-161 | the first record, in ledger order, whose type and key both match; none exactly when none matches |
| Chain.ReceiptVerifies | src/chain.py:18-40 | a receipt without `payload_hash` never verifies; a verified receipt's stored hash is a `SHA256_`-prefixed dual hash |
| Chain.VerifySingleReceipt | src/chain.py:18-40 | true exactly when the stored hash is non-empty and equals the dual hash of the receipt without its two hash fields; false when the hash is absent or empty |
| Chain.UnsealedLacksHashFields | src/chain.py:31-35 | the envelope before sealing has neither hash field |
| Chain.StrippedEnvelope | src/chain.py:31-35 | dropping the two hash fields from an emitted receipt gives back the envelope that was hashed |
| Chain.EmitVerifies | src/chain.py:31-40 | round trip: every receipt fresh from `emit_receipt` verifies |
| Chain.TamperDetected | src/chain.py:37-40 | changing or adding any non-hash field of an emitted receipt makes verification fail, unless the two contents collide under both hash functions at once (nested blocks are order-sensitive, see Left out) |
| Chain.FindReceiptByHash | src/chain.py:43-48 | the first receipt whose `payload_hash` equals the hash |
| Chain.FindDistributionByLot | src/chain.py:51-56 | the first distribution receipt carrying the lot |
| Chain.FindEncapsulationByLot | src/chain.py:59-64 | the first encapsulation receipt carrying the lot |
| Chain.WalkBack | src/chain.py:107-127 | the walk reaches at most the expected stages, and stops early only after recording an error |
| Chain.WalkBackTypes | src/chain.py:116-127 | every reached receipt is in the ledger; with no error, the reached receipts have the expected stages, in order |
| Chain.WalkBackUnfold | src/chain.py:110-127 | a resolved link extends the walk by the linked receipt and its type error, then continues from it |
| Chain.WalkBackStep | src/chain.py:110-127 | one loop iteration extends the collected chain and errors as the walk specifies |
| Chain.WalkBackwards | src/chain.py:107-127 | the loop computes exactly the specified walk and errors |
| Chain.LinkErrors | src/chain.py:103-105 | at most one error, and none exactly when the distribution receipt's `previous_hash` equals the encapsulation receipt's `payload_hash` |
| Chain.HashErrors | src/chain.py:129-133 | at most one hash error per receipt |
| Chain.CollectHashErrors | src/chain.py:129-135 | the loop collects one hash error per failing receipt, in chain order |
| Chain.ByType | src/chain.py:138-139 | every receipt's type is filed, and each filed receipt is a chain receipt of that type |
| Chain.IndexByType | src/chain.py:138-139 | the loop files each receipt under its type, later ones replacing earlier ones |
| Chain.ChainOf | src/chain.py:67-144 | a missing distribution or encapsulation receipt gives an invalid chain of length 0 with exactly that error; otherwise the length is 2 to 5; a valid chain has length 5 and no error |
| Chain.VerifyChain | src/chain.py:67-144 | computes the specified result over the ledger as it stands |
| Chain.HashErrorsAppend | src/chain.py:130-133 | the hash errors of a concatenation are those of its parts |
| Chain.HashErrorsEmpty | src/chain.py:130-135 | no hash error exactly when every receipt verifies |
| Chain.WalkBackIntact | src/chain.py:107-135 | the walk finds no error and every reached receipt verifies exactly when every link back resolves to a verified receipt of the expected stage |
| Chain.ChainValidIff | src/chain.py:141-142 | `chain_valid` holds exactly for an intact chain: both receipts are found and linked, all five verify, and the three upstream stages are reached in order |
| Chain.ByTypeStages | src/chain.py:138-139 | receipts of distinct given stages are each filed under their own stage |
| Chain.ValidChainParts | src/chain.py:91-142 | a valid chain found both receipts and walked the full three stages without error |
| Chain.CollectedTypes | src/chain.py:108-127 | an error-free full walk collects the five stages in collection order |
| Chain.ValidChainTypes | src/chain.py:108-142 | a valid chain collected five receipts, one per stage, in collection order |
| Chain.ValidChainHasEveryStage | src/chain.py:15 | a valid chain files a receipt of the right type under every stage of the supply chain |
| Chain.StageOrderReversed | src/chain.py:15 | collection runs from distribution back to catch, the reverse of the stage order |
| Chain.SummaryOf | src/chain.py:147-196 | an invalid chain gives `{valid: false, errors}`; a valid one is certified exactly when the cert type is not `"None"`, and its yield is normal exactly when the status is `NORMAL` |
| Chain.GetChainSummary | src/chain.py:147-196 | the summary of the current ledger; a valid summary comes from an intact five-receipt chain, and an invalid one lists errors |
| Chain.InvalidHasErrors | src/chain.py:91-142 | an invalid chain always reports at least one error |
| Chain.QrOf | src/chain.py:209-226 | the QR payload is invalid exactly when the summary is; a valid one carries the verification URL for the lot and the summary's flags |
| Chain.GenerateQrPayload | src/chain.py:199-228 | the QR payload of the current ledger; a valid one comes from an intact five-receipt chain |
| Catch.ValidateSpecies | src/catch.py:34-43 | an approved species is a non-empty name with a non-empty common name to record |
| Catch.ValidateSpeciesExamples | src/catch.py:13-43 | the anchoveta is approved; a non-fish and the empty name are not |
| Catch.CatchCheck | src/catch.py:95-105 | passes exactly when the species is approved, the cert type is allowed, and a cert hash is given unless the type is `"None"`; the first failing guard names the error |
| Catch.CreateCatchReceipt | src/catch.py:66-121 | a failed guard writes nothing; otherwise exactly one catch receipt is appended |
| Catch.CatchPayloadKeys | src/catch.py:110-119 | the payload has the listed keys, no envelope key, and no `batch_id` |
| Catch.CatchReceiptFields | src/catch.py:107-121 | the receipt records the common name, `fishery_approved = true` and the cert fields unchanged |
| Catch.CatchReceiptLacksBatchId | src/catch.py:110-119 | no emitted catch receipt matches the `batch_id` lookup of `link_to_catch` |
| Processing.StatusNameInjective | src/processing.py:35-40 | the three recorded status names are distinct |
| Processing.ValidateYield | src/processing.py:17-40 | rejects exactly non-positive weights; otherwise ratio × input = output, and exactly one band holds: LOW below 0.12, HIGH_DILUTION_FLAG above 0.18, NORMAL with both edges included |
| Processing.ValidateYieldExamples | src/processing.py:30-40 | 120 and 180 kg out of 1000 are NORMAL, 119 is LOW, 181 is a dilution flag, and zero input is rejected |
| Processing.ProcessingCheck | src/processing.py:94-103 | guards in order: GMP cert type, extraction method, `:` in the cert hash, then the yield |
| Processing.CreateProcessingReceipt | src/processing.py:56-123 | a failed guard writes nothing; otherwise exactly one processing receipt is appended |
| Processing.LinkToCatch | src/processing.py:43-53 | the first catch receipt with the batch id |
| Processing.ProcessingPayloadKeys | src/processing.py:105-121 | the payload has the listed keys and no envelope key |
| Processing.ProcessingReceiptFields | src/processing.py:105-123 | the receipt records the ratio rounded to 4 places, the bands 0.12 and 0.18, the status and the link |
| Testing.ValidateContaminants | src/testing.py:29-52 | each level passes exactly when it is at most its limit, and `all_pass` is their conjunction |
| Testing.ContaminantsDict | src/testing.py:44-52 | the contaminant block holds the seven keys of `validate_contaminants`, in order, each once |
| Testing.ValidatePotency | src/testing.py:55-75 | the total is EPA plus DHA, passing exactly when it reaches 95% of the claim |
| Testing.ValidateOxidation | src/testing.py:78-102 | TOTOX is twice peroxide plus anisidine, recorded rounded to 2 places; passes exactly when all three are within limits |
| Testing.ValidateContaminantsExamples | src/testing.py:40-51 | values at the limits pass; one breach fails the batch |
| Testing.ValidatePotencyExamples | src/testing.py:66-67 | with a 700 mg claim, 665 mg passes and 664 mg fails |
| Testing.ValidateOxidationExamples | src/testing.py:90-95 | TOTOX 26 passes, 27 fails, and so do peroxide 6 and anisidine 21 |
| Testing.TestingCheck | src/testing.py:149-153 | the lab cert type, then `:` in the cert hash |
| Testing.OverallPass | src/testing.py:159-161 | a batch that passes overall is never stopped for contaminants, and when its block was validated it lists no failed contaminant |
| Testing.FailedContaminants | src/testing.py:165-171 | names exactly the failed levels, among mercury, PCBs and dioxins |
| Testing.OutcomeOf | src/testing.py:163-193 | the batch is accepted exactly when all contaminants pass and the rounded TOTOX is at most 26; for a validated block, the contaminant stop fires exactly when some contaminant is listed as failed |
| Testing.EmitTesting | src/testing.py:196-215 | appends exactly one testing receipt |
| Testing.CreateTestingReceipt | src/testing.py:105-193 | a failed guard writes nothing; otherwise exactly one receipt is written; then a contaminant breach or a rounded TOTOX over 26 is reported with that receipt's hash, and anything else is accepted |
| Testing.ListFailed | src/testing.py:165-171 | the method's three conditional appends build exactly the failed list, in order |
| Testing.ReadHash | src/testing.py:178 | reads the stored hash of the written receipt |
| Testing.TestingPayloadKeys | src/testing.py:202-215 | the payload has the listed keys and no envelope key |
| Testing.TestingReceiptFields | src/testing.py:196-215 | the receipt records the three blocks, `overall_pass` and the link |
| Testing.TotoxStopThreshold | src/testing.py:181 | the TOTOX stop fires exactly when the unrounded TOTOX exceeds 26.005 |
| Testing.SoftFailuresAccepted | src/testing.py:159-193 | a potency failure, or a peroxide or anisidine breach with TOTOX at most 26, is accepted with `overall_pass` false |
| Testing.TotoxRoundingGap | src/testing.py:90-100 | TOTOX 26.004 fails oxidation yet is accepted |
| Testing.FailedContaminantsExact | src/testing.py:164-171 | each contaminant is listed exactly when it exceeds its limit; nothing is listed exactly when all pass |
| Encapsulation.Decimal | src/encapsulation.py:26 | a non-empty string of digits |
| Encapsulation.DecimalRoundTrip | src/encapsulation.py:26 | reading the numeral back gives the year |
| Encapsulation.Pad2 | src/encapsulation.py:26 | `:02d`: two decimal digits that read back as the month or day, with a leading `0` below 10 |
| Encapsulation.LotSuffix | src/encapsulation.py:25 | always two characters |
| Encapsulation.GenerateLotNumber | src/encapsulation.py:15-26 | `LOT-YYYY-MMDD-XX`: starts with `LOT-` and ends with the suffix, which is `XX` for ids shorter than 2 |
| Encapsulation.LotNumberDate | src/encapsulation.py:16-26 | after `LOT-` come the year's numeral, a dash, the two-digit month and day, and a dash; each numeral reads back as the year, month and day it was written from |
| Encapsulation.LotNumberParts | src/encapsulation.py:26 | the lot has three dashes of its own, plus any in the suffix |
| Encapsulation.LotNumberExamples | src/encapsulation.py:25-26 | batch `BP-2025-0130` ends in `30`; a one-character id gives `XX` |
| Encapsulation.LotNumberExample | src/encapsulation.py:24-26 | batch `bp-7ab` on 30 January 2025 gets `LOT-2025-0130-AB` |
| Encapsulation.EncapsulationCheck | src/encapsulation.py:80-96 | guards in order: cert type, hash shape, lot uniqueness among encapsulation receipts, then the fill date |
| Encapsulation.CreateEncapsulationReceipt | src/encapsulation.py:42-112 | a failed guard writes nothing; otherwise one receipt is appended, and lot numbers stay unique |
| Encapsulation.LinkToTesting | src/encapsulation.py:29-39 | the first testing receipt with the batch id |
| Encapsulation.EncapsulationPayloadKeys | src/encapsulation.py:98-110 | the payload has the listed keys and no envelope key |
| Encapsulation.EncapsulationReceiptFields | src/encapsulation.py:98-112 | the receipt is an encapsulation receipt carrying its lot, fill date and link |
| Encapsulation.LotsUnique | src/encapsulation.py:87-90 | the ledger invariant that no two encapsulation receipts share a lot; it holds of an empty or one-record ledger and of every earlier state of a ledger that has it |
| Encapsulation.LotsUniqueAppend | src/encapsulation.py:87-90 | appending keeps lots unique unless it adds a taken lot to an encapsulation receipt |
| Encapsulation.NewLotKeepsUnique | src/encapsulation.py:87-112 | the receipt appended after the scan keeps lots unique |
| Encapsulation.OtherReceiptKeepsLotsUnique | src/encapsulation.py:87-90 | receipts of other stages never break uniqueness, even when they carry a lot |
| Encapsulation.UniqueLotFound | src/chain.py:59-64 | with unique lots, the chain verifier finds the only encapsulation receipt of the lot |
| Distribution.Deviations | src/distribution.py:46 | at most the number of readings |
| Distribution.MinMaxBound | src/distribution.py:44-45 | the minimum and maximum are readings and bound all readings |
| Distribution.NoDeviations | src/distribution.py:46 | no deviation exactly when all readings lie in 2–8 °C |
| Distribution.ValidateColdChain | src/distribution.py:16-59 | no readings gives a disabled, failed block with no statistics; otherwise the mean, minimum and maximum are rounded to 2 places, deviations are counted, and the chain passes exactly when the maximum is at most 8 °C and at most 3 readings deviate |
| Distribution.ColdChainDict | src/distribution.py:31-59 | the cold-chain block holds the eight keys of `validate_cold_chain`, in order, each once, with `max_temp_c` stored as `None` exactly when there is no maximum |
| Distribution.MeanBetween | src/distribution.py:43-45 | the unrounded mean lies between the minimum and the maximum |
| Distribution.PassBoundsReadings | src/distribution.py:48 | a passing chain never exceeded 8 °C and has at most 3 deviations |
| Distribution.HighTempExample | src/distribution.py:43-48 | one 12 °C excursion is one deviation and fails the chain |
| Distribution.ThreeDeviationsExample | src/distribution.py:46-48 | three deviations with a maximum of exactly 8 °C still pass |
| Distribution.DeviationsAppend | src/distribution.py:46 | deviations of a concatenation add up |
| Distribution.EmptyReadingsExample | src/distribution.py:31-41 | no readings gives the disabled, failed block |
| Distribution.DisabledBlockIsEmptyValidation | src/distribution.py:102-112 | the substituted block is the validation of no readings over 0 days |
| Distribution.CreateDistributionReceipt | src/distribution.py:75-124 | never fails; substitutes the disabled block when no data is given; appends exactly one receipt |
| Distribution.LinkToEncapsulation | src/distribution.py:62-72 | the first encapsulation receipt with the lot |
| Distribution.DistributionPayloadKeys | src/distribution.py:114-122 | the payload has the listed keys and no envelope key |
| Distribution.DistributionReceiptFields | src/distribution.py:114-124 | the receipt records the lot, the cold-chain block and the link |
| Fraud.YieldFinding | src/fraud.py:11-52 | HIGH_DILUTION_FLAG gives YIELD_HIGH/FLAG, LOW gives YIELD_LOW/WARNING, and any other status gives nothing; the receipt's hash and tenant are carried |
| Fraud.DetectYieldAnomaly | src/fraud.py:11-52 | appends the anomaly receipt for the finding, or nothing |
| Fraud.PercentOfClaim | src/fraud.py:69 | 0 when the claim is not positive, otherwise total/claim × 100 |
| Fraud.LabelFinding | src/fraud.py:55-84 | LABEL_FRAUD/FLAG exactly when `potency_pass` is falsy, a missing flag passing |
| Fraud.DetectLabelFraud | src/fraud.py:55-84 | appends the anomaly receipt for the finding, or nothing |
| Fraud.ContaminantFinding | src/fraud.py:87-117 | CONTAMINANT_EXCEED/REJECT exactly when `all_pass` is falsy, a missing flag passing |
| Fraud.DetectContaminantExceed | src/fraud.py:87-117 | appends the anomaly receipt for the finding, or nothing |
| Fraud.FailedLevels | src/fraud.py:99-105 | at most three levels, and the `failed` dict is non-empty exactly when some pass flag is falsy |
| Fraud.CollectFailed | src/fraud.py:99-105 | builds the failed-levels dictionary |
| Fraud.GetAddIfFails | src/fraud.py:100-105 | one conditional assignment adds exactly that level, and only when it fails |
| Fraud.FailedLevelExact | src/fraud.py:99-105 | each level is listed, with its recorded value, exactly when its own flag fails; at most three entries |
| Fraud.ColdChainFinding | src/fraud.py:120-165 | a disabled chain gives nothing; a maximum above 8 gives a FLAG; otherwise more than 3 deviations gives a WARNING |
| Fraud.DetectColdChainDegradation | src/fraud.py:120-165 | appends the anomaly receipt for the finding, or nothing |
| Fraud.WrittenFrom | src/fraud.py:178-202 | one anomaly receipt per finding |
| Fraud.RunAllFraudChecks | src/fraud.py:168-202 | returns the anomaly receipts for the chain's findings in chain order, and the ledger grows by exactly those |
| Fraud.CheckReceipt | src/fraud.py:180-200 | dispatches on the receipt type and appends that receipt's anomalies |
| Fraud.CheckTesting | src/fraud.py:188-195 | label fraud, then contaminants |
| Fraud.ReceiptFindings | src/fraud.py:181-200 | one receipt yields at most two anomalies |
| Fraud.Findings | src/fraud.py:178-202 | a chain in which no receipt raises a finding yields no anomaly |
| Fraud.FindingsStep | src/fraud.py:180-200 | one more receipt adds its findings at the end |
| Fraud.WrittenAppend | src/fraud.py:178-202 | writing two runs in turn writes their receipts in order |
| Fraud.WrittenAt | src/fraud.py:178-202 | the i-th finding becomes ledger record n + i |
| Fraud.FindingsAppend | src/fraud.py:180-200 | the findings of two chains are concatenated |
| Fraud.ReceiptFindingsBound | src/fraud.py:181-200 | other receipt types give nothing; at most two findings per testing receipt and one otherwise |
| Fraud.FindingsBound | src/fraud.py:180-200 | n receipts give at most 2n anomalies |
| Fraud.ReceiptFindingsSource | src/fraud.py:28 | each finding carries its receipt's hash and tenant |
| Fraud.FindingsTraceBack | src/fraud.py:180-200 | every anomaly names some chain receipt as its source |
| Fraud.TestingFindingsOrder | src/fraud.py:188-195 | when both fail, label fraud comes before the contaminant anomaly |
| Fraud.YieldAnomalyOutOfBand | src/fraud.py:24-52 | on an accepted processing receipt, an anomaly is raised exactly when the ratio left the 12–18% band, with the stored rounded ratio in its details |
| Fraud.LabelAnomalyIffShortfall | src/fraud.py:65-82 | on a recorded potency block, a flag is raised exactly when EPA + DHA is below 95% of the claim, with the exact details |
| Fraud.ContaminantAnomalyExact | src/fraud.py:97-115 | on a recorded contaminant block, a reject is raised exactly when a limit is exceeded, and it lists exactly the exceeded levels with their values |
| Fraud.ContaminantsDictFields | src/testing.py:44-52 | the values the detector reads from a recorded contaminant block |
| Fraud.RoundedMaxAbove | src/fraud.py:138 | the rounded maximum is above 8 exactly when the true maximum exceeds 8.005 |
| Fraud.ColdChainAnomalyExact | src/fraud.py:130-165 | on a recorded cold-chain block: no readings means no anomaly; otherwise none exactly when the maximum is at most 8.005 and at most 3 readings deviate; a FLAG exactly when the maximum exceeds 8.005; a passing chain raises nothing |
| Fraud.ColdChainRoundingGap | src/fraud.py:138 | a single 8.004 °C reading fails the chain but raises no anomaly |

## Left out

- Hash algorithms: SHA-256, BLAKE3 and the canonical JSON encoder are abstract parameters. Tamper detection assumes that no two contents collide under both hashes at once.
- File I/O: `ledger_path` and `LEDGER_PATH`, directory creation, JSON lines and `hash_document` are left out. The ledger is a sequence held in a `Ledger` object.
- Clocks: `datetime.now` becomes a clock parameter in `emit_receipt`, `verify_chain` and `generate_lot_number`.
- `fromisoformat` is an abstract validity predicate.
- Floating point: numbers are exact reals. Python's `round` is modelled as ties-to-even on exact values, not on binary floats. Python's `True == 1` cross-type equality is not modelled.
- Core.Hex, Encapsulation.Upper: `hexdigest` is modelled on bytes, and upper-casing is ASCII only.
- Chain.ChainOf: error messages are constructors, not formatted text. The `prev_hash[:40]` truncation in the message is not modelled.
- Chain.SummaryOf: the formatted `potency_verified` string is not modelled.
- Chain.QrOf: the JSON text and `indent` of the QR payload are not modelled.
- Fraud.YieldFinding, Fraud.LabelFinding, Fraud.ColdChainFinding: the formatted `message` detail is omitted. The contaminant message, which is a constant, is kept.
- Testing.CreateTestingReceipt: the stop reports the failed contaminant names and the stored hash, not the formatted message text.
- Dynamic typing: some crashes the code would raise on malformed stored receipts are excluded by preconditions (`Fraud.YieldReady`, `Fraud.LabelReady`, `Fraud.ColdReady`, `Chain.SummaryReady`). Examples are `.get` on a non-dictionary block and comparing `None` with a number.
- Chain.WalkBack, Chain.ByType, Chain.SummaryOf: three crash sites of `verify_chain` and `get_chain_summary` are modelled as normal results where the code raises:
  - `prev_hash[:40]` on a truthy non-string `previous_hash` that resolves to no receipt (`src/chain.py:118`). The model records `HashNotFound` with the value.
  - `r.get("receipt_type")` used as a dict key when a reached receipt's type is a dictionary (`src/chain.py:139`). The model files it under the `Obj` value.
  - `:.0f` applied to a `None` or text `total_omega3_mg` or `label_claim_mg` (`src/chain.py:186-187`). The model returns a valid summary.
- Chain.TamperDetected, Core.NoDualCollision: a nested block (`Obj`) compares entry by entry in insertion order. Python's dict `==` and `json.dumps(sort_keys=True)` ignore key order at every depth. So a block put back with its keys reordered counts as a change in the model, and the no-collision premise also assumes the encoder separates blocks that differ only in key order.
- Concurrency: concurrent writers to the ledger are not modelled.
- Entry points: `cli.py`, `mcp_server.py`, the demo and the simulator are not part of this model.
