/**
 * Stage 4, the encapsulation receipt (src/encapsulation.py): the lot number
 * format, the facility guards and the ledger-wide uniqueness of lot numbers.
 */
module Encapsulation {
  import opened Wrappers
  import opened Values
  import opened Core
  import Chain

  const FacilityCertTypes: set<string> := {"NSF", "USP", "Other"}

  // ---------------------------------------------------------------------
  // Lot numbers
  // ---------------------------------------------------------------------

  function DigitChar(d: nat): char
    requires d < 10
  {
    "0123456789"[d]
  }

  /** The decimal numeral of `n`, as `str(n)` writes it. */
  function Decimal(n: nat): (s: string)
    ensures |s| >= 1
    ensures forall i :: 0 <= i < |s| ==> '0' <= s[i] <= '9'
  {
    if n < 10 then [DigitChar(n)] else Decimal(n / 10) + [DigitChar(n % 10)]
  }

  /** The number a string of decimal digits denotes. */
  function DecimalValue(s: string): nat
    requires forall i :: 0 <= i < |s| ==> '0' <= s[i] <= '9'
  {
    if s == [] then 0
    else DecimalValue(s[..|s| - 1]) * 10 + (s[|s| - 1] as int - '0' as int)
  }

  /** Reading a numeral back gives the number it was written from. */
  lemma {:induction false} DecimalRoundTrip(n: nat)
    ensures DecimalValue(Decimal(n)) == n
  {
    var s := Decimal(n);
    if n >= 10 {
      DecimalRoundTrip(n / 10);
      assert s[..|s| - 1] == Decimal(n / 10);
    }
  }

  /** `f"{n:02d}"` for a month or day number: two digits that read back as `n`. */
  function Pad2(n: nat): (s: string)
    requires 1 <= n <= 31
    ensures |s| == 2
    ensures forall i :: 0 <= i < 2 ==> '0' <= s[i] <= '9'
    ensures DecimalValue(s) == n
    ensures n < 10 ==> s[0] == '0'
  {
    DecimalRoundTrip(n);
    if n < 10 then
      assert ("0" + Decimal(n))[..1] == "0";
      "0" + Decimal(n)
    else
      assert |Decimal(n / 10)| == 1;
      Decimal(n)
  }

  /** ASCII upper-casing of one character. */
  function UpperChar(c: char): char
  {
    if 'a' <= c <= 'z' then (c as int - 32) as char else c
  }

  function Upper(s: string): (u: string)
    ensures |u| == |s|
  {
    seq(|s|, i requires 0 <= i < |s| => UpperChar(s[i]))
  }

  /** The last two characters of the batch id, upper-cased, or `"XX"` for a shorter id. */
  function LotSuffix(batchId: string): (x: string)
    ensures |x| == 2
  {
    if |batchId| >= 2 then Upper(batchId[|batchId| - 2..]) else "XX"
  }

  /** `generate_lot_number`, with the UTC date it reads passed in. */
  function GenerateLotNumber(batchId: string, year: nat, month: nat, day: nat): (lot: string)
    requires 1 <= month <= 12 && 1 <= day <= 31
    ensures |lot| == 12 + |Decimal(year)|
    ensures lot[..4] == "LOT-"
    ensures lot[|lot| - 2..] == LotSuffix(batchId)
    ensures |batchId| < 2 ==> lot[|lot| - 2..] == "XX"
  {
    "LOT-" + Decimal(year) + "-" + Pad2(month) + Pad2(day) + "-" + LotSuffix(batchId)
  }

  /** The `YYYY-MMDD` part of a lot number: the year's numeral, a dash, then
      the month and the day as two digits each that read back as the date,
      then the dash before the suffix. */
  lemma LotNumberDate(batchId: string, year: nat, month: nat, day: nat)
    requires 1 <= month <= 12 && 1 <= day <= 31
    ensures var lot, y := GenerateLotNumber(batchId, year, month, day), |Decimal(year)|;
      && lot[4..4 + y] == Decimal(year) && lot[4 + y] == '-' && lot[9 + y] == '-'
      && lot[5 + y..7 + y] == Pad2(month) && lot[7 + y..9 + y] == Pad2(day)
    ensures var lot, y := GenerateLotNumber(batchId, year, month, day), |Decimal(year)|;
      && DecimalValue(lot[4..4 + y]) == year
      && DecimalValue(lot[5 + y..7 + y]) == month && DecimalValue(lot[7 + y..9 + y]) == day
  {
    LotNumberLayout(batchId, year, month, day);
    DecimalRoundTrip(year);
  }

  lemma LotNumberLayout(batchId: string, year: nat, month: nat, day: nat)
    requires 1 <= month <= 12 && 1 <= day <= 31
    ensures var lot, y := GenerateLotNumber(batchId, year, month, day), |Decimal(year)|;
      && lot[4..4 + y] == Decimal(year) && lot[4 + y] == '-' && lot[9 + y] == '-'
      && lot[5 + y..7 + y] == Pad2(month) && lot[7 + y..9 + y] == Pad2(day)
  {
    var y, m, d, x := Decimal(year), Pad2(month), Pad2(day), LotSuffix(batchId);
    assert GenerateLotNumber(batchId, year, month, day) == "LOT-" + y + "-" + m + d + "-" + x;
    Layout("LOT-", y, "-", m, d, "-", x);
  }

  /** Where the middle parts of a concatenation `a + b + c + m + d + e + x` sit,
      `c` and `e` being single separators. */
  lemma Layout<T>(a: seq<T>, b: seq<T>, c: seq<T>, m: seq<T>, d: seq<T>, e: seq<T>, x: seq<T>)
    requires |c| == 1 && |e| == 1
    ensures var s, i := a + b + c + m + d + e + x, |a| + |b|;
      && s[|a|..i] == b && s[i] == c[0] && s[i + 1..i + 1 + |m|] == m
      && s[i + 1 + |m|..i + 1 + |m| + |d|] == d && s[i + 1 + |m| + |d|] == e[0]
  {
    var s := a + b + c + m + d + e + x;
    assert s == a + b + (c + m + d + e + x);
    assert s == a + b + c + m + (d + e + x);
    assert s == a + b + c + (m + d + e + x);
  }

  /** Occurrences of `c` in `s`. */
  function Count(s: string, c: char): nat
  {
    if s == [] then 0 else Count(s[..|s| - 1], c) + (if s[|s| - 1] == c then 1 else 0)
  }

  lemma {:induction false} CountAppend(a: string, b: string, c: char)
    ensures Count(a + b, c) == Count(a, c) + Count(b, c)
    decreases |b|
  {
    if b == [] {
      assert a + b == a;
    } else {
      assert (a + b)[..|a + b| - 1] == a + b[..|b| - 1];
      CountAppend(a, b[..|b| - 1], c);
    }
  }

  lemma {:induction false} CountDigits(s: string)
    requires forall i :: 0 <= i < |s| ==> '0' <= s[i] <= '9'
    ensures Count(s, '-') == 0
  {
    if s != [] {
      CountDigits(s[..|s| - 1]);
    }
  }

  /** The lot number splits at `-` into four parts, `LOT`, the year, the month
      and day, and the suffix, unless the suffix itself holds a `-`. */
  lemma LotNumberParts(batchId: string, year: nat, month: nat, day: nat)
    requires 1 <= month <= 12 && 1 <= day <= 31
    ensures Count(GenerateLotNumber(batchId, year, month, day), '-') == 3 + Count(LotSuffix(batchId), '-')
  {
    var y, m, d, x := Decimal(year), Pad2(month), Pad2(day), LotSuffix(batchId);
    assert Count("LOT-", '-') == 1 by {
      assert "LOT-"[..3] == "LOT" && "LOT"[..2] == "LO" && "LO"[..1] == "L" && "L"[..0] == "";
    }
    assert Count("-", '-') == 1 by {
      assert "-"[..0] == "";
    }
    assert Count(m, '-') == 0 && Count(d, '-') == 0 by {
      CountDigits(m);
      CountDigits(d);
    }
    CountDigits(y);
    var a := "LOT-" + y;
    CountAppend("LOT-", y, '-');
    var b := a + "-";
    CountAppend(a, "-", '-');
    var c := b + m;
    CountAppend(b, m, '-');
    var e := c + d;
    CountAppend(c, d, '-');
    var f := e + "-";
    CountAppend(e, "-", '-');
    CountAppend(f, x, '-');
    assert GenerateLotNumber(batchId, year, month, day) == f + x;
  }

  /** A batch id ending in `30` gives a lot ending in `30`; a one-character id gives `XX`. */
  lemma LotNumberExamples(year: nat, month: nat, day: nat)
    requires 1 <= month <= 12 && 1 <= day <= 31
    ensures var lot := GenerateLotNumber("BP-2025-0130", year, month, day); lot[|lot| - 2..] == "30"
    ensures var lot := GenerateLotNumber("A", year, month, day); lot[|lot| - 2..] == "XX"
  {
    var s := "BP-2025-0130";
    assert s[|s| - 2..] == "30";
    assert Upper("30") == "30";
  }

  /** Batch `bp-7ab` on 30 January 2025 gets lot `LOT-2025-0130-AB`. */
  lemma LotNumberExample()
    ensures GenerateLotNumber("bp-7ab", 2025, 1, 30) == "LOT-2025-0130-AB"
  {
    YearNumeral();
    DateNumerals();
    SuffixAB();
  }

  lemma YearNumeral()
    ensures Decimal(2025) == "2025"
  {
    assert Decimal(2) == "2";
    assert Decimal(20) == "20";
    assert Decimal(202) == "202";
  }

  lemma DateNumerals()
    ensures Pad2(1) == "01" && Pad2(30) == "30"
  {
    assert Decimal(3) == "3";
  }

  lemma SuffixAB()
    ensures LotSuffix("bp-7ab") == "AB"
  {
    var s := "bp-7ab";
    assert s[|s| - 2..] == "ab";
    assert Upper("ab") == "AB";
  }

  // ---------------------------------------------------------------------
  // The receipt
  // ---------------------------------------------------------------------

  /** The `lot_number` of a receipt, `None` when it has none. */
  function LotOf(r: Dict): Value
  {
    GetOr(r, "lot_number", Null)
  }

  predicate IsEncapsulation(r: Dict)
  {
    Chain.TypeOf(r) == Str("encapsulation")
  }

  /** Some encapsulation receipt of the ledger already carries the lot number. */
  predicate LotTaken(records: seq<Dict>, lot: string)
  {
    exists i :: 0 <= i < |records| && Matches(records[i], Chain.ByLot("encapsulation", lot))
  }

  /** The guards of `create_encapsulation_receipt`, in order; the first that fails names the error. */
  function EncapsulationCheck(p: Primitives, records: seq<Dict>, certType: string, certHash: string,
                              lot: string, fillDate: string): (e: Option<StopRule>)
    ensures e.None? <==>
      certType in FacilityCertTypes && ':' in certHash && !LotTaken(records, lot) && p.isIsoDate(fillDate)
    ensures certType !in FacilityCertTypes ==> e == Some(InvalidFacilityCertType(certType))
    ensures certType in FacilityCertTypes && ':' !in certHash ==> e == Some(MalformedCertHash(certHash))
    ensures certType in FacilityCertTypes && ':' in certHash && LotTaken(records, lot) ==>
      e == Some(DuplicateLot(lot))
    ensures certType in FacilityCertTypes && ':' in certHash && !LotTaken(records, lot) && !p.isIsoDate(fillDate) ==>
      e == Some(InvalidFillDate(fillDate))
  {
    if certType !in FacilityCertTypes then Some(InvalidFacilityCertType(certType))
    else if ':' !in certHash then Some(MalformedCertHash(certHash))
    else if LotTaken(records, lot) then Some(DuplicateLot(lot))
    else if !p.isIsoDate(fillDate) then Some(InvalidFillDate(fillDate))
    else None
  }

  function EncapsulationPayload(facilityId: string, facilityName: string, certType: string, certId: string,
                                certHash: string, lot: string, fillDate: string, batchId: string,
                                capsuleCount: int, mgPerCapsule: real, previousHash: string): Dict
  {
    [ Entry("facility_id", Str(facilityId)),
      Entry("facility_name", Str(facilityName)),
      Entry("facility_cert_type", Str(certType)),
      Entry("facility_cert_id", Str(certId)),
      Entry("facility_cert_hash", Str(certHash)),
      Entry("lot_number", Str(lot)),
      Entry("fill_date", Str(fillDate)),
      Entry("batch_id", Str(batchId)),
      Entry("capsule_count", Num(capsuleCount as real)),
      Entry("mg_per_capsule", Num(mgPerCapsule)),
      Entry("previous_hash", Str(previousHash)) ]
  }

  /** No two encapsulation receipts of the ledger share a lot number. */
  predicate LotsUnique(records: seq<Dict>)
    ensures |records| <= 1 ==> LotsUnique(records)
    ensures LotsUnique(records) ==> forall k :: 0 <= k <= |records| ==> LotsUnique(records[..k])
  {
    forall i, j :: 0 <= i < j < |records| && IsEncapsulation(records[i]) && IsEncapsulation(records[j]) ==>
      LotOf(records[i]) != LotOf(records[j])
  }

  /** `create_encapsulation_receipt`: a failed guard writes nothing; otherwise exactly
      one encapsulation receipt is appended, and lot numbers stay unique. */
  method CreateEncapsulationReceipt(ledger: Ledger, p: Primitives, facilityId: string, facilityName: string,
                                    certType: string, certId: string, certHash: string, lot: string,
                                    fillDate: string, batchId: string, capsuleCount: int, mgPerCapsule: real,
                                    previousHash: string, tenant: Option<string>)
    returns (r: Result<Dict, StopRule>)
    modifies ledger
    ensures EncapsulationCheck(p, old(ledger.records), certType, certHash, lot, fillDate).Some? ==>
      && r == Failure(EncapsulationCheck(p, old(ledger.records), certType, certHash, lot, fillDate).value)
      && ledger.records == old(ledger.records)
    ensures EncapsulationCheck(p, old(ledger.records), certType, certHash, lot, fillDate).None? ==>
      && r == Success(Envelope(p, "encapsulation",
                               EncapsulationPayload(facilityId, facilityName, certType, certId, certHash, lot,
                                                    fillDate, batchId, capsuleCount, mgPerCapsule, previousHash),
                               OptStr(tenant), ledger.clock(|old(ledger.records)|)))
      && ledger.records == old(ledger.records) + [r.value]
    ensures LotsUnique(old(ledger.records)) ==> LotsUnique(ledger.records)
  {
    if certType !in FacilityCertTypes {
      return Failure(InvalidFacilityCertType(certType));
    }
    if ':' !in certHash {
      return Failure(MalformedCertHash(certHash));
    }
    var existing := ledger.Load();
    var i := 0;
    while i < |existing|
      invariant i <= |existing|
      invariant forall j :: 0 <= j < i ==> !Matches(existing[j], Chain.ByLot("encapsulation", lot))
    {
      var rec := existing[i];
      if GetOr(rec, "receipt_type", Null) == Str("encapsulation") && GetOr(rec, "lot_number", Null) == Str(lot) {
        assert Matches(existing[i], Chain.ByLot("encapsulation", lot));
        return Failure(DuplicateLot(lot));
      }
      i := i + 1;
    }
    if !p.isIsoDate(fillDate) {
      return Failure(InvalidFillDate(fillDate));
    }
    var payload := EncapsulationPayload(facilityId, facilityName, certType, certId, certHash, lot, fillDate,
                                        batchId, capsuleCount, mgPerCapsule, previousHash);
    ghost var before := ledger.records;
    var receipt := ledger.Emit(p, "encapsulation", payload, OptStr(tenant));
    NewLotKeepsUnique(p, before, facilityId, facilityName, certType, certId, certHash, lot, fillDate, batchId,
                      capsuleCount, mgPerCapsule, previousHash, OptStr(tenant), ledger.clock(|before|));
    return Success(receipt);
  }

  /** `link_to_testing`: the first testing receipt carrying the batch id. */
  method LinkToTesting(ledger: Ledger, batchId: string) returns (r: Option<Dict>)
    ensures r == FindFirst(ledger.records, Query(Some("testing"), "batch_id", Str(batchId)))
  {
    r := ledger.FindReceipt("testing", "batch_id", batchId);
  }

  /** The keys of an encapsulation payload, in order. */
  const EncapsulationKeys: seq<string> := ["facility_id", "facility_name", "facility_cert_type",
    "facility_cert_id", "facility_cert_hash", "lot_number", "fill_date", "batch_id", "capsule_count",
    "mg_per_capsule", "previous_hash"]

  /** No key is listed twice, and none is one the envelope writes itself. */
  lemma EncapsulationKeysUnique()
    ensures Unique(EncapsulationKeys + ReservedKeys)
  {
  }

  /** The encapsulation payload has the listed keys and none of the envelope's own. */
  lemma EncapsulationPayloadKeys(facilityId: string, facilityName: string, certType: string, certId: string,
                                 certHash: string, lot: string, fillDate: string, batchId: string,
                                 capsuleCount: int, mgPerCapsule: real, previousHash: string)
    ensures var d := EncapsulationPayload(facilityId, facilityName, certType, certId, certHash, lot, fillDate,
                                          batchId, capsuleCount, mgPerCapsule, previousHash);
      KeysAre(d, EncapsulationKeys) && PlainPayload(d)
  {
    var d := EncapsulationPayload(facilityId, facilityName, certType, certId, certHash, lot, fillDate,
                                  batchId, capsuleCount, mgPerCapsule, previousHash);
    assert KeysAre(d, EncapsulationKeys);
    EncapsulationKeysUnique();
    PlainByKeys(d, EncapsulationKeys);
  }

  /** An encapsulation receipt has its type and carries the lot number it was created for. */
  lemma EncapsulationReceiptFields(p: Primitives, facilityId: string, facilityName: string, certType: string,
                                   certId: string, certHash: string, lot: string, fillDate: string,
                                   batchId: string, capsuleCount: int, mgPerCapsule: real, previousHash: string,
                                   tenant: Value, ts: string)
    ensures var e := Envelope(p, "encapsulation",
                              EncapsulationPayload(facilityId, facilityName, certType, certId, certHash, lot,
                                                   fillDate, batchId, capsuleCount, mgPerCapsule, previousHash),
                              tenant, ts);
      && IsEncapsulation(e)
      && LotOf(e) == Str(lot)
      && Get(e, "fill_date") == Some(Str(fillDate))
      && Get(e, "previous_hash") == Some(Str(previousHash))
  {
    var d := EncapsulationPayload(facilityId, facilityName, certType, certId, certHash, lot, fillDate,
                                  batchId, capsuleCount, mgPerCapsule, previousHash);
    EncapsulationPayloadKeys(facilityId, facilityName, certType, certId, certHash, lot, fillDate, batchId,
                             capsuleCount, mgPerCapsule, previousHash);
    EnvelopeType(p, "encapsulation", d, tenant, ts);
    EnvelopeField(p, "encapsulation", d, tenant, ts, 5);
    EnvelopeField(p, "encapsulation", d, tenant, ts, 6);
    EnvelopeField(p, "encapsulation", d, tenant, ts, 10);
  }

  /** Appending a receipt keeps lot numbers unique when it is not an encapsulation
      receipt, or when no earlier encapsulation receipt has its lot number. */
  lemma LotsUniqueAppend(records: seq<Dict>, r: Dict)
    requires LotsUnique(records)
    requires IsEncapsulation(r) ==>
      forall i :: 0 <= i < |records| && IsEncapsulation(records[i]) ==> LotOf(records[i]) != LotOf(r)
    ensures LotsUnique(records + [r])
  {
    var rs := records + [r];
    forall i, j | 0 <= i < j < |rs| && IsEncapsulation(rs[i]) && IsEncapsulation(rs[j])
      ensures LotOf(rs[i]) != LotOf(rs[j])
    {
      if j == |records| {
        assert rs[j] == r && rs[i] == records[i];
      } else {
        assert rs[i] == records[i] && rs[j] == records[j];
      }
    }
  }

  /** The receipt `create_encapsulation_receipt` appends after its scan keeps lot numbers unique. */
  lemma NewLotKeepsUnique(p: Primitives, records: seq<Dict>, facilityId: string, facilityName: string,
                          certType: string, certId: string, certHash: string, lot: string, fillDate: string,
                          batchId: string, capsuleCount: int, mgPerCapsule: real, previousHash: string,
                          tenant: Value, ts: string)
    requires !LotTaken(records, lot)
    ensures LotsUnique(records) ==>
      LotsUnique(records + [Envelope(p, "encapsulation",
                                     EncapsulationPayload(facilityId, facilityName, certType, certId, certHash,
                                                          lot, fillDate, batchId, capsuleCount, mgPerCapsule,
                                                          previousHash),
                                     tenant, ts)])
  {
    var e := Envelope(p, "encapsulation",
                      EncapsulationPayload(facilityId, facilityName, certType, certId, certHash, lot, fillDate,
                                           batchId, capsuleCount, mgPerCapsule, previousHash),
                      tenant, ts);
    EncapsulationReceiptFields(p, facilityId, facilityName, certType, certId, certHash, lot, fillDate, batchId,
                               capsuleCount, mgPerCapsule, previousHash, tenant, ts);
    if LotsUnique(records) {
      forall i | 0 <= i < |records| && IsEncapsulation(records[i]) ensures LotOf(records[i]) != LotOf(e) {
        assert !Matches(records[i], Chain.ByLot("encapsulation", lot));
      }
      LotsUniqueAppend(records, e);
    }
  }

  /** Receipts of every other stage leave lot numbers unique. */
  lemma OtherReceiptKeepsLotsUnique(p: Primitives, records: seq<Dict>, receiptType: string, payload: Dict,
                                    tenant: Value, ts: string)
    requires receiptType != "encapsulation" && PlainPayload(payload)
    requires LotsUnique(records)
    ensures LotsUnique(records + [Envelope(p, receiptType, payload, tenant, ts)])
  {
    EnvelopeType(p, receiptType, payload, tenant, ts);
    LotsUniqueAppend(records, Envelope(p, receiptType, payload, tenant, ts));
  }

  /** In a ledger with unique lot numbers, the encapsulation receipt the chain
      verifier finds for a lot is the only one carrying it. */
  lemma UniqueLotFound(records: seq<Dict>, lot: string, i: nat)
    requires LotsUnique(records)
    requires i < |records| && Matches(records[i], Chain.ByLot("encapsulation", lot))
    ensures FindFirst(records, Chain.ByLot("encapsulation", lot)) == Some(records[i])
  {
    var q := Chain.ByLot("encapsulation", lot);
    assert IsEncapsulation(records[i]) && LotOf(records[i]) == Str(lot);
    forall j | 0 <= j < i ensures !Matches(records[j], q) {
      if IsEncapsulation(records[j]) {
        assert LotOf(records[j]) != LotOf(records[i]);
      }
    }
    FirstMatchIs(records, q, i);
  }
}
