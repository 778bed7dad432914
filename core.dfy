/**
 * The receipt envelope and the append-only ledger (src/core.py): the dual
 * hash, the Merkle accumulator, `emit_receipt`, `load_ledger` and
 * `find_receipt`. The hash algorithms, the canonical JSON encoder and the
 * `str(v)` encoder are foreign code; they enter as the fields of a
 * `Primitives` value that every operation receives.
 */
module Core {
  import opened Wrappers
  import opened Values

  type Byte = b: int | 0 <= b < 256
  type Bytes = seq<Byte>

  /** The foreign primitives the engine calls. */
  datatype Primitives = Primitives(
    sha256: Bytes -> Bytes,                  // hashlib.sha256(data).digest()
    blake3: Bytes -> Bytes,                  // blake3.blake3(data).digest()
    json: map<string, Value> -> Bytes,       // json.dumps(d, sort_keys=True, default=str).encode("utf-8")
    text: Value -> Bytes,                    // str(v).encode("utf-8")
    isIsoDate: string -> bool)               // datetime.fromisoformat(s) succeeds

  /** The single error kind of the engine, one constructor per stop condition. */
  datatype StopRule =
    | UnapprovedSpecies(species: string)
    | InvalidFisheryCertType(certType: string)
    | MissingFisheryCertHash(certType: string)
    | InvalidGmpCertType(certType: string)
    | InvalidExtractionMethod(extractionMethod: string)
    | MalformedCertHash(certHash: string)
    | InvalidYield(inputKg: real, outputKg: real)
    | InvalidLabCertType(certType: string)
    | ContaminantExceed(failed: seq<string>, receiptHash: string)
    | TotoxExceed(totox: real, receiptHash: string)
    | InvalidFacilityCertType(certType: string)
    | DuplicateLot(lotNumber: string)
    | InvalidFillDate(fillDate: string)

  const DefaultTenant := "fishoilproof-demo"

  // ---------------------------------------------------------------------
  // Dual hash
  // ---------------------------------------------------------------------

  /** Lower-case hexadecimal digit of a nibble. */
  function HexDigit(n: int): (c: char)
    requires 0 <= n < 16
    ensures c != ':'
    ensures ('0' <= c <= '9') || ('a' <= c <= 'f')
  {
    if n < 10 then (48 + n) as char else (87 + n) as char
  }

  /** `bytes.hex()` / `hexdigest()`: two lower-case digits per byte, high nibble first. */
  function Hex(bs: Bytes): (s: string)
    ensures |s| == 2 * |bs|
    ensures forall i :: 0 <= i < |s| ==> s[i] != ':'
  {
    if bs == [] then ""
    else [HexDigit(bs[0] / 16), HexDigit(bs[0] % 16)] + Hex(bs[1..])
  }

  /** Distinct digests have distinct hex forms. */
  lemma {:induction false} HexInjective(a: Bytes, b: Bytes)
    requires Hex(a) == Hex(b)
    ensures a == b
  {
    if a != [] {
      assert |b| == |a|;
      var ha, hb := Hex(a), Hex(b);
      assert ha[0] == hb[0] && ha[1] == hb[1];
      assert a[0] / 16 == b[0] / 16 && a[0] % 16 == b[0] % 16;
      assert Hex(a[1..]) == ha[2..] == hb[2..] == Hex(b[1..]);
      HexInjective(a[1..], b[1..]);
      assert a == [a[0]] + a[1..] && b == [b[0]] + b[1..];
    }
  }

  const Sha256Tag := "SHA256_"
  const Blake3Tag := ":BLAKE3_"

  /** `dual_hash`: "SHA256_<hex>:BLAKE3_<hex>" over the same bytes. */
  function DualHash(p: Primitives, data: Bytes): (h: string)
    ensures |h| == |Sha256Tag| + 2 * |p.sha256(data)| + |Blake3Tag| + 2 * |p.blake3(data)|
    ensures h[..|Sha256Tag|] == Sha256Tag
  {
    Sha256Tag + Hex(p.sha256(data)) + Blake3Tag + Hex(p.blake3(data))
  }

  /** The shape every dual hash has: it starts with the SHA-256 tag, and its only
      colon is the one that opens the BLAKE3 tag, right after the SHA-256 digest. */
  lemma DualHashShape(p: Primitives, data: Bytes)
    ensures var h := DualHash(p, data); var c := |Sha256Tag| + 2 * |p.sha256(data)|;
      && h[..|Sha256Tag|] == Sha256Tag
      && h[c..c + |Blake3Tag|] == Blake3Tag
      && ':' in h
      && forall i :: 0 <= i < |h| && h[i] == ':' ==> i == c
  {
    var ha, hb := Hex(p.sha256(data)), Hex(p.blake3(data));
    var h := DualHash(p, data);
    var c := 7 + |ha|;
    assert h[c] == ':';
    assert h == Sha256Tag + ha + Blake3Tag + hb;
    forall i | 0 <= i < |h| && h[i] == ':' ensures i == c {
    }
  }

  /** Two byte strings have the same dual hash only if both digests agree. */
  lemma DualHashInjective(p: Primitives, a: Bytes, b: Bytes)
    requires DualHash(p, a) == DualHash(p, b)
    ensures p.sha256(a) == p.sha256(b) && p.blake3(a) == p.blake3(b)
  {
    var h := DualHash(p, a);
    var ca, cb := 7 + 2 * |p.sha256(a)|, 7 + 2 * |p.sha256(b)|;
    DualHashShape(p, a);
    DualHashShape(p, b);
    assert h[ca] == ':' && h[cb] == ':';
    assert ca == cb;
    var ha, hb := Hex(p.sha256(a)), Hex(p.sha256(b));
    assert ha == h[7..ca] == hb;
    assert Hex(p.blake3(a)) == h[ca + 8..] == Hex(p.blake3(b));
    HexInjective(p.sha256(a), p.sha256(b));
    HexInjective(p.blake3(a), p.blake3(b));
  }

  /** `verify_dual_hash`: recompute and compare. */
  function VerifyDualHash(p: Primitives, data: Bytes, expected: string): (ok: bool)
    ensures ok ==> |expected| >= 7 && expected[..7] == Sha256Tag && ':' in expected
  {
    DualHashShape(p, data);
    DualHash(p, data) == expected
  }

  /** A recorded dual hash accepts other data only if both of its digests collide. */
  lemma VerifyDualHashSound(p: Primitives, data: Bytes, other: Bytes)
    requires VerifyDualHash(p, other, DualHash(p, data))
    ensures p.sha256(other) == p.sha256(data) && p.blake3(other) == p.blake3(data)
  {
    DualHashInjective(p, other, data);
  }

  // ---------------------------------------------------------------------
  // Merkle accumulator
  // ---------------------------------------------------------------------

  /** The bytes of b"empty", whose BLAKE3 digest is the root of no fields. */
  const EmptyMarker: Bytes := [101, 109, 112, 116, 121]

  /** Node `k` of the level above `level`: the hash of children 2k and 2k+1,
      where an odd last child is paired with itself. */
  function PairHash(p: Primitives, level: seq<Bytes>, k: nat): Bytes
    requires 2 * k < |level|
  {
    var left := level[2 * k];
    var right := if 2 * k + 1 < |level| then level[2 * k + 1] else left;
    p.blake3(left + right)
  }

  /** One round of the tree build: n nodes become ceil(n/2) parents. */
  function NextLevel(p: Primitives, level: seq<Bytes>): (r: seq<Bytes>)
    ensures |r| == (|level| + 1) / 2
    ensures |level| > 1 ==> |r| < |level|
    ensures forall k :: 0 <= k < |r| ==> r[k] == PairHash(p, level, k)
  {
    seq((|level| + 1) / 2, k requires 0 <= k < (|level| + 1) / 2 => PairHash(p, level, k))
  }

  /** Rounds are repeated until exactly one node is left. */
  function Reduce(p: Primitives, level: seq<Bytes>): (r: seq<Bytes>)
    requires |level| >= 1
    ensures |r| == 1
    decreases |level|
  {
    if |level| == 1 then level else Reduce(p, NextLevel(p, level))
  }

  /** The leaf level: the BLAKE3 digest of every item. */
  function Leaves(p: Primitives, items: seq<Bytes>): (r: seq<Bytes>)
    ensures |r| == |items|
  {
    seq(|items|, i requires 0 <= i < |items| => p.blake3(items[i]))
  }

  /** The Merkle root of `items`, in hex; a fixed sentinel for no items. */
  function MerkleRootOf(p: Primitives, items: seq<Bytes>): (root: string)
    ensures forall i :: 0 <= i < |root| ==> root[i] != ':'
    ensures |items| == 1 ==> root == Hex(p.blake3(items[0]))
  {
    if items == [] then Hex(p.blake3(EmptyMarker))
    else Hex(Reduce(p, Leaves(p, items))[0])
  }

  /** `merkle_root`: builds the tree bottom-up, one level per round. */
  method MerkleRoot(p: Primitives, items: seq<Bytes>) returns (root: string)
    ensures root == MerkleRootOf(p, items)
    ensures items == [] ==> root == Hex(p.blake3(EmptyMarker))
    ensures |root| == 2 * if items == [] then |p.blake3(EmptyMarker)|
                          else |Reduce(p, Leaves(p, items))[0]|
  {
    if items == [] {
      return Hex(p.blake3(EmptyMarker));
    }
    var leaves: seq<Bytes> := [];
    for i := 0 to |items|
      invariant leaves == Leaves(p, items[..i])
    {
      leaves := leaves + [p.blake3(items[i])];
    }
    assert items[..|items|] == items;
    while |leaves| > 1
      invariant |leaves| >= 1
      invariant Reduce(p, leaves) == Reduce(p, Leaves(p, items))
      decreases |leaves|
    {
      var nextLevel: seq<Bytes> := [];
      var i := 0;
      while i < |leaves|
        invariant i % 2 == 0 && i <= |leaves| + 1
        invariant |nextLevel| == i / 2
        invariant forall k :: 0 <= k < |nextLevel| ==> nextLevel[k] == PairHash(p, leaves, k)
        decreases |leaves| - i
      {
        var combined := if i + 1 < |leaves| then leaves[i] + leaves[i + 1] else leaves[i] + leaves[i];
        nextLevel := nextLevel + [p.blake3(combined)];
        i := i + 2;
      }
      assert nextLevel == NextLevel(p, leaves);
      leaves := nextLevel;
    }
    root := Hex(leaves[0]);
  }

  /** One round maps an odd-length level's last node to the hash of that node doubled. */
  lemma NextLevelOdd(p: Primitives, level: seq<Bytes>)
    requires |level| % 2 == 1
    ensures var r := NextLevel(p, level);
      r[|r| - 1] == p.blake3(level[|level| - 1] + level[|level| - 1])
  {
  }

  /** Roots of one, two and three items, written out. */
  lemma MerkleSmall(p: Primitives, a: Bytes, b: Bytes, c: Bytes)
    ensures MerkleRootOf(p, [a]) == Hex(p.blake3(a))
    ensures MerkleRootOf(p, [a, b]) == Hex(p.blake3(p.blake3(a) + p.blake3(b)))
    ensures MerkleRootOf(p, [a, b, c]) ==
      Hex(p.blake3(p.blake3(p.blake3(a) + p.blake3(b)) + p.blake3(p.blake3(c) + p.blake3(c))))
  {
    var l2 := Leaves(p, [a, b]);
    assert l2 == [p.blake3(a), p.blake3(b)];
    var n2 := NextLevel(p, l2);
    assert n2[0] == PairHash(p, l2, 0);
    assert Reduce(p, l2) == Reduce(p, n2) == n2;
    var l3 := Leaves(p, [a, b, c]);
    assert l3 == [p.blake3(a), p.blake3(b), p.blake3(c)];
    var n3 := NextLevel(p, l3);
    assert n3[0] == PairHash(p, l3, 0) && n3[1] == PairHash(p, l3, 1);
    var n3' := NextLevel(p, n3);
    assert n3'[0] == PairHash(p, n3, 0);
    assert Reduce(p, l3) == Reduce(p, n3) == Reduce(p, n3') == n3';
  }

  // ---------------------------------------------------------------------
  // Receipt envelope
  // ---------------------------------------------------------------------

  /** `tenant_id or DEFAULT_TENANT`. */
  function TenantOf(tenant: Value): (t: Value)
    ensures Truthy(t)
    ensures Truthy(tenant) ==> t == tenant
  {
    if Truthy(tenant) then tenant else Str(DefaultTenant)
  }

  /** The three metadata fields every receipt starts with, in this order. */
  function Header(receiptType: string, ts: string, tenant: Value): Dict
  {
    [Entry("receipt_type", Str(receiptType)), Entry("ts", Str(ts)), Entry("tenant_id", TenantOf(tenant))]
  }

  /** The envelope before its two hash fields: the header updated with the payload. */
  function Unsealed(receiptType: string, ts: string, tenant: Value, payload: Dict): Dict
  {
    Update(Header(receiptType, ts, tenant), payload)
  }

  /** The two fields that are computed from the rest and excluded from re-hashing. */
  predicate IsHashField(k: string)
  {
    k == "payload_hash" || k == "merkle_root"
  }

  /** The payload hash of a dictionary: the dual hash of its canonical (sorted-key) JSON. */
  function PayloadHashOf(p: Primitives, d: Dict): string
  {
    DualHash(p, p.json(AsMap(d)))
  }

  /** `[str(v).encode() for v in d.values()]`, in insertion order. */
  function FieldTexts(p: Primitives, d: Dict): (r: seq<Bytes>)
    ensures |r| == |d|
  {
    seq(|d|, i requires 0 <= i < |d| => p.text(d[i].val))
  }

  /** The receipt `emit_receipt` builds and appends. */
  function Envelope(p: Primitives, receiptType: string, payload: Dict, tenant: Value, ts: string): (r: Dict)
    ensures Get(r, "payload_hash").Some? && Get(r, "merkle_root").Some?
    ensures var h := Get(r, "payload_hash").value;
      h.Str? && |h.s| >= |Sha256Tag| && h.s[..|Sha256Tag|] == Sha256Tag
  {
    var pre := Unsealed(receiptType, ts, tenant, payload);
    var hashed := Put(pre, "payload_hash", Str(PayloadHashOf(p, pre)));
    var root := Str(MerkleRootOf(p, FieldTexts(p, hashed)));
    GetPut(pre, "payload_hash", Str(PayloadHashOf(p, pre)), "payload_hash");
    GetPut(hashed, "merkle_root", root, "payload_hash");
    GetPut(hashed, "merkle_root", root, "merkle_root");
    Put(hashed, "merkle_root", root)
  }

  /** The assumption under which a payload hash identifies its content: the two
      encodings do not collide under SHA-256 and BLAKE3 at the same time. Nested
      blocks are compared in insertion order here, so this also assumes the
      encoder tells apart blocks that differ only in the order of their keys. */
  predicate NoDualCollision(p: Primitives, m1: map<string, Value>, m2: map<string, Value>)
  {
    var a, b := p.json(m1), p.json(m2);
    p.sha256(a) == p.sha256(b) && p.blake3(a) == p.blake3(b) ==> m1 == m2
  }

  /** Dictionaries with different content get different payload hashes (barring a double collision). */
  lemma PayloadHashDistinguishes(p: Primitives, d1: Dict, d2: Dict)
    requires AsMap(d1) != AsMap(d2)
    requires NoDualCollision(p, AsMap(d1), AsMap(d2))
    ensures PayloadHashOf(p, d1) != PayloadHashOf(p, d2)
  {
    if PayloadHashOf(p, d1) == PayloadHashOf(p, d2) {
      DualHashInjective(p, p.json(AsMap(d1)), p.json(AsMap(d2)));
    }
  }

  /** The keys the envelope writes itself. */
  const ReservedKeys: seq<string> := ["receipt_type", "ts", "tenant_id", "payload_hash", "merkle_root"]

  /** A payload as the stages build it: no repeated key, and none of the envelope's own keys. */
  predicate PlainPayload(d: Dict)
  {
    && Distinct(d)
    && !HasKey(d, "receipt_type") && !HasKey(d, "ts") && !HasKey(d, "tenant_id")
    && !HasKey(d, "payload_hash") && !HasKey(d, "merkle_root")
  }

  /** A payload keyed by a list that repeats nothing and avoids the reserved keys is plain. */
  lemma PlainByKeys(d: Dict, ks: seq<string>)
    requires KeysAre(d, ks) && Unique(ks + ReservedKeys)
    ensures PlainPayload(d)
  {
    KeysDistinct(d, ks, ReservedKeys);
    assert ReservedKeys[0] == "receipt_type" && ReservedKeys[1] == "ts" && ReservedKeys[2] == "tenant_id";
    assert ReservedKeys[3] == "payload_hash" && ReservedKeys[4] == "merkle_root";
  }

  /** The stored `payload_hash` is the hash of the envelope as it stood before
      the two hash fields were added, and `merkle_root` covers the values of
      that envelope plus the hash, in insertion order. */
  lemma EnvelopeHashes(p: Primitives, receiptType: string, payload: Dict, tenant: Value, ts: string)
    ensures var pre := Unsealed(receiptType, ts, tenant, payload);
      var e := Envelope(p, receiptType, payload, tenant, ts);
      && Get(e, "payload_hash") == Some(Str(PayloadHashOf(p, pre)))
      && Get(e, "merkle_root") ==
           Some(Str(MerkleRootOf(p, FieldTexts(p, Put(pre, "payload_hash", Str(PayloadHashOf(p, pre)))))))
  {
    var pre := Unsealed(receiptType, ts, tenant, payload);
    var hashed := Put(pre, "payload_hash", Str(PayloadHashOf(p, pre)));
    var root := Str(MerkleRootOf(p, FieldTexts(p, hashed)));
    GetPut(pre, "payload_hash", Str(PayloadHashOf(p, pre)), "payload_hash");
    GetPut(hashed, "merkle_root", root, "payload_hash");
    GetPut(hashed, "merkle_root", root, "merkle_root");
  }

  /** When the payload carries neither hash field, the envelope is the unsealed
      envelope followed by exactly those two fields. */
  lemma EnvelopeShape(p: Primitives, receiptType: string, payload: Dict, tenant: Value, ts: string)
    requires !HasKey(payload, "payload_hash") && !HasKey(payload, "merkle_root")
    ensures var pre := Unsealed(receiptType, ts, tenant, payload);
      var ph := PayloadHashOf(p, pre);
      Envelope(p, receiptType, payload, tenant, ts) ==
        pre + [Entry("payload_hash", Str(ph)),
               Entry("merkle_root", Str(MerkleRootOf(p, FieldTexts(p, pre + [Entry("payload_hash", Str(ph))]))))]
  {
    var h := Header(receiptType, ts, tenant);
    var pre := Unsealed(receiptType, ts, tenant, payload);
    HeaderKeys(receiptType, ts, tenant);
    HasKeyUpdate(h, payload, "payload_hash");
    HasKeyUpdate(h, payload, "merkle_root");
    var hashed := pre + [Entry("payload_hash", Str(PayloadHashOf(p, pre)))];
    assert Put(pre, "payload_hash", Str(PayloadHashOf(p, pre))) == hashed;
    GetPut(pre, "payload_hash", Str(PayloadHashOf(p, pre)), "merkle_root");
  }

  /** The header holds exactly the three metadata keys. */
  lemma HeaderKeys(receiptType: string, ts: string, tenant: Value)
    ensures var h := Header(receiptType, ts, tenant);
      && Get(h, "receipt_type") == Some(Str(receiptType))
      && Get(h, "ts") == Some(Str(ts))
      && Get(h, "tenant_id") == Some(TenantOf(tenant))
      && forall k :: k != "receipt_type" && k != "ts" && k != "tenant_id" ==> !HasKey(h, k)
  {
    var h := Header(receiptType, ts, tenant);
    FirstIndexIs(h, "ts", 1);
    FirstIndexIs(h, "tenant_id", 2);
    forall k | k != "receipt_type" && k != "ts" && k != "tenant_id" ensures !HasKey(h, k) {
      FirstIndexIs(h, k, 3);
    }
  }

  /** A field of the emitted receipt other than the two hashes holds the payload's
      value when the payload has the key, and the header's value otherwise. */
  lemma EnvelopeGet(p: Primitives, receiptType: string, payload: Dict, tenant: Value, ts: string, k: string)
    requires Distinct(payload)
    requires !IsHashField(k)
    ensures Get(Envelope(p, receiptType, payload, tenant, ts), k) ==
      if HasKey(payload, k) then Get(payload, k) else Get(Header(receiptType, ts, tenant), k)
  {
    var pre := Unsealed(receiptType, ts, tenant, payload);
    var hashed := Put(pre, "payload_hash", Str(PayloadHashOf(p, pre)));
    GetUpdate(Header(receiptType, ts, tenant), payload, k);
    GetPut(pre, "payload_hash", Str(PayloadHashOf(p, pre)), k);
    GetPut(hashed, "merkle_root", Str(MerkleRootOf(p, FieldTexts(p, hashed))), k);
  }

  /** The payload's entry at position `i` reaches the emitted receipt unchanged. */
  lemma EnvelopeField(p: Primitives, receiptType: string, payload: Dict, tenant: Value, ts: string, i: nat)
    requires i < |payload| && Distinct(payload) && !IsHashField(payload[i].key)
    ensures Get(Envelope(p, receiptType, payload, tenant, ts), payload[i].key) == Some(payload[i].val)
  {
    GetAt(payload, i);
    EnvelopeGet(p, receiptType, payload, tenant, ts, payload[i].key);
  }

  /** A receipt whose payload does not override `receipt_type` has the type it was emitted with. */
  lemma EnvelopeType(p: Primitives, receiptType: string, payload: Dict, tenant: Value, ts: string)
    requires Distinct(payload) && !HasKey(payload, "receipt_type")
    ensures Get(Envelope(p, receiptType, payload, tenant, ts), "receipt_type") == Some(Str(receiptType))
  {
    HeaderKeys(receiptType, ts, tenant);
    EnvelopeGet(p, receiptType, payload, tenant, ts, "receipt_type");
  }

  /** The emitted receipt carries `receipt_type`, `ts`, `tenant_id`, every payload
      key and the two hash fields; the metadata hold the given type, timestamp and
      tenant (the default tenant when none is given) unless the payload overrides them. */
  lemma EnvelopeKeys(p: Primitives, receiptType: string, payload: Dict, tenant: Value, ts: string)
    requires Distinct(payload)
    ensures var e := Envelope(p, receiptType, payload, tenant, ts);
      && HasKey(e, "receipt_type") && HasKey(e, "ts") && HasKey(e, "tenant_id")
      && HasKey(e, "payload_hash") && HasKey(e, "merkle_root")
      && (forall i :: 0 <= i < |payload| ==> HasKey(e, payload[i].key))
      && (!HasKey(payload, "receipt_type") ==> Get(e, "receipt_type") == Some(Str(receiptType)))
      && (!HasKey(payload, "ts") ==> Get(e, "ts") == Some(Str(ts)))
      && (!HasKey(payload, "tenant_id") ==> Get(e, "tenant_id") == Some(TenantOf(tenant)))
  {
    var e := Envelope(p, receiptType, payload, tenant, ts);
    HeaderKeys(receiptType, ts, tenant);
    EnvelopeHashes(p, receiptType, payload, tenant, ts);
    EnvelopeGet(p, receiptType, payload, tenant, ts, "receipt_type");
    EnvelopeGet(p, receiptType, payload, tenant, ts, "ts");
    EnvelopeGet(p, receiptType, payload, tenant, ts, "tenant_id");
    forall i | 0 <= i < |payload| ensures HasKey(e, payload[i].key) {
      var k := payload[i].key;
      assert FirstIndex(payload, k) <= i;
      if !IsHashField(k) {
        EnvelopeGet(p, receiptType, payload, tenant, ts, k);
      }
    }
  }

  /** Re-emitting the same payload at another time changes the payload hash
      (the timestamp is hashed), barring a double collision. */
  lemma TimestampChangesHash(p: Primitives, receiptType: string, payload: Dict, tenant: Value, ts1: string, ts2: string)
    requires ts1 != ts2
    requires !HasKey(payload, "ts")
    requires NoDualCollision(p, AsMap(Unsealed(receiptType, ts1, tenant, payload)),
                                AsMap(Unsealed(receiptType, ts2, tenant, payload)))
    ensures Get(Envelope(p, receiptType, payload, tenant, ts1), "payload_hash") !=
            Get(Envelope(p, receiptType, payload, tenant, ts2), "payload_hash")
  {
    var u1, u2 := Unsealed(receiptType, ts1, tenant, payload), Unsealed(receiptType, ts2, tenant, payload);
    HeaderKeys(receiptType, ts1, tenant);
    HeaderKeys(receiptType, ts2, tenant);
    GetUpdateAbsent(Header(receiptType, ts1, tenant), payload, "ts");
    GetUpdateAbsent(Header(receiptType, ts2, tenant), payload, "ts");
    AsMapGet(u1, "ts");
    AsMapGet(u2, "ts");
    assert AsMap(u1)["ts"] != AsMap(u2)["ts"];
    PayloadHashDistinguishes(p, u1, u2);
    EnvelopeHashes(p, receiptType, payload, tenant, ts1);
    EnvelopeHashes(p, receiptType, payload, tenant, ts2);
  }

  // ---------------------------------------------------------------------
  // Lookups
  // ---------------------------------------------------------------------

  /** A ledger filter: an optional `receipt_type` and one `key == value` test. */
  datatype Query = Query(receiptType: Option<string>, key: string, value: Value)

  predicate Matches(r: Dict, q: Query)
  {
    && (q.receiptType.Some? ==> GetOr(r, "receipt_type", Null) == Str(q.receiptType.value))
    && GetOr(r, q.key, Null) == q.value
  }

  /** Position of the first receipt matching `q`, or `|rs|`. */
  function FirstMatch(rs: seq<Dict>, q: Query): (i: nat)
    ensures i <= |rs|
    ensures i < |rs| ==> Matches(rs[i], q)
    ensures forall j :: 0 <= j < i ==> !Matches(rs[j], q)
  {
    if rs == [] then 0
    else if Matches(rs[0], q) then 0
    else 1 + FirstMatch(rs[1..], q)
  }

  /** The first receipt in ledger order that matches `q`, if any. */
  function FindFirst(rs: seq<Dict>, q: Query): (r: Option<Dict>)
    ensures r.Some? ==> r.value in rs && Matches(r.value, q)
    ensures r.None? <==> forall j :: 0 <= j < |rs| ==> !Matches(rs[j], q)
  {
    var i := FirstMatch(rs, q);
    if i < |rs| then Some(rs[i]) else None
  }

  /** A linear scan of `rs` for the first receipt matching `q`. */
  method ScanFirst(rs: seq<Dict>, q: Query) returns (r: Option<Dict>)
    ensures r == FindFirst(rs, q)
  {
    var i := 0;
    while i < |rs|
      invariant i <= |rs|
      invariant forall j :: 0 <= j < i ==> !Matches(rs[j], q)
    {
      if Matches(rs[i], q) {
        FirstMatchIs(rs, q, i);
        return Some(rs[i]);
      }
      i := i + 1;
    }
    FirstMatchIs(rs, q, |rs|);
    return None;
  }

  /** The first-match position is determined by its two defining properties. */
  lemma FirstMatchIs(rs: seq<Dict>, q: Query, i: nat)
    requires i <= |rs|
    requires i < |rs| ==> Matches(rs[i], q)
    requires forall j :: 0 <= j < i ==> !Matches(rs[j], q)
    ensures FirstMatch(rs, q) == i
  {
  }

  // ---------------------------------------------------------------------
  // The ledger
  // ---------------------------------------------------------------------

  /** The append-only ledger file, one receipt per line. `clock(n)` is the UTC
      timestamp read by the append that makes the ledger `n + 1` receipts long. */
  class Ledger {
    var records: seq<Dict>
    const clock: nat -> string

    /** A ledger file that does not exist yet: loading it gives no receipts. */
    constructor (clock: nat -> string)
      ensures records == [] && this.clock == clock
    {
      records := [];
      this.clock := clock;
    }

    /** `emit_receipt`: builds the envelope, hashes it, and appends exactly one record. */
    method Emit(p: Primitives, receiptType: string, payload: Dict, tenant: Value) returns (r: Dict)
      modifies this
      ensures r == Envelope(p, receiptType, payload, tenant, clock(|old(records)|))
      ensures records == old(records) + [r]
    {
      var ts := clock(|records|);
      var receipt := Header(receiptType, ts, tenant);
      receipt := Update(receipt, payload);
      var payloadHash := DualHash(p, p.json(AsMap(receipt)));
      receipt := Put(receipt, "payload_hash", Str(payloadHash));
      var root := MerkleRoot(p, FieldTexts(p, receipt));
      receipt := Put(receipt, "merkle_root", Str(root));
      records := records + [receipt];
      r := receipt;
    }

    /** `load_ledger`: every receipt, in file order. */
    method Load() returns (rs: seq<Dict>)
      ensures rs == records
    {
      rs := records;
    }

    /** `find_receipt`: the first receipt of the given type whose `key` holds `value`. */
    method FindReceipt(receiptType: string, key: string, value: string) returns (r: Option<Dict>)
      ensures r.Some? ==> r.value in records
      ensures r.Some? ==> GetOr(r.value, "receipt_type", Null) == Str(receiptType)
                          && GetOr(r.value, key, Null) == Str(value)
      ensures r.Some? ==>
        exists i :: 0 <= i < |records| && records[i] == r.value &&
          forall j :: 0 <= j < i ==> !Matches(records[j], Query(Some(receiptType), key, Str(value)))
      ensures r.None? <==> forall j :: 0 <= j < |records| ==>
                          !Matches(records[j], Query(Some(receiptType), key, Str(value)))
      ensures r == FindFirst(records, Query(Some(receiptType), key, Str(value)))
    {
      var rs := Load();
      r := ScanFirst(rs, Query(Some(receiptType), key, Str(value)));
    }
  }
}
