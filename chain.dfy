/**
 * Chain verification (src/chain.py): re-hashing a single receipt, walking a
 * lot's receipts backwards from distribution to catch through their
 * `previous_hash` links, the consumer summary and the QR payload.
 */
module Chain {
  import opened Wrappers
  import opened Values
  import opened Core

  /** The five stages, in supply-chain order. */
  const StageOrder: seq<string> := ["catch", "processing", "testing", "encapsulation", "distribution"]

  /** The stages reached from the encapsulation receipt, nearest first. */
  const Upstream: seq<string> := ["testing", "processing", "catch"]

  /** The fields left out when a receipt is re-hashed. */
  const HashFields: set<string> := {"payload_hash", "merkle_root"}

  /** The problems `verify_chain` reports, one constructor per message it appends. */
  datatype ChainError =
    | NoDistribution(lot: string)
    | NoEncapsulation(lot: string)
    | DistributionLinkMismatch
    | MissingPreviousHash(receiptType: Value)
    | HashNotFound(hash: Value)
    | UnexpectedType(expected: string, found: Value)
    | HashMismatch(receiptType: Value)

  /** The result dictionary of `verify_chain`. */
  datatype ChainResult = ChainResult(
    lotNumber: string,
    chainLength: nat,
    chainValid: bool,
    receipts: map<Value, Dict>,
    errors: seq<ChainError>,
    verifiedAt: string)

  /** `r.get("receipt_type")`. */
  function TypeOf(r: Dict): Value
  {
    GetOr(r, "receipt_type", Null)
  }

  // ---------------------------------------------------------------------
  // Single receipt
  // ---------------------------------------------------------------------

  /** A receipt verifies when it has a non-empty stored hash equal to the dual hash
      of its canonical encoding with the two hash fields removed. */
  predicate ReceiptVerifies(p: Primitives, r: Dict)
    ensures !HasKey(r, "payload_hash") ==> !ReceiptVerifies(p, r)
    ensures ReceiptVerifies(p, r) ==> var h := GetOr(r, "payload_hash", Null);
      h.Str? && |h.s| >= |Sha256Tag| && h.s[..|Sha256Tag|] == Sha256Tag
  {
    var stored := GetOr(r, "payload_hash", Null);
    Truthy(stored) && stored == Str(PayloadHashOf(p, Without(r, HashFields)))
  }

  /** `verify_single_receipt`. */
  method VerifySingleReceipt(p: Primitives, r: Dict) returns (ok: bool)
    ensures ok == ReceiptVerifies(p, r)
    ensures !Truthy(GetOr(r, "payload_hash", Null)) ==> !ok
  {
    var stored := GetOr(r, "payload_hash", Null);
    if !Truthy(stored) {
      return false;
    }
    var check: Dict := [];
    var i := 0;
    while i < |r|
      invariant 0 <= i <= |r|
      invariant check == Without(r[..i], HashFields)
    {
      assert r[..i + 1] == r[..i] + [r[i]];
      WithoutAppend(r[..i], [r[i]], HashFields);
      // the keys of a dictionary are distinct, so `check[k] = v` adds a new entry
      if r[i].key !in HashFields {
        check := check + [r[i]];
      }
      i := i + 1;
    }
    assert r[..i] == r;
    var computed := DualHash(p, p.json(AsMap(check)));
    ok := Str(computed) == stored;
  }

  /** The unsealed envelope has no hash field when the payload has none. */
  lemma UnsealedLacksHashFields(receiptType: string, ts: string, tenant: Value, payload: Dict)
    requires !HasKey(payload, "payload_hash") && !HasKey(payload, "merkle_root")
    ensures var pre := Unsealed(receiptType, ts, tenant, payload);
      forall i :: 0 <= i < |pre| ==> pre[i].key !in HashFields
  {
    var pre := Unsealed(receiptType, ts, tenant, payload);
    HeaderKeys(receiptType, ts, tenant);
    HasKeyUpdate(Header(receiptType, ts, tenant), payload, "payload_hash");
    HasKeyUpdate(Header(receiptType, ts, tenant), payload, "merkle_root");
    assert FirstIndex(pre, "payload_hash") == |pre| && FirstIndex(pre, "merkle_root") == |pre|;
  }

  /** Dropping the two hash fields from an emitted receipt gives back the
      envelope that was hashed. */
  lemma StrippedEnvelope(p: Primitives, receiptType: string, payload: Dict, tenant: Value, ts: string)
    requires !HasKey(payload, "payload_hash") && !HasKey(payload, "merkle_root")
    ensures Without(Envelope(p, receiptType, payload, tenant, ts), HashFields) == Unsealed(receiptType, ts, tenant, payload)
  {
    var pre := Unsealed(receiptType, ts, tenant, payload);
    var e := Envelope(p, receiptType, payload, tenant, ts);
    EnvelopeShape(p, receiptType, payload, tenant, ts);
    var tail := e[|pre|..];
    assert e == pre + tail;
    assert |tail| == 2 && tail[0].key == "payload_hash" && tail[1].key == "merkle_root";
    assert Without(tail, HashFields) == [] by {
      assert tail[1..][1..] == [];
    }
    WithoutAppend(pre, tail, HashFields);
    UnsealedLacksHashFields(receiptType, ts, tenant, payload);
  }

  /** Round trip: a receipt fresh from `emit_receipt` verifies, provided the
      payload did not itself carry one of the two hash fields. */
  lemma EmitVerifies(p: Primitives, receiptType: string, payload: Dict, tenant: Value, ts: string)
    requires !HasKey(payload, "payload_hash") && !HasKey(payload, "merkle_root")
    ensures ReceiptVerifies(p, Envelope(p, receiptType, payload, tenant, ts))
  {
    EnvelopeHashes(p, receiptType, payload, tenant, ts);
    StrippedEnvelope(p, receiptType, payload, tenant, ts);
  }

  /** Tamper detection: overwriting or adding any field other than the two hash
      fields of an emitted receipt makes it fail verification, unless the changed
      and the original content collide under both hash functions. A nested block
      put back with its keys reordered counts as a change here. */
  lemma TamperDetected(p: Primitives, receiptType: string, payload: Dict, tenant: Value, ts: string,
                       k: string, v: Value)
    requires !HasKey(payload, "payload_hash") && !HasKey(payload, "merkle_root")
    requires k !in HashFields
    requires Get(Envelope(p, receiptType, payload, tenant, ts), k) != Some(v)
    requires NoDualCollision(p, AsMap(Without(Put(Envelope(p, receiptType, payload, tenant, ts), k, v), HashFields)),
                                AsMap(Unsealed(receiptType, ts, tenant, payload)))
    ensures !ReceiptVerifies(p, Put(Envelope(p, receiptType, payload, tenant, ts), k, v))
  {
    var pre := Unsealed(receiptType, ts, tenant, payload);
    var e := Envelope(p, receiptType, payload, tenant, ts);
    var t := Put(e, k, v);
    var stripped := Without(t, HashFields);
    EnvelopeHashes(p, receiptType, payload, tenant, ts);
    GetPut(e, k, v, "payload_hash");
    GetPut(e, k, v, k);
    GetWithout(t, HashFields, k);
    StrippedEnvelope(p, receiptType, payload, tenant, ts);
    GetWithout(e, HashFields, k);
    assert Get(stripped, k) != Get(pre, k);
    if AsMap(stripped) == AsMap(pre) {
      SameMapSameGet(stripped, pre, k);
    }
    PayloadHashDistinguishes(p, stripped, pre);
  }

  // ---------------------------------------------------------------------
  // Finders
  // ---------------------------------------------------------------------

  /** Receipts whose `payload_hash` equals `hash`. */
  function ByHash(hash: Value): Query
  {
    Query(None, "payload_hash", hash)
  }

  /** Receipts of the given type carrying the given `lot_number`. */
  function ByLot(receiptType: string, lot: string): Query
  {
    Query(Some(receiptType), "lot_number", Str(lot))
  }

  /** `_find_receipt_by_hash`. */
  method FindReceiptByHash(hash: Value, receipts: seq<Dict>) returns (r: Option<Dict>)
    ensures r == FindFirst(receipts, ByHash(hash))
    ensures r.Some? ==> r.value in receipts && GetOr(r.value, "payload_hash", Null) == hash
  {
    r := ScanFirst(receipts, ByHash(hash));
  }

  /** `_find_distribution_by_lot`. */
  method FindDistributionByLot(lot: string, receipts: seq<Dict>) returns (r: Option<Dict>)
    ensures r == FindFirst(receipts, ByLot("distribution", lot))
    ensures r.Some? ==> r.value in receipts && TypeOf(r.value) == Str("distribution")
                        && GetOr(r.value, "lot_number", Null) == Str(lot)
  {
    r := ScanFirst(receipts, ByLot("distribution", lot));
  }

  /** `_find_encapsulation_by_lot`. */
  method FindEncapsulationByLot(lot: string, receipts: seq<Dict>) returns (r: Option<Dict>)
    ensures r == FindFirst(receipts, ByLot("encapsulation", lot))
    ensures r.Some? ==> r.value in receipts && TypeOf(r.value) == Str("encapsulation")
                        && GetOr(r.value, "lot_number", Null) == Str(lot)
  {
    r := ScanFirst(receipts, ByLot("encapsulation", lot));
  }

  // ---------------------------------------------------------------------
  // The chain walk
  // ---------------------------------------------------------------------

  /** What the backward walk collects: the receipts it reached and the errors it hit. */
  datatype Walk = Walk(chain: seq<Dict>, errors: seq<ChainError>)

  /** The backward walk from `current` through the stages `expected`: it stops at
      the first missing or unresolvable `previous_hash`, and records a type
      mismatch but goes on. */
  function WalkBack(rs: seq<Dict>, current: Dict, expected: seq<string>): (w: Walk)
    ensures |w.chain| <= |expected|
    ensures |w.chain| < |expected| ==> |w.errors| > 0
    decreases |expected|
  {
    if expected == [] then Walk([], [])
    else
      var prevHash := GetOr(current, "previous_hash", Null);
      if !Truthy(prevHash) then Walk([], [MissingPreviousHash(TypeOf(current))])
      else
        match FindFirst(rs, ByHash(prevHash))
        case None => Walk([], [HashNotFound(prevHash)])
        case Some(prev) =>
          var typeErrors := if TypeOf(prev) != Str(expected[0]) then [UnexpectedType(expected[0], TypeOf(prev))] else [];
          var rest := WalkBack(rs, prev, expected[1..]);
          Walk([prev] + rest.chain, typeErrors + rest.errors)
  }

  /** Every receipt the walk reaches is in the ledger, and when the walk records
      no error the receipts are of the expected stages, in order. */
  lemma {:induction false} WalkBackTypes(rs: seq<Dict>, current: Dict, expected: seq<string>)
    ensures var w := WalkBack(rs, current, expected);
      && (forall i :: 0 <= i < |w.chain| ==> w.chain[i] in rs)
      && (w.errors == [] ==> forall i :: 0 <= i < |w.chain| ==> TypeOf(w.chain[i]) == Str(expected[i]))
    decreases |expected|
  {
    if expected != [] {
      var prevHash := GetOr(current, "previous_hash", Null);
      if Truthy(prevHash) && FindFirst(rs, ByHash(prevHash)).Some? {
        var prev := FindFirst(rs, ByHash(prevHash)).value;
        WalkBackTypes(rs, prev, expected[1..]);
        var w := WalkBack(rs, current, expected);
        var rest := WalkBack(rs, prev, expected[1..]);
        assert w.chain == [prev] + rest.chain;
        forall i | 0 <= i < |w.chain| ensures w.chain[i] in rs {
          if i > 0 { assert w.chain[i] == rest.chain[i - 1]; }
        }
        if w.errors == [] {
          forall i | 0 <= i < |w.chain| ensures TypeOf(w.chain[i]) == Str(expected[i]) {
            if i > 0 { assert w.chain[i] == rest.chain[i - 1]; }
          }
        }
      }
    }
  }

  /** One `HashMismatch` per receipt of `chain` that fails the check `ok`, in chain order. */
  function Mismatches(ok: Dict -> bool, chain: seq<Dict>): (es: seq<ChainError>)
    ensures |es| <= |chain|
    decreases |chain|
  {
    if chain == [] then []
    else
      var last := chain[|chain| - 1];
      Mismatches(ok, chain[..|chain| - 1]) + if ok(last) then [] else [HashMismatch(TypeOf(last))]
  }

  /** The hash recheck as a function value. */
  function Verifier(p: Primitives): Dict -> bool
  {
    (r: Dict) => ReceiptVerifies(p, r)
  }

  /** One `HashMismatch` per receipt of `chain` that fails verification, in chain order. */
  function HashErrors(p: Primitives, chain: seq<Dict>): (es: seq<ChainError>)
    ensures |es| <= |chain|
  {
    Mismatches(Verifier(p), chain)
  }

  /** Files every element of `xs` under its key; a later element replaces an
      earlier one with the same key. */
  function IndexBy<K, V>(key: V -> K, xs: seq<V>): (m: map<K, V>)
    ensures forall i :: 0 <= i < |xs| ==> key(xs[i]) in m
    ensures forall k :: k in m ==> exists i :: 0 <= i < |xs| && key(xs[i]) == k && m[k] == xs[i]
    decreases |xs|
  {
    if xs == [] then map[]
    else
      var last := xs[|xs| - 1];
      var m := IndexBy(key, xs[..|xs| - 1]);
      assert forall i :: 0 <= i < |xs| - 1 ==> xs[..|xs| - 1][i] == xs[i];
      m[key(last) := last]
  }

  /** `result["receipts"][r.get("receipt_type")] = r` for each receipt: a later
      receipt of the same type replaces an earlier one. */
  function ByType(chain: seq<Dict>): (m: map<Value, Dict>)
    ensures forall i :: 0 <= i < |chain| ==> TypeOf(chain[i]) in m
    ensures forall t :: t in m ==> exists i :: 0 <= i < |chain| && TypeOf(chain[i]) == t && m[t] == chain[i]
  {
    IndexBy((r: Dict) => TypeOf(r), chain)
  }

  /** The result `verify_chain` computes for `lot` over the ledger `rs`, stamped `at`. */
  function ChainOf(p: Primitives, lot: string, rs: seq<Dict>, at: string): (r: ChainResult)
    ensures r.lotNumber == lot && r.verifiedAt == at
    ensures r.chainLength == 0 || 2 <= r.chainLength <= 5
    ensures r.chainValid ==> r.chainLength == 5 && r.errors == []
    ensures FindFirst(rs, ByLot("distribution", lot)).None? ==>
              !r.chainValid && r.chainLength == 0 && r.errors == [NoDistribution(lot)]
    ensures FindFirst(rs, ByLot("distribution", lot)).Some? && FindFirst(rs, ByLot("encapsulation", lot)).None? ==>
              !r.chainValid && r.chainLength == 0 && r.errors == [NoEncapsulation(lot)]
    ensures r.chainLength == 0 ==> |r.errors| == 1 && r.receipts == map[]
  {
    match FindFirst(rs, ByLot("distribution", lot))
    case None => ChainResult(lot, 0, false, map[], [NoDistribution(lot)], at)
    case Some(dist) =>
      match FindFirst(rs, ByLot("encapsulation", lot))
      case None => ChainResult(lot, 0, false, map[], [NoEncapsulation(lot)], at)
      case Some(encap) =>
        var linkErrors := LinkErrors(dist, encap);
        var w := WalkBack(rs, encap, Upstream);
        var chain := Collected(rs, dist, encap);
        var errors := linkErrors + w.errors + HashErrors(p, chain);
        ChainResult(lot, |chain|, |errors| == 0 && |chain| == 5, ByType(chain), errors, at)
  }

  /** The receipts `verify_chain` collects once it has found the lot's
      distribution and encapsulation receipts. */
  function Collected(rs: seq<Dict>, dist: Dict, encap: Dict): seq<Dict>
  {
    [dist, encap] + WalkBack(rs, encap, Upstream).chain
  }

  /** The distribution receipt must point at the encapsulation receipt. */
  function LinkErrors(dist: Dict, encap: Dict): (es: seq<ChainError>)
    ensures |es| <= 1
    ensures es == [] <==> GetOr(dist, "previous_hash", Null) == GetOr(encap, "payload_hash", Null)
  {
    if GetOr(dist, "previous_hash", Null) != GetOr(encap, "payload_hash", Null) then [DistributionLinkMismatch] else []
  }

  /** The walk from `current`, whose `previous_hash` resolves to `prev`, goes on from `prev`. */
  lemma WalkBackUnfold(rs: seq<Dict>, current: Dict, expected: seq<string>, prev: Dict)
    requires expected != []
    requires Truthy(GetOr(current, "previous_hash", Null))
    requires FindFirst(rs, ByHash(GetOr(current, "previous_hash", Null))) == Some(prev)
    ensures var next := WalkBack(rs, prev, expected[1..]);
      WalkBack(rs, current, expected) ==
        Walk([prev] + next.chain,
             (if TypeOf(prev) != Str(expected[0]) then [UnexpectedType(expected[0], TypeOf(prev))] else []) + next.errors)
  {
  }

  /** One step of the backward walk from `current`, whose `previous_hash` resolves
      to `prev`: what was collected so far is extended by `prev` and its type error. */
  lemma WalkBackStep(rs: seq<Dict>, current: Dict, expected: seq<string>, prev: Dict,
                     full: Walk, chain: seq<Dict>, errors: seq<ChainError>, typeErrors: seq<ChainError>)
    requires expected != []
    requires Truthy(GetOr(current, "previous_hash", Null))
    requires FindFirst(rs, ByHash(GetOr(current, "previous_hash", Null))) == Some(prev)
    requires typeErrors == if TypeOf(prev) != Str(expected[0]) then [UnexpectedType(expected[0], TypeOf(prev))] else []
    requires full.chain == chain + WalkBack(rs, current, expected).chain
    requires full.errors == errors + WalkBack(rs, current, expected).errors
    ensures full.chain == (chain + [prev]) + WalkBack(rs, prev, expected[1..]).chain
    ensures full.errors == (errors + typeErrors) + WalkBack(rs, prev, expected[1..]).errors
  {
    var next := WalkBack(rs, prev, expected[1..]);
    WalkBackUnfold(rs, current, expected, prev);
    AppendAssoc(chain, [prev], next.chain);
    AppendAssoc(errors, typeErrors, next.errors);
  }

  /** The loop of `verify_chain` that walks backwards from `encap` through the
      stages `expected`, appending to `chain` and `errors`. */
  method WalkBackwards(receipts: seq<Dict>, encap: Dict, expected: seq<string>)
    returns (chain: seq<Dict>, errors: seq<ChainError>)
    ensures Walk(chain, errors) == WalkBack(receipts, encap, expected)
  {
    chain, errors := [], [];
    var current := encap;
    var i := 0;
    ghost var full := WalkBack(receipts, encap, expected);
    ghost var w := full;
    while i < |expected|
      invariant 0 <= i <= |expected|
      invariant w == WalkBack(receipts, current, expected[i..])
      invariant full.chain == chain + w.chain
      invariant full.errors == errors + w.errors
    {
      ghost var rest := expected[i..];
      assert rest[0] == expected[i] && rest[1..] == expected[i + 1..];
      var prevHash := GetOr(current, "previous_hash", Null);
      if !Truthy(prevHash) {
        assert w == Walk([], [MissingPreviousHash(TypeOf(current))]);
        errors := errors + [MissingPreviousHash(TypeOf(current))];
        assert full == Walk(chain + [], errors);
        assert chain + [] == chain;
        break;
      }
      var prev := FindReceiptByHash(prevHash, receipts);
      if prev.None? {
        assert w == Walk([], [HashNotFound(prevHash)]);
        errors := errors + [HashNotFound(prevHash)];
        assert full == Walk(chain + [], errors);
        assert chain + [] == chain;
        break;
      }
      var typeErrors := [];
      if TypeOf(prev.value) != Str(expected[i]) {
        typeErrors := [UnexpectedType(expected[i], TypeOf(prev.value))];
      }
      WalkBackStep(receipts, current, rest, prev.value, full, chain, errors, typeErrors);
      ghost var next := WalkBack(receipts, prev.value, rest[1..]);
      errors := errors + typeErrors;
      chain := chain + [prev.value];
      current := prev.value;
      w := next;
      i := i + 1;
    }
    if i == |expected| {
      assert w == Walk([], []);
      assert chain + [] == chain && errors + [] == errors;
    }
  }

  /** The hash-check loop of `verify_chain`. */
  method CollectHashErrors(p: Primitives, chain: seq<Dict>) returns (hashErrors: seq<ChainError>)
    ensures hashErrors == HashErrors(p, chain)
  {
    hashErrors := [];
    var j := 0;
    while j < |chain|
      invariant 0 <= j <= |chain|
      invariant hashErrors == HashErrors(p, chain[..j])
    {
      assert chain[..j + 1][..j] == chain[..j];
      var ok := VerifySingleReceipt(p, chain[j]);
      if !ok {
        hashErrors := hashErrors + [HashMismatch(TypeOf(chain[j]))];
      }
      j := j + 1;
    }
    assert chain[..j] == chain;
  }

  /** The loop of `verify_chain` that files each receipt under its type. */
  method IndexByType(chain: seq<Dict>) returns (byType: map<Value, Dict>)
    ensures byType == ByType(chain)
  {
    byType := map[];
    var j := 0;
    while j < |chain|
      invariant 0 <= j <= |chain|
      invariant byType == ByType(chain[..j])
    {
      assert chain[..j + 1][..j] == chain[..j];
      byType := byType[TypeOf(chain[j]) := chain[j]];
      j := j + 1;
    }
    assert chain[..j] == chain;
  }

  /** `verify_chain`, over the ledger as it stands and the clock reading `at`. */
  method VerifyChain(p: Primitives, lot: string, ledger: Ledger, at: string) returns (result: ChainResult)
    ensures result == ChainOf(p, lot, ledger.records, at)
  {
    var receipts := ledger.Load();
    var dist := FindDistributionByLot(lot, receipts);
    if dist.None? {
      return ChainResult(lot, 0, false, map[], [NoDistribution(lot)], at);
    }
    var encap := FindEncapsulationByLot(lot, receipts);
    if encap.None? {
      return ChainResult(lot, 0, false, map[], [NoEncapsulation(lot)], at);
    }
    var errors: seq<ChainError> := [];
    if GetOr(dist.value, "previous_hash", Null) != GetOr(encap.value, "payload_hash", Null) {
      errors := errors + [DistributionLinkMismatch];
    }
    assert errors == LinkErrors(dist.value, encap.value);
    var walked, walkErrors := WalkBackwards(receipts, encap.value, Upstream);
    var chain := [dist.value, encap.value] + walked;
    assert chain == Collected(receipts, dist.value, encap.value);
    errors := errors + walkErrors;
    var hashErrors := CollectHashErrors(p, chain);
    errors := errors + hashErrors;
    var byType := IndexByType(chain);
    result := ChainResult(lot, |chain|, |errors| == 0 && |chain| == 5, byType, errors, at);
  }

  // ---------------------------------------------------------------------
  // What a valid chain is
  // ---------------------------------------------------------------------

  /** From `current`, each of the stages `expected` in turn is reached through a
      present `previous_hash` that resolves to a receipt of that stage whose own
      hash verifies. */
  predicate LinksBack(p: Primitives, rs: seq<Dict>, current: Dict, expected: seq<string>)
    decreases |expected|
  {
    expected == [] ||
    var prevHash := GetOr(current, "previous_hash", Null);
    && Truthy(prevHash)
    && FindFirst(rs, ByHash(prevHash)).Some?
    && var prev := FindFirst(rs, ByHash(prevHash)).value;
       && TypeOf(prev) == Str(expected[0])
       && ReceiptVerifies(p, prev)
       && LinksBack(p, rs, prev, expected[1..])
  }

  /** A complete, intact chain for `lot`: the first distribution and encapsulation
      receipts for the lot exist and are linked, both verify, and the three
      upstream stages are reached in order from the encapsulation receipt. */
  predicate IntactChain(p: Primitives, lot: string, rs: seq<Dict>)
  {
    var dist := FindFirst(rs, ByLot("distribution", lot));
    var encap := FindFirst(rs, ByLot("encapsulation", lot));
    && dist.Some? && encap.Some?
    && GetOr(dist.value, "previous_hash", Null) == GetOr(encap.value, "payload_hash", Null)
    && ReceiptVerifies(p, dist.value) && ReceiptVerifies(p, encap.value)
    && LinksBack(p, rs, encap.value, Upstream)
  }

  /** The mismatches of a concatenation are those of its parts. */
  lemma {:induction false} MismatchesAppend(ok: Dict -> bool, a: seq<Dict>, b: seq<Dict>)
    ensures Mismatches(ok, a + b) == Mismatches(ok, a) + Mismatches(ok, b)
    decreases |b|
  {
    if b != [] {
      var b' := b[..|b| - 1];
      assert (a + b)[..|a + b| - 1] == a + b';
      assert (a + b)[|a + b| - 1] == b[|b| - 1];
      MismatchesAppend(ok, a, b');
    } else {
      assert a + b == a;
    }
  }

  /** No mismatch exactly when every receipt passes the check. */
  lemma {:induction false} MismatchesEmpty(ok: Dict -> bool, chain: seq<Dict>)
    ensures Mismatches(ok, chain) == [] <==> forall i :: 0 <= i < |chain| ==> ok(chain[i])
    decreases |chain|
  {
    if chain != [] {
      var c' := chain[..|chain| - 1];
      MismatchesEmpty(ok, c');
      assert forall i :: 0 <= i < |c'| ==> c'[i] == chain[i];
      assert chain == c' + [chain[|chain| - 1]];
    }
  }

  /** The hash errors of a concatenation are those of its parts. */
  lemma HashErrorsAppend(p: Primitives, a: seq<Dict>, b: seq<Dict>)
    ensures HashErrors(p, a + b) == HashErrors(p, a) + HashErrors(p, b)
  {
    MismatchesAppend(Verifier(p), a, b);
  }

  /** No hash error exactly when every receipt verifies. */
  lemma HashErrorsEmpty(p: Primitives, chain: seq<Dict>)
    ensures HashErrors(p, chain) == [] <==> forall i :: 0 <= i < |chain| ==> ReceiptVerifies(p, chain[i])
  {
    MismatchesEmpty(Verifier(p), chain);
  }

  /** The two receipts found by lot have no hash error exactly when both verify. */
  lemma HashErrorsPair(p: Primitives, d: Dict, e: Dict)
    ensures HashErrors(p, [d, e]) == [] <==> ReceiptVerifies(p, d) && ReceiptVerifies(p, e)
  {
    var ok := Verifier(p);
    assert [d, e][..1] == [d] && [d][..0] == [];
    assert Mismatches(ok, [d, e]) == Mismatches(ok, [d]) + (if ok(e) then [] else [HashMismatch(TypeOf(e))]);
    assert Mismatches(ok, [d]) == if ok(d) then [] else [HashMismatch(TypeOf(d))];
  }

  /** The walk finds no error and every receipt it reaches verifies exactly when
      the links hold all the way back. */
  lemma {:induction false} WalkBackIntact(p: Primitives, rs: seq<Dict>, current: Dict, expected: seq<string>)
    ensures var w := WalkBack(rs, current, expected);
      w.errors == [] && HashErrors(p, w.chain) == [] <==> LinksBack(p, rs, current, expected)
    decreases |expected|
  {
    if expected != [] {
      var prevHash := GetOr(current, "previous_hash", Null);
      if Truthy(prevHash) && FindFirst(rs, ByHash(prevHash)).Some? {
        var prev := FindFirst(rs, ByHash(prevHash)).value;
        var rest := WalkBack(rs, prev, expected[1..]);
        WalkBackIntact(p, rs, prev, expected[1..]);
        HashErrorsAppend(p, [prev], rest.chain);
        assert HashErrors(p, [prev]) == if ReceiptVerifies(p, prev) then [] else [HashMismatch(TypeOf(prev))] by {
          assert [prev][..0] == [];
        }
      }
    }
  }

  /** `chain_valid` is true exactly for an intact chain. */
  lemma ChainValidIff(p: Primitives, lot: string, rs: seq<Dict>, at: string)
    ensures ChainOf(p, lot, rs, at).chainValid <==> IntactChain(p, lot, rs)
  {
    var dist := FindFirst(rs, ByLot("distribution", lot));
    var encap := FindFirst(rs, ByLot("encapsulation", lot));
    if dist.Some? && encap.Some? {
      var d, e := dist.value, encap.value;
      var w := WalkBack(rs, e, Upstream);
      WalkBackIntact(p, rs, e, Upstream);
      HashErrorsAppend(p, [d, e], w.chain);
      HashErrorsPair(p, d, e);
      var errors := LinkErrors(d, e) + w.errors + HashErrors(p, [d, e] + w.chain);
      assert ChainOf(p, lot, rs, at).chainValid <==> errors == [] && |w.chain| == 3;
    }
  }

  /** Filing receipts whose types are the given stages files one receipt under each stage. */
  lemma ByTypeStages(chain: seq<Dict>, stages: seq<string>)
    requires |chain| == |stages|
    requires forall i :: 0 <= i < |chain| ==> TypeOf(chain[i]) == Str(stages[i])
    ensures forall i :: 0 <= i < |stages| ==>
      Str(stages[i]) in ByType(chain) && TypeOf(ByType(chain)[Str(stages[i])]) == Str(stages[i])
  {
    var m := ByType(chain);
    forall i | 0 <= i < |stages|
      ensures Str(stages[i]) in m && TypeOf(m[Str(stages[i])]) == Str(stages[i])
    {
      assert TypeOf(chain[i]) in m;
      var j :| 0 <= j < |chain| && TypeOf(chain[j]) == Str(stages[i]) && m[Str(stages[i])] == chain[j];
    }
  }

  /** The stages of a complete chain in the order `verify_chain` collects them. */
  const CollectionOrder: seq<string> := ["distribution", "encapsulation"] + Upstream

  /** A valid chain found its distribution and encapsulation receipts, and its
      walk hit no error and reached all three upstream stages. */
  lemma ValidChainParts(p: Primitives, lot: string, rs: seq<Dict>, at: string)
    requires ChainOf(p, lot, rs, at).chainValid
    ensures FindFirst(rs, ByLot("distribution", lot)).Some? && FindFirst(rs, ByLot("encapsulation", lot)).Some?
    ensures var d := FindFirst(rs, ByLot("distribution", lot)).value;
      var e := FindFirst(rs, ByLot("encapsulation", lot)).value;
      var w := WalkBack(rs, e, Upstream);
      && w.errors == [] && |w.chain| == 3
      && ChainOf(p, lot, rs, at).receipts == ByType(Collected(rs, d, e))
  {
    var d := FindFirst(rs, ByLot("distribution", lot)).value;
    var e := FindFirst(rs, ByLot("encapsulation", lot)).value;
    var w := WalkBack(rs, e, Upstream);
    var errors := LinkErrors(d, e) + w.errors + HashErrors(p, Collected(rs, d, e));
    assert |errors| == 0 && |Collected(rs, d, e)| == 5;
    assert |w.errors| <= |errors|;
  }

  /** Receipts of the expected types, collected in order. */
  lemma CollectedTypes(rs: seq<Dict>, d: Dict, e: Dict)
    requires TypeOf(d) == Str("distribution") && TypeOf(e) == Str("encapsulation")
    requires WalkBack(rs, e, Upstream).errors == [] && |WalkBack(rs, e, Upstream).chain| == 3
    ensures var c := Collected(rs, d, e);
      |c| == 5 && forall i :: 0 <= i < |c| ==> TypeOf(c[i]) == Str(CollectionOrder[i])
  {
    var w := WalkBack(rs, e, Upstream);
    var c := Collected(rs, d, e);
    WalkBackTypes(rs, e, Upstream);
    forall i | 0 <= i < |c| ensures TypeOf(c[i]) == Str(CollectionOrder[i]) {
      if i >= 2 {
        assert c[i] == w.chain[i - 2];
        assert CollectionOrder[i] == Upstream[i - 2];
      } else if i == 1 {
        assert c[i] == e && CollectionOrder[i] == "encapsulation";
      } else {
        assert c[i] == d && CollectionOrder[i] == "distribution";
      }
    }
  }

  /** A valid chain collected five receipts, one of each stage, in collection order. */
  lemma ValidChainTypes(p: Primitives, lot: string, rs: seq<Dict>, at: string)
    requires ChainOf(p, lot, rs, at).chainValid
    ensures FindFirst(rs, ByLot("distribution", lot)).Some? && FindFirst(rs, ByLot("encapsulation", lot)).Some?
    ensures var c := Collected(rs, FindFirst(rs, ByLot("distribution", lot)).value,
                                   FindFirst(rs, ByLot("encapsulation", lot)).value);
      && |c| == 5
      && ChainOf(p, lot, rs, at).receipts == ByType(c)
      && forall i :: 0 <= i < |c| ==> TypeOf(c[i]) == Str(CollectionOrder[i])
  {
    ValidChainParts(p, lot, rs, at);
    CollectedTypes(rs, FindFirst(rs, ByLot("distribution", lot)).value, FindFirst(rs, ByLot("encapsulation", lot)).value);
  }

  /** A valid chain files a receipt under every stage of the supply chain, each of that stage's type. */
  lemma ValidChainHasEveryStage(p: Primitives, lot: string, rs: seq<Dict>, at: string)
    requires ChainOf(p, lot, rs, at).chainValid
    ensures var m := ChainOf(p, lot, rs, at).receipts;
      forall i :: 0 <= i < |StageOrder| ==> Str(StageOrder[i]) in m && TypeOf(m[Str(StageOrder[i])]) == Str(StageOrder[i])
  {
    var chain := Collected(rs, FindFirst(rs, ByLot("distribution", lot)).value,
                               FindFirst(rs, ByLot("encapsulation", lot)).value);
    ValidChainTypes(p, lot, rs, at);
    ByTypeStages(chain, CollectionOrder);
    StageOrderReversed();
    var m := ByType(chain);
    forall i | 0 <= i < |StageOrder|
      ensures Str(StageOrder[i]) in m && TypeOf(m[Str(StageOrder[i])]) == Str(StageOrder[i])
    {
      assert StageOrder[i] == CollectionOrder[4 - i];
    }
  }

  /** Collection runs against the supply chain. */
  lemma StageOrderReversed()
    ensures |StageOrder| == |CollectionOrder| == 5
    ensures forall i :: 0 <= i < 5 ==> StageOrder[i] == CollectionOrder[4 - i]
  {
  }

  // ---------------------------------------------------------------------
  // Consumer summary and QR payload
  // ---------------------------------------------------------------------

  /** The summary `get_chain_summary` returns. The potency line keeps its two
      numbers; the text they are formatted into is not modelled. */
  datatype Summary =
    | InvalidSummary(lot: string, errors: seq<ChainError>)
    | ValidSummary(
        lot: string,
        chainLength: nat,
        species: Value,
        speciesScientific: Value,
        fisheryCertified: bool,
        fisheryCert: Value,
        contaminantsPass: Value,
        potencyTotalMg: Value,
        potencyLabelMg: Value,
        potencyPass: Value,
        totox: Value,
        oxidationPass: Value,
        yieldStatus: Value,
        yieldNormal: bool,
        coldChainVerified: Value,
        coldChainEnabled: Value)

  /** `chain["receipts"].get(stage, {})`. */
  function StageReceipt(c: ChainResult, stage: string): Dict
  {
    if Str(stage) in c.receipts then c.receipts[Str(stage)] else []
  }

  /** The nested blocks the summary reads are dictionaries where present
      (otherwise `.get` on them fails). */
  predicate SummaryReady(c: ChainResult)
  {
    var testing := StageReceipt(c, "testing");
    && BlockReady(testing, "contaminants") && BlockReady(testing, "potency") && BlockReady(testing, "oxidation")
    && BlockReady(StageReceipt(c, "distribution"), "cold_chain")
  }

  /** `get_chain_summary`'s result for a `verify_chain` result. */
  function SummaryOf(c: ChainResult): (s: Summary)
    requires c.chainValid ==> SummaryReady(c)
    ensures s.lot == c.lotNumber
    ensures s.InvalidSummary? <==> !c.chainValid
    ensures s.InvalidSummary? ==> s.errors == c.errors
    ensures s.ValidSummary? ==>
      && s.chainLength == c.chainLength
      && (s.fisheryCertified <==> s.fisheryCert != Str("None"))
      && (s.yieldNormal <==> s.yieldStatus == Str("NORMAL"))
      && (!HasKey(StageReceipt(c, "catch"), "fishery_cert_type") ==> !s.fisheryCertified)
  {
    if !c.chainValid then InvalidSummary(c.lotNumber, c.errors)
    else
      var catchR := StageReceipt(c, "catch");
      var processing := StageReceipt(c, "processing");
      var testing := StageReceipt(c, "testing");
      var distribution := StageReceipt(c, "distribution");
      var contaminants := Block(testing, "contaminants");
      var potency := Block(testing, "potency");
      var oxidation := Block(testing, "oxidation");
      var coldChain := Block(distribution, "cold_chain");
      var certType := GetOr(catchR, "fishery_cert_type", Str("None"));
      ValidSummary(
        c.lotNumber,
        c.chainLength,
        GetOr(catchR, "species_common", Str("Unknown")),
        GetOr(catchR, "species", Str("Unknown")),
        certType != Str("None"),
        certType,
        GetOr(contaminants, "all_pass", Bool(false)),
        GetOr(potency, "total_omega3_mg", Num(0.0)),
        GetOr(potency, "label_claim_mg", Num(0.0)),
        GetOr(potency, "potency_pass", Bool(false)),
        GetOr(oxidation, "totox", Num(0.0)),
        GetOr(oxidation, "oxidation_pass", Bool(false)),
        GetOr(processing, "yield_status", Str("UNKNOWN")),
        GetOr(processing, "yield_status", Null) == Str("NORMAL"),
        GetOr(coldChain, "cold_chain_pass", Bool(false)),
        GetOr(coldChain, "enabled", Bool(false)))
  }

  /** `get_chain_summary`. */
  method GetChainSummary(p: Primitives, lot: string, ledger: Ledger, at: string) returns (s: Summary)
    requires ChainOf(p, lot, ledger.records, at).chainValid ==> SummaryReady(ChainOf(p, lot, ledger.records, at))
    ensures s == SummaryOf(ChainOf(p, lot, ledger.records, at))
    ensures s.lot == lot
    ensures s.ValidSummary? ==> s.chainLength == 5 && IntactChain(p, lot, ledger.records)
    ensures s.InvalidSummary? ==> s.errors != []
  {
    var chain := VerifyChain(p, lot, ledger, at);
    ChainValidIff(p, lot, ledger.records, at);
    InvalidHasErrors(p, lot, ledger.records, at);
    s := SummaryOf(chain);
  }

  /** An invalid chain always reports at least one error. */
  lemma InvalidHasErrors(p: Primitives, lot: string, rs: seq<Dict>, at: string)
    ensures !ChainOf(p, lot, rs, at).chainValid ==> ChainOf(p, lot, rs, at).errors != []
  {
    var dist := FindFirst(rs, ByLot("distribution", lot));
    var encap := FindFirst(rs, ByLot("encapsulation", lot));
    if dist.Some? && encap.Some? {
      var w := WalkBack(rs, encap.value, Upstream);
      assert |[dist.value, encap.value] + w.chain| == 2 + |w.chain|;
    }
  }

  const VerificationBase := "https://verify.fishoilproof.io/"

  /** The content of the QR code; its JSON text is not modelled. */
  datatype QrPayload =
    | QrInvalid(lot: string, errors: seq<ChainError>)
    | QrValid(
        lot: string,
        chainLength: nat,
        species: Value,
        fisheryCertified: bool,
        fisheryCert: Value,
        contaminantsPass: Value,
        potencyTotalMg: Value,
        potencyLabelMg: Value,
        totox: Value,
        coldChainVerified: Value,
        yieldNormal: bool,
        verificationUrl: string)

  /** The QR payload for a summary of `lot`. */
  function QrOf(lot: string, s: Summary): (q: QrPayload)
    ensures q.lot == lot
    ensures q.QrInvalid? <==> s.InvalidSummary?
    ensures q.QrInvalid? ==> q.errors == s.errors
    ensures q.QrValid? ==>
      && |VerificationBase| <= |q.verificationUrl|
      && q.verificationUrl[..|VerificationBase|] == VerificationBase
      && q.verificationUrl[|VerificationBase|..] == lot
      && q.fisheryCertified == s.fisheryCertified && q.yieldNormal == s.yieldNormal
  {
    match s
    case InvalidSummary(_, errors) => QrInvalid(lot, errors)
    case ValidSummary(_, n, species, _, certified, cert, contaminants, total, claim, _, totox, _, _, yieldNormal, coldChain, _) =>
      QrValid(lot, n, species, certified, cert, contaminants, total, claim, totox, coldChain, yieldNormal,
              VerificationBase + lot)
  }

  /** `generate_qr_payload`. */
  method GenerateQrPayload(p: Primitives, lot: string, ledger: Ledger, at: string) returns (q: QrPayload)
    requires ChainOf(p, lot, ledger.records, at).chainValid ==> SummaryReady(ChainOf(p, lot, ledger.records, at))
    ensures q == QrOf(lot, SummaryOf(ChainOf(p, lot, ledger.records, at)))
    ensures q.QrValid? ==> q.chainLength == 5 && IntactChain(p, lot, ledger.records)
    ensures q.QrInvalid? ==> q.errors != []
  {
    var s := GetChainSummary(p, lot, ledger, at);
    q := QrOf(lot, s);
  }
}
