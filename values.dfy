/**
 * The dynamically typed records the receipt engine passes around: JSON-like
 * values and insertion-ordered dictionaries, with the handful of Python
 * dictionary operations the engine relies on (`d.get`, `d[k] = v`,
 * `d.update`, iteration over values, truthiness).
 */
module Values {
  import opened Wrappers

  /** A field value of a receipt. Python's int and float are both `Num`. */
  datatype Value =
    | Null
    | Bool(b: bool)
    | Num(x: real)
    | Str(s: string)
    | Obj(entries: seq<Entry>)

  /** One key/value pair of a dictionary. */
  datatype Entry = Entry(key: string, val: Value)

  /** An insertion-ordered dictionary: the order of its entries is the order
      in which the keys were first inserted. */
  type Dict = seq<Entry>

  /** Position of the first entry with key `k`, or `|d|` when there is none. */
  function FirstIndex(d: Dict, k: string): (i: nat)
    ensures i <= |d|
    ensures i < |d| ==> d[i].key == k
    ensures forall j :: 0 <= j < i ==> d[j].key != k
  {
    if d == [] then 0
    else if d[0].key == k then 0
    else 1 + FirstIndex(d[1..], k)
  }

  predicate HasKey(d: Dict, k: string)
  {
    FirstIndex(d, k) < |d|
  }

  /** The value stored under `k`, if any. */
  function Get(d: Dict, k: string): (r: Option<Value>)
    ensures r.Some? <==> HasKey(d, k)
  {
    var i := FirstIndex(d, k);
    if i < |d| then
      Some(d[i].val)
    else
      None
  }

  /** Python's `d.get(k, default)`; `d.get(k)` is `GetOr(d, k, Null)`. */
  function GetOr(d: Dict, k: string, default: Value): (v: Value)
    ensures HasKey(d, k) ==> Some(v) == Get(d, k)
    ensures !HasKey(d, k) ==> v == default
  {
    match Get(d, k)
    case Some(v) => v
    case None => default
  }

  /** Python truthiness of a value (`None`, `False`, `0`, `""` and `{}` are false). */
  predicate Truthy(v: Value)
  {
    match v
    case Null => false
    case Bool(b) => b
    case Num(x) => x != 0.0
    case Str(s) => s != ""
    case Obj(es) => es != []
  }

  /** `d[k] = v`: overwrites an existing key in place, or appends a new one. */
  function Put(d: Dict, k: string, v: Value): (r: Dict)
    ensures HasKey(d, k) ==> |r| == |d|
    ensures !HasKey(d, k) ==> r == d + [Entry(k, v)]
    ensures HasKey(d, k) ==> forall j :: 0 <= j < |d| ==> r[j].key == d[j].key
  {
    var i := FirstIndex(d, k);
    if i < |d| then d[i := Entry(k, v)] else d + [Entry(k, v)]
  }

  /** After `d[k] = v`, `k` holds `v` and every other key keeps its value. */
  lemma GetPut(d: Dict, k: string, v: Value, k': string)
    ensures Get(Put(d, k, v), k') == if k' == k then Some(v) else Get(d, k')
  {
    var r := Put(d, k, v);
    var i := FirstIndex(d, k);
    if i < |d| {
      if k' == k {
        FirstIndexIs(r, k, i);
      } else {
        FirstIndexSameKeys(d, r, k');
      }
    } else if k' == k {
      FirstIndexIs(r, k, |d|);
    } else {
      var j := FirstIndex(d, k');
      if j < |d| {
        FirstIndexIs(r, k', j);
      } else {
        FirstIndexIs(r, k', |r|);
      }
    }
  }

  /** Two dictionaries whose keys agree position by position find every key at the same place. */
  lemma {:induction false} FirstIndexSameKeys(d: Dict, r: Dict, k: string)
    requires |d| == |r|
    requires forall j :: 0 <= j < |d| ==> d[j].key == r[j].key
    ensures FirstIndex(d, k) == FirstIndex(r, k)
  {
    if d != [] && d[0].key != k {
      FirstIndexSameKeys(d[1..], r[1..], k);
    }
  }

  /** The first-occurrence position is determined by its two defining properties. */
  lemma FirstIndexIs(d: Dict, k: string, i: nat)
    requires i <= |d|
    requires i < |d| ==> d[i].key == k
    requires forall j :: 0 <= j < i ==> d[j].key != k
    ensures FirstIndex(d, k) == i
  {
  }

  /** `d.update(u)`: puts the entries of `u` into `d` one after another. */
  function Update(d: Dict, u: Dict): Dict
    decreases |u|
  {
    if u == [] then d else Update(Put(d, u[0].key, u[0].val), u[1..])
  }

  /** No key occurs twice (true of every Python dictionary). */
  predicate Distinct(d: Dict)
  {
    forall i, j :: 0 <= i < j < |d| ==> d[i].key != d[j].key
  }

  /** The tail of a dictionary without repeated keys has none either, and lacks the head's key. */
  lemma DistinctTail(u: Dict)
    requires Distinct(u) && u != []
    ensures Distinct(u[1..]) && !HasKey(u[1..], u[0].key)
  {
    var t := u[1..];
    forall j | 0 <= j < |t| ensures t[j].key != u[0].key {
      assert t[j] == u[j + 1];
    }
  }

  /** After `d.update(u)` a key that `u` lacks keeps `d`'s value. */
  lemma {:induction false} GetUpdateAbsent(d: Dict, u: Dict, k: string)
    requires !HasKey(u, k)
    ensures Get(Update(d, u), k) == Get(d, k)
    decreases |u|
  {
    if u != [] {
      assert u[0].key != k;
      assert FirstIndex(u, k) == 1 + FirstIndex(u[1..], k);
      GetUpdateAbsent(Put(d, u[0].key, u[0].val), u[1..], k);
      GetPut(d, u[0].key, u[0].val, k);
    }
  }

  /** After `d.update(u)` a key of `u` holds `u`'s value and every other key keeps `d`'s. */
  lemma {:induction false} GetUpdate(d: Dict, u: Dict, k: string)
    requires Distinct(u)
    ensures Get(Update(d, u), k) == if HasKey(u, k) then Get(u, k) else Get(d, k)
    decreases |u|
  {
    if !HasKey(u, k) {
      GetUpdateAbsent(d, u, k);
    } else {
      var d' := Put(d, u[0].key, u[0].val);
      DistinctTail(u);
      GetPut(d, u[0].key, u[0].val, k);
      if k == u[0].key {
        GetUpdateAbsent(d', u[1..], k);
      } else {
        assert FirstIndex(u, k) == 1 + FirstIndex(u[1..], k);
        GetUpdate(d', u[1..], k);
      }
    }
  }

  /** The key-to-value mapping of a dictionary, as `json.dumps(sort_keys=True)`
      sees it: insertion order is forgotten; the first occurrence of a key wins. */
  function AsMap(d: Dict): (m: map<string, Value>)
    ensures forall k :: k in m <==> HasKey(d, k)
    decreases |d|
  {
    if d == [] then map[]
    else
      var m := AsMap(d[1..])[d[0].key := d[0].val];
      assert forall k :: k != d[0].key ==> FirstIndex(d, k) == 1 + FirstIndex(d[1..], k);
      m
  }

  /** Each key of the mapping holds the value `Get` finds. */
  lemma {:induction false} AsMapGet(d: Dict, k: string)
    requires HasKey(d, k)
    ensures Get(d, k) == Some(AsMap(d)[k])
    decreases |d|
  {
    if d[0].key != k {
      assert FirstIndex(d, k) == 1 + FirstIndex(d[1..], k);
      AsMapGet(d[1..], k);
    }
  }

  /** Dictionaries that agree on every key have the same mapping. */
  lemma SameGetSameMap(d: Dict, e: Dict)
    requires forall k :: Get(d, k) == Get(e, k)
    ensures AsMap(d) == AsMap(e)
  {
    var md, me := AsMap(d), AsMap(e);
    assert md.Keys == me.Keys by {
      forall k ensures k in md <==> k in me {
        assert Get(d, k) == Get(e, k);
      }
    }
    forall k | k in md ensures md[k] == me[k] {
      assert Get(d, k) == Get(e, k);
      AsMapGet(d, k);
      AsMapGet(e, k);
    }
  }

  /** The dictionary without the entries whose key is in `ks`, order kept. */
  function Without(d: Dict, ks: set<string>): (r: Dict)
    ensures |r| <= |d|
    ensures (forall i :: 0 <= i < |d| ==> d[i].key !in ks) ==> r == d
    decreases |d|
  {
    if d == [] then []
    else if d[0].key in ks then Without(d[1..], ks)
    else [d[0]] + Without(d[1..], ks)
  }

  /** Removing other keys leaves every remaining key's value as it was. */
  lemma {:induction false} GetWithout(d: Dict, ks: set<string>, k: string)
    requires k !in ks
    ensures Get(Without(d, ks), k) == Get(d, k)
    decreases |d|
  {
    if d != [] {
      GetWithout(d[1..], ks, k);
      if d[0].key != k {
        assert FirstIndex(d, k) == 1 + FirstIndex(d[1..], k);
        var w := Without(d[1..], ks);
        if d[0].key !in ks {
          assert FirstIndex([d[0]] + w, k) == 1 + FirstIndex(w, k) by {
            assert ([d[0]] + w)[1..] == w;
          }
        }
      }
    }
  }

  /** Removed keys are gone. */
  lemma {:induction false} WithoutRemoves(d: Dict, ks: set<string>, k: string)
    requires k in ks
    ensures !HasKey(Without(d, ks), k)
    decreases |d|
  {
    if d != [] {
      WithoutRemoves(d[1..], ks, k);
      var w := Without(d[1..], ks);
      if d[0].key !in ks {
        assert FirstIndex([d[0]] + w, k) == 1 + FirstIndex(w, k) by {
          assert ([d[0]] + w)[1..] == w;
        }
      }
    }
  }

  /** Filtering distributes over concatenation. */
  lemma {:induction false} WithoutAppend(a: Dict, b: Dict, ks: set<string>)
    ensures Without(a + b, ks) == Without(a, ks) + Without(b, ks)
    decreases |a|
  {
    if a != [] {
      assert (a + b)[0] == a[0];
      assert (a + b)[1..] == a[1..] + b;
      WithoutAppend(a[1..], b, ks);
    } else {
      assert a + b == b;
    }
  }

  /** Dictionaries with the same mapping agree on every key. */
  lemma SameMapSameGet(d: Dict, e: Dict, k: string)
    requires AsMap(d) == AsMap(e)
    ensures Get(d, k) == Get(e, k)
  {
    if HasKey(d, k) {
      AsMapGet(d, k);
      AsMapGet(e, k);
    }
  }

  /** `k in d.update(u)` exactly when `k` is in `d` or in `u`. */
  lemma {:induction false} HasKeyUpdate(d: Dict, u: Dict, k: string)
    ensures HasKey(Update(d, u), k) <==> HasKey(d, k) || HasKey(u, k)
    decreases |u|
  {
    if u != [] {
      var d' := Put(d, u[0].key, u[0].val);
      HasKeyUpdate(d', u[1..], k);
      GetPut(d, u[0].key, u[0].val, k);
      if k != u[0].key {
        assert FirstIndex(u, k) == 1 + FirstIndex(u[1..], k);
      }
    }
  }

  /** The entry at position `i` of a dictionary without repeated keys is the one `Get` finds. */
  lemma GetAt(d: Dict, i: nat)
    requires i < |d| && Distinct(d)
    ensures Get(d, d[i].key) == Some(d[i].val)
  {
    FirstIndexIs(d, d[i].key, i);
  }

  /** A key no entry carries is absent. */
  lemma NotHasKey(d: Dict, k: string)
    requires forall i :: 0 <= i < |d| ==> d[i].key != k
    ensures Get(d, k) == None
  {
    FirstIndexIs(d, k, |d|);
  }

  /** `d` holds exactly the keys `ks`, in this order. */
  predicate KeysAre(d: Dict, ks: seq<string>)
  {
    |d| == |ks| && forall i :: 0 <= i < |d| ==> d[i].key == ks[i]
  }

  /** No string occurs twice. */
  predicate Unique(ks: seq<string>)
  {
    forall i, j :: 0 <= i < j < |ks| ==> ks[i] != ks[j]
  }

  /** A dictionary keyed by a list without repeats has no repeated key, and lacks
      every key of a list of others that share no element with it. */
  lemma KeysDistinct(d: Dict, ks: seq<string>, others: seq<string>)
    requires KeysAre(d, ks) && Unique(ks + others)
    ensures Distinct(d)
    ensures forall m :: 0 <= m < |others| ==> !HasKey(d, others[m])
  {
    var all := ks + others;
    forall i, j | 0 <= i < j < |d| ensures d[i].key != d[j].key {
      assert d[i].key == all[i] && d[j].key == all[j];
    }
    forall m | 0 <= m < |others| ensures !HasKey(d, others[m]) {
      forall i | 0 <= i < |d| ensures d[i].key != others[m] {
        assert d[i].key == all[i] && others[m] == all[|ks| + m];
      }
      NotHasKey(d, others[m]);
    }
  }

  /** `d.get(k, {})` yields a dictionary (it is absent or holds one). */
  predicate BlockReady(d: Dict, k: string)
  {
    GetOr(d, k, Obj([])).Obj?
  }

  /** `d.get(k, {})`, for a block that is absent or a dictionary. */
  function Block(d: Dict, k: string): (b: Dict)
    requires BlockReady(d, k)
    ensures HasKey(d, k) ==> Get(d, k) == Some(Obj(b))
    ensures !HasKey(d, k) ==> b == []
  {
    GetOr(d, k, Obj([])).entries
  }

  // ---------------------------------------------------------------------
  // Scalars
  // ---------------------------------------------------------------------

  /** A `str | None` argument as a field value. */
  function OptStr(o: Option<string>): (v: Value)
    ensures v.Null? <==> o.None?
    ensures o.Some? ==> v == Str(o.value)
  {
    if o.Some? then Str(o.value) else Null
  }

  /** Values Python compares and formats as numbers (`bool` is a kind of `int`). */
  predicate Numeric(v: Value)
  {
    v.Num? || v.Bool?
  }

  /** The number a numeric value stands for. */
  function AsReal(v: Value): real
    requires Numeric(v)
  {
    if v.Num? then v.x else if v.b then 1.0 else 0.0
  }

  /** The integer nearest to `y`, ties going to the even one (Python's `round`). */
  function RoundUnits(y: real): (m: int)
    ensures y - 0.5 <= m as real <= y + 0.5
  {
    var n := y.Floor;
    var f := y - n as real;
    if f > 0.5 || (f == 0.5 && n % 2 != 0) then n + 1 else n
  }

  /** `round(x, d)` on an exact real, where `scale` is `10 ** d`. */
  function Round(x: real, scale: nat): real
    requires scale > 0
  {
    RoundUnits(x * scale as real) as real / scale as real
  }

  /** Rounding lands above an even unit count exactly when the value lies more
      than half a unit above it (a tie goes down, to the even count). */
  lemma RoundUnitsAbove(y: real, c: int)
    requires c % 2 == 0
    ensures RoundUnits(y) > c <==> y > c as real + 0.5
  {
    var n := y.Floor;
    if n == c {
      assert RoundUnits(y) > c <==> y - n as real > 0.5;
    }
  }

  // ---------------------------------------------------------------------
  // Sequences
  // ---------------------------------------------------------------------

  /** Appending in two steps is appending once. */
  lemma AppendAssoc<T>(a: seq<T>, b: seq<T>, c: seq<T>)
    ensures (a + b) + c == a + (b + c)
  {
  }
}
