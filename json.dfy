/**
 * JSON values as Python's `json` module sees them: objects are dicts, which
 * keep their keys in insertion order. The module gives dict lookup,
 * assignment and `update`, truthiness, `json.dumps` with the default
 * separators and `ensure_ascii=False`, and the `sort_keys=True` variant used
 * for hashing, together with the proof that the latter does not depend on the
 * order in which keys were inserted, at any nesting level.
 */
module Json {
  import opened Wrappers
  import Bytes

  datatype Json =
    | Null
    | Bool(b: bool)
    | Int(i: int)
    | Str(s: string)
    | Arr(items: seq<Json>)
    | Obj(fields: seq<Field>)

  datatype Field = Field(key: string, value: Json)

  /**
   * What `json.loads` makes of the text a tool returns: a JSON value, a
   * string that is not JSON (`JSONDecodeError`), or a result that is not a
   * string at all (kept as its `str()` form).
   */
  datatype ToolOutput =
    | JsonText(value: Json)
    | NotJson(text: string)
    | NotText(repr: string)

  // ------------------------------------------------------------ dict view

  function KeySet(fs: seq<Field>): set<string> {
    if fs == [] then {} else {fs[0].key} + KeySet(fs[1..])
  }

  /** Every key occurs once, as in a Python dict. */
  predicate DistinctKeys(fs: seq<Field>) {
    fs == [] || (fs[0].key !in KeySet(fs[1..]) && DistinctKeys(fs[1..]))
  }

  /** `d.get(k)` on a dict: the value of the (first) field with key `k`. */
  function Lookup(fs: seq<Field>, k: string): (r: Option<Json>)
    ensures r.Some? <==> k in KeySet(fs)
  {
    if fs == [] then None
    else if fs[0].key == k then Some(fs[0].value)
    else Lookup(fs[1..], k)
  }

  /** `j.get(k)` when `j` is a dict, None otherwise. */
  function Get(j: Json, k: string): Option<Json> {
    if j.Obj? then Lookup(j.fields, k) else None
  }

  /** `d.get(k)` as JSON: a missing key reads as `null`. */
  function GetOrNull(j: Json, k: string): Json {
    Get(j, k).GetOr(Null)
  }

  /** The keys of a dict are the keys at its positions. */
  lemma {:induction false} KeySetByIndex(fs: seq<Field>)
    ensures forall k :: k in KeySet(fs) <==> exists i :: 0 <= i < |fs| && fs[i].key == k
  {
    if fs != [] {
      KeySetByIndex(fs[1..]);
      forall k | k in KeySet(fs) ensures exists i :: 0 <= i < |fs| && fs[i].key == k {
        if k != fs[0].key {
          assert k in KeySet(fs[1..]);
          var i :| 0 <= i < |fs[1..]| && fs[1..][i].key == k;
          assert fs[i + 1].key == k;
        }
      }
      forall k | exists i :: 0 <= i < |fs| && fs[i].key == k ensures k in KeySet(fs) {
        var i :| 0 <= i < |fs| && fs[i].key == k;
        if i > 0 {
          assert fs[1..][i - 1].key == k;
        }
      }
    }
  }

  /** Keys that differ pairwise are distinct keys. */
  lemma {:induction false} DistinctByIndex(fs: seq<Field>)
    requires forall i, j :: 0 <= i < j < |fs| ==> fs[i].key != fs[j].key
    ensures DistinctKeys(fs)
  {
    if fs != [] {
      KeySetByIndex(fs[1..]);
      assert forall j :: 0 <= j < |fs[1..]| ==> fs[1..][j] == fs[j + 1];
      DistinctByIndex(fs[1..]);
    }
  }

  /** Lookup finds the first position holding the key. */
  lemma {:induction false} LookupByIndex(fs: seq<Field>, i: nat)
    requires i < |fs|
    requires forall j :: 0 <= j < i ==> fs[j].key != fs[i].key
    ensures Lookup(fs, fs[i].key) == Some(fs[i].value)
  {
    if i > 0 {
      assert forall j :: 0 <= j < i - 1 ==> fs[1..][j] == fs[j + 1];
      LookupByIndex(fs[1..], i - 1);
    }
  }

  /** A dict literal with pairwise different keys: each key finds its own value. */
  lemma DistinctLookup(fs: seq<Field>)
    requires forall i, j :: 0 <= i < j < |fs| ==> fs[i].key != fs[j].key
    ensures DistinctKeys(fs)
    ensures forall i :: 0 <= i < |fs| ==> Lookup(fs, fs[i].key) == Some(fs[i].value)
  {
    DistinctByIndex(fs);
    forall i | 0 <= i < |fs| ensures Lookup(fs, fs[i].key) == Some(fs[i].value) {
      LookupByIndex(fs, i);
    }
  }

  /** Lookup of a key held at no position finds nothing. */
  lemma LookupMissing(fs: seq<Field>, k: string)
    requires forall i :: 0 <= i < |fs| ==> fs[i].key != k
    ensures Lookup(fs, k) == None
  {
    KeySetByIndex(fs);
  }

  /** A key that differs from every key in length or in its first letter is missing. */
  lemma LookupUnlike(fs: seq<Field>, k: string)
    requires k != []
    requires forall i :: 0 <= i < |fs| ==> |fs[i].key| != |k| || fs[i].key[0] != k[0]
    ensures Lookup(fs, k) == None
  {
    LookupMissing(fs, k);
  }

  /** A dict literal `{keys[0]: values[0], ...}`. */
  function Dict(keys: seq<string>, values: seq<Json>): (r: Json)
    requires |keys| == |values|
    ensures r.Obj? && |r.fields| == |keys|
    ensures forall i :: 0 <= i < |keys| ==> r.fields[i] == Field(keys[i], values[i])
  {
    Obj(seq(|keys|, i requires 0 <= i < |keys| => Field(keys[i], values[i])))
  }

  /** `d[k] = v`: an existing key keeps its position and takes the new value; a new key goes last. */
  function Put(fs: seq<Field>, k: string, v: Json): (r: seq<Field>)
    ensures KeySet(r) == KeySet(fs) + {k}
    ensures Lookup(r, k) == Some(v)
    ensures forall k' :: k' != k ==> Lookup(r, k') == Lookup(fs, k')
    ensures DistinctKeys(fs) ==> DistinctKeys(r)
    ensures |r| == if k in KeySet(fs) then |fs| else |fs| + 1
  {
    if fs == [] then [Field(k, v)]
    else if fs[0].key == k then [Field(k, v)] + fs[1..]
    else [fs[0]] + Put(fs[1..], k, v)
  }

  /** `d.update(src)`: the fields of `src` assigned one after the other. */
  function Update(fs: seq<Field>, src: seq<Field>): seq<Field>
    decreases |src|
  {
    if src == [] then fs else Update(Put(fs, src[0].key, src[0].value), src[1..])
  }

  lemma {:induction false} KeySetAppend(a: seq<Field>, b: seq<Field>)
    ensures KeySet(a + b) == KeySet(a) + KeySet(b)
  {
    if a == [] {
      assert a + b == b;
    } else {
      assert (a + b)[1..] == a[1..] + b;
      KeySetAppend(a[1..], b);
    }
  }

  lemma {:induction false} DistinctAppendOne(a: seq<Field>, f: Field)
    requires DistinctKeys(a) && f.key !in KeySet(a)
    ensures DistinctKeys(a + [f])
  {
    if a != [] {
      assert (a + [f])[1..] == a[1..] + [f];
      KeySetAppend(a[1..], [f]);
      DistinctAppendOne(a[1..], f);
    }
  }

  /** Assigning a key that is not yet present appends it. */
  lemma {:induction false} PutNewKey(fs: seq<Field>, k: string, v: Json)
    requires k !in KeySet(fs)
    ensures Put(fs, k, v) == fs + [Field(k, v)]
  {
    if fs != [] {
      PutNewKey(fs[1..], k, v);
      assert fs == [fs[0]] + fs[1..];
    }
  }

  /** `d.update(src)` on a dict whose keys are all new appends `src` as it is. */
  lemma {:induction false} UpdateAppends(fs: seq<Field>, src: seq<Field>)
    requires DistinctKeys(fs + src)
    ensures Update(fs, src) == fs + src
    decreases |src|
  {
    if src != [] {
      KeySetAppend(fs, src);
      DistinctSplit(fs, src);
      assert src[0].key !in KeySet(fs);
      PutNewKey(fs, src[0].key, src[0].value);
      assert fs + src == (fs + [src[0]]) + src[1..];
      UpdateAppends(fs + [src[0]], src[1..]);
    }
  }

  /** A copy made by `{}.update(m)` is `m` itself. */
  lemma UpdateOfEmpty(src: seq<Field>)
    requires DistinctKeys(src)
    ensures Update([], src) == src
  {
    assert [] + src == src;
    UpdateAppends([], src);
  }

  /** `d.update(src)` ends with the keys of both, and a dict stays a dict. */
  lemma {:induction false} UpdateKeys(fs: seq<Field>, src: seq<Field>)
    ensures KeySet(Update(fs, src)) == KeySet(fs) + KeySet(src)
    ensures DistinctKeys(fs) ==> DistinctKeys(Update(fs, src))
    decreases |src|
  {
    if src != [] {
      UpdateKeys(Put(fs, src[0].key, src[0].value), src[1..]);
    }
  }

  lemma {:induction false} DistinctSplit(a: seq<Field>, b: seq<Field>)
    requires DistinctKeys(a + b)
    ensures DistinctKeys(a) && DistinctKeys(b) && KeySet(a) !! KeySet(b)
  {
    if a == [] {
      assert a + b == b;
    } else {
      assert (a + b)[1..] == a[1..] + b;
      KeySetAppend(a[1..], b);
      DistinctSplit(a[1..], b);
    }
  }

  // ------------------------------------------------------------ truthiness

  /** Python's `bool(x)` for a JSON value. */
  predicate Truthy(j: Json) {
    match j
    case Null => false
    case Bool(b) => b
    case Int(i) => i != 0
    case Str(s) => s != ""
    case Arr(xs) => xs != []
    case Obj(fs) => fs != []
  }

  /** The Python type name that `type(x).__name__` gives for a loaded JSON value. */
  function TypeName(j: Json): string {
    match j
    case Null => "NoneType"
    case Bool(_) => "bool"
    case Int(_) => "int"
    case Str(_) => "str"
    case Arr(_) => "list"
    case Obj(_) => "dict"
  }

  // ------------------------------------------------------------ json.dumps

  function DigitChar(d: nat): char
    requires d < 10
  {
    "0123456789"[d]
  }

  function NatText(n: nat): string
    decreases n
  {
    if n < 10 then [DigitChar(n)] else NatText(n / 10) + [DigitChar(n % 10)]
  }

  function IntText(i: int): string {
    if i < 0 then "-" + NatText(-i) else NatText(i)
  }

  /** The escape `json.dumps` writes for one character when `ensure_ascii=False`. */
  function EscapeChar(c: char): string {
    if c == '"' then "\\\""
    else if c == '\\' then "\\\\"
    else if c == '\n' then "\\n"
    else if c == '\r' then "\\r"
    else if c == '\t' then "\\t"
    else if c as int == 0x08 then "\\b"
    else if c as int == 0x0C then "\\f"
    else if c as int < 0x20 then "\\u00" + [Bytes.HexDigit(c as int / 16), Bytes.HexDigit(c as int % 16)]
    else [c]
  }

  function EscapeText(s: string): string {
    if s == [] then "" else EscapeChar(s[0]) + EscapeText(s[1..])
  }

  /** A JSON string literal. */
  function Quote(s: string): string {
    "\"" + EscapeText(s) + "\""
  }

  /** `json.dumps(j, ensure_ascii=False)`: keys in insertion order, separators `", "` and `": "`. */
  function Dumps(j: Json): string
    decreases j
  {
    match j
    case Null => "null"
    case Bool(b) => if b then "true" else "false"
    case Int(i) => IntText(i)
    case Str(s) => Quote(s)
    case Arr(xs) => "[" + DumpsItems(xs) + "]"
    case Obj(fs) => "{" + DumpsMembers(fs) + "}"
  }

  function DumpsItems(xs: seq<Json>): string
    decreases xs
  {
    if xs == [] then ""
    else if |xs| == 1 then Dumps(xs[0])
    else Dumps(xs[0]) + ", " + DumpsItems(xs[1..])
  }

  function DumpsMembers(fs: seq<Field>): string
    decreases fs
  {
    if fs == [] then ""
    else
      var member := Quote(fs[0].key) + ": " + Dumps(fs[0].value);
      if |fs| == 1 then member else member + ", " + DumpsMembers(fs[1..])
  }

  // ------------------------------------------------------------ sort_keys

  /** Python's `a < b` on `str`: lexicographic by code point, a proper prefix first. */
  predicate LexLess(a: string, b: string) {
    if a == [] then b != []
    else if b == [] then false
    else if a[0] != b[0] then a[0] < b[0]
    else LexLess(a[1..], b[1..])
  }

  lemma {:induction false} LexIrreflexive(a: string)
    ensures !LexLess(a, a)
  {
    if a != [] {
      LexIrreflexive(a[1..]);
    }
  }

  lemma {:induction false} LexAsymmetric(a: string, b: string)
    requires LexLess(a, b)
    ensures !LexLess(b, a)
  {
    if a != [] && b != [] && a[0] == b[0] {
      LexAsymmetric(a[1..], b[1..]);
    }
  }

  lemma {:induction false} LexTransitive(a: string, b: string, c: string)
    requires LexLess(a, b) && LexLess(b, c)
    ensures LexLess(a, c)
  {
    if a != [] && a[0] == b[0] && b[0] == c[0] {
      LexTransitive(a[1..], b[1..], c[1..]);
    }
  }

  lemma {:induction false} LexTotal(a: string, b: string)
    requires a != b
    ensures LexLess(a, b) || LexLess(b, a)
  {
    if a != [] && b != [] && a[0] == b[0] {
      assert a == [a[0]] + a[1..] && b == [b[0]] + b[1..];
      LexTotal(a[1..], b[1..]);
    }
  }

  /** Every key in `ks` sorts after `k`. */
  predicate Below(k: string, ks: set<string>) {
    forall k' :: k' in ks ==> LexLess(k, k')
  }

  /** Keys strictly ascending: each key sorts before every later one. */
  predicate StrictlySorted(fs: seq<Field>) {
    fs == [] || (Below(fs[0].key, KeySet(fs[1..])) && StrictlySorted(fs[1..]))
  }

  function Insert(x: Field, fs: seq<Field>): seq<Field> {
    if fs == [] then [x]
    else if LexLess(fs[0].key, x.key) then [fs[0]] + Insert(x, fs[1..])
    else [x] + fs
  }

  /** `sorted(d.items())`: the fields of a dict in ascending key order. */
  function SortFields(fs: seq<Field>): seq<Field> {
    if fs == [] then [] else Insert(fs[0], SortFields(fs[1..]))
  }

  lemma {:induction false} InsertKeys(x: Field, fs: seq<Field>)
    ensures KeySet(Insert(x, fs)) == KeySet(fs) + {x.key}
  {
    if fs != [] && LexLess(fs[0].key, x.key) {
      InsertKeys(x, fs[1..]);
    }
  }

  lemma {:induction false} InsertLookup(x: Field, fs: seq<Field>, k: string)
    requires x.key !in KeySet(fs)
    ensures Lookup(Insert(x, fs), k) == if k == x.key then Some(x.value) else Lookup(fs, k)
  {
    if fs != [] && LexLess(fs[0].key, x.key) {
      InsertLookup(x, fs[1..], k);
    }
  }

  lemma {:induction false} InsertSorted(x: Field, fs: seq<Field>)
    requires StrictlySorted(fs) && x.key !in KeySet(fs)
    ensures StrictlySorted(Insert(x, fs))
  {
    if fs == [] {
    } else if LexLess(fs[0].key, x.key) {
      InsertSorted(x, fs[1..]);
      InsertKeys(x, fs[1..]);
    } else {
      LexTotal(x.key, fs[0].key);
      forall k | k in KeySet(fs) ensures LexLess(x.key, k) {
        if k != fs[0].key {
          LexTransitive(x.key, fs[0].key, k);
        }
      }
    }
  }

  lemma {:induction false} SortedDistinct(fs: seq<Field>)
    requires StrictlySorted(fs)
    ensures DistinctKeys(fs)
  {
    if fs != [] {
      LexIrreflexive(fs[0].key);
      SortedDistinct(fs[1..]);
    }
  }

  /** Sorting keeps a dict's keys and the value under each key, and puts the keys in ascending order. */
  lemma {:induction false} SortFieldsCorrect(fs: seq<Field>)
    requires DistinctKeys(fs)
    ensures KeySet(SortFields(fs)) == KeySet(fs)
    ensures StrictlySorted(SortFields(fs)) && DistinctKeys(SortFields(fs))
    ensures forall k :: Lookup(SortFields(fs), k) == Lookup(fs, k)
  {
    if fs != [] {
      var rest := SortFields(fs[1..]);
      SortFieldsCorrect(fs[1..]);
      InsertKeys(fs[0], rest);
      InsertSorted(fs[0], rest);
      forall k ensures Lookup(SortFields(fs), k) == Lookup(fs, k) {
        InsertLookup(fs[0], rest, k);
      }
      SortedDistinct(SortFields(fs));
    }
  }

  /** Two key-sorted dicts with the same keys and the same value under each key are the same sequence. */
  lemma {:induction false} SortedUnique(p: seq<Field>, q: seq<Field>)
    requires StrictlySorted(p) && StrictlySorted(q)
    requires KeySet(p) == KeySet(q)
    requires forall k :: k in KeySet(p) ==> Lookup(p, k) == Lookup(q, k)
    ensures p == q
  {
    if p == [] {
    } else {
      assert q != [] by {
        assert p[0].key in KeySet(p);
      }
      var k0 := p[0].key;
      if q[0].key != k0 {
        assert k0 in KeySet(q[1..]);
        assert q[0].key in KeySet(p[1..]);
        LexAsymmetric(k0, q[0].key);
        assert false;
      }
      assert Lookup(p, k0) == Some(p[0].value) && Lookup(q, k0) == Some(q[0].value);
      LexIrreflexive(k0);
      assert k0 !in KeySet(p[1..]) && k0 !in KeySet(q[1..]);
      assert KeySet(p[1..]) == KeySet(p) - {k0};
      assert KeySet(q[1..]) == KeySet(q) - {k0};
      forall k | k in KeySet(p[1..]) ensures Lookup(p[1..], k) == Lookup(q[1..], k) {
        assert Lookup(p, k) == Lookup(p[1..], k) && Lookup(q, k) == Lookup(q[1..], k);
      }
      SortedUnique(p[1..], q[1..]);
      assert p == [p[0]] + p[1..] && q == [q[0]] + q[1..];
    }
  }

  /** `sorted(d.items())` depends only on the dict's contents, not on insertion order. */
  lemma SortFieldsUnique(p: seq<Field>, q: seq<Field>)
    requires DistinctKeys(p) && DistinctKeys(q)
    requires KeySet(p) == KeySet(q)
    requires forall k :: k in KeySet(p) ==> Lookup(p, k) == Lookup(q, k)
    ensures SortFields(p) == SortFields(q)
  {
    SortFieldsCorrect(p);
    SortFieldsCorrect(q);
    SortedUnique(SortFields(p), SortFields(q));
  }

  /** The value with the keys of every dict in it sorted, as `sort_keys=True` visits them. */
  function Normalize(j: Json): Json
    decreases j
  {
    match j
    case Arr(xs) => Arr(NormalizeItems(xs))
    case Obj(fs) => Obj(SortFields(NormalizeFields(fs)))
    case _ => j
  }

  function NormalizeItems(xs: seq<Json>): (r: seq<Json>)
    decreases xs
    ensures |r| == |xs|
  {
    if xs == [] then [] else [Normalize(xs[0])] + NormalizeItems(xs[1..])
  }

  function NormalizeFields(fs: seq<Field>): (r: seq<Field>)
    decreases fs
    ensures |r| == |fs|
  {
    if fs == [] then [] else [Field(fs[0].key, Normalize(fs[0].value))] + NormalizeFields(fs[1..])
  }

  /** `json.dumps(j, sort_keys=True, ensure_ascii=False)`: the text that is hashed. */
  function Canonical(j: Json): string {
    Dumps(Normalize(j))
  }

  lemma {:induction false} NormalizeFieldsKeys(fs: seq<Field>)
    ensures KeySet(NormalizeFields(fs)) == KeySet(fs)
    ensures DistinctKeys(fs) ==> DistinctKeys(NormalizeFields(fs))
  {
    if fs != [] {
      NormalizeFieldsKeys(fs[1..]);
    }
  }

  lemma {:induction false} NormalizeFieldsView(fs: seq<Field>, k: string)
    ensures Lookup(NormalizeFields(fs), k) ==
              if k in KeySet(fs) then Some(Normalize(Lookup(fs, k).value)) else None
  {
    if fs != [] {
      NormalizeFieldsView(fs[1..], k);
    }
  }

  // ------------------------------------------------------------ key order

  /**
   * Equality up to key order: dicts (with distinct keys) that have the same keys holding values equal up to key
   * order, lists equal item by item, other values exactly equal.
   */
  predicate SameUpToKeyOrder(a: Json, b: Json)
    decreases a
  {
    match a
    case Arr(xs) => b.Arr? && SameItems(xs, b.items)
    case Obj(fs) =>
      && b.Obj? && DistinctKeys(fs) && DistinctKeys(b.fields)
      && KeySet(fs) == KeySet(b.fields) && SameFields(fs, b.fields)
    case _ => a == b
  }

  predicate SameItems(xs: seq<Json>, ys: seq<Json>)
    decreases xs
  {
    |xs| == |ys| && (xs == [] || (SameUpToKeyOrder(xs[0], ys[0]) && SameItems(xs[1..], ys[1..])))
  }

  /** Every field of `fs` has a counterpart in `gs` under the same key. */
  predicate SameFields(fs: seq<Field>, gs: seq<Field>)
    decreases fs
  {
    fs == [] || (
      && fs[0].key in KeySet(gs)
      && SameUpToKeyOrder(fs[0].value, Lookup(gs, fs[0].key).value)
      && SameFields(fs[1..], gs))
  }

  /** Values equal up to key insertion order normalise to the very same value. */
  lemma {:induction false} NormalizeRespects(a: Json, b: Json)
    requires SameUpToKeyOrder(a, b)
    ensures Normalize(a) == Normalize(b)
    decreases a
  {
    match a
    case Arr(xs) =>
      NormalizeItemsRespect(xs, b.items);
    case Obj(fs) =>
      var gs := b.fields;
      NormalizeFieldsRespect(fs, gs);
      NormalizeFieldsKeys(fs);
      NormalizeFieldsKeys(gs);
      var nf, ng := NormalizeFields(fs), NormalizeFields(gs);
      forall k | k in KeySet(nf) ensures Lookup(nf, k) == Lookup(ng, k) {
        NormalizeFieldsView(fs, k);
        NormalizeFieldsView(gs, k);
      }
      SortFieldsUnique(nf, ng);
    case _ =>
  }

  lemma {:induction false} NormalizeItemsRespect(xs: seq<Json>, ys: seq<Json>)
    requires SameItems(xs, ys)
    ensures NormalizeItems(xs) == NormalizeItems(ys)
    decreases xs
  {
    if xs != [] {
      NormalizeRespects(xs[0], ys[0]);
      NormalizeItemsRespect(xs[1..], ys[1..]);
    }
  }

  /** Under each key of `fs`, the normalised values of `fs` and `gs` coincide. */
  lemma {:induction false} NormalizeFieldsRespect(fs: seq<Field>, gs: seq<Field>)
    requires SameFields(fs, gs)
    ensures forall k :: k in KeySet(fs) ==>
              k in KeySet(gs) && Normalize(Lookup(fs, k).value) == Normalize(Lookup(gs, k).value)
    decreases fs
  {
    if fs != [] {
      NormalizeRespects(fs[0].value, Lookup(gs, fs[0].key).value);
      NormalizeFieldsRespect(fs[1..], gs);
    }
  }

  /**
   * The hashed text is independent of key insertion order: two values that
   * are equal up to key order serialise to the same `sort_keys=True` text.
   */
  lemma CanonicalIgnoresKeyOrder(a: Json, b: Json)
    requires SameUpToKeyOrder(a, b)
    ensures Canonical(a) == Canonical(b)
  {
    NormalizeRespects(a, b);
  }

  // ------------------------------------------------------------ sortedness

  /** Every dict in the value has distinct keys (true of anything Python builds). */
  predicate WellFormed(j: Json)
    decreases j
  {
    match j
    case Arr(xs) => WellFormedItems(xs)
    case Obj(fs) => DistinctKeys(fs) && WellFormedFields(fs)
    case _ => true
  }

  predicate WellFormedItems(xs: seq<Json>)
    decreases xs
  {
    xs == [] || (WellFormed(xs[0]) && WellFormedItems(xs[1..]))
  }

  predicate WellFormedFields(fs: seq<Field>)
    decreases fs
  {
    fs == [] || (WellFormed(fs[0].value) && WellFormedFields(fs[1..]))
  }

  /** Every dict in the value lists its keys in ascending order. */
  predicate SortedEverywhere(j: Json)
    decreases j
  {
    match j
    case Arr(xs) => SortedItems(xs)
    case Obj(fs) => StrictlySorted(fs) && SortedFieldValues(fs)
    case _ => true
  }

  predicate SortedItems(xs: seq<Json>)
    decreases xs
  {
    xs == [] || (SortedEverywhere(xs[0]) && SortedItems(xs[1..]))
  }

  predicate SortedFieldValues(fs: seq<Field>)
    decreases fs
  {
    fs == [] || (SortedEverywhere(fs[0].value) && SortedFieldValues(fs[1..]))
  }

  lemma {:induction false} SortedFieldValuesByKey(fs: seq<Field>)
    requires forall k :: k in KeySet(fs) ==> SortedEverywhere(Lookup(fs, k).value)
    requires DistinctKeys(fs)
    ensures SortedFieldValues(fs)
  {
    if fs != [] {
      assert Lookup(fs, fs[0].key) == Some(fs[0].value);
      forall k | k in KeySet(fs[1..]) ensures SortedEverywhere(Lookup(fs[1..], k).value) {
        assert k != fs[0].key;
      }
      SortedFieldValuesByKey(fs[1..]);
    }
  }

  /** After sort-keys normalisation every dict, at every depth, has ascending keys. */
  lemma {:induction false} NormalizeSorts(j: Json)
    requires WellFormed(j)
    ensures SortedEverywhere(Normalize(j))
    decreases j
  {
    match j
    case Arr(xs) =>
      NormalizeItemsSort(xs);
    case Obj(fs) =>
      var nf := NormalizeFields(fs);
      NormalizeFieldsSort(fs);
      NormalizeFieldsKeys(fs);
      SortFieldsCorrect(nf);
      var sf := SortFields(nf);
      forall k | k in KeySet(sf) ensures SortedEverywhere(Lookup(sf, k).value) {
        NormalizeFieldsView(fs, k);
      }
      SortedFieldValuesByKey(sf);
    case _ =>
  }

  lemma {:induction false} NormalizeItemsSort(xs: seq<Json>)
    requires WellFormedItems(xs)
    ensures SortedItems(NormalizeItems(xs))
    decreases xs
  {
    if xs != [] {
      NormalizeSorts(xs[0]);
      NormalizeItemsSort(xs[1..]);
    }
  }

  lemma {:induction false} NormalizeFieldsSort(fs: seq<Field>)
    requires WellFormedFields(fs)
    ensures forall k :: k in KeySet(fs) ==> SortedEverywhere(Normalize(Lookup(fs, k).value))
    decreases fs
  {
    if fs != [] {
      NormalizeSorts(fs[0].value);
      NormalizeFieldsSort(fs[1..]);
    }
  }

  /** Normalisation only reorders keys: the result equals the input up to key order. */
  lemma {:induction false} NormalizeKeepsContent(j: Json)
    requires WellFormed(j)
    ensures SameUpToKeyOrder(j, Normalize(j))
    decreases j
  {
    match j
    case Arr(xs) =>
      NormalizeItemsKeep(xs);
    case Obj(fs) =>
      var nf := NormalizeFields(fs);
      NormalizeFieldsKeys(fs);
      SortFieldsCorrect(nf);
      forall k | k in KeySet(fs) ensures Lookup(SortFields(nf), k) == Some(Normalize(Lookup(fs, k).value)) {
        NormalizeFieldsView(fs, k);
      }
      NormalizeFieldsKeep(fs, SortFields(nf));
    case _ =>
  }

  lemma {:induction false} NormalizeItemsKeep(xs: seq<Json>)
    requires WellFormedItems(xs)
    ensures SameItems(xs, NormalizeItems(xs))
    decreases xs
  {
    if xs != [] {
      NormalizeKeepsContent(xs[0]);
      NormalizeItemsKeep(xs[1..]);
    }
  }

  lemma {:induction false} NormalizeFieldsKeep(fs: seq<Field>, gs: seq<Field>)
    requires WellFormedFields(fs) && DistinctKeys(fs)
    requires forall k :: k in KeySet(fs) ==> Lookup(gs, k) == Some(Normalize(Lookup(fs, k).value))
    ensures SameFields(fs, gs)
    decreases fs
  {
    if fs != [] {
      assert Lookup(fs, fs[0].key) == Some(fs[0].value);
      NormalizeKeepsContent(fs[0].value);
      forall k | k in KeySet(fs[1..]) ensures Lookup(gs, k) == Some(Normalize(Lookup(fs[1..], k).value)) {
        assert k != fs[0].key;
      }
      NormalizeFieldsKeep(fs[1..], gs);
    }
  }
}
