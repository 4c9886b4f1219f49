/**
 * The in-process semantic cache (`MemorySemanticCache`): per namespace, an
 * insertion-ordered dict of cached items; `get` returns the value of the
 * best-scoring item when its score reaches a threshold, `set` stores a value
 * and, past 512 items, drops the 64 oldest in one go.
 *
 * The embedder that `get` and `set` use, Python's `hash`, the clock and
 * `math.sqrt` are parameters: `embed`, `hash`, the clock readings and
 * `sqrt`. `LocalEmbedder` and `cosine` are modelled over them.
 */
module SemanticCache {
  import opened Wrappers
  import Text
  import Sorting

  const Capacity: nat := 512
  const EvictBatch: nat := 64
  const DefaultMinScore: real := 0.92

  datatype CacheItem<V> = CacheItem(key: string, embedding: seq<real>, value: V, ts: real)

  /** What `get` returns on a hit: `{"score": …, "value": …}`. */
  datatype Hit<V> = Hit(score: real, value: V)

  // ---- LocalEmbedder and cosine ----

  /** The bucket of the trigram starting at `i`: `hash(tri) % dims`. */
  function Bucket(t: string, i: nat, dims: nat, hash: string -> int): (b: int)
    requires i + 3 <= |t| && dims > 0
    ensures 0 <= b < dims
  {
    hash(t[i..i + 3]) % dims
  }

  /** How many of the first `n` trigrams of `t` fall into bucket `b`. */
  function TrigramsIn(t: string, n: nat, dims: nat, hash: string -> int, b: int): nat
    requires n + 2 <= |t| && dims > 0
  {
    if n == 0 then 0
    else TrigramsIn(t, n - 1, dims, hash, b) + (if Bucket(t, n - 1, dims, hash) == b then 1 else 0)
  }

  /** Every trigram counts in its own bucket. */
  lemma {:induction false} TrigramCounted(t: string, n: nat, dims: nat, hash: string -> int, m: nat)
    requires n + 2 <= |t| && dims > 0 && m < n
    ensures TrigramsIn(t, n, dims, hash, Bucket(t, m, dims, hash)) >= 1
  {
    if m < n - 1 {
      TrigramCounted(t, n - 1, dims, hash, m);
    }
  }

  predicate AllZero(v: seq<real>) {
    forall i :: 0 <= i < |v| ==> v[i] == 0.0
  }

  /** `sum(x * x for x in v)` */
  function SumSq(v: seq<real>): real {
    if v == [] then 0.0 else SumSq(v[..|v| - 1]) + v[|v| - 1] * v[|v| - 1]
  }

  /** `sum(x * y for x, y in zip(a, b))` for vectors of one length. */
  function Dot(a: seq<real>, b: seq<real>): real
    requires |a| == |b|
  {
    if a == [] then 0.0 else Dot(a[..|a| - 1], b[..|b| - 1]) + a[|a| - 1] * b[|b| - 1]
  }

  /** `math.sqrt(sum(x * x for x in v)) or 1.0`, with `math.sqrt` the parameter `sqrt`. */
  function Norm(v: seq<real>, sqrt: real -> real): (n: real)
    ensures n != 0.0
    ensures sqrt(SumSq(v)) != 0.0 ==> n == sqrt(SumSq(v))
  {
    if sqrt(SumSq(v)) == 0.0 then 1.0 else sqrt(SumSq(v))
  }

  /** `[x / n for x in v]` */
  function Scaled(v: seq<real>, n: real): (r: seq<real>)
    requires n != 0.0
    ensures |r| == |v| && forall i :: 0 <= i < |v| ==> r[i] == v[i] / n
  {
    seq(|v|, i requires 0 <= i < |v| => v[i] / n)
  }

  /** `sqrt` is an exact, non-negative square root at `x`. */
  predicate IsRoot(sqrt: real -> real, x: real) {
    sqrt(x) >= 0.0 && sqrt(x) * sqrt(x) == x
  }

  /** The trigram counts of a lower-cased text of at least three characters. */
  function Counts(t: string, dims: nat, hash: string -> int): (c: seq<real>)
    requires |t| >= 3 && dims > 0
    ensures |c| == dims
    ensures forall b :: 0 <= b < dims ==> c[b] == TrigramsIn(t, |t| - 2, dims, hash, b) as real
  {
    seq(dims, b requires 0 <= b < dims => TrigramsIn(t, |t| - 2, dims, hash, b) as real)
  }

  /**
   * `LocalEmbedder(dims).embed(text)`: the zero vector for a text shorter
   * than three characters, otherwise the trigram counts of the lower-cased
   * text divided by their Euclidean norm.
   */
  function Embedding(text: string, dims: nat, hash: string -> int, sqrt: real -> real): (v: seq<real>)
    requires dims > 0
    ensures |v| == dims
    ensures |text| < 3 ==> AllZero(v)
  {
    var t := Text.Lower(text);
    if |t| < 3 then seq(dims, _ => 0.0)
    else
      var c := Counts(t, dims, hash);
      Scaled(c, Norm(c, sqrt))
  }

  /** `LocalEmbedder.embed`: count the trigrams, sum the squares, divide by the norm. */
  method Embed(text: string, dims: nat, hash: string -> int, sqrt: real -> real) returns (v: seq<real>)
    requires dims > 0
    ensures v == Embedding(text, dims, hash, sqrt)
  {
    var t := Text.Lower(text);
    if |t| < 3 {
      return seq(dims, _ => 0.0);
    }
    var counts := CountTrigrams(t, dims, hash);
    var total := SumSquares(counts);
    var norm := if sqrt(total) == 0.0 then 1.0 else sqrt(total);
    v := seq(dims, b requires 0 <= b < dims => counts[b] / norm);
  }

  /** The counting loop: `vec[hash(tri) % dims] += 1.0` for every trigram. */
  method CountTrigrams(t: string, dims: nat, hash: string -> int) returns (v: seq<real>)
    requires |t| >= 3 && dims > 0
    ensures v == Counts(t, dims, hash)
  {
    v := seq(dims, _ => 0.0);
    var i := 0;
    while i < |t| - 2
      invariant 0 <= i <= |t| - 2 && |v| == dims
      invariant forall b :: 0 <= b < dims ==> v[b] == TrigramsIn(t, i, dims, hash, b) as real
    {
      var h := hash(t[i..i + 3]) % dims;
      v := v[h := v[h] + 1.0];
      i := i + 1;
    }
  }

  /** `sum(v * v for v in vec)` */
  method SumSquares(v: seq<real>) returns (total: real)
    ensures total == SumSq(v)
  {
    total := 0.0;
    var j := 0;
    while j < |v|
      invariant 0 <= j <= |v|
      invariant total == SumSq(v[..j])
    {
      assert v[..j + 1][..j] == v[..j];
      total := total + v[j] * v[j];
      j := j + 1;
    }
    assert v[..j] == v;
  }

  lemma {:induction false} SumSqNonNegative(v: seq<real>)
    ensures SumSq(v) >= 0.0
  {
    if v != [] {
      SumSqNonNegative(v[..|v| - 1]);
      SquareNonNegative(v[|v| - 1]);
    }
  }

  lemma SquareNonNegative(x: real)
    ensures x * x >= 0.0
  {
    if x < 0.0 {
      assert x * x == (-x) * (-x);
    }
  }

  /** Every entry's square is part of the sum of squares. */
  lemma {:induction false} SumSqAtLeast(v: seq<real>, i: nat)
    requires i < |v|
    ensures SumSq(v) >= v[i] * v[i]
  {
    var init := v[..|v| - 1];
    SumSqNonNegative(init);
    if i < |v| - 1 {
      SumSqAtLeast(init, i);
      SquareNonNegative(v[|v| - 1]);
    }
  }

  /** Dividing every entry by `n` divides the sum of squares by `n * n`. */
  lemma {:induction false} SumSqScaled(v: seq<real>, n: real)
    requires n != 0.0
    ensures SumSq(Scaled(v, n)) * (n * n) == SumSq(v)
  {
    if v != [] {
      var init := v[..|v| - 1];
      var x := v[|v| - 1];
      SumSqScaled(init, n);
      assert Scaled(v, n)[..|v| - 1] == Scaled(init, n);
      ScaledSquare(x, n);
    }
  }

  lemma ScaledSquare(x: real, n: real)
    requires n != 0.0
    ensures (x / n) * (x / n) * (n * n) == x * x
  {
    assert (x / n) * n == x;
  }

  /**
   * With an exact square root, the embedding of a text of three or more
   * characters has unit length: the L2 normalisation of `embed`.
   */
  lemma EmbeddingIsUnit(text: string, dims: nat, hash: string -> int, sqrt: real -> real)
    requires dims > 0 && |text| >= 3
    requires IsRoot(sqrt, SumSq(Counts(Text.Lower(text), dims, hash)))
    ensures SumSq(Embedding(text, dims, hash, sqrt)) == 1.0
  {
    var c := Counts(Text.Lower(text), dims, hash);
    CountsPositive(Text.Lower(text), dims, hash);
    ScaledUnit(c, sqrt);
  }

  /** Dividing a vector by its exact norm gives a vector of unit length. */
  lemma ScaledUnit(v: seq<real>, sqrt: real -> real)
    requires SumSq(v) >= 1.0 && IsRoot(sqrt, SumSq(v))
    ensures SumSq(Scaled(v, Norm(v, sqrt))) == 1.0
  {
    var total := SumSq(v);
    var n := sqrt(total);
    RootOfPositive(sqrt, total);
    SumSqScaled(v, n);
    UnitArith(total, n, SumSq(Scaled(v, n)));
  }

  /** Some bucket holds the first trigram, so the counts have a sum of squares of at least 1. */
  lemma CountsPositive(t: string, dims: nat, hash: string -> int)
    requires |t| >= 3 && dims > 0
    ensures SumSq(Counts(t, dims, hash)) >= 1.0
  {
    var c := Counts(t, dims, hash);
    var b := Bucket(t, 0, dims, hash);
    TrigramCounted(t, |t| - 2, dims, hash, 0);
    SumSqAtLeast(c, b);
    AtLeastOneSquared(c[b]);
  }

  lemma AtLeastOneSquared(x: real)
    requires x >= 1.0
    ensures x * x >= 1.0
  {
  }

  lemma RootOfPositive(sqrt: real -> real, x: real)
    requires x >= 1.0 && IsRoot(sqrt, x)
    ensures sqrt(x) != 0.0
  {
  }

  lemma UnitArith(total: real, n: real, q: real)
    requires total >= 1.0 && n * n == total && q * (n * n) == total
    ensures q == 1.0
  {
    assert (q - 1.0) * total == 0.0;
  }

  /** A vector with a zero entry on every position has a zero dot product with any vector. */
  lemma {:induction false} DotWithZero(a: seq<real>, b: seq<real>)
    requires |a| == |b| && (AllZero(a) || AllZero(b))
    ensures Dot(a, b) == 0.0
  {
    if a != [] {
      DotWithZero(a[..|a| - 1], b[..|b| - 1]);
    }
  }

  lemma {:induction false} DotSymmetric(a: seq<real>, b: seq<real>)
    requires |a| == |b|
    ensures Dot(a, b) == Dot(b, a)
  {
    if a != [] {
      DotSymmetric(a[..|a| - 1], b[..|b| - 1]);
    }
  }

  lemma {:induction false} DotSelf(a: seq<real>)
    ensures Dot(a, a) == SumSq(a)
  {
    if a != [] {
      DotSelf(a[..|a| - 1]);
    }
  }

  /**
   * `cosine(a, b)`: 0 for an empty vector or vectors of different lengths,
   * otherwise the dot product over the product of the two norms; a zero
   * vector on either side gives 0.
   */
  function Cosine(a: seq<real>, b: seq<real>, sqrt: real -> real): (r: real)
    ensures a == [] || b == [] || |a| != |b| ==> r == 0.0
    ensures |a| == |b| && (AllZero(a) || AllZero(b)) ==> r == 0.0
  {
    if a == [] || b == [] || |a| != |b| then 0.0
    else if AllZero(a) || AllZero(b) then DotWithZero(a, b); Dot(a, b) / NormProduct(a, b, sqrt)
    else Dot(a, b) / NormProduct(a, b, sqrt)
  }

  /** `na * nb`, never zero because each norm falls back to 1.0. */
  function NormProduct(a: seq<real>, b: seq<real>, sqrt: real -> real): (p: real)
    ensures p != 0.0
  {
    NonZeroProduct(Norm(a, sqrt), Norm(b, sqrt));
    Norm(a, sqrt) * Norm(b, sqrt)
  }

  lemma NonZeroProduct(x: real, y: real)
    requires x != 0.0 && y != 0.0
    ensures x * y != 0.0
  {
  }

  /** The order of the two vectors does not matter. */
  lemma CosineSymmetric(a: seq<real>, b: seq<real>, sqrt: real -> real)
    ensures Cosine(a, b, sqrt) == Cosine(b, a, sqrt)
  {
    if a != [] && b != [] && |a| == |b| {
      DotSymmetric(a, b);
      assert NormProduct(a, b, sqrt) == NormProduct(b, a, sqrt);
    }
  }

  /** With an exact square root, a non-zero vector has cosine 1 with itself. */
  lemma CosineSelf(a: seq<real>, sqrt: real -> real)
    requires SumSq(a) > 0.0 && IsRoot(sqrt, SumSq(a))
    ensures Cosine(a, a, sqrt) == 1.0
  {
    DotSelf(a);
    SelfNormProduct(a, sqrt);
    assert a != [];
    DivSelf(SumSq(a));
  }

  lemma SelfNormProduct(a: seq<real>, sqrt: real -> real)
    requires SumSq(a) > 0.0 && IsRoot(sqrt, SumSq(a))
    ensures NormProduct(a, a, sqrt) == SumSq(a)
  {
    assert Norm(a, sqrt) == sqrt(SumSq(a));
  }

  lemma DivSelf(m: real)
    requires m != 0.0
    ensures m / m == 1.0
  {
  }

  function Score<V>(qv: seq<real>, item: CacheItem<V>, sqrt: real -> real): real {
    Cosine(qv, item.embedding, sqrt)
  }

  // ---- best match ----

  /**
   * Item `k` is the one `get` picks: it scores above zero, no item scores
   * higher, and every earlier item scores strictly lower.
   */
  predicate IsFirstBest<V>(items: seq<CacheItem<V>>, qv: seq<real>, sqrt: real -> real, k: int) {
    0 <= k < |items| && Score(qv, items[k], sqrt) > 0.0
    && (forall j :: 0 <= j < |items| ==> Score(qv, items[j], sqrt) <= Score(qv, items[k], sqrt))
    && (forall j :: 0 <= j < k ==> Score(qv, items[j], sqrt) < Score(qv, items[k], sqrt))
  }

  predicate NoPositive<V>(items: seq<CacheItem<V>>, qv: seq<real>, sqrt: real -> real) {
    forall j :: 0 <= j < |items| ==> Score(qv, items[j], sqrt) <= 0.0
  }

  /** The loop of `get`: keep the first item whose score beats the best so far (starting from 0.0). */
  method BestMatch<V>(items: seq<CacheItem<V>>, qv: seq<real>, sqrt: real -> real)
    returns (found: bool, k: int, best: real)
    ensures found ==> IsFirstBest(items, qv, sqrt, k) && best == Score(qv, items[k], sqrt)
    ensures !found ==> NoPositive(items, qv, sqrt) && best == 0.0
  {
    found, k, best := false, -1, 0.0;
    var i := 0;
    while i < |items|
      invariant 0 <= i <= |items|
      invariant found ==> 0 <= k < i && best == Score(qv, items[k], sqrt) && best > 0.0
      invariant !found ==> best == 0.0
      invariant forall j :: 0 <= j < i ==> Score(qv, items[j], sqrt) <= best
      invariant found ==> forall j :: 0 <= j < k ==> Score(qv, items[j], sqrt) < best
    {
      var s := Score(qv, items[i], sqrt);
      if s > best {
        found, k, best := true, i, s;
      }
      i := i + 1;
    }
  }

  /** There is only one first best item, so `get`'s choice is determined. */
  lemma FirstBestUnique<V>(items: seq<CacheItem<V>>, qv: seq<real>, sqrt: real -> real, k1: int, k2: int)
    requires IsFirstBest(items, qv, sqrt, k1) && IsFirstBest(items, qv, sqrt, k2)
    ensures k1 == k2
  {

  }

  /** An item with a positive score rules out "no hit" by score alone. */
  lemma FirstBestOrNone<V>(items: seq<CacheItem<V>>, qv: seq<real>, sqrt: real -> real, k: int)
    requires IsFirstBest(items, qv, sqrt, k)
    ensures !NoPositive(items, qv, sqrt)
  {
    assert Score(qv, items[k], sqrt) > 0.0;
  }

  /** A zero query vector scores 0 against every item, so no item is a first best and `get` misses. */
  lemma ZeroQueryMisses<V>(items: seq<CacheItem<V>>, qv: seq<real>, sqrt: real -> real)
    requires AllZero(qv)
    ensures NoPositive(items, qv, sqrt)
    ensures forall k :: !IsFirstBest(items, qv, sqrt, k)
  {
    forall j | 0 <= j < |items| ensures Score(qv, items[j], sqrt) <= 0.0 {
      if |qv| == |items[j].embedding| {
        DotWithZero(qv, items[j].embedding);
      }
    }
  }

  /** With `LocalEmbedder`, a query shorter than three characters never finds a cached item. */
  lemma ShortQueryMisses<V>(items: seq<CacheItem<V>>, query: string, dims: nat, hash: string -> int, sqrt: real -> real)
    requires dims > 0 && |query| < 3
    ensures NoPositive(items, Embedding(query, dims, hash, sqrt), sqrt)
  {
    ZeroQueryMisses(items, Embedding(query, dims, hash, sqrt), sqrt);
  }

  // ---- keys, insertion and eviction ----

  predicate UniqueKeys<V>(s: seq<CacheItem<V>>) {
    forall i, j :: 0 <= i < j < |s| ==> s[i].key != s[j].key
  }

  function KeysOf<V>(s: seq<CacheItem<V>>): (ks: set<string>)
    ensures forall i :: 0 <= i < |s| ==> s[i].key in ks
    ensures forall k :: k in ks ==> exists i :: 0 <= i < |s| && s[i].key == k
  {
    if s == [] then {} else {s[0].key} + KeysOf(s[1..])
  }

  /** `int(t)`: truncation toward zero. */
  function Trunc(t: real): int {
    if t >= 0.0 then t.Floor else -((-t).Floor)
  }

  /** `f"{hash(query)}:{int(time.time())}"` */
  function ItemKey(queryHash: int, now: real): string {
    Text.IntToString(queryHash) + ":" + Text.IntToString(Trunc(now))
  }

  /** The position of the first item carrying key `k`. */
  function FirstKeyIndex<V>(ns: seq<CacheItem<V>>, k: string): (i: nat)
    requires k in KeysOf(ns)
    ensures i < |ns| && ns[i].key == k
    ensures forall j :: 0 <= j < i ==> ns[j].key != k
  {
    if ns[0].key == k then 0 else 1 + FirstKeyIndex(ns[1..], k)
  }

  /** `ns[key] = item`: an existing key keeps its place, a new key goes last. */
  function Put<V>(ns: seq<CacheItem<V>>, item: CacheItem<V>): (r: seq<CacheItem<V>>)
    ensures item.key !in KeysOf(ns) ==> r == ns + [item]
    ensures item.key in KeysOf(ns) ==> |r| == |ns|
    ensures item.key in KeysOf(ns) ==> r == ns[FirstKeyIndex(ns, item.key) := item]
    ensures item in r
    ensures forall e :: e in r ==> e == item || e in ns
  {
    if ns == [] then [item]
    else if ns[0].key == item.key then [item] + ns[1..]
    else
      var rest := Put(ns[1..], item);
      PutAtCons(ns, item, rest);
      [ns[0]] + rest
  }

  /** The inductive step of `Put`'s placement: an unmatched head stays in front. */
  lemma PutAtCons<V>(ns: seq<CacheItem<V>>, item: CacheItem<V>, rest: seq<CacheItem<V>>)
    requires ns != [] && ns[0].key != item.key
    requires item.key in KeysOf(ns[1..]) ==> rest == ns[1..][FirstKeyIndex(ns[1..], item.key) := item]
    ensures item.key in KeysOf(ns) ==> [ns[0]] + rest == ns[FirstKeyIndex(ns, item.key) := item]
  {
    if item.key in KeysOf(ns) {
      assert KeysOf(ns) == {ns[0].key} + KeysOf(ns[1..]);
      var i := FirstKeyIndex(ns[1..], item.key);
      assert FirstKeyIndex(ns, item.key) == i + 1;
      var lhs := [ns[0]] + rest;
      assert |lhs| == |ns|;
      forall j | 0 <= j < |ns|
        ensures lhs[j] == ns[i + 1 := item][j]
      {
        if j > 0 {
          assert lhs[j] == rest[j - 1];
        }
      }
    }
  }

  /**
   * On a namespace with distinct keys (a dict), assignment to an existing key
   * replaces exactly that entry in place and leaves every other entry where it was.
   */
  lemma PutInPlace<V>(ns: seq<CacheItem<V>>, item: CacheItem<V>)
    requires UniqueKeys(ns) && item.key in KeysOf(ns)
    ensures |Put(ns, item)| == |ns|
    ensures forall i :: 0 <= i < |ns| ==> Put(ns, item)[i] == (if ns[i].key == item.key then item else ns[i])
  {
    var i := FirstKeyIndex(ns, item.key);
    assert Put(ns, item) == ns[i := item];
  }

  lemma {:induction false} PutUnique<V>(ns: seq<CacheItem<V>>, item: CacheItem<V>)
    requires UniqueKeys(ns)
    ensures UniqueKeys(Put(ns, item))
  {
    if ns != [] {
      var tail := ns[1..];
      TailUnique(ns);
      HeadKeyFresh(ns);
      if ns[0].key != item.key {
        PutUnique(tail, item);
        var rest := Put(tail, item);
        forall j | 0 <= j < |rest| ensures rest[j].key != ns[0].key {
          assert rest[j] in rest;
          if rest[j] != item {
            var m :| 0 <= m < |tail| && tail[m] == rest[j];
          }
        }
        ConsUnique(ns[0], rest);
      } else {
        ConsUnique(item, tail);
      }
    }
  }

  /** An item whose key is not among the keys of `s` can go in front. */
  lemma ConsUnique<V>(x: CacheItem<V>, s: seq<CacheItem<V>>)
    requires UniqueKeys(s)
    requires forall j :: 0 <= j < |s| ==> s[j].key != x.key
    ensures UniqueKeys([x] + s)
  {
    var r := [x] + s;
    forall i, j | 0 <= i < j < |r| ensures r[i].key != r[j].key {
      assert r[j] == s[j - 1];
      if i > 0 {
        assert r[i] == s[i - 1];
      }
    }
  }

  /** The items whose keys are not in `ks`, in their original order. */
  function RemoveKeys<V>(s: seq<CacheItem<V>>, ks: set<string>): (r: seq<CacheItem<V>>)
    ensures forall e :: e in r ==> e in s && e.key !in ks
    ensures forall i :: 0 <= i < |s| && s[i].key !in ks ==> s[i] in r
    ensures |r| <= |s|
  {
    if s == [] then []
    else if s[0].key in ks then RemoveKeys(s[1..], ks)
    else [s[0]] + RemoveKeys(s[1..], ks)
  }

  /** Each item is kept as many times as it occurs, unless its key is removed. */
  lemma {:induction false} RemoveKeysMultiset<V>(s: seq<CacheItem<V>>, ks: set<string>)
    ensures forall e :: e in s ==> multiset(RemoveKeys(s, ks))[e] == if e.key in ks then 0 else multiset(s)[e]
  {
    if s != [] {
      assert s == [s[0]] + s[1..];
      RemoveKeysMultiset(s[1..], ks);
    }
  }

  /** Removal works item by item, keeping the order: it distributes over concatenation. */
  lemma {:induction false} RemoveKeysConcat<V>(a: seq<CacheItem<V>>, b: seq<CacheItem<V>>, ks: set<string>)
    ensures RemoveKeys(a + b, ks) == RemoveKeys(a, ks) + RemoveKeys(b, ks)
  {
    if a == [] {
      assert a + b == b;
    } else {
      var rest := a[1..] + b;
      assert (a + b)[0] == a[0] && (a + b)[1..] == rest;
      RemoveKeysConcat(a[1..], b, ks);
      if a[0].key in ks {
        assert RemoveKeys(a + b, ks) == RemoveKeys(rest, ks);
      } else {
        assert RemoveKeys(a + b, ks) == [a[0]] + RemoveKeys(rest, ks);
      }
    }
  }

  /** A single item is kept exactly when its key is not removed. */
  lemma RemoveKeysOne<V>(x: CacheItem<V>, ks: set<string>)
    ensures RemoveKeys([x], ks) == if x.key in ks then [] else [x]
  {
    assert [x][1..] == [];
  }

  /** The items `set` drops from a namespace that has grown past the cap. */
  function Oldest<V>(ns: seq<CacheItem<V>>): seq<CacheItem<V>>
    requires |ns| >= EvictBatch
  {
    Sorting.SortBy(ns, (it: CacheItem<V>) => it.ts)[..EvictBatch]
  }

  /** The namespace after `set`'s cap check. */
  function Evict<V>(ns: seq<CacheItem<V>>): seq<CacheItem<V>> {
    if |ns| > Capacity then RemoveKeys(ns, KeysOf(Oldest(ns))) else ns
  }

  function NsOf<V>(store: map<string, seq<CacheItem<V>>>, namespace: string): seq<CacheItem<V>> {
    if namespace in store then store[namespace] else []
  }

  // ---- the proofs about eviction ----

  lemma RemoveKeysUnique<V>(s: seq<CacheItem<V>>, ks: set<string>)
    requires UniqueKeys(s)
    ensures UniqueKeys(RemoveKeys(s, ks))
  {
    if s != [] {
      RemoveKeysUnique(s[1..], ks);
      var rest := RemoveKeys(s[1..], ks);
      forall j | 0 <= j < |rest| ensures rest[j].key != s[0].key {
        assert rest[j] in s[1..];
      }
    }
  }

  /** With distinct keys, the first key does not occur again. */
  lemma HeadKeyFresh<V>(s: seq<CacheItem<V>>)
    requires UniqueKeys(s) && s != []
    ensures s[0].key !in KeysOf(s[1..])
  {
    forall i | 0 <= i < |s[1..]| ensures s[1..][i].key != s[0].key {
      assert s[1..][i] == s[i + 1];
    }
  }

  lemma {:induction false} UniqueKeysCount<V>(s: seq<CacheItem<V>>)
    requires UniqueKeys(s)
    ensures |KeysOf(s)| == |s|
  {
    if s != [] {
      UniqueKeysCount(s[1..]);
      HeadKeyFresh(s);
    }
  }

  /** Removing keys that are all present takes out exactly one item per key. */
  lemma {:induction false} RemoveKeysCount<V>(s: seq<CacheItem<V>>, ks: set<string>)
    requires UniqueKeys(s)
    ensures |RemoveKeys(s, ks)| == |s| - |ks * KeysOf(s)|
  {
    if s != [] {
      var tail := s[1..];
      TailUnique(s);
      RemoveKeysCount(tail, ks);
      HeadKeyFresh(s);
      assert KeysOf(s) == {s[0].key} + KeysOf(tail);
      CommonStep(ks, s[0].key, KeysOf(tail));
    }
  }

  lemma TailUnique<V>(s: seq<CacheItem<V>>)
    requires UniqueKeys(s) && s != []
    ensures UniqueKeys(s[1..])
  {
    var tail := s[1..];
    forall i, j | 0 <= i < j < |tail| ensures tail[i].key != tail[j].key {
      assert tail[i] == s[i + 1] && tail[j] == s[j + 1];
    }
  }

  /** Adding a new key to a set adds one to its overlap with `ks` exactly when the key is in `ks`. */
  lemma CommonStep(ks: set<string>, k: string, rest: set<string>)
    requires k !in rest
    ensures |ks * ({k} + rest)| == |ks * rest| + (if k in ks then 1 else 0)
  {
    if k in ks {
      assert ks * ({k} + rest) == {k} + ks * rest;
    } else {
      assert ks * ({k} + rest) == ks * rest;
    }
  }

  /** An element occurring twice in a sequence sits at two different places. */
  lemma {:induction false} TwiceAtTwoPlaces<T>(a: seq<T>, x: T)
    requires multiset(a)[x] >= 2
    ensures exists p, q :: 0 <= p < q < |a| && a[p] == x && a[q] == x
  {
    assert a == [a[0]] + a[1..];
    if a[0] == x {
      assert x in multiset(a[1..]);
      var q :| 0 <= q < |a[1..]| && a[1..][q] == x;
      assert a[q + 1] == x;
    } else {
      TwiceAtTwoPlaces(a[1..], x);
      var p, q :| 0 <= p < q < |a[1..]| && a[1..][p] == x && a[1..][q] == x;
      assert a[p + 1] == x && a[q + 1] == x;
    }
  }

  /** A reordering of items with distinct keys still has distinct keys. */
  lemma PermutationKeepsUnique<V>(a: seq<CacheItem<V>>, b: seq<CacheItem<V>>)
    requires multiset(a) == multiset(b) && UniqueKeys(a)
    ensures UniqueKeys(b)
  {
    forall i, j | 0 <= i < j < |b| ensures b[i].key != b[j].key {
      if b[i] == b[j] {
        assert b == b[..j] + b[j..];
        assert b[i] == b[..j][i] && b[j] == b[j..][0];
        assert multiset(b)[b[i]] == multiset(b[..j])[b[i]] + multiset(b[j..])[b[i]];
        TwiceAtTwoPlaces(a, b[i]);
      } else {
        assert b[i] in multiset(a) && b[j] in multiset(a);
        var p :| 0 <= p < |a| && a[p] == b[i];
        var q :| 0 <= q < |a| && a[q] == b[j];
      }
    }
  }

  /** Eviction removes exactly 64 items from a namespace with distinct keys that is over the cap. */
  lemma EvictCount<V>(ns: seq<CacheItem<V>>)
    requires UniqueKeys(ns) && |ns| > Capacity
    ensures |Evict(ns)| == |ns| - EvictBatch
  {
    var sorted := Sorting.SortBy(ns, (it: CacheItem<V>) => it.ts);
    PermutationKeepsUnique(ns, sorted);
    var old64 := sorted[..EvictBatch];
    PrefixUnique(sorted, EvictBatch);
    UniqueKeysCount(old64);
    var ks := KeysOf(old64);
    PrefixKeysIn(ns, sorted, EvictBatch);
    assert ks * KeysOf(ns) == ks;
    RemoveKeysCount(ns, ks);
  }

  lemma PrefixUnique<V>(s: seq<CacheItem<V>>, n: nat)
    requires UniqueKeys(s) && n <= |s|
    ensures UniqueKeys(s[..n])
  {
    var p := s[..n];
    forall i, j | 0 <= i < j < |p| ensures p[i].key != p[j].key {
      assert p[i] == s[i] && p[j] == s[j];
    }
  }

  /** The keys of a prefix of a reordering are keys of the original. */
  lemma PrefixKeysIn<V>(ns: seq<CacheItem<V>>, sorted: seq<CacheItem<V>>, n: nat)
    requires multiset(sorted) == multiset(ns) && n <= |sorted|
    ensures KeysOf(sorted[..n]) <= KeysOf(ns)
  {
    var p := sorted[..n];
    forall k | k in KeysOf(p) ensures k in KeysOf(ns) {
      var i :| 0 <= i < |p| && p[i].key == k;
      assert p[i] == sorted[i];
      assert sorted[i] in multiset(ns);
      var q :| 0 <= q < |ns| && ns[q] == sorted[i];
    }
  }

  /** Every item eviction drops is no newer than any item it keeps. */
  lemma EvictDropsOldest<V>(ns: seq<CacheItem<V>>, gone: CacheItem<V>, kept: CacheItem<V>)
    requires UniqueKeys(ns) && |ns| > Capacity
    requires gone in ns && gone !in Evict(ns) && kept in Evict(ns)
    ensures gone.ts <= kept.ts
  {
    var sorted := Sorting.SortBy(ns, (it: CacheItem<V>) => it.ts);
    PermutationKeepsUnique(ns, sorted);
    GoneKeyIsOldest(ns, gone);
    var old64 := sorted[..EvictBatch];
    assert gone in multiset(sorted) && kept in multiset(sorted);
    var g :| 0 <= g < |sorted| && sorted[g] == gone;
    var k :| 0 <= k < |sorted| && sorted[k] == kept;
    OldestPosition(sorted, g);
    assert kept.key !in KeysOf(Oldest(ns));
    KeptPosition(sorted, k);
  }

  lemma KeptPosition<V>(s: seq<CacheItem<V>>, k: int)
    requires |s| >= EvictBatch && 0 <= k < |s|
    requires s[k].key !in KeysOf(s[..EvictBatch])
    ensures k >= EvictBatch
  {
  }

  /** An item that eviction drops has one of the 64 oldest keys. */
  lemma GoneKeyIsOldest<V>(ns: seq<CacheItem<V>>, gone: CacheItem<V>)
    requires |ns| > Capacity && gone in ns && gone !in Evict(ns)
    ensures gone.key in KeysOf(Oldest(ns))
  {
    var p :| 0 <= p < |ns| && ns[p] == gone;
  }

  /** In a sequence with distinct keys, an item whose key is among the first `n` keys sits among the first `n`. */
  lemma OldestPosition<V>(s: seq<CacheItem<V>>, g: int)
    requires UniqueKeys(s) && |s| >= EvictBatch && 0 <= g < |s|
    requires s[g].key in KeysOf(s[..EvictBatch])
    ensures g < EvictBatch
  {
    var i :| 0 <= i < EvictBatch && s[..EvictBatch][i].key == s[g].key;
    assert s[i].key == s[g].key;
  }

  /** After `set`, a namespace still has distinct keys, and it holds at most 512 items if it did before. */
  lemma SetFacts<V>(ns: seq<CacheItem<V>>, item: CacheItem<V>)
    requires UniqueKeys(ns)
    ensures UniqueKeys(Evict(Put(ns, item)))
    ensures |ns| <= Capacity ==> |Evict(Put(ns, item))| <= Capacity
  {
    var after := Put(ns, item);
    PutUnique(ns, item);
    EvictUnique(after);
    if |after| > Capacity {
      EvictCount(after);
    }
  }

  lemma RemoveKeysStep<V>(s: seq<CacheItem<V>>, ks: set<string>, k: string)
    ensures RemoveKeys(RemoveKeys(s, ks), {k}) == RemoveKeys(s, ks + {k})
  {
    if s != [] {
      RemoveKeysStep(s[1..], ks, k);
    }
  }

  /** Every namespace of the store has distinct keys. */
  ghost predicate StoreOk<V>(m: map<string, seq<CacheItem<V>>>) {
    forall x :: x in m ==> UniqueKeys(m[x])
  }

  /** Storing a namespace with distinct keys keeps every namespace's keys distinct. */
  lemma StoreUpdateOk<V>(m: map<string, seq<CacheItem<V>>>, n: string, items: seq<CacheItem<V>>)
    requires StoreOk(m) && UniqueKeys(items)
    ensures StoreOk(m[n := items])
  {
  }

  lemma StoreUpdateTwice<V>(m: map<string, seq<CacheItem<V>>>, n: string, a: seq<CacheItem<V>>, b: seq<CacheItem<V>>)
    ensures m[n := a][n := b] == m[n := b]
  {
  }

  // ---- the cache object ----

  class MemorySemanticCache<V> {
    /** `store`: namespace → its items in insertion order (the dict's order). */
    var store: map<string, seq<CacheItem<V>>>

    ghost predicate Valid()
      reads this
    {
      StoreOk(store)
    }

    constructor ()
      ensures Valid() && store == map[]
    {
      store := map[];
    }

    /** `_ns(namespace)`: `store.setdefault(namespace, {})`. */
    method Namespace(namespace: string) returns (items: seq<CacheItem<V>>)
      requires Valid()
      modifies this
      ensures Valid()
      ensures items == NsOf(old(store), namespace)
      ensures store == old(store)[namespace := items]
    {
      if namespace !in store {
        store := store[namespace := []];
      }
      items := store[namespace];
    }

    /**
     * `get(query, namespace, min_score=…)`: the first best-scoring item's
     * value when its score reaches `minScore`; nothing otherwise. The
     * namespace is created (empty) when it did not exist.
     */
    method Get(query: string, namespace: string, minScore: real,
               embed: string -> seq<real>, sqrt: real -> real)
      returns (r: Option<Hit<V>>)
      requires Valid()
      modifies this
      ensures Valid()
      ensures store == old(store)[namespace := NsOf(old(store), namespace)]
      ensures NsOf(old(store), namespace) == [] ==> r.None?
      ensures r.Some? ==> exists k :: IsFirstBest(NsOf(old(store), namespace), embed(query), sqrt, k)
                            && r.value.score == Score(embed(query), NsOf(old(store), namespace)[k], sqrt)
                            && r.value.value == NsOf(old(store), namespace)[k].value
                            && r.value.score >= minScore
      ensures r.None? ==> NoPositive(NsOf(old(store), namespace), embed(query), sqrt)
                          || exists k :: IsFirstBest(NsOf(old(store), namespace), embed(query), sqrt, k)
                                         && Score(embed(query), NsOf(old(store), namespace)[k], sqrt) < minScore
    {
      var ns := Namespace(namespace);
      if ns == [] {
        return None;
      }
      var qv := embed(query);
      var found, k, best := BestMatch(ns, qv, sqrt);
      if !found || best < minScore {
        return None;
      }
      r := Some(Hit(best, ns[k].value));
    }

    /**
     * `set(query, value, namespace)`: store the value under a key made of the
     * query's hash and the clock's whole seconds, then, past 512 items, drop
     * the 64 oldest. `keyClock` and `tsClock` are the two readings of
     * `time.time()`.
     */
    method Set(query: string, value: V, namespace: string, embed: string -> seq<real>,
               hash: string -> int, keyClock: real, tsClock: real)
      requires Valid()
      modifies this
      ensures Valid()
      ensures store == old(store)[namespace := Evict(Put(NsOf(old(store), namespace),
                                    CacheItem(ItemKey(hash(query), keyClock), embed(query), value, tsClock)))]
      ensures |NsOf(old(store), namespace)| <= Capacity ==> |store[namespace]| <= Capacity
    {
      var ns := Namespace(namespace);
      var item := CacheItem(ItemKey(hash(query), keyClock), embed(query), value, tsClock);
      SetFacts(ns, item);
      var put := Put(ns, item);
      var kept := put;
      if |put| > Capacity {
        kept := PopAll(put, Oldest(put));
      }
      assert kept == Evict(put);
      StoreUpdateOk(store, namespace, kept);
      StoreUpdateTwice(old(store), namespace, ns, kept);
      store := store[namespace := kept];
    }
  }

  /** `for it in oldest: ns.pop(it.key, None)` */
  method PopAll<V>(ns: seq<CacheItem<V>>, oldest: seq<CacheItem<V>>) returns (r: seq<CacheItem<V>>)
    ensures r == RemoveKeys(ns, KeysOf(oldest))
  {
    r := ns;
    RemoveNoKeys(ns);
    var i := 0;
    while i < |oldest|
      invariant 0 <= i <= |oldest|
      invariant r == RemoveKeys(ns, KeysOf(oldest[..i]))
    {
      PopStep(ns, oldest, i);
      r := RemoveKeys(r, {oldest[i].key});
      i := i + 1;
    }
    assert oldest[..|oldest|] == oldest;
  }

  lemma PopStep<V>(ns: seq<CacheItem<V>>, oldest: seq<CacheItem<V>>, i: nat)
    requires i < |oldest|
    ensures RemoveKeys(RemoveKeys(ns, KeysOf(oldest[..i])), {oldest[i].key}) == RemoveKeys(ns, KeysOf(oldest[..i + 1]))
  {
    RemoveKeysStep(ns, KeysOf(oldest[..i]), oldest[i].key);
    assert oldest[..i + 1] == oldest[..i] + [oldest[i]];
    KeysOfSnoc(oldest[..i], oldest[i]);
  }

  lemma RemoveNoKeys<V>(s: seq<CacheItem<V>>)
    ensures RemoveKeys(s, KeysOf(s[..0])) == s
  {
    assert KeysOf(s[..0]) == {};
    if s != [] {
      RemoveNoKeys(s[1..]);
    }
  }

  lemma EvictUnique<V>(ns: seq<CacheItem<V>>)
    requires UniqueKeys(ns)
    ensures UniqueKeys(Evict(ns))
  {
    if |ns| > Capacity {
      RemoveKeysUnique(ns, KeysOf(Oldest(ns)));
    }
  }

  lemma KeysOfSnoc<V>(s: seq<CacheItem<V>>, x: CacheItem<V>)
    ensures KeysOf(s + [x]) == KeysOf(s) + {x.key}
  {
    if s != [] {
      assert (s + [x])[1..] == s[1..] + [x];
      KeysOfSnoc(s[1..], x);
    } else {
      assert s + [x] == [x];
    }
  }

  /** `p for p in parts if p`: the non-empty parts, in order. */
  function NonEmpty(parts: seq<string>): (r: seq<string>)
    ensures forall p :: p in r <==> p in parts && p != []
    ensures forall p :: multiset(r)[p] == if p == [] then 0 else multiset(parts)[p]
  {
    if parts == [] then []
    else
      assert parts == [parts[0]] + parts[1..];
      if parts[0] == [] then NonEmpty(parts[1..])
      else [parts[0]] + NonEmpty(parts[1..])
  }

  /** The filter goes part by part, keeping the order: it distributes over concatenation. */
  lemma {:induction false} NonEmptyConcat(a: seq<string>, b: seq<string>)
    ensures NonEmpty(a + b) == NonEmpty(a) + NonEmpty(b)
  {
    if a == [] {
      assert a + b == b;
    } else {
      var rest := a[1..] + b;
      assert (a + b)[0] == a[0] && (a + b)[1..] == rest;
      NonEmptyConcat(a[1..], b);
      if a[0] == [] {
        assert NonEmpty(a + b) == NonEmpty(rest);
      } else {
        assert NonEmpty(a + b) == [a[0]] + NonEmpty(rest);
      }
    }
  }

  /** A single part is kept exactly when it is non-empty. */
  lemma NonEmptyOne(p: string)
    ensures NonEmpty([p]) == if p == [] then [] else [p]
  {
    assert [p][1..] == [];
  }

  /**
   * `build_query_string(*parts, max_len=…)`: `base[:max_len]` for the
   * `|`-join `base` of the non-empty parts.
   */
  function BuildQueryString(parts: seq<string>, maxLen: int): (r: string)
    ensures var base := Text.Join(NonEmpty(parts), "|");
            |r| <= |base| && r == base[..|r|]
            && (maxLen >= 0 ==> |r| == if maxLen < |base| then maxLen else |base|)
            && (maxLen < 0 ==> |r| == if |base| + maxLen > 0 then |base| + maxLen else 0)
  {
    Text.Take(Text.Join(NonEmpty(parts), "|"), maxLen)
  }

  /** An empty part changes nothing: `a||b` never arises from an empty middle part. */
  lemma EmptyPartIgnored(a: seq<string>, b: seq<string>, maxLen: int)
    ensures BuildQueryString(a + [""] + b, maxLen) == BuildQueryString(a + b, maxLen)
  {
    NonEmptyConcat(a + [""], b);
    NonEmptyConcat(a, [""]);
    NonEmptyConcat(a, b);
    NonEmptyOne("");
    assert NonEmpty(a + [""]) == NonEmpty(a);
  }

  const DefaultMaxLen := 4000
}
