/**
 * PHP arrays with string keys, as the modelled code uses them: an insertion-ordered
 * map in which writing to an existing key replaces its value but keeps its position,
 * and writing to a new key appends it.
 */
module OrderedMaps {
  import opened Wrappers

  type OrderedMap<V> = seq<(string, V)>

  function Keys<V>(m: OrderedMap<V>): (ks: seq<string>)
    ensures |ks| == |m|
    ensures forall i :: 0 <= i < |m| ==> ks[i] == m[i].0
  {
    seq(|m|, i requires 0 <= i < |m| => m[i].0)
  }

  /** No key occurs twice: every PHP array has this shape. */
  ghost predicate UniqueKeys<V>(m: OrderedMap<V>) {
    forall i, j :: 0 <= i < j < |m| ==> m[i].0 != m[j].0
  }

  /** The position of key `k`, if it is present. */
  function IndexOf<V>(m: OrderedMap<V>, k: string): (r: Option<nat>)
    ensures r.Some? ==> r.value < |m| && m[r.value].0 == k
    ensures r.Some? ==> forall j :: 0 <= j < r.value ==> m[j].0 != k
    ensures r.None? ==> forall j :: 0 <= j < |m| ==> m[j].0 != k
  {
    if m == [] then None
    else if m[0].0 == k then Some(0)
    else match IndexOf(m[1..], k)
      case None => None
      case Some(i) => Some(i + 1)
  }

  /** `isset($m[$k]) ? $m[$k] : null`. */
  function Get<V>(m: OrderedMap<V>, k: string): Option<V> {
    match IndexOf(m, k)
    case None => None
    case Some(i) => Some(m[i].1)
  }

  predicate HasKey<V>(m: OrderedMap<V>, k: string) {
    IndexOf(m, k).Some?
  }

  /** `$m[$k] = $v`. */
  function Put<V>(m: OrderedMap<V>, k: string, v: V): OrderedMap<V> {
    match IndexOf(m, k)
    case Some(i) => m[i := (k, v)]
    case None => m + [(k, v)]
  }

  /** `unset($m[$k])`: the other entries keep their order. */
  function Remove<V>(m: OrderedMap<V>, k: string): (r: OrderedMap<V>)
    ensures forall i :: 0 <= i < |r| ==> r[i].0 != k
    ensures forall i :: 0 <= i < |r| ==> r[i] in m
    ensures forall i :: 0 <= i < |m| && m[i].0 != k ==> m[i] in r
  {
    if m == [] then []
    else if m[0].0 == k then Remove(m[1..], k)
    else [m[0]] + Remove(m[1..], k)
  }

  /** The writes `es` performed one after the other, in order. */
  function PutAll<V>(m: OrderedMap<V>, es: seq<(string, V)>): OrderedMap<V>
    decreases |es|
  {
    if es == [] then m else Put(PutAll(m, es[..|es| - 1]), es[|es| - 1].0, es[|es| - 1].1)
  }

  /** The value of the last write to `k` among `es`, if there is one. */
  function LastWrite<V>(es: seq<(string, V)>, k: string): Option<V>
    decreases |es|
  {
    if es == [] then None
    else if es[|es| - 1].0 == k then Some(es[|es| - 1].1)
    else LastWrite(es[..|es| - 1], k)
  }

  /** Writing a key makes it read back the written value and leaves every other key's value alone. */
  lemma PutGet<V>(m: OrderedMap<V>, k: string, v: V, k': string)
    ensures Get(Put(m, k, v), k') == if k' == k then Some(v) else Get(m, k')
  {
    var r := Put(m, k, v);
    match IndexOf(m, k)
    case Some(i) =>
      assert forall j :: 0 <= j < |m| ==> r[j].0 == m[j].0;
      KeysAgreeSameIndex(m, r, k');
    case None =>
      if k' != k {
        assert forall j :: 0 <= j < |m| ==> r[j] == m[j];
        PrefixIndex(m, r, k');
      } else {
        assert r[|m|] == (k, v);
        assert forall j :: 0 <= j < |m| ==> r[j] == m[j];
      }
  }

  lemma {:induction false} KeysAgreeSameIndex<V>(m: OrderedMap<V>, r: OrderedMap<V>, k: string)
    requires |m| == |r|
    requires forall j :: 0 <= j < |m| ==> r[j].0 == m[j].0
    ensures IndexOf(r, k) == IndexOf(m, k)
  {
    if m != [] && m[0].0 != k {
      KeysAgreeSameIndex(m[1..], r[1..], k);
    }
  }

  lemma {:induction false} PrefixIndex<V>(m: OrderedMap<V>, r: OrderedMap<V>, k: string)
    requires |m| <= |r|
    requires forall j :: 0 <= j < |m| ==> r[j].0 == m[j].0
    requires forall j :: |m| <= j < |r| ==> r[j].0 != k
    ensures IndexOf(r, k) == IndexOf(m, k)
  {
    if m == [] {
      if r != [] {
        PrefixIndex(m, r[1..], k);
      }
    } else if m[0].0 != k {
      PrefixIndex(m[1..], r[1..], k);
    }
  }

  /** Overwriting keeps the key order; a new key goes last. */
  lemma PutKeys<V>(m: OrderedMap<V>, k: string, v: V)
    ensures Keys(Put(m, k, v)) == if k in Keys(m) then Keys(m) else Keys(m) + [k]
  {
    match IndexOf(m, k)
    case Some(i) =>
      assert Keys(m)[i] == k;
    case None =>
      assert k !in Keys(m);
  }

  /** A write never creates a second entry for a key. */
  lemma PutUnique<V>(m: OrderedMap<V>, k: string, v: V)
    requires UniqueKeys(m)
    ensures UniqueKeys(Put(m, k, v))
  {
  }

  /** Performing `a` and then `b` is performing `a + b`. */
  lemma {:induction false} PutAllAppend<V>(m: OrderedMap<V>, a: seq<(string, V)>, b: seq<(string, V)>)
    ensures PutAll(m, a + b) == PutAll(PutAll(m, a), b)
    decreases |b|
  {
    if b == [] {
      assert a + b == a;
    } else {
      var b' := b[..|b| - 1];
      assert (a + b)[..|a + b| - 1] == a + b';
      PutAllAppend(m, a, b');
    }
  }

  /** After a series of writes a key reads back its last written value, or its old value if it was never written. */
  lemma {:induction false} PutAllGet<V>(m: OrderedMap<V>, es: seq<(string, V)>, k: string)
    ensures Get(PutAll(m, es), k) == match LastWrite(es, k) case Some(v) => Some(v) case None => Get(m, k)
    decreases |es|
  {
    if es != [] {
      var es' := es[..|es| - 1];
      PutAllGet(m, es', k);
      PutGet(PutAll(m, es'), es[|es| - 1].0, es[|es| - 1].1, k);
    }
  }

  /**
   * After a series of writes the old keys keep their positions at the front, every key
   * is either old or written, and no key occurs twice.
   */
  lemma {:induction false} PutAllKeys<V>(m: OrderedMap<V>, es: seq<(string, V)>)
    requires UniqueKeys(m)
    ensures UniqueKeys(PutAll(m, es))
    ensures Keys(m) <= Keys(PutAll(m, es))
    ensures forall k :: k in Keys(PutAll(m, es)) <==> k in Keys(m) || LastWrite(es, k).Some?
    decreases |es|
  {
    if es != [] {
      var es' := es[..|es| - 1];
      var (k, v) := es[|es| - 1];
      PutAllKeys(m, es');
      PutKeys(PutAll(m, es'), k, v);
      PutUnique(PutAll(m, es'), k, v);
    }
  }
}
