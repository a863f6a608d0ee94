/**
 * Structural fingerprints (the `Hash` of a declaration). An object's
 * fingerprint is the exclusive-or, over its properties, of a mix of the
 * property name with the fingerprint of the property's type.
 */
module Fingerprint {

  import opened Json
  import opened Multisets

  /**
   * The hash combiners of the runtime, seeded per process: `named` stands for
   * `HashCode.Combine(propertyName, typeHash)` and `listOf` for
   * `HashCode.Combine(JsonValueKind.Array, itemHash)`. Nothing is assumed of
   * them, so every property below holds for every seed.
   */
  datatype Hasher = Hasher(named: (string, bv32) -> bv32, listOf: bv32 -> bv32)

  /** `JsonValueKind.GetHashCode()`: the enum's underlying value. */
  function KindCode(k: Kind): (c: bv32)
    ensures 1 <= c <= 7
  {
    match k
    case Object => 1
    case Array => 2
    case String => 3
    case Number => 4
    case True => 5
    case False => 6
    case Null => 7
  }

  /** Different value kinds have different codes. */
  lemma KindCodesDistinct(a: Kind, b: Kind)
    ensures KindCode(a) == KindCode(b) <==> a == b
  {
  }

  /**
   * `SimpleConbineHash` as the converter calls it, with two hashes: their
   * exclusive-or, folded from 0.
   */
  function CombineHashes(hash: bv32, term: bv32): (r: bv32)
    ensures r == hash ^ term
    ensures r ^ term == hash
  {
    (0 ^ hash) ^ term
  }

  /** The fingerprint contributed by a property's value. */
  function TypeHash(h: Hasher, v: Json): bv32
    decreases Size(v), 1
  {
    match v
    case JObject(props) => ObjectHash(h, props)
    case JArray(items) =>
      if |items| == 0 then KindCode(Array)
      else
        assert ItemsSize(items) == Size(items[0]) + ItemsSize(items[1..]);
        h.listOf(ItemHash(h, items[0]))
    case _ => KindCode(KindOf(v))
  }

  /** The fingerprint of the first item of a non-empty array. */
  function ItemHash(h: Hasher, item: Json): bv32
    decreases Size(item), 0
  {
    match item
    case JObject(props) => ObjectHash(h, props)
    case _ => KindCode(KindOf(item))
  }

  function PropertyTerm(h: Hasher, p: (string, Json)): bv32
    decreases PropSize(p), 2
  {
    h.named(p.0, TypeHash(h, p.1))
  }

  /** The fingerprint of an object with the given properties, independent of any converter state. */
  function ObjectHash(h: Hasher, props: seq<(string, Json)>): bv32
    decreases PropsSize(props), 3
  {
    if |props| == 0 then 0 else PropertyTerm(h, props[0]) ^ ObjectHash(h, props[1..])
  }

  /**
   * Exclusive-or is its own inverse: a property written twice with the same
   * value cancels out, so such an object has the fingerprint of the object
   * without both copies (for every seed).
   */
  lemma RepeatedPropertyCancels(h: Hasher, p: (string, Json), rest: seq<(string, Json)>)
    ensures ObjectHash(h, [p, p] + rest) == ObjectHash(h, rest)
  {
    assert ([p, p] + rest)[1..] == [p] + rest;
    assert ([p] + rest)[1..] == rest;
  }

  /** Removing any one property takes its term out of the fingerprint. */
  lemma {:induction false} ObjectHashRemove(h: Hasher, props: seq<(string, Json)>, k: nat)
    requires k < |props|
    ensures ObjectHash(h, props) == PropertyTerm(h, props[k]) ^ ObjectHash(h, props[..k] + props[k + 1..])
  {
    if k > 0 {
      var rest := props[1..];
      ObjectHashRemove(h, rest, k - 1);
      assert rest[..k - 1] + rest[k..] == (props[..k] + props[k + 1..])[1..];
    } else {
      assert props[..k] + props[k + 1..] == props[1..];
    }
  }

  /** Order independence: objects whose properties are a permutation of each other share a fingerprint. */
  lemma {:induction false} ObjectHashPermutation(h: Hasher, a: seq<(string, Json)>, b: seq<(string, Json)>)
    requires multiset(a) == multiset(b)
    ensures ObjectHash(h, a) == ObjectHash(h, b)
    decreases |a|
  {
    if |a| > 0 {
      var k := MatchFirst(a, b);
      ObjectHashPermutation(h, a[1..], b[..k] + b[k + 1..]);
      ObjectHashRemove(h, b, k);
    } else {
      assert |b| == |multiset(b)| == 0;
    }
  }
}
