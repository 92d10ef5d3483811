/** A plain JavaScript object used as a dictionary: the parsed URL query and
    the attribute-filter selections. Properties keep their insertion order,
    which is the order `Object.keys` reports them in. */
module JsObjects {
  import opened JsValues

  datatype Prop = Prop(key: string, val: JsVal)

  /** An object as its properties in insertion order. */
  type Object = seq<Prop>

  /** `Object.keys(o)`. */
  function Keys(o: Object): (ks: seq<string>)
    ensures |ks| == |o|
  {
    if o == [] then [] else [o[0].key] + Keys(o[1..])
  }

  /** The key list of an object names its properties position by position. */
  lemma {:induction false} KeyAt(o: Object, i: nat)
    requires i < |o|
    ensures Keys(o)[i] == o[i].key
  {
    if i > 0 {
      KeyAt(o[1..], i - 1);
    }
  }

  predicate NoDuplicates(ks: seq<string>) {
    forall i, j :: 0 <= i < j < |ks| ==> ks[i] != ks[j]
  }

  /** A JavaScript object holds each key at most once. */
  predicate DistinctKeys(o: Object) {
    NoDuplicates(Keys(o))
  }

  /** `o[k]`: the value of the first property named `k`, or `undefined` when
      there is none. */
  function Get(o: Object, k: string): (v: JsVal)
    ensures k !in Keys(o) ==> v == Undefined
  {
    if o == [] then Undefined
    else if o[0].key == k then o[0].val
    else Get(o[1..], k)
  }

  /** In an object each property is what a lookup of its key finds. */
  lemma {:induction false} GetFindsProperty(o: Object, i: nat)
    requires DistinctKeys(o) && i < |o|
    ensures Get(o, o[i].key) == o[i].val
  {
    if i > 0 {
      KeyAt(o, 0);
      KeyAt(o, i);
      assert Keys(o)[0] != Keys(o)[i];
      assert DistinctKeys(o[1..]) by {
        assert Keys(o[1..]) == Keys(o)[1..];
      }
      GetFindsProperty(o[1..], i - 1);
    }
  }

  /** `o[k] = v`: an existing key keeps its place, a new key goes last. */
  function Put(o: Object, k: string, v: JsVal): (r: Object)
    ensures Keys(r) == if k in Keys(o) then Keys(o) else Keys(o) + [k]
    ensures Get(r, k) == v
    ensures forall k' :: k' != k ==> Get(r, k') == Get(o, k')
  {
    if o == [] then [Prop(k, v)]
    else if o[0].key == k then [Prop(k, v)] + o[1..]
    else
      var rest := Put(o[1..], k, v);
      assert ([o[0]] + rest)[1..] == rest;
      [o[0]] + rest
  }

  /** Assigning a property keeps the keys of an object distinct. */
  lemma PutKeepsKeysDistinct(o: Object, k: string, v: JsVal)
    requires DistinctKeys(o)
    ensures DistinctKeys(Put(o, k, v))
  {
  }
}
