/**
 * The parsed pipeline document as the scripts see it: a JavaScript value built by
 * a YAML parser. Mappings are plain objects, which keep their keys in insertion
 * order; `undefined` is `None`.
 */
module Yaml {
  import opened Wrappers
  import Text
  import Seqs

  datatype Value =
    | Null
    | Scalar(text: string)
    | Sequence(items: seq<Value>)
    | Mapping(entries: seq<(string, Value)>)

  /** A plain object: its entries in key order. */
  type Obj = seq<(string, Value)>

  /** `Object.keys(o)`. */
  function Keys(o: Obj): (ks: seq<string>)
    ensures |ks| == |o|
    ensures forall i :: 0 <= i < |o| ==> ks[i] == o[i].0
  {
    if |o| == 0 then [] else [o[0].0] + Keys(o[1..])
  }

  /** No key occurs twice, as in every object the parser or the scripts build. */
  predicate UniqueKeys(o: Obj) {
    Seqs.Distinct(Keys(o))
  }

  /** `o[k]`, with `None` for `undefined`. */
  function Get(o: Obj, k: string): (r: Option<Value>)
    ensures r.None? <==> k !in Keys(o)
    ensures r.Some? ==> (k, r.value) in o
  {
    if |o| == 0 then None
    else if o[0].0 == k then Some(o[0].1)
    else Get(o[1..], k)
  }

  /** In an object without repeated keys, `Get` finds the value stored at any position. */
  lemma GetAt(o: Obj, i: nat)
    requires UniqueKeys(o) && i < |o|
    ensures Get(o, o[i].0) == Some(o[i].1)
  {
    if i > 0 {
      GetAt(o[1..], i - 1);
    }
  }

  /** `o[k] = v`: an existing key keeps its position and takes the new value; a new key goes last. */
  function Put(o: Obj, k: string, v: Value): (r: Obj)
    ensures Get(r, k) == Some(v)
    ensures forall k' :: k' != k ==> Get(r, k') == Get(o, k')
  {
    if |o| == 0 then [(k, v)]
    else if o[0].0 == k then [(k, v)] + o[1..]
    else [o[0]] + Put(o[1..], k, v)
  }

  /** Assigning an existing key leaves the key order alone; a new key is appended. */
  lemma {:induction false} PutKeys(o: Obj, k: string, v: Value)
    ensures Keys(Put(o, k, v)) == if k in Keys(o) then Keys(o) else Keys(o) + [k]
  {
    if |o| > 0 {
      assert Keys(o) == [o[0].0] + Keys(o[1..]);
      if o[0].0 != k {
        PutKeys(o[1..], k, v);
        assert Keys(Put(o, k, v)) == [o[0].0] + Keys(Put(o[1..], k, v));
      } else {
        assert Keys(Put(o, k, v)) == [k] + Keys(o[1..]);
      }
    }
  }

  /** Assigning a key twice leaves what assigning the second value once leaves. */
  lemma {:induction false} PutTwice(o: Obj, k: string, v1: Value, v2: Value)
    ensures Put(Put(o, k, v1), k, v2) == Put(o, k, v2)
  {
    if |o| > 0 && o[0].0 != k {
      PutTwice(o[1..], k, v1, v2);
      assert Put(o, k, v1)[1..] == Put(o[1..], k, v1);
    }
  }

  /** Assignment keeps the keys already there in place. */
  lemma PutKeysPrefix(o: Obj, k: string, v: Value)
    ensures Keys(o) <= Keys(Put(o, k, v))
  {
    PutKeys(o, k, v);
  }

  /** Assignment never creates a repeated key. */
  lemma PutUnique(o: Obj, k: string, v: Value)
    requires UniqueKeys(o)
    ensures UniqueKeys(Put(o, k, v))
  {
    PutKeys(o, k, v);
    if k !in Keys(o) {
      Seqs.DistinctAppend(Keys(o), k);
    }
  }

  /** `{...a, ...b}`: every entry of `b`, in order, written into a copy of `a`. */
  function Spread(a: Obj, b: Obj): Obj
    decreases |b|
  {
    if |b| == 0 then a else Spread(Put(a, b[0].0, b[0].1), b[1..])
  }

  /** A spread is last-write-wins per key: `b` replaces whole values, it never merges into them. */
  lemma {:induction false} SpreadGet(a: Obj, b: Obj, k: string)
    requires UniqueKeys(b)
    ensures Get(Spread(a, b), k) == if k in Keys(b) then Get(b, k) else Get(a, k)
    decreases |b|
  {
    if |b| > 0 {
      assert Keys(b) == [b[0].0] + Keys(b[1..]);
      SpreadGet(Put(a, b[0].0, b[0].1), b[1..], k);
    }
  }

  /** A spread keeps the keys of `a` in place and in order; new keys come after them. */
  lemma {:induction false} SpreadKeysPrefix(a: Obj, b: Obj)
    ensures Keys(a) <= Keys(Spread(a, b))
    decreases |b|
  {
    if |b| > 0 {
      PutKeys(a, b[0].0, b[0].1);
      SpreadKeysPrefix(Put(a, b[0].0, b[0].1), b[1..]);
    }
  }

  /** The keys of a spread are exactly the keys of both objects. */
  lemma {:induction false} SpreadKeysUnion(a: Obj, b: Obj, k: string)
    ensures k in Keys(Spread(a, b)) <==> k in Keys(a) || k in Keys(b)
    decreases |b|
  {
    if |b| > 0 {
      PutKeys(a, b[0].0, b[0].1);
      SpreadKeysUnion(Put(a, b[0].0, b[0].1), b[1..], k);
      assert Keys(b) == [b[0].0] + Keys(b[1..]);
    }
  }

  /** A spread never creates a repeated key. */
  lemma {:induction false} SpreadUnique(a: Obj, b: Obj)
    requires UniqueKeys(a)
    ensures UniqueKeys(Spread(a, b))
    decreases |b|
  {
    if |b| > 0 {
      PutUnique(a, b[0].0, b[0].1);
      SpreadUnique(Put(a, b[0].0, b[0].1), b[1..]);
    }
  }

  /** `v.name` for a value that is neither `null` nor `undefined`: only mappings have fields. */
  function Field(v: Value, name: string): Option<Value> {
    if v.Mapping? then Get(v.entries, name) else None
  }

  /** `x.name` where `x` may be `undefined`: reading from `null` or `undefined` throws. */
  function Prop(x: Option<Value>, name: string): (r: Result<Option<Value>>)
    ensures r.Err? <==> x.None? || x.value.Null?
    ensures r.Ok? && r.value.Some? ==> x.value.Mapping?
  {
    match x
    case None => Err(NullProperty(name))
    case Some(Null) => Err(NullProperty(name))
    case Some(v) => Ok(Field(v, name))
  }

  /** JavaScript truthiness; every scalar is a string here, so only the empty one is falsy. */
  predicate Truthy(x: Option<Value>) {
    x.Some? && !x.value.Null? && x.value != Scalar("")
  }

  /** `[...x]`: an array's items, or a string's characters. */
  function Iterate(x: Option<Value>, what: string): (r: Result<seq<Value>>)
    ensures r.Ok? <==> x.Some? && (x.value.Sequence? || x.value.Scalar?)
    ensures r.Ok? && x.value.Sequence? ==> r.value == x.value.items
  {
    match x
    case Some(Sequence(items)) => Ok(items)
    case Some(Scalar(t)) => Ok(seq(|t|, i requires 0 <= i < |t| => Scalar([t[i]])))
    case _ => Err(NotIterable(what))
  }

  /** The items `x.map(...)` visits; only arrays have `map`. */
  function AsList(x: Option<Value>, what: string): (r: Result<seq<Value>>)
    ensures r.Ok? <==> x.Some? && x.value.Sequence?
    ensures r.Ok? ==> r.value == x.value.items
  {
    match x
    case Some(Sequence(items)) => Ok(items)
    case _ => Err(NotAList(what))
  }

  /** `${x}` for a value: the text JavaScript's `String(x)` gives it. */
  function Show(v: Value): string
    decreases v
  {
    match v
    case Null => "null"
    case Scalar(t) => t
    case Sequence(items) =>
      // Array.prototype.join renders null elements as empty text
      Text.Join(seq(|items|, i requires 0 <= i < |items| => if items[i].Null? then "" else Show(items[i])), ",")
    case Mapping(_) => "[object Object]"
  }

  /** `${x}` where `x` may be `undefined`. */
  function ShowOpt(x: Option<Value>): string {
    match x
    case None => "undefined"
    case Some(v) => Show(v)
  }
}
