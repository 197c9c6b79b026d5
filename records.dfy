/**
  The JavaScript objects the pipeline handles: the indexer's search results, which the
  choice labelling later extends in place. An object is its own properties in insertion
  order, which is the order `Object.keys` reports them in.
 */
module Records {
  import opened Wrappers

  /** A property value. `SelfRef` is a reference back to the object that holds the
      property: the only object-valued property the pipeline ever creates is
      `item.value = item`. */
  datatype Value = Str(s: string) | Int(n: int) | Undefined | Null | SelfRef
  {
    /** `undefined` or `null`: reading a property of it throws a TypeError. */
    predicate Nullish() { Undefined? || Null? }
  }

  datatype Prop = Prop(key: string, value: Value)

  type Record = seq<Prop>

  /** What a stage can throw: a TypeError from reading a property of `undefined` or
      `null`, or a rejection coming from a collaborator. */
  datatype Error = TypeError(property: string) | Rejected(reason: string)

  ghost predicate DistinctKeys(r: Record) {
    forall i, j :: 0 <= i < j < |r| ==> r[i].key != r[j].key
  }

  /** Plain data: no property refers back to its object. */
  ghost predicate Plain(r: Record) {
    forall i :: 0 <= i < |r| ==> !r[i].value.SelfRef?
  }

  /** The own property named `k`, if there is one: the first one, which under
      `DistinctKeys` is the only one. */
  function Lookup(r: Record, k: string): (v: Option<Value>)
    ensures v.Some? && Plain(r) ==> !v.value.SelfRef?
  {
    if r == [] then None
    else if r[0].key == k then Some(r[0].value)
    else Lookup(r[1..], k)
  }

  /** A key is missing exactly when no property carries it, and a present key reads
      as the value of a property that carries it. */
  lemma {:induction false} LookupSpec(r: Record, k: string)
    ensures Lookup(r, k).None? <==> forall i :: 0 <= i < |r| ==> r[i].key != k
    ensures Lookup(r, k).Some? ==> exists i :: 0 <= i < |r| && r[i] == Prop(k, Lookup(r, k).value)
  {
    if r != [] && r[0].key != k {
      LookupSpec(r[1..], k);
      if Lookup(r, k).Some? {
        var i :| 0 <= i < |r[1..]| && r[1..][i] == Prop(k, Lookup(r, k).value);
        assert r[i + 1] == Prop(k, Lookup(r, k).value);
      }
      assert forall i :: 1 <= i < |r| ==> r[i] == r[1..][i - 1];
    }
  }

  /** Under distinct keys, the property at position `i` is what its key reads as. */
  lemma LookupAt(r: Record, i: nat)
    requires DistinctKeys(r) && i < |r|
    ensures Lookup(r, r[i].key) == Some(r[i].value)
  {
    if i > 0 {
      assert r[0].key != r[i].key;
      assert r[1..][i - 1] == r[i];
      LookupAt(r[1..], i - 1);
    }
  }

  /** Reading `r[k]`: a missing property reads as `undefined`. */
  function Get(r: Record, k: string): (v: Value)
    ensures Plain(r) ==> !v.SelfRef?
  {
    match Lookup(r, k)
    case None => Undefined
    case Some(v) => v
  }

  /** The assignment `r[k] = v`: an existing property keeps its place and takes the new
      value, a new one is appended after all the others. */
  function Set(r: Record, k: string, v: Value): (r': Record)
    ensures Lookup(r', k) == Some(v)
    ensures Lookup(r, k).None? ==> r' == r + [Prop(k, v)]
  {
    if r == [] then [Prop(k, v)]
    else if r[0].key == k then [Prop(k, v)] + r[1..]
    else [r[0]] + Set(r[1..], k, v)
  }

  /** Assigning `r[k]` leaves every other key reading as before. */
  lemma {:induction false} SetFrame(r: Record, k: string, v: Value, other: string)
    requires other != k
    ensures Lookup(Set(r, k, v), other) == Lookup(r, other)
  {
    if r != [] && r[0].key != k {
      SetFrame(r[1..], k, v, other);
    }
  }

  /** Assigning to an existing property changes no key and no position, only that
      property's value. */
  lemma {:induction false} SetInPlace(r: Record, k: string, v: Value)
    requires Lookup(r, k).Some?
    ensures |Set(r, k, v)| == |r|
    ensures forall i :: 0 <= i < |r| ==> Set(r, k, v)[i].key == r[i].key
    ensures forall i :: 0 <= i < |r| && r[i].key != k ==> Set(r, k, v)[i] == r[i]
  {
    if r[0].key != k {
      var tail := r[1..];
      var updated := Set(r, k, v);
      SetInPlace(tail, k, v);
      assert updated == [r[0]] + Set(tail, k, v);
      forall i | 1 <= i < |r|
        ensures updated[i] == Set(tail, k, v)[i - 1] && r[i] == tail[i - 1]
      {
      }
    }
  }

  /** An assignment keeps the keys of an object distinct. */
  lemma SetKeepsDistinct(r: Record, k: string, v: Value)
    requires DistinctKeys(r)
    ensures DistinctKeys(Set(r, k, v))
  {
    LookupSpec(r, k);
    if Lookup(r, k).Some? {
      SetInPlace(r, k, v);
      SameKeysDistinct(r, Set(r, k, v));
    } else {
      AppendDistinct(r, Prop(k, v));
    }
  }

  lemma SameKeysDistinct(r: Record, r': Record)
    requires DistinctKeys(r) && |r'| == |r|
    requires forall i :: 0 <= i < |r| ==> r'[i].key == r[i].key
    ensures DistinctKeys(r')
  {
  }

  lemma AppendDistinct(r: Record, p: Prop)
    requires DistinctKeys(r) && forall i :: 0 <= i < |r| ==> r[i].key != p.key
    ensures DistinctKeys(r + [p])
  {
    var r' := r + [p];
    forall i, j | 0 <= i < j < |r'|
      ensures r'[i].key != r'[j].key
    {
      assert r'[i] == r[i];
      if j < |r| {
        assert r'[j] == r[j];
      }
    }
  }

  /** JavaScript truthiness: the empty string, zero, `undefined` and `null` are falsy. */
  predicate Truthy(v: Value) {
    match v
    case Str(s) => s != ""
    case Int(n) => n != 0
    case Undefined => false
    case Null => false
    case SelfRef => true
  }

  /** The string a template literal `${v}` (or `String(v)`) produces. */
  function Render(v: Value): string {
    match v
    case Str(s) => s
    case Int(n) => IntToString(n)
    case Undefined => "undefined"
    case Null => "null"
    case SelfRef => "[object Object]"
  }

  function IntToString(n: int): string {
    if n < 0 then "-" + NatToString(-n) else NatToString(n)
  }

  function NatToString(n: nat): (s: string)
    ensures |s| > 0
  {
    if n < 10 then ["0123456789"[n]] else NatToString(n / 10) + ["0123456789"[n % 10]]
  }

  /** The shape of a search result from the indexer: a plain object whose three ranking
      keys hold integers. */
  ghost predicate IsCandidate(r: Record) {
    && DistinctKeys(r)
    && Plain(r)
    && Get(r, "score").Int?
    && Get(r, "resolution").Int?
    && Get(r, "seeders").Int?
  }

  type Candidate = r: Record | IsCandidate(r)
    witness [Prop("score", Int(0)), Prop("resolution", Int(0)), Prop("seeders", Int(0))]
}
