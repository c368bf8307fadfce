/** JavaScript plain objects used as dictionaries: string keys visited by `for ... in`
    in a fixed order, and the three operations the server applies to them:
    `o[k]`, `o[k] = v` and `delete o[k]`. */
module Tables {

  datatype Option<+T> = None | Some(value: T)

  /** No key occurs twice. */
  ghost predicate Distinct(s: seq<string>)
  {
    forall i, j :: 0 <= i < j < |s| ==> s[i] != s[j]
  }

  /** Position of `k` in `s`. */
  function IndexOf<T(==)>(s: seq<T>, k: T): (i: nat)
    requires k in s
    ensures i < |s| && s[i] == k
  {
    if s[0] == k then 0 else 1 + IndexOf(s[1..], k)
  }

  /** Dropping the entry at position `i` keeps the other keys, in order, and no duplicate. */
  lemma DropAt(s: seq<string>, i: nat)
    requires Distinct(s) && i < |s|
    ensures Distinct(s[..i] + s[i + 1..])
    ensures forall k :: k in s[..i] + s[i + 1..] <==> k in s && k != s[i]
  {
    var t := s[..i] + s[i + 1..];
    assert forall j :: 0 <= j < |t| ==> t[j] == (if j < i then s[j] else s[j + 1]);
    forall k | k in s && k != s[i] ensures k in t {
      var j :| 0 <= j < |s| && s[j] == k;
      assert t[if j < i then j else j - 1] == k;
    }
  }

  /** A plain object: `keys` is the order in which a for-in loop visits its own
      properties, `vals` what each property holds. */
  datatype Dict<V> = Dict(keys: seq<string>, vals: map<string, V>) {

    ghost predicate Valid()
    {
      Distinct(keys) && forall k :: k in vals <==> k in keys
    }

    /** `o[k]`: the stored value, or `undefined` when `k` is not a property. */
    function Get(k: string): (r: Option<V>)
      ensures r.Some? <==> k in vals
      ensures r.Some? ==> r.value == vals[k]
    {
      if k in vals then Some(vals[k]) else None
    }

    /** `o[k] = v`: an existing key keeps its place in the iteration order, a new one
        is visited last; no other property changes. */
    function Put(k: string, v: V): (d: Dict<V>)
      requires Valid()
      ensures d.Valid()
      ensures d.Get(k) == Some(v)
      ensures forall j :: j != k ==> d.Get(j) == Get(j)
      ensures k in vals ==> d.keys == keys
      ensures k !in vals ==> d.keys == keys + [k]
    {
      Dict(if k in vals then keys else keys + [k], vals[k := v])
    }

    /** `delete o[k]`: the property disappears, the others stay, in the same order. */
    function Remove(k: string): (d: Dict<V>)
      requires Valid()
      ensures d.Valid()
      ensures d.Get(k) == None
      ensures forall j :: j != k ==> d.Get(j) == Get(j)
      ensures k !in vals ==> d.keys == keys
      ensures k in vals ==> exists i :: 0 <= i < |keys| && keys[i] == k && d.keys == keys[..i] + keys[i + 1..]
    {
      if k !in vals then this
      else
        var i := IndexOf(keys, k);
        DropEntry(this, i);
        Dict(keys[..i] + keys[i + 1..], vals - {k})
    }
  }

  /** Dropping the entry at position `i` of a well-formed table leaves a well-formed table. */
  lemma DropEntry<V>(d: Dict<V>, i: nat)
    requires d.Valid() && i < |d.keys|
    ensures Dict(d.keys[..i] + d.keys[i + 1..], d.vals - {d.keys[i]}).Valid()
  {
    DropAt(d.keys, i);
    var r := Dict(d.keys[..i] + d.keys[i + 1..], d.vals - {d.keys[i]});
    assert forall k :: k in r.vals <==> k in d.vals && k != d.keys[i];
  }

  /** `{}`: the object literal with no properties. */
  function Empty<V>(): (d: Dict<V>)
    ensures d.Valid()
    ensures forall k :: d.Get(k) == None
  {
    Dict([], map[])
  }
}
