/** Values shared by every part of the model: optional values, the Python
    exceptions that abort an operation, and insertion-ordered dictionaries. */
module Base {

  datatype Option<+T> = None | Some(value: T)

  /** The exceptions the scraper lets propagate to its caller. */
  datatype Error =
    | DownloadFailed(url: string)   // the fetcher could not serve a URL
    | IndexError                    // `x[0]`, `x[-1]` or `x[1]` on a list too short
    | ValueError                    // `int(...)` or a tuple unpacking that does not fit
    | KeyError(key: string)         // `d[key]` for a missing key
    | ParserError                   // `parse_date` on text it cannot read

  datatype Result<+T> = Ok(value: T) | Failure(error: Error)

  /** A Python `dict`: a map together with the order in which its keys were
      first inserted, which is the order in which Python iterates it. */
  datatype ODict<K(==,!new), V> = ODict(keys: seq<K>, m: map<K, V>) {

    ghost predicate Valid() {
      && (forall i, j :: 0 <= i < j < |keys| ==> keys[i] != keys[j])
      && (forall k :: k in m <==> k in keys)
    }

    /** `d.get(k, default)` */
    function Get(k: K, default: V): V {
      if k in m then m[k] else default
    }

    /** `d[k] = v`: a new key goes to the end, an existing key keeps its
        place. */
    function Put(k: K, v: V): (d: ODict<K, V>)
      requires Valid()
      ensures d.Valid()
      ensures d.m == m[k := v]
      ensures d.keys == AddKey(keys, k)
    {
      ODict(AddKey(keys, k), m[k := v])
    }

    /** `list(d.values())` */
    function Values(): (vs: seq<V>)
      requires Valid()
      ensures |vs| == |keys|
      ensures forall i :: 0 <= i < |keys| ==> vs[i] == m[keys[i]]
    {
      seq(|keys|, i requires 0 <= i < |keys| => m[keys[i]])
    }
  }

  /** Storing under a key twice is storing the second value. */
  lemma PutTwice<K(!new), V>(d: ODict<K, V>, k: K, a: V, b: V)
    requires d.Valid()
    ensures d.Put(k, a).Put(k, b) == d.Put(k, b)
  {
    assert AddKey(AddKey(d.keys, k), k) == AddKey(d.keys, k);
    assert d.m[k := a][k := b] == d.m[k := b];
  }

  function EmptyDict<K(==,!new), V>(): (d: ODict<K, V>)
    ensures d.Valid() && d.m == map[]
  {
    ODict([], map[])
  }

  function AddKey<K(==)>(keys: seq<K>, k: K): seq<K> {
    if k in keys then keys else keys + [k]
  }

  /** Concatenation of a sequence of sequences, as `list.extend` in a loop. */
  function Flatten<T>(ss: seq<seq<T>>): seq<T> {
    if ss == [] then [] else Flatten(ss[..|ss| - 1]) + ss[|ss| - 1]
  }

  /** Membership in a suffix, one element at a time. */
  lemma InSuffix<T>(xs: seq<T>, i: nat, x: T)
    requires i < |xs|
    ensures x in xs[i..] <==> x == xs[i] || x in xs[i + 1..]
  {
    assert xs[i..] == [xs[i]] + xs[i + 1..];
  }

  /** In a sequence without repetitions an element occurs neither before
      nor after its own position. */
  lemma NotElsewhere<T>(xs: seq<T>, i: nat)
    requires i < |xs|
    requires forall a, b :: 0 <= a < b < |xs| ==> xs[a] != xs[b]
    ensures xs[i] !in xs[..i] && xs[i] !in xs[i + 1..]
  {
    assert forall a :: 0 <= a < i ==> xs[..i][a] == xs[a];
    assert forall b :: i + 1 <= b < |xs| ==> xs[i + 1..][b - i - 1] == xs[b];
  }

  lemma PrefixSnoc<T>(xs: seq<T>, i: nat)
    requires i < |xs|
    ensures xs[..i + 1] == xs[..i] + [xs[i]]
  {
  }

  lemma AppendNil<T>(a: seq<T>)
    ensures a + [] == a
  {
  }

  lemma AppendAssoc<T>(a: seq<T>, b: seq<T>, c: seq<T>)
    ensures (a + b) + c == a + (b + c)
  {
  }

  lemma FlattenSnoc<T>(ss: seq<seq<T>>, s: seq<T>)
    ensures Flatten(ss + [s]) == Flatten(ss) + s
  {
    assert (ss + [s])[..|ss|] == ss;
  }

  /** Every element of the concatenation comes from one of the parts, and
      every part is inside it. */
  lemma {:induction false} FlattenMembers<T>(ss: seq<seq<T>>, x: T)
    ensures x in Flatten(ss) <==> exists i :: 0 <= i < |ss| && x in ss[i]
  {
    if ss != [] {
      var init := ss[..|ss| - 1];
      FlattenMembers(init, x);
      if x in Flatten(init) {
        var i :| 0 <= i < |init| && x in init[i];
        assert x in ss[i];
      }
      if exists i :: 0 <= i < |ss| && x in ss[i] {
        var i :| 0 <= i < |ss| && x in ss[i];
        if i < |ss| - 1 {
          assert x in init[i];
        }
      }
    }
  }

  lemma {:induction false} FlattenConcat<T>(a: seq<seq<T>>, b: seq<seq<T>>)
    ensures Flatten(a + b) == Flatten(a) + Flatten(b)
    decreases |b|
  {
    if b == [] {
      assert a + b == a;
    } else {
      var binit := b[..|b| - 1];
      assert (a + b)[..|a + b| - 1] == a + binit;
      FlattenConcat(a, binit);
      AppendAssoc(Flatten(a), Flatten(binit), b[|b| - 1]);
    }
  }
}
