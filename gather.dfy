/** Downloading the per-country metadata of one indicator: for each
    sub-alias, in the order of the country's alias dictionary, the records
    served at each of its URLs, appended to whatever was already gathered
    under that sub-alias. Both scraper generations run this loop. */
module Gather {

  import opened Base
  import opened Records

  /** The position of the first URL the fetcher cannot serve, or the length
      of `urls` when it serves them all. */
  function FirstUnserved(urls: seq<string>, served: map<string, Payload>): (k: nat)
    ensures k <= |urls|
    ensures k < |urls| ==> urls[k] !in served
    ensures forall j :: 0 <= j < k ==> urls[j] in served
  {
    if urls == [] || urls[0] !in served then 0
    else 1 + FirstUnserved(urls[1..], served)
  }

  /** The first unserved position is determined by which URLs are served. */
  lemma {:induction false} FirstUnservedIs(urls: seq<string>, served: map<string, Payload>, k: nat)
    requires k <= |urls| && (k < |urls| ==> urls[k] !in served)
    requires forall j :: 0 <= j < k ==> urls[j] in served
    ensures FirstUnserved(urls, served) == k
    decreases |urls|
  {
    if urls != [] && k > 0 {
      FirstUnservedIs(urls[1..], served, k - 1);
    }
  }

  /** The records served for `urls`, in order: a list payload contributes
      all of its records, a single record contributes itself. */
  function Downloaded(urls: seq<string>, served: map<string, Payload>): seq<Metadata>
    decreases |urls|
  {
    if urls == [] then []
    else Downloaded(urls[..|urls| - 1], served) + Served(served, urls[|urls| - 1])
  }

  /** The records served at `u`; never read for a URL that is not served. */
  function Served(served: map<string, Payload>, u: string): seq<Metadata> {
    if u in served then RecordsOf(served[u]) else []
  }

  /** Downloading two runs of URLs one after the other yields the records of
      the first run followed by those of the second. */
  lemma {:induction false} DownloadedConcat(a: seq<string>, b: seq<string>, served: map<string, Payload>)
    ensures Downloaded(a + b, served) == Downloaded(a, served) + Downloaded(b, served)
    decreases |b|
  {
    if b == [] {
      assert a + b == a;
    } else {
      var binit := b[..|b| - 1];
      var u := b[|b| - 1];
      assert b == binit + [u];
      assert a + b == (a + binit) + [u];
      assert (a + b)[..|a + b| - 1] == a + binit;
      DownloadedConcat(a, binit, served);
      var x := Downloaded(a, served);
      var y := Downloaded(binit, served);
      AppendAssoc(x, y, Served(served, u));
    }
  }

  /** One subalias's download: the records of all its URLs, or the error of
      the first URL that cannot be served. */
  function Fetched(urls: seq<string>, served: map<string, Payload>): Result<seq<Metadata>> {
    var k := FirstUnserved(urls, served);
    if k < |urls| then Failure(DownloadFailed(urls[k])) else Ok(Downloaded(urls, served))
  }

  /** A sub-alias's download succeeds exactly when every one of its URLs is
      served, and otherwise fails on a URL that is not. */
  lemma FetchedSpec(urls: seq<string>, served: map<string, Payload>)
    ensures Fetched(urls, served).Ok? <==> forall u :: u in urls ==> u in served
    ensures Fetched(urls, served).Failure? ==>
      exists k :: 0 <= k < |urls| && urls[k] !in served && Fetched(urls, served).error == DownloadFailed(urls[k])
  {
    var k := FirstUnserved(urls, served);
    if k == |urls| {
      forall u | u in urls ensures u in served {
        var j :| 0 <= j < |urls| && urls[j] == u;
      }
    }
  }

  /** The gathered dictionary after the sub-aliases of `ca` from position
      `i` on, starting from `acc`: each appends the records of its URLs to
      what it held; the first URL that cannot be served ends the loop. */
  function GatherFrom(ca: ODict<string, seq<string>>, i: nat, acc: ODict<string, seq<Metadata>>, served: map<string, Payload>)
    : (r: Result<ODict<string, seq<Metadata>>>)
    requires ca.Valid() && acc.Valid() && i <= |ca.keys|
    ensures r.Ok? ==> r.value.Valid()
    decreases |ca.keys| - i
  {
    if i == |ca.keys| then Ok(acc)
    else
      var s := ca.keys[i];
      match Fetched(ca.m[s], served)
      case Failure(e) => Failure(e)
      case Ok(rs) => GatherFrom(ca, i + 1, acc.Put(s, acc.Get(s, []) + rs), served)
  }

  /** Gathering succeeds exactly when every URL of every remaining
      sub-alias is served. */
  lemma {:induction false} GatherOk(ca: ODict<string, seq<string>>, i: nat, acc: ODict<string, seq<Metadata>>, served: map<string, Payload>)
    requires ca.Valid() && acc.Valid() && i <= |ca.keys|
    ensures GatherFrom(ca, i, acc, served).Ok? <==>
      forall k, u :: i <= k < |ca.keys| && u in ca.m[ca.keys[k]] ==> u in served
    decreases |ca.keys| - i
  {
    if i < |ca.keys| {
      var s := ca.keys[i];
      FetchedSpec(ca.m[s], served);
      if Fetched(ca.m[s], served).Ok? {
        GatherOk(ca, i + 1, acc.Put(s, acc.Get(s, []) + Fetched(ca.m[s], served).value), served);
      }
    }
  }

  /** After gathering, a remaining sub-alias holds what it held before
      followed by the records of its URLs; any other key keeps its records,
      and no other key appears. */
  lemma {:induction false} GatherEntry(ca: ODict<string, seq<string>>, i: nat, acc: ODict<string, seq<Metadata>>,
                                       served: map<string, Payload>, s: string)
    requires ca.Valid() && acc.Valid() && i <= |ca.keys|
    requires GatherFrom(ca, i, acc, served).Ok?
    ensures var all := GatherFrom(ca, i, acc, served).value;
      && (s in all.m <==> s in acc.m || s in ca.keys[i..])
      && (s in ca.keys[i..] ==> Fetched(ca.m[s], served).Ok? && all.m[s] == acc.Get(s, []) + Fetched(ca.m[s], served).value)
      && (s !in ca.keys[i..] && s in acc.m ==> all.m[s] == acc.m[s])
    decreases |ca.keys| - i
  {
    if i < |ca.keys| {
      var t := ca.keys[i];
      var next := acc.Put(t, acc.Get(t, []) + Fetched(ca.m[t], served).value);
      GatherEntry(ca, i + 1, next, served, s);
      InSuffix(ca.keys, i, s);
      NotElsewhere(ca.keys, i);
    }
  }

  /** Starting from the keys before position `i`, the gathered dictionary
      has the country's sub-aliases as keys, in the same order. */
  lemma {:induction false} GatherKeys(ca: ODict<string, seq<string>>, i: nat, acc: ODict<string, seq<Metadata>>, served: map<string, Payload>)
    requires ca.Valid() && acc.Valid() && i <= |ca.keys| && acc.keys == ca.keys[..i]
    requires GatherFrom(ca, i, acc, served).Ok?
    ensures GatherFrom(ca, i, acc, served).value.keys == ca.keys
    decreases |ca.keys| - i
  {
    if i < |ca.keys| {
      var t := ca.keys[i];
      var next := acc.Put(t, acc.Get(t, []) + Fetched(ca.m[t], served).value);
      NotElsewhere(ca.keys, i);
      PrefixSnoc(ca.keys, i);
      assert next.keys == ca.keys[..i + 1];
      GatherKeys(ca, i + 1, next, served);
    } else {
      assert ca.keys[..i] == ca.keys;
    }
  }

  /** The downloads of one sub-alias, URL by URL. */
  method FetchAll(urls: seq<string>, served: map<string, Payload>) returns (r: Result<seq<Metadata>>)
    ensures r == Fetched(urls, served)
  {
    var list := [];
    for j := 0 to |urls|
      invariant forall k :: 0 <= k < j ==> urls[k] in served
      invariant list == Downloaded(urls[..j], served)
    {
      var u := urls[j];
      if u !in served {
        FirstUnservedIs(urls, served, j);
        return Failure(DownloadFailed(u));
      }
      assert urls[..j + 1][..j] == urls[..j];
      list := list + RecordsOf(served[u]);
    }
    FirstUnservedIs(urls, served, |urls|);
    assert urls[..|urls|] == urls;
    r := Ok(list);
  }

  /** The download loop: `get_allmetadata_for_country` and the first half
      of `generate_dataset_and_showcases`. */
  method GatherMetadata(acc: ODict<string, seq<Metadata>>, ca: ODict<string, seq<string>>, served: map<string, Payload>)
    returns (r: Result<ODict<string, seq<Metadata>>>)
    requires acc.Valid() && ca.Valid()
    ensures r == GatherFrom(ca, 0, acc, served)
  {
    var all := acc;
    for i := 0 to |ca.keys|
      invariant all.Valid()
      invariant GatherFrom(ca, i, all, served) == GatherFrom(ca, 0, acc, served)
    {
      var s := ca.keys[i];
      var fetched := FetchAll(ca.m[s], served);
      if fetched.Failure? {
        return Failure(fetched.error);
      }
      all := all.Put(s, all.Get(s, []) + fetched.value);
    }
    r := Ok(all);
  }
}
