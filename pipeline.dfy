/** The third-generation scraper (`pipeline.py`, class `Pipeline`): one
    query URL per (country, indicator) pair, Kosovo's deprecated code
    rewritten in the index, and one dataset per indicator built around the
    record of a chosen target year. The per-indicator dataset builder it
    calls is a parameter of the model. */
module ScraperPipeline {

  import opened Base
  import opened Text
  import opened Records
  import opened Catalog
  import WorldPopIndex

  // -----------------------------------------------------------------------
  // The country index

  const Kosovo := "KOS"
  const KosovoIso := "XKX"

  /** The code a listing entry is stored under: Kosovo's listing code is
      rewritten to its ISO code, every other code is kept. */
  function IndexCode(code: string): (c: string)
    ensures c != Kosovo
    ensures code == Kosovo ==> c == KosovoIso
    ensures code != Kosovo ==> c == code
  {
    if code == Kosovo then KosovoIso else code
  }

  /** alias -> query URL */
  type CountryUrls = ODict<string, string>
  /** country code -> alias -> query URL */
  type Index = ODict<string, CountryUrls>

  ghost predicate IndexValid(index: Index) {
    index.Valid() && forall c :: c in index.m ==> index.m[c].Valid()
  }

  /** `index.get(c, {}).get(a)` */
  function Lookup(index: Index, c: string, a: string): Option<string> {
    var urls := index.Get(c, EmptyDict());
    if a in urls.m then Some(urls.m[a]) else None
  }

  /** `index[c][a] = url`, creating the country's dictionary as needed. */
  function PutUrl(index: Index, c: string, a: string, url: string): (out: Index)
    requires IndexValid(index)
    ensures IndexValid(out)
    ensures out.m.Keys == index.m.Keys + {c}
  {
    var out := index.Put(c, index.Get(c, EmptyDict()).Put(a, url));
    assert forall c' :: c' in out.m ==> out.m[c'].Valid();
    out
  }

  /** Storing one URL changes the lookup of that (country, alias) pair
      only. */
  lemma PutUrlLookup(index: Index, c: string, a: string, url: string, c': string, a': string)
    requires IndexValid(index)
    ensures Lookup(PutUrl(index, c, a, url), c', a') == if c' == c && a' == a then Some(url) else Lookup(index, c', a')
  {
  }

  /** The index codes of a listing. */
  function IndexCodes(data: seq<ListingEntry>): set<string> {
    set i | 0 <= i < |data| :: IndexCode(data[i].iso3)
  }

  /** The position of the first entry stored under index code `c`. */
  function FirstFor(data: seq<ListingEntry>, c: string): (k: nat)
    requires c in IndexCodes(data)
    ensures k < |data| && IndexCode(data[k].iso3) == c
    ensures forall j :: 0 <= j < k ==> IndexCode(data[j].iso3) != c
  {
    if IndexCode(data[0].iso3) == c then 0
    else
      assert c in IndexCodes(data[1..]) by {
        var i :| 0 <= i < |data| && IndexCode(data[i].iso3) == c;
        assert data[1..][i - 1] == data[i];
      }
      1 + FirstFor(data[1..], c)
  }

  /** The URL an entry queries: always with the listing's own code. */
  function QueryUrl(url: string, entry: ListingEntry): string {
    url + "?iso3=" + entry.iso3
  }

  /** The index after one listing of `alias` served at `url`: the first
      entry for each index code stores its query URL; later entries for the
      same index code are skipped. */
  function AddListing(index: Index, alias: string, url: string, data: seq<ListingEntry>): (out: Index)
    requires IndexValid(index)
    ensures IndexValid(out)
    decreases |data|
  {
    if data == [] then index
    else
      var prev := AddListing(index, alias, url, data[..|data| - 1]);
      var entry := data[|data| - 1];
      if IndexCode(entry.iso3) in IndexCodes(data[..|data| - 1]) then prev
      else PutUrl(prev, IndexCode(entry.iso3), alias, QueryUrl(url, entry))
  }

  lemma IndexCodesSnoc(data: seq<ListingEntry>, i: nat)
    requires i < |data|
    ensures IndexCodes(data[..i + 1]) == IndexCodes(data[..i]) + {IndexCode(data[i].iso3)}
  {
    var a, b := data[..i], data[..i + 1];
    forall c | c in IndexCodes(b) ensures c in IndexCodes(a) + {IndexCode(data[i].iso3)} {
      var k :| 0 <= k < i + 1 && IndexCode(b[k].iso3) == c;
      if k < i { assert IndexCode(a[k].iso3) == c; }
    }
    forall c | c in IndexCodes(a) ensures c in IndexCodes(b) {
      var k :| 0 <= k < i && IndexCode(a[k].iso3) == c;
      assert IndexCode(b[k].iso3) == c;
    }
    assert IndexCode(b[i].iso3) == IndexCode(data[i].iso3);
  }

  /** The first entry for a code already named by a listing's prefix is
      the prefix's first entry for it. */
  lemma FirstForPrefix(data: seq<ListingEntry>, n: nat, c: string)
    requires n <= |data| && c in IndexCodes(data[..n])
    ensures c in IndexCodes(data) && FirstFor(data, c) == FirstFor(data[..n], c)
  {
    var k := FirstFor(data[..n], c);
    assert data[..n][k] == data[k];
    assert forall j :: 0 <= j < k ==> data[..n][j] == data[j];
  }

  /** The first entry for a code the prefix does not name is the entry
      after the prefix, when that entry names it. */
  lemma FirstForLast(data: seq<ListingEntry>, n: nat, c: string)
    requires n < |data| && c !in IndexCodes(data[..n]) && IndexCode(data[n].iso3) == c
    ensures c in IndexCodes(data) && FirstFor(data, c) == n
  {
    assert forall j :: 0 <= j < n ==> data[..n][j] == data[j];
  }

  /** After a listing, an index code it names holds, under the listing's
      alias, the query URL of the FIRST entry stored under that code (so a
      "KOS" entry is stored under "XKX" but queries "KOS"); every other
      (code, alias) pair is unchanged. */
  lemma {:induction false} AddListingLookup(index: Index, alias: string, url: string, data: seq<ListingEntry>, c: string, a: string)
    requires IndexValid(index)
    ensures Lookup(AddListing(index, alias, url, data), c, a) ==
            if a == alias && c in IndexCodes(data) then Some(QueryUrl(url, data[FirstFor(data, c)]))
            else Lookup(index, c, a)
    decreases |data|
  {
    if data != [] {
      var n := |data| - 1;
      var init := data[..n];
      var prev := AddListing(index, alias, url, init);
      var code := IndexCode(data[n].iso3);
      AddListingLookup(index, alias, url, init, c, a);
      IndexCodesSnoc(data, n);
      assert data[..n + 1] == data;
      if c in IndexCodes(init) {
        FirstForPrefix(data, n, c);
      } else if c == code {
        FirstForLast(data, n, c);
      }
      if code in IndexCodes(init) {
        assert AddListing(index, alias, url, data) == prev;
      } else {
        assert AddListing(index, alias, url, data) == PutUrl(prev, code, alias, QueryUrl(url, data[n]));
        PutUrlLookup(prev, code, alias, QueryUrl(url, data[n]), c, a);
      }
    }
  }

  /** A listing adds exactly its index codes as countries. */
  lemma {:induction false} AddListingKeys(index: Index, alias: string, url: string, data: seq<ListingEntry>)
    requires IndexValid(index)
    ensures AddListing(index, alias, url, data).m.Keys == index.m.Keys + IndexCodes(data)
    decreases |data|
  {
    if data != [] {
      var n := |data| - 1;
      AddListingKeys(index, alias, url, data[..n]);
      IndexCodesSnoc(data, n);
      assert data[..n + 1] == data;
    }
  }

  /** The loop over one listing, with the set of index codes already
      seen. */
  method IndexListing(index: Index, alias: string, url: string, data: seq<ListingEntry>) returns (out: Index)
    requires IndexValid(index)
    ensures out == AddListing(index, alias, url, data)
  {
    out := index;
    var iso3s: set<string> := {};
    for i := 0 to |data|
      invariant iso3s == IndexCodes(data[..i])
      invariant out == AddListing(index, alias, url, data[..i])
    {
      IndexCodesSnoc(data, i);
      assert data[..i + 1][..i] == data[..i];
      var iso3 := data[i].iso3;
      var urlIso3;
      if iso3 == Kosovo {
        iso3 := KosovoIso;
        urlIso3 := Kosovo;
      } else {
        urlIso3 := iso3;
      }
      if iso3 in iso3s {
        continue;
      }
      iso3s := iso3s + {iso3};
      out := PutUrl(out, iso3, alias, url + "?iso3=" + urlIso3);
    }
    assert data[..|data|] == data;
  }

  /** The index after the listings of `aliases`, in order: alias `a` lists
      its countries at `<json_url><a>/<indicator of a>`. */
  function IndexAliases(index: Index, jsonUrl: string, aliases: seq<string>, indicators: ODict<string, string>,
                        listings: map<string, seq<ListingEntry>>): (out: Index)
    requires IndexValid(index)
    requires forall a :: a in aliases ==> a in indicators.m
    ensures IndexValid(out)
    decreases |aliases|
  {
    if aliases == [] then index
    else
      var a := aliases[|aliases| - 1];
      var url := WorldPopIndex.ListingUrl(jsonUrl, a, indicators.m[a]);
      AddListing(IndexAliases(index, jsonUrl, aliases[..|aliases| - 1], indicators, listings), a, url,
                 WorldPopIndex.Listing(listings, url))
  }

  /** One more alias adds its listing to the index. */
  lemma IndexAliasesStep(index: Index, jsonUrl: string, aliases: seq<string>, i: nat, indicators: ODict<string, string>,
                         listings: map<string, seq<ListingEntry>>)
    requires IndexValid(index) && i < |aliases|
    requires forall a :: a in aliases ==> a in indicators.m
    ensures var url := WorldPopIndex.ListingUrl(jsonUrl, aliases[i], indicators.m[aliases[i]]);
      IndexAliases(index, jsonUrl, aliases[..i + 1], indicators, listings) ==
        AddListing(IndexAliases(index, jsonUrl, aliases[..i], indicators, listings), aliases[i], url,
                   WorldPopIndex.Listing(listings, url))
  {
    assert aliases[..i + 1][..i] == aliases[..i];
  }

  /** The listing of alias `a`. */
  function AliasListing(jsonUrl: string, indicators: ODict<string, string>, listings: map<string, seq<ListingEntry>>, a: string)
    : seq<ListingEntry>
    requires a in indicators.m
  {
    WorldPopIndex.Listing(listings, WorldPopIndex.ListingUrl(jsonUrl, a, indicators.m[a]))
  }

  /** Over a whole configuration: a country holds, under a configured
      alias, the query URL of the first entry of that alias's listing
      stored under the country's code; other pairs keep what they held. */
  lemma {:induction false} IndexAliasesLookup(index: Index, jsonUrl: string, aliases: seq<string>, indicators: ODict<string, string>,
                                              listings: map<string, seq<ListingEntry>>, c: string, a: string)
    requires IndexValid(index)
    requires forall x :: x in aliases ==> x in indicators.m
    requires WorldPopIndex.Distinct(aliases)
    ensures var data := if a in indicators.m then AliasListing(jsonUrl, indicators, listings, a) else [];
            var url := if a in indicators.m then WorldPopIndex.ListingUrl(jsonUrl, a, indicators.m[a]) else "";
            Lookup(IndexAliases(index, jsonUrl, aliases, indicators, listings), c, a) ==
              if a in aliases && c in IndexCodes(data) then Some(QueryUrl(url, data[FirstFor(data, c)]))
              else Lookup(index, c, a)
    decreases |aliases|
  {
    if aliases != [] {
      var init := aliases[..|aliases| - 1];
      var last := aliases[|aliases| - 1];
      assert aliases == init + [last];
      IndexAliasesLookup(index, jsonUrl, init, indicators, listings, c, a);
      var url := WorldPopIndex.ListingUrl(jsonUrl, last, indicators.m[last]);
      AddListingLookup(IndexAliases(index, jsonUrl, init, indicators, listings), last, url,
                       WorldPopIndex.Listing(listings, url), c, a);
    }
  }

  /** Over a whole configuration, the countries are exactly the index codes
      of the listings (and the countries held before). */
  lemma {:induction false} IndexAliasesKeys(index: Index, jsonUrl: string, aliases: seq<string>, indicators: ODict<string, string>,
                                            listings: map<string, seq<ListingEntry>>)
    requires IndexValid(index)
    requires forall x :: x in aliases ==> x in indicators.m
    ensures forall c :: c in IndexAliases(index, jsonUrl, aliases, indicators, listings).m <==>
      c in index.m || exists a :: a in aliases && c in IndexCodes(AliasListing(jsonUrl, indicators, listings, a))
    decreases |aliases|
  {
    if aliases != [] {
      var init := aliases[..|aliases| - 1];
      var last := aliases[|aliases| - 1];
      assert aliases == init + [last];
      IndexAliasesKeys(index, jsonUrl, init, indicators, listings);
      var url := WorldPopIndex.ListingUrl(jsonUrl, last, indicators.m[last]);
      AddListingKeys(IndexAliases(index, jsonUrl, init, indicators, listings), last, url, WorldPopIndex.Listing(listings, url));
    }
  }

  /** Starting from an empty index, Kosovo's listing code never becomes a
      country of the index. */
  lemma NoKosovoKey(jsonUrl: string, indicators: ODict<string, string>, listings: map<string, seq<ListingEntry>>)
    requires indicators.Valid()
    ensures Kosovo !in IndexAliases(EmptyDict(), jsonUrl, indicators.keys, indicators, listings).m
  {
    IndexAliasesKeys(EmptyDict(), jsonUrl, indicators.keys, indicators, listings);
  }

  // -----------------------------------------------------------------------
  // The template year

  /** Python's `xs[i]` position for a list of length `n`: a negative
      position counts from the end; out of range is IndexError. */
  function PyIndex(i: int, n: nat): (r: Result<nat>)
    ensures r.Ok? <==> -(n as int) <= i < n
    ensures r.Ok? ==> r.value < n && r.value == if i >= 0 then i else n + i
    ensures r.Failure? ==> r.error == IndexError
  {
    if 0 <= i < n then Ok(i)
    else if -(n as int) <= i < 0 then Ok(n + i)
    else Failure(IndexError)
  }

  /** The record that supplies the template: the one at `year - start` when
      the series is long enough, the last one otherwise. */
  function TemplateIndex(year: int, start: int, n: nat): (r: Result<nat>)
    requires n > 0
    ensures r.Ok? ==> r.value < n
    ensures year - start >= n ==> r == Ok(n - 1)
  {
    var index := year - start;
    if n > index then PyIndex(index, n) else Ok(n - 1)
  }

  /** When the series holds consecutive population years from `start`, the
      template is the target year's own record if the series reaches that
      year, and its last record (the newest year) when the target is beyond
      it. A target before the series start wraps around from the end, as
      Python's negative indexing does, as long as it is no more than the
      series length before it. */
  lemma TemplateYear(year: int, start: int, years: seq<int>)
    requires years != [] && forall k :: 0 <= k < |years| ==> years[k] == start + k
    ensures var t := TemplateIndex(year, start, |years|);
      && (start <= year < start + |years| ==> t.Ok? && years[t.value] == year)
      && (year >= start + |years| ==> t.Ok? && years[t.value] == start + |years| - 1)
      && (start - |years| <= year < start ==> t.Ok? && years[t.value] == year + |years|)
      && (year < start - |years| ==> t == Failure(IndexError))
  {
  }

  /** The template record annotated with the first and last population
      years of the series and the alias. */
  function Annotate(t: Metadata, series: seq<Metadata>, alias: string): (r: Metadata)
    requires series != []
    ensures r.startPopYear == Some(series[0].popyear)
    ensures r.endPopYear == Some(series[|series| - 1].popyear)
    ensures r.alias == Some(alias)
    ensures r.(startPopYear := t.startPopYear, endPopYear := t.endPopYear, alias := t.alias) == t
  {
    t.(startPopYear := Some(series[0].popyear), endPopYear := Some(series[|series| - 1].popyear), alias := Some(alias))
  }

  // -----------------------------------------------------------------------
  // One dataset per alias

  /** The per-alias dataset builder: a dataset and optional showcase from
      (country code, country name, annotated template record), or None;
      and the dataset after adding the resources of one record. */
  datatype Builder = Builder(
    generate: (string, string, Metadata) -> Option<(Dataset, Option<Showcase>)>,
    addResourceTo: (Dataset, Metadata) -> Dataset)

  /** The dataset after adding the resources of each record of `series`. */
  function AddAll(build: Builder, d: Dataset, series: seq<Metadata>): Dataset
    decreases |series|
  {
    if series == [] then d else build.addResourceTo(AddAll(build, d, series[..|series| - 1]), series[|series| - 1])
  }

  /** The position of the template record in the series served at `url`:
      a missing download, an empty series, an unparseable first year or a
      target too far before the series start abort. */
  function TemplateOf(year: int, url: string, served: map<string, seq<Metadata>>): (r: Result<nat>)
    ensures r.Ok? ==> url in served && r.value < |served[url]|
  {
    if url !in served then Failure(DownloadFailed(url))
    else
      var series := served[url];
      if series == [] then Failure(IndexError)
      else
        match ParseInt(series[0].popyear)
        case None => Failure(ValueError)
        case Some(start) => TemplateIndex(year, start, |series|)
  }

  /** The dataset built around template `k` of `series`: None when the
      template is not public, when the builder makes no dataset, or when the
      dataset ends with no resources. */
  function BuildFrom(build: Builder, countryIso3: string, countryName: string, alias: string,
                     series: seq<Metadata>, k: nat): Option<(Dataset, Option<Showcase>)>
    requires k < |series|
  {
    if !IsPublic(series[k]) then None
    else
      var template := Annotate(series[k], series, alias);
      match build.generate(countryIso3, countryName, template)
      case None => None
      case Some(made) =>
        var dataset := AddAll(build, made.0, series[k := template]);
        if dataset.resources == [] then None else Some((dataset, made.1))
  }

  /** What one alias contributes. */
  function AliasOutcome(build: Builder, year: int, countryIso3: string, countryName: string, alias: string, url: string,
                        served: map<string, seq<Metadata>>): Result<Option<(Dataset, Option<Showcase>)>>
  {
    match TemplateOf(year, url, served)
    case Failure(e) => Failure(e)
    case Ok(k) => Ok(BuildFrom(build, countryIso3, countryName, alias, served[url], k))
  }

  /** The datasets and the parallel showcases collected so far. */
  datatype Outputs = Outputs(datasets: seq<Dataset>, showcases: seq<Option<Showcase>>)

  /** The aliases of the country from position `i` on. */
  function AssembleFrom(build: Builder, year: int, countryIso3: string, countryName: string, urls: CountryUrls,
                        served: map<string, seq<Metadata>>, i: nat, acc: Outputs): Result<Outputs>
    requires urls.Valid() && i <= |urls.keys|
    decreases |urls.keys| - i
  {
    if i == |urls.keys| then Ok(acc)
    else
      var alias := urls.keys[i];
      match AliasOutcome(build, year, countryIso3, countryName, alias, urls.m[alias], served)
      case Failure(e) => Failure(e)
      case Ok(made) => AssembleFrom(build, year, countryIso3, countryName, urls, served, i + 1, Extend(acc, made))
  }

  /** The outputs after one alias: its dataset and showcase appended
      together, or nothing. */
  function Extend(acc: Outputs, made: Option<(Dataset, Option<Showcase>)>): Outputs {
    match made
    case None => acc
    case Some(m) => Outputs(acc.datasets + [m.0], acc.showcases + [m.1])
  }

  /** `generate_datasets_and_showcases` as a value: nothing for a code
      without a name, KeyError for a code that is not in the index. */
  function Assemble(build: Builder, year: int, index: Index, names: map<string, string>, countryIso3: string,
                    served: map<string, seq<Metadata>>): Result<Outputs>
    requires IndexValid(index)
  {
    match CountryName(countryIso3, names)
    case None => Ok(Outputs([], []))
    case Some(countryName) =>
      if countryIso3 !in index.m then Failure(KeyError(countryIso3))
      else AssembleFrom(build, year, countryIso3, countryName, index.m[countryIso3], served, 0, Outputs([], []))
  }

  /** Outputs whose lists run in parallel and whose datasets all have
      resources. */
  predicate WellFormed(out: Outputs) {
    && |out.datasets| == |out.showcases|
    && forall d :: d in out.datasets ==> d.resources != []
  }

  /** An alias contributes only a dataset with resources. */
  lemma AliasOutcomeResources(build: Builder, year: int, countryIso3: string, countryName: string, alias: string,
                              url: string, served: map<string, seq<Metadata>>)
    ensures var o := AliasOutcome(build, year, countryIso3, countryName, alias, url, served);
      o.Ok? && o.value.Some? ==> o.value.value.0.resources != []
  {
  }

  /** Extending by a dataset with resources, or by nothing, keeps the
      outputs well formed, extends both lists and adds at most one
      dataset. */
  lemma ExtendShape(acc: Outputs, made: Option<(Dataset, Option<Showcase>)>)
    requires WellFormed(acc)
    requires made.Some? ==> made.value.0.resources != []
    ensures var next := Extend(acc, made);
      && WellFormed(next)
      && acc.datasets <= next.datasets && acc.showcases <= next.showcases
      && |next.datasets| <= |acc.datasets| + 1
  {
  }

  /** The alias loop keeps the outputs parallel, adds only datasets with
      resources, and adds at most one dataset per remaining alias. */
  lemma {:induction false} AssembleFromShape(build: Builder, year: int, countryIso3: string, countryName: string,
                                             urls: CountryUrls, served: map<string, seq<Metadata>>, i: nat, acc: Outputs)
    requires urls.Valid() && i <= |urls.keys| && WellFormed(acc)
    ensures var r := AssembleFrom(build, year, countryIso3, countryName, urls, served, i, acc);
      r.Ok? ==> && WellFormed(r.value)
                && acc.datasets <= r.value.datasets && acc.showcases <= r.value.showcases
                && |r.value.datasets| <= |acc.datasets| + |urls.keys| - i
    decreases |urls.keys| - i
  {
    if i < |urls.keys| {
      var alias := urls.keys[i];
      var o := AliasOutcome(build, year, countryIso3, countryName, alias, urls.m[alias], served);
      if o.Ok? {
        AliasOutcomeResources(build, year, countryIso3, countryName, alias, urls.m[alias], served);
        ExtendShape(acc, o.value);
        AssembleFromShape(build, year, countryIso3, countryName, urls, served, i + 1, Extend(acc, o.value));
      }
    }
  }

  /** `generate_datasets_and_showcases` returns parallel lists, at most one
      dataset per alias of the country, every dataset with resources; a
      code without a country name gives two empty lists. */
  lemma AssembleShape(build: Builder, year: int, index: Index, names: map<string, string>, countryIso3: string,
                      served: map<string, seq<Metadata>>)
    requires IndexValid(index)
    ensures var r := Assemble(build, year, index, names, countryIso3, served);
      && (CountryName(countryIso3, names).None? ==> r == Ok(Outputs([], [])))
      && (CountryName(countryIso3, names).Some? && countryIso3 !in index.m ==> r == Failure(KeyError(countryIso3)))
      && (r.Ok? ==> WellFormed(r.value))
      && (r.Ok? && countryIso3 in index.m ==> |r.value.datasets| <= |index.m[countryIso3].keys|)
  {
    var name := CountryName(countryIso3, names);
    if name.Some? && countryIso3 in index.m {
      AssembleFromShape(build, year, countryIso3, name.value, index.m[countryIso3], served, 0, Outputs([], []));
    }
  }

  /** The publish gate: an alias whose template record is not public
      contributes nothing, whatever the other years' flags and whatever the
      builder would make. */
  lemma PrivateTemplateSkipped(build: Builder, year: int, countryIso3: string, countryName: string, alias: string,
                               url: string, served: map<string, seq<Metadata>>)
    requires TemplateOf(year, url, served).Ok?
    requires !IsPublic(served[url][TemplateOf(year, url, served).value])
    ensures AliasOutcome(build, year, countryIso3, countryName, alias, url, served) == Ok(None)
  {
  }

  /** Which aliases contribute: the template is found exactly when the
      alias does not raise; it then contributes exactly when its template
      record is public, the builder makes a dataset from the annotated
      template, and that dataset has resources once every record of the
      series (the template annotated in its own place) is added. What it
      contributes is that dataset with the builder's showcase. */
  lemma AliasOutcomeContributes(build: Builder, year: int, countryIso3: string, countryName: string, alias: string,
                                url: string, served: map<string, seq<Metadata>>)
    ensures var o := AliasOutcome(build, year, countryIso3, countryName, alias, url, served);
            var tk := TemplateOf(year, url, served);
      && (o.Failure? <==> tk.Failure?)
      && (tk.Ok? ==>
            var series := served[url];
            var t := Annotate(series[tk.value], series, alias);
            var made := build.generate(countryIso3, countryName, t);
            && (o.value.Some? <==>
                  IsPublic(series[tk.value]) && made.Some? &&
                  AddAll(build, made.value.0, series[tk.value := t]).resources != [])
            && (o.value.Some? ==> o.value.value == (AddAll(build, made.value.0, series[tk.value := t]), made.value.1)))
  {
  }

  /** What an outcome contributes: its dataset and showcase, or nothing. */
  function Made(o: Result<Option<(Dataset, Option<Showcase>)>>): (ps: seq<(Dataset, Option<Showcase>)>)
    ensures |ps| <= 1
  {
    if o.Ok? && o.value.Some? then [o.value.value] else []
  }

  /** The contributions of the aliases from position `i` on, in index
      order. */
  ghost function Contributions(build: Builder, year: int, countryIso3: string, countryName: string, urls: CountryUrls,
                               served: map<string, seq<Metadata>>, i: nat): seq<(Dataset, Option<Showcase>)>
    requires urls.Valid() && i <= |urls.keys|
    decreases |urls.keys| - i
  {
    if i == |urls.keys| then []
    else Made(AliasOutcome(build, year, countryIso3, countryName, urls.keys[i], urls.m[urls.keys[i]], served)) +
         Contributions(build, year, countryIso3, countryName, urls, served, i + 1)
  }

  /** The datasets of `ps`, in order. */
  function Firsts(ps: seq<(Dataset, Option<Showcase>)>): (ds: seq<Dataset>)
    ensures |ds| == |ps| && forall k :: 0 <= k < |ps| ==> ds[k] == ps[k].0
  {
    seq(|ps|, k requires 0 <= k < |ps| => ps[k].0)
  }

  /** The showcases of `ps`, in order. */
  function Seconds(ps: seq<(Dataset, Option<Showcase>)>): (ss: seq<Option<Showcase>>)
    ensures |ss| == |ps| && forall k :: 0 <= k < |ps| ==> ss[k] == ps[k].1
  {
    seq(|ps|, k requires 0 <= k < |ps| => ps[k].1)
  }

  /** Appending one outcome's contribution and then the rest's is appending
      their concatenation. */
  lemma ExtendThen(acc: Outputs, o: Result<Option<(Dataset, Option<Showcase>)>>,
                   rest: seq<(Dataset, Option<Showcase>)>)
    requires o.Ok?
    ensures var next := Extend(acc, o.value);
      && next.datasets + Firsts(rest) == acc.datasets + Firsts(Made(o) + rest)
      && next.showcases + Seconds(rest) == acc.showcases + Seconds(Made(o) + rest)
  {
  }

  /** The alias loop appends, in index order, the dataset and the showcase
      of every alias that contributes: `datasets[p]` and `showcases[p]` are
      the two halves of the same alias's contribution. */
  lemma {:induction false} AssembleFromContents(build: Builder, year: int, countryIso3: string, countryName: string,
                                                urls: CountryUrls, served: map<string, seq<Metadata>>, i: nat, acc: Outputs)
    requires urls.Valid() && i <= |urls.keys|
    ensures var r := AssembleFrom(build, year, countryIso3, countryName, urls, served, i, acc);
            var ps := Contributions(build, year, countryIso3, countryName, urls, served, i);
      r.Ok? ==> r.value.datasets == acc.datasets + Firsts(ps) && r.value.showcases == acc.showcases + Seconds(ps)
    decreases |urls.keys| - i
  {
    if i == |urls.keys| {
      assert Firsts([]) == [] && Seconds([]) == [];
      AppendNil(acc.datasets);
      AppendNil(acc.showcases);
    } else {
      var alias := urls.keys[i];
      var o := AliasOutcome(build, year, countryIso3, countryName, alias, urls.m[alias], served);
      if o.Ok? {
        AssembleFromContents(build, year, countryIso3, countryName, urls, served, i + 1, Extend(acc, o.value));
        ExtendThen(acc, o, Contributions(build, year, countryIso3, countryName, urls, served, i + 1));
      }
    }
  }

  /** `generate_datasets_and_showcases` for a country of the index with a
      name: the datasets and the showcases of the contributing aliases,
      pairwise, in index order. */
  lemma AssembleContents(build: Builder, year: int, index: Index, names: map<string, string>, countryIso3: string,
                         served: map<string, seq<Metadata>>)
    requires IndexValid(index)
    ensures var r := Assemble(build, year, index, names, countryIso3, served);
            var name := CountryName(countryIso3, names);
      r.Ok? && name.Some? ==>
        countryIso3 in index.m &&
        var ps := Contributions(build, year, countryIso3, name.value, index.m[countryIso3], served, 0);
        r.value == Outputs(Firsts(ps), Seconds(ps))
  {
    var name := CountryName(countryIso3, names);
    if name.Some? && countryIso3 in index.m {
      AssembleFromContents(build, year, countryIso3, name.value, index.m[countryIso3], served, 0, Outputs([], []));
    }
  }

  // -----------------------------------------------------------------------
  // The class

  class Pipeline {
    const jsonUrl: string
    /** alias -> indicator */
    const indicators: ODict<string, string>
    const year: int
    var indicatorsMetadata: map<string, Indicator>
    var countriesData: Index

    ghost predicate Valid()
      reads this
    {
      indicators.Valid() && IndexValid(countriesData)
    }

    constructor (jsonUrl: string, indicators: ODict<string, string>, year: int)
      requires indicators.Valid()
      ensures Valid()
      ensures this.jsonUrl == jsonUrl && this.indicators == indicators && this.year == year
      ensures indicatorsMetadata == map[] && countriesData == EmptyDict()
    {
      this.jsonUrl := jsonUrl;
      this.indicators := indicators;
      this.year := year;
      indicatorsMetadata := map[];
      countriesData := EmptyDict();
    }

    /** `get_indicators_metadata`: stores the catalogue entries of the
        configured aliases, each under its alias. */
    method GetIndicatorsMetadata(catalog: seq<Indicator>) returns (selected: map<string, Indicator>)
      modifies this`indicatorsMetadata
      ensures indicatorsMetadata == SelectIndicators(old(indicatorsMetadata), catalog, indicators.keys)
      ensures selected == indicatorsMetadata
    {
      var aliases := indicators.keys;
      ghost var start := indicatorsMetadata;
      for i := 0 to |catalog|
        invariant indicatorsMetadata == SelectIndicators(start, catalog[..i], aliases)
      {
        assert catalog[..i + 1][..i] == catalog[..i];
        var alias := catalog[i].alias;
        if alias !in aliases {
          continue;
        }
        indicatorsMetadata := indicatorsMetadata[alias := catalog[i]];
      }
      assert catalog[..|catalog|] == catalog;
      selected := indicatorsMetadata;
    }

    /** `get_countriesdata`: every configured alias's listing is indexed in
        turn; the country list is the sorted list of index keys. A listing
        that cannot be fetched aborts. */
    method GetCountriesData(listings: map<string, seq<ListingEntry>>) returns (r: Result<(Index, seq<string>)>)
      requires Valid()
      modifies this`countriesData
      ensures Valid()
      ensures r.Ok? <==> forall a :: a in indicators.m ==> WorldPopIndex.ListingUrl(jsonUrl, a, indicators.m[a]) in listings
      ensures r.Failure? ==> r.error.DownloadFailed? && r.error.url !in listings
      ensures r.Ok? ==>
        && countriesData == IndexAliases(old(countriesData), jsonUrl, indicators.keys, indicators, listings)
        && r.value == (countriesData, SortAscending(countriesData.keys))
    {
      var aliases := indicators.keys;
      var index := countriesData;
      for i := 0 to |aliases|
        invariant IndexValid(index)
        invariant forall k :: 0 <= k < i ==> WorldPopIndex.ListingUrl(jsonUrl, aliases[k], indicators.m[aliases[k]]) in listings
        invariant index == IndexAliases(old(countriesData), jsonUrl, aliases[..i], indicators, listings)
      {
        var alias := aliases[i];
        var url := WorldPopIndex.ListingUrl(jsonUrl, alias, indicators.m[alias]);
        if url !in listings {
          countriesData := index;
          return Failure(DownloadFailed(url));
        }
        IndexAliasesStep(old(countriesData), jsonUrl, aliases, i, indicators, listings);
        index := IndexListing(index, alias, url, listings[url]);
      }
      assert aliases[..|aliases|] == aliases;
      forall a | a in indicators.m ensures WorldPopIndex.ListingUrl(jsonUrl, a, indicators.m[a]) in listings {
        var k :| 0 <= k < |aliases| && aliases[k] == a;
      }
      countriesData := index;
      r := Ok((countriesData, SortAscending(countriesData.keys)));
    }

    /** The template lookup of the alias loop. */
    method SelectTemplate(countryUrl: string, served: map<string, seq<Metadata>>) returns (r: Result<nat>)
      ensures r == TemplateOf(year, countryUrl, served)
    {
      if countryUrl !in served {
        return Failure(DownloadFailed(countryUrl));
      }
      var metadataAllyears := served[countryUrl];
      if |metadataAllyears| == 0 {
        return Failure(IndexError);
      }
      var start := ParseInt(metadataAllyears[0].popyear);
      if start.None? {
        return Failure(ValueError);
      }
      var index := year - start.value;
      var numYears := |metadataAllyears|;
      if numYears > index {
        r := PyIndex(index, numYears);
      } else {
        r := Ok(numYears - 1);
      }
    }

    /** The dataset construction of the alias loop. */
    static method BuildDataset(build: Builder, countryIso3: string, countryName: string, alias: string,
                               metadataAllyears: seq<Metadata>, k: nat) returns (r: Option<(Dataset, Option<Showcase>)>)
      requires k < |metadataAllyears|
      ensures r == BuildFrom(build, countryIso3, countryName, alias, metadataAllyears, k)
    {
      var metadata := metadataAllyears[k];
      if Lower(metadata.public) != "y" {
        return None;
      }
      metadata := Annotate(metadata, metadataAllyears, alias);
      var series := metadataAllyears[k := metadata];
      var made := build.generate(countryIso3, countryName, metadata);
      if made.None? {
        return None;
      }
      var dataset := made.value.0;
      for j := 0 to |series|
        invariant dataset == AddAll(build, made.value.0, series[..j])
      {
        assert series[..j + 1][..j] == series[..j];
        dataset := build.addResourceTo(dataset, series[j]);
      }
      assert series[..|series|] == series;
      if |dataset.resources| == 0 {
        return None;
      }
      r := Some((dataset, made.value.1));
    }

    /** The body of the alias loop. */
    method GenerateForAlias(build: Builder, countryIso3: string, countryName: string, alias: string, countryUrl: string,
                            served: map<string, seq<Metadata>>) returns (r: Result<Option<(Dataset, Option<Showcase>)>>)
      ensures r == AliasOutcome(build, year, countryIso3, countryName, alias, countryUrl, served)
    {
      var k := SelectTemplate(countryUrl, served);
      if k.Failure? {
        return Failure(k.error);
      }
      var made := BuildDataset(build, countryIso3, countryName, alias, served[countryUrl], k.value);
      r := Ok(made);
    }

    /** `generate_datasets_and_showcases`: for each alias of the country,
        in index order, the dataset and its showcase are appended together
        when the dataset has resources. */
    method GenerateDatasetsAndShowcases(build: Builder, names: map<string, string>, countryIso3: string,
                                        served: map<string, seq<Metadata>>) returns (r: Result<Outputs>)
      requires Valid()
      ensures r == Assemble(build, year, countriesData, names, countryIso3, served)
    {
      var countryName := CountryName(countryIso3, names);
      if countryName.None? {
        return Ok(Outputs([], []));
      }
      if countryIso3 !in countriesData.m {
        return Failure(KeyError(countryIso3));
      }
      var urls := countriesData.m[countryIso3];
      var out := Outputs([], []);
      for i := 0 to |urls.keys|
        invariant AssembleFrom(build, year, countryIso3, countryName.value, urls, served, i, out) ==
                  AssembleFrom(build, year, countryIso3, countryName.value, urls, served, 0, Outputs([], []))
      {
        var alias := urls.keys[i];
        ghost var old_out := out;
        var made := GenerateForAlias(build, countryIso3, countryName.value, alias, urls.m[alias], served);
        if made.Failure? {
          return Failure(made.error);
        }
        if made.value.Some? {
          out := Outputs(out.datasets + [made.value.value.0], out.showcases + [made.value.value.1]);
        }
        assert out == Extend(old_out, made.value);
      }
      r := Ok(out);
    }
  }
}
