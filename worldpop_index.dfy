/** The first-generation scraper (`worldpop.py`, class `WorldPop`): the
    indicator filter and the country index it builds from the per-indicator
    country listings. The class keeps only its configuration, so its
    methods are modelled as methods over that configuration. */
module WorldPopIndex {

  import opened Base
  import opened Text
  import opened Records
  import opened Catalog

  /** The configuration of one alias: the sub-aliases listed per country
      (`"country"`, an empty list when absent) and the one listed as a
      whole (`"global"`, "" when absent or empty). */
  datatype AliasConfig = AliasConfig(country: seq<string>, global: string)

  /** sub-alias -> URLs */
  type CountryAlias = ODict<string, seq<string>>
  /** alias -> sub-alias -> URLs */
  type CountryData = ODict<string, CountryAlias>
  /** country code -> alias -> sub-alias -> URLs */
  type CountriesData = ODict<string, CountryData>

  ghost predicate DeepValid(index: CountriesData) {
    && index.Valid()
    && (forall c :: c in index.m ==> index.m[c].Valid())
    && (forall c, a :: c in index.m && a in index.m[c].m ==> index.m[c].m[a].Valid())
  }

  /** `index.get(c, {}).get(a, {}).get(s, [])` */
  function Lookup(index: CountriesData, c: string, a: string, s: string): seq<string> {
    LookupIn(index.Get(c, EmptyDict()), a, s)
  }

  function LookupIn(countrydata: CountryData, a: string, s: string): seq<string> {
    countrydata.Get(a, EmptyDict()).Get(s, [])
  }

  function ListingUrl(jsonUrl: string, alias: string, subalias: string): string {
    jsonUrl + alias + "/" + subalias
  }

  function CodesOf(data: seq<ListingEntry>): set<string> {
    set i | 0 <= i < |data| :: data[i].iso3
  }

  // -----------------------------------------------------------------------
  // get_indicators_metadata

  /** Keeps the catalogue entries whose alias is configured, each under its
      alias. */
  method GetIndicatorsMetadata(catalog: seq<Indicator>, indicators: ODict<string, AliasConfig>)
    returns (selected: map<string, Indicator>)
    ensures selected == SelectIndicators(map[], catalog, indicators.keys)
  {
    var aliases := indicators.keys;
    selected := map[];
    for i := 0 to |catalog|
      invariant selected == SelectIndicators(map[], catalog[..i], aliases)
    {
      assert catalog[..i + 1][..i] == catalog[..i];
      var alias := catalog[i].alias;
      if alias !in aliases {
        continue;
      }
      selected := selected[alias := catalog[i]];
    }
    assert catalog[..|catalog|] == catalog;
  }

  // -----------------------------------------------------------------------
  // get_countriesdata

  /** `index[c][a][s] = urls`, creating the inner dictionaries as needed
      (`dict.get(..., {})` followed by assignment back). */
  function PutUrls(index: CountriesData, c: string, a: string, s: string, urls: seq<string>): (out: CountriesData)
    requires DeepValid(index)
    ensures DeepValid(out)
  {
    var countrydata := index.Get(c, EmptyDict());
    var countryalias := countrydata.Get(a, EmptyDict());
    var out := index.Put(c, countrydata.Put(a, countryalias.Put(s, urls)));
    assert forall c' :: c' in out.m ==> out.m[c'].Valid();
    out
  }

  /** The list stored by `PutUrls` is the one read back, and no other list
      changes. */
  lemma PutUrlsLookup(index: CountriesData, c: string, a: string, s: string, urls: seq<string>, c': string, a': string, s': string)
    requires DeepValid(index)
    ensures Lookup(PutUrls(index, c, a, s, urls), c', a', s') ==
            if c' == c && a' == a && s' == s then urls else Lookup(index, c', a', s')
  {
  }

  /** `PutUrls` adds the country key `c` and no other. */
  lemma PutUrlsKeys(index: CountriesData, c: string, a: string, s: string, urls: seq<string>)
    requires DeepValid(index)
    ensures PutUrls(index, c, a, s, urls).m.Keys == index.m.Keys + {c}
  {
  }

  /** The index after one country listing of (alias, subalias) served at
      `url`: each code of the listing, the first time it occurs, gets
      `{url}?iso3={code}` appended. */
  function AddListing(index: CountriesData, alias: string, subalias: string, url: string, data: seq<ListingEntry>): (out: CountriesData)
    requires DeepValid(index)
    ensures DeepValid(out)
    decreases |data|
  {
    if data == [] then index
    else
      var prev := AddListing(index, alias, subalias, url, data[..|data| - 1]);
      var iso3 := data[|data| - 1].iso3;
      if iso3 in CodesOf(data[..|data| - 1]) then prev
      else PutUrls(prev, iso3, alias, subalias, Lookup(prev, iso3, alias, subalias) + [url + "?iso3=" + iso3])
  }

  lemma CodesOfSnoc(data: seq<ListingEntry>, i: nat)
    requires i < |data|
    ensures CodesOf(data[..i + 1]) == CodesOf(data[..i]) + {data[i].iso3}
  {
    assert data[..i + 1] == data[..i] + [data[i]];
    forall c | c in CodesOf(data[..i + 1]) ensures c in CodesOf(data[..i]) + {data[i].iso3} {
      var k :| 0 <= k < i + 1 && data[..i + 1][k].iso3 == c;
      if k < i { assert data[..i][k].iso3 == c; }
    }
    forall c | c in CodesOf(data[..i]) ensures c in CodesOf(data[..i + 1]) {
      var k :| 0 <= k < i && data[..i][k].iso3 == c;
      assert data[..i + 1][k].iso3 == c;
    }
    assert data[..i + 1][i].iso3 == data[i].iso3;
  }

  /** The last entry of a listing is indexed only if its code is new. */
  lemma AddListingSnoc(index: CountriesData, alias: string, subalias: string, url: string, data: seq<ListingEntry>)
    requires DeepValid(index) && data != []
    ensures var prev := AddListing(index, alias, subalias, url, data[..|data| - 1]);
            var iso3 := data[|data| - 1].iso3;
            AddListing(index, alias, subalias, url, data) ==
              if iso3 in CodesOf(data[..|data| - 1]) then prev
              else PutUrls(prev, iso3, alias, subalias, Lookup(prev, iso3, alias, subalias) + [url + "?iso3=" + iso3])
  {
  }

  /** One entry of a listing: if the lookups of `prev` are those of `index`
      plus the URLs of the codes `codes`, the entry with code `iso3` keeps
      that so for `codes + {iso3}`. */
  lemma AddEntryLookup(index: CountriesData, prev: CountriesData, alias: string, subalias: string, url: string,
                       codes: set<string>, iso3: string, c: string, a: string, s: string)
    requires DeepValid(index) && DeepValid(prev)
    requires Lookup(prev, c, a, s) ==
             Lookup(index, c, a, s) + (if c in codes && a == alias && s == subalias then [url + "?iso3=" + c] else [])
    ensures var next := if iso3 in codes then prev
                        else PutUrls(prev, iso3, alias, subalias, Lookup(prev, iso3, alias, subalias) + [url + "?iso3=" + iso3]);
            Lookup(next, c, a, s) ==
            Lookup(index, c, a, s) + (if c in codes + {iso3} && a == alias && s == subalias then [url + "?iso3=" + c] else [])
  {
    if iso3 !in codes {
      var urls := Lookup(prev, iso3, alias, subalias) + [url + "?iso3=" + iso3];
      PutUrlsLookup(prev, iso3, alias, subalias, urls, c, a, s);
      if c == iso3 && a == alias && s == subalias {
        assert Lookup(prev, c, a, s) == Lookup(index, c, a, s);
      } else {
        assert (c in codes + {iso3} && a == alias && s == subalias) == (c in codes && a == alias && s == subalias);
      }
    }
  }

  /** A listing adds its own URL once to each code it names, under its own
      (alias, sub-alias), however often the code is repeated. */
  lemma {:induction false} AddListingLookup(index: CountriesData, alias: string, subalias: string, url: string, data: seq<ListingEntry>,
                                            c: string, a: string, s: string)
    requires DeepValid(index)
    ensures Lookup(AddListing(index, alias, subalias, url, data), c, a, s) ==
            Lookup(index, c, a, s) + (if c in CodesOf(data) && a == alias && s == subalias then [url + "?iso3=" + c] else [])
    decreases |data|
  {
    if data != [] {
      var init := data[..|data| - 1];
      var iso3 := data[|data| - 1].iso3;
      var prev := AddListing(index, alias, subalias, url, init);
      AddListingLookup(index, alias, subalias, url, init, c, a, s);
      AddListingSnoc(index, alias, subalias, url, data);
      CodesOfSnoc(data, |data| - 1);
      assert data[..|data|] == data;
      AddEntryLookup(index, prev, alias, subalias, url, CodesOf(init), iso3, c, a, s);
    }
  }

  /** A listing adds exactly its codes to the index. */
  lemma {:induction false} AddListingKeys(index: CountriesData, alias: string, subalias: string, url: string, data: seq<ListingEntry>)
    requires DeepValid(index)
    ensures AddListing(index, alias, subalias, url, data).m.Keys == index.m.Keys + CodesOf(data)
    decreases |data|
  {
    if data != [] {
      var init := data[..|data| - 1];
      var iso3 := data[|data| - 1].iso3;
      var prev := AddListing(index, alias, subalias, url, init);
      AddListingKeys(index, alias, subalias, url, init);
      AddListingSnoc(index, alias, subalias, url, data);
      CodesOfSnoc(data, |data| - 1);
      assert data[..|data|] == data;
      if iso3 !in CodesOf(init) {
        var urls := Lookup(prev, iso3, alias, subalias) + [url + "?iso3=" + iso3];
        PutUrlsKeys(prev, iso3, alias, subalias, urls);
      }
    }
  }

  /** One country listing of one (alias, sub-alias), indexed in a loop that
      skips codes already seen in the listing. */
  method AddCountryListing(index: CountriesData, alias: string, subalias: string, url: string, data: seq<ListingEntry>)
    returns (out: CountriesData)
    requires DeepValid(index)
    ensures out == AddListing(index, alias, subalias, url, data)
  {
    out := index;
    var iso3s: set<string> := {};
    for i := 0 to |data|
      invariant iso3s == CodesOf(data[..i])
      invariant out == AddListing(index, alias, subalias, url, data[..i])
    {
      CodesOfSnoc(data, i);
      assert data[..i + 1][..i] == data[..i];
      var iso3 := data[i].iso3;
      if iso3 in iso3s {
        continue;
      }
      iso3s := iso3s + {iso3};
      out := PutUrls(out, iso3, alias, subalias, Lookup(out, iso3, alias, subalias) + [url + "?iso3=" + iso3]);
    }
    assert data[..|data|] == data;
  }

  /** The URLs of a global listing: one `?id=` URL per entry, in listing
      order. */
  function GlobalUrls(url: string, data: seq<ListingEntry>): (urls: seq<string>)
    ensures |urls| == |data|
    ensures forall k :: 0 <= k < |data| ==> urls[k] == url + "?id=" + data[k].id
  {
    seq(|data|, k requires 0 <= k < |data| => url + "?id=" + data[k].id)
  }

  /** Every listing the configuration of one alias names was served. */
  ghost predicate ListingsServed(jsonUrl: string, alias: string, config: AliasConfig, listings: map<string, seq<ListingEntry>>) {
    && (forall s :: s in config.country ==> ListingUrl(jsonUrl, alias, s) in listings)
    && (config.global != [] ==> ListingUrl(jsonUrl, alias, config.global) in listings)
  }

  /** Every listing URL the configuration names was served. */
  ghost predicate ListingsAvailable(jsonUrl: string, indicators: ODict<string, AliasConfig>, listings: map<string, seq<ListingEntry>>) {
    forall a :: a in indicators.m ==> ListingsServed(jsonUrl, a, indicators.m[a], listings)
  }

  /** The listing served at `url`; the operations that read a listing fail
      before reading one that is not served, so the empty default is never
      seen by them. */
  function Listing(listings: map<string, seq<ListingEntry>>, url: string): seq<ListingEntry> {
    if url in listings then listings[url] else []
  }

  /** The index after the country listings of sub-aliases `subs` of `alias`. */
  function IndexSubaliases(index: CountriesData, jsonUrl: string, alias: string, subs: seq<string>, listings: map<string, seq<ListingEntry>>): (out: CountriesData)
    requires DeepValid(index)
    ensures DeepValid(out)
    decreases |subs|
  {
    if subs == [] then index
    else
      var url := ListingUrl(jsonUrl, alias, subs[|subs| - 1]);
      AddListing(IndexSubaliases(index, jsonUrl, alias, subs[..|subs| - 1], listings), alias, subs[|subs| - 1], url, Listing(listings, url))
  }

  /** The index after all listings of one alias: its country listings, then
      its global listing stored as the "World" entry. */
  function IndexAlias(index: CountriesData, jsonUrl: string, alias: string, config: AliasConfig, listings: map<string, seq<ListingEntry>>): (out: CountriesData)
    requires DeepValid(index)
    ensures DeepValid(out)
  {
    var countries := IndexSubaliases(index, jsonUrl, alias, config.country, listings);
    if config.global == [] then countries
    else
      var url := ListingUrl(jsonUrl, alias, config.global);
      PutUrls(countries, World, alias, config.global, GlobalUrls(url, Listing(listings, url)))
  }

  /** The index after all listings of the aliases `aliases`, in order. */
  function IndexAliases(jsonUrl: string, aliases: seq<string>, indicators: ODict<string, AliasConfig>, listings: map<string, seq<ListingEntry>>): (out: CountriesData)
    requires forall a :: a in aliases ==> a in indicators.m
    ensures DeepValid(out)
    decreases |aliases|
  {
    if aliases == [] then EmptyDict()
    else
      var a := aliases[|aliases| - 1];
      IndexAlias(IndexAliases(jsonUrl, aliases[..|aliases| - 1], indicators, listings), jsonUrl, a, indicators.m[a], listings)
  }

  /** The index keys other than "World" in ascending order, then "World". */
  function CountryList(keys: seq<string>): seq<string> {
    WithoutWorld(SortAscending(keys)) + [World]
  }

  function WithoutWorld(s: seq<string>): (r: seq<string>)
    ensures forall x :: x in r <==> x in s && x != World
  {
    if s == [] then []
    else if s[0] == World then WithoutWorld(s[1..])
    else [s[0]] + WithoutWorld(s[1..])
  }

  /** Dropping elements keeps the order of those that remain. */
  lemma {:induction false} WithoutWorldKeepsOrder(s: seq<string>)
    requires StrictlyAscending(s)
    ensures StrictlyAscending(WithoutWorld(s))
  {
    if s != [] {
      WithoutWorldKeepsOrder(s[1..]);
      var rest := WithoutWorld(s[1..]);
      if s[0] != World {
        forall j | 0 <= j < |rest| ensures Less(s[0], rest[j]) {
          assert rest[j] in s[1..];
        }
      }
    }
  }

  /** The list of countries to process: "World" last, and before it every
      other key once, in strictly ascending order. */
  lemma CountryListOrder(keys: seq<string>)
    requires forall i, j :: 0 <= i < j < |keys| ==> keys[i] != keys[j]
    ensures var cs := CountryList(keys);
            && cs[|cs| - 1] == World
            && StrictlyAscending(cs[..|cs| - 1])
            && (forall x :: x in cs[..|cs| - 1] <==> x in keys && x != World)
  {
    SortDistinct(keys);
    WithoutWorldKeepsOrder(SortAscending(keys));
    var cs := CountryList(keys);
    assert cs[..|cs| - 1] == WithoutWorld(SortAscending(keys));
  }

  /** The codes named by the country listings of sub-aliases `subs` of
      `alias`. */
  ghost function AliasCodes(jsonUrl: string, alias: string, subs: seq<string>, listings: map<string, seq<ListingEntry>>): set<string>
    decreases |subs|
  {
    if subs == [] then {}
    else
      var url := ListingUrl(jsonUrl, alias, subs[|subs| - 1]);
      AliasCodes(jsonUrl, alias, subs[..|subs| - 1], listings) + (if url in listings then CodesOf(listings[url]) else {})
  }

  /** The codes named by every country listing of the aliases `aliases`. */
  ghost function ListedCodes(jsonUrl: string, aliases: seq<string>, indicators: ODict<string, AliasConfig>, listings: map<string, seq<ListingEntry>>): set<string>
    decreases |aliases|
  {
    if aliases == [] then {}
    else
      var a := aliases[|aliases| - 1];
      ListedCodes(jsonUrl, aliases[..|aliases| - 1], indicators, listings) +
        (if a in indicators.m then AliasCodes(jsonUrl, a, indicators.m[a].country, listings) else {})
  }

  /** Whether one of `aliases` has a global sub-alias. */
  ghost predicate AnyGlobal(aliases: seq<string>, indicators: ODict<string, AliasConfig>)
    decreases |aliases|
  {
    && aliases != []
    && var a := aliases[|aliases| - 1];
       || AnyGlobal(aliases[..|aliases| - 1], indicators)
       || (a in indicators.m && indicators.m[a].global != [])
  }

  /** `n` copies of `u`. */
  function Repeat(u: string, n: nat): seq<string> {
    if n == 0 then [] else Repeat(u, n - 1) + [u]
  }

  /** Whether the listing served at `url` names the code `c`. */
  predicate ListsCode(listings: map<string, seq<ListingEntry>>, url: string, c: string) {
    url in listings && c in CodesOf(listings[url])
  }

  /** The URLs the country listings `subs` of `alias` leave for code `c`
      under sub-alias `s`: the listing's `?iso3=` URL once for every time
      `s` is configured, when its listing names `c`. */
  function CountryUrls(jsonUrl: string, alias: string, subs: seq<string>, listings: map<string, seq<ListingEntry>>, c: string, s: string): seq<string> {
    var url := ListingUrl(jsonUrl, alias, s);
    Repeat(url + "?iso3=" + c, if ListsCode(listings, url, c) then multiset(subs)[s] else 0)
  }

  lemma RepeatSnoc(u: string, n: nat)
    ensures Repeat(u, n) + [u] == Repeat(u, n + 1)
  {
  }

  lemma MultisetSnoc(xs: seq<string>, x: string, y: string)
    ensures multiset(xs + [x])[y] == multiset(xs)[y] + (if x == y then 1 else 0)
  {
  }

  predicate Distinct(xs: seq<string>) {
    forall i, j :: 0 <= i < j < |xs| ==> xs[i] != xs[j]
  }

  /** One more configured sub-alias adds its URL to the codes its listing
      names, under that sub-alias only. */
  lemma CountryUrlsSnoc(jsonUrl: string, alias: string, subs: seq<string>, listings: map<string, seq<ListingEntry>>, c: string, s: string)
    requires subs != []
    ensures var last := subs[|subs| - 1];
            var url := ListingUrl(jsonUrl, alias, last);
            CountryUrls(jsonUrl, alias, subs, listings, c, s) ==
            CountryUrls(jsonUrl, alias, subs[..|subs| - 1], listings, c, s) +
              (if s == last && ListsCode(listings, url, c) then [url + "?iso3=" + c] else [])
  {
    var init := subs[..|subs| - 1];
    var last := subs[|subs| - 1];
    assert subs == init + [last];
    MultisetSnoc(init, last, s);
    if s == last && ListsCode(listings, ListingUrl(jsonUrl, alias, s), c) {
      RepeatSnoc(ListingUrl(jsonUrl, alias, s) + "?iso3=" + c, multiset(init)[s]);
    } else {
      AppendNil(CountryUrls(jsonUrl, alias, subs, listings, c, s));
    }
  }

  /** The country listings of one alias, sub-alias by sub-alias. */
  method IndexCountryListings(index: CountriesData, jsonUrl: string, alias: string, subaliases: seq<string>,
                              listings: map<string, seq<ListingEntry>>)
    returns (r: Result<CountriesData>)
    requires DeepValid(index)
    ensures r.Ok? <==> forall s :: s in subaliases ==> ListingUrl(jsonUrl, alias, s) in listings
    ensures r.Failure? ==> r.error.DownloadFailed? && r.error.url !in listings
    ensures r.Ok? ==> r.value == IndexSubaliases(index, jsonUrl, alias, subaliases, listings)
  {
    var out := index;
    for j := 0 to |subaliases|
      invariant forall s :: s in subaliases[..j] ==> ListingUrl(jsonUrl, alias, s) in listings
      invariant out == IndexSubaliases(index, jsonUrl, alias, subaliases[..j], listings)
    {
      var subalias := subaliases[j];
      var url := ListingUrl(jsonUrl, alias, subalias);
      assert subaliases[..j + 1][..j] == subaliases[..j];
      if url !in listings {
        return Failure(DownloadFailed(url));
      }
      out := AddCountryListing(out, alias, subalias, url, listings[url]);
    }
    assert subaliases[..|subaliases|] == subaliases;
    r := Ok(out);
  }

  /** All listings of one alias: its country listings, then its global
      listing, if any, as the "World" entry. */
  method IndexOneAlias(index: CountriesData, jsonUrl: string, alias: string, config: AliasConfig,
                       listings: map<string, seq<ListingEntry>>)
    returns (r: Result<CountriesData>)
    requires DeepValid(index)
    ensures r.Ok? <==> ListingsServed(jsonUrl, alias, config, listings)
    ensures r.Failure? ==> r.error.DownloadFailed? && r.error.url !in listings
    ensures r.Ok? ==> r.value == IndexAlias(index, jsonUrl, alias, config, listings)
  {
    r := IndexCountryListings(index, jsonUrl, alias, config.country, listings);
    if r.Failure? {
      return;
    }
    var global := config.global;
    if global != [] {
      var url := ListingUrl(jsonUrl, alias, global);
      if url !in listings {
        return Failure(DownloadFailed(url));
      }
      r := Ok(PutUrls(r.value, World, alias, global, GlobalUrls(url, listings[url])));
    }
  }

  lemma Unavailable(jsonUrl: string, indicators: ODict<string, AliasConfig>, listings: map<string, seq<ListingEntry>>, a: string)
    requires a in indicators.m && !ListingsServed(jsonUrl, a, indicators.m[a], listings)
    ensures !ListingsAvailable(jsonUrl, indicators, listings)
  {
  }

  lemma Available(jsonUrl: string, indicators: ODict<string, AliasConfig>, listings: map<string, seq<ListingEntry>>)
    requires indicators.Valid()
    requires forall k :: 0 <= k < |indicators.keys| ==> ListingsServed(jsonUrl, indicators.keys[k], indicators.m[indicators.keys[k]], listings)
    ensures ListingsAvailable(jsonUrl, indicators, listings)
  {
    forall a | a in indicators.m ensures ListingsServed(jsonUrl, a, indicators.m[a], listings) {
      var k :| 0 <= k < |indicators.keys| && indicators.keys[k] == a;
    }
  }

  /** One more alias of the configuration. */
  lemma IndexAliasesPrefix(jsonUrl: string, aliases: seq<string>, i: nat, indicators: ODict<string, AliasConfig>, listings: map<string, seq<ListingEntry>>)
    requires i < |aliases|
    requires forall x :: x in aliases ==> x in indicators.m
    ensures IndexAliases(jsonUrl, aliases[..i + 1], indicators, listings) ==
            IndexAlias(IndexAliases(jsonUrl, aliases[..i], indicators, listings), jsonUrl, aliases[i], indicators.m[aliases[i]], listings)
  {
    assert aliases[..i + 1][..i] == aliases[..i];
  }

  /** `get_countriesdata`: for each alias, each country listing is indexed
      by code, then a global listing (if configured) becomes the "World"
      entry; the country list follows `CountryList`. A listing that cannot
      be fetched aborts the whole operation. */
  method GetCountriesData(jsonUrl: string, indicators: ODict<string, AliasConfig>, listings: map<string, seq<ListingEntry>>)
    returns (r: Result<(CountriesData, seq<string>)>)
    requires indicators.Valid()
    ensures r.Ok? <==> ListingsAvailable(jsonUrl, indicators, listings)
    ensures r.Failure? ==> r.error.DownloadFailed? && r.error.url !in listings
    ensures r.Ok? ==>
      && r.value.0 == IndexAliases(jsonUrl, indicators.keys, indicators, listings)
      && r.value.1 == CountryList(r.value.0.keys)
  {
    var index: CountriesData := EmptyDict();
    var aliases := indicators.keys;
    for i := 0 to |aliases|
      invariant forall k :: 0 <= k < i ==> ListingsServed(jsonUrl, aliases[k], indicators.m[aliases[k]], listings)
      invariant index == IndexAliases(jsonUrl, aliases[..i], indicators, listings)
    {
      var alias := aliases[i];
      var next := IndexOneAlias(index, jsonUrl, alias, indicators.m[alias], listings);
      if next.Failure? {
        Unavailable(jsonUrl, indicators, listings, alias);
        return Failure(next.error);
      }
      IndexAliasesPrefix(jsonUrl, aliases, i, indicators, listings);
      index := next.value;
    }
    assert aliases[..|aliases|] == aliases;
    Available(jsonUrl, indicators, listings);
    r := Ok((index, CountryList(index.keys)));
  }
}
