/** What the country index of the first-generation scraper holds: which
    codes it has, and which URLs each (code, alias, sub-alias) list holds,
    stated over the whole configuration. */
module IndexFacts {

  import opened Base
  import opened Records
  import opened WorldPopIndex

  lemma {:induction false} IndexSubaliasesLookup(index: CountriesData, jsonUrl: string, alias: string, subs: seq<string>,
                                                 listings: map<string, seq<ListingEntry>>, c: string, a: string, s: string)
    requires DeepValid(index)
    ensures Lookup(IndexSubaliases(index, jsonUrl, alias, subs, listings), c, a, s) ==
            Lookup(index, c, a, s) + (if a == alias then CountryUrls(jsonUrl, alias, subs, listings, c, s) else [])
    decreases |subs|
  {
    if subs == [] {
      AppendNil(Lookup(index, c, a, s));
    } else if a == alias {
      IndexSubaliasesLookup(index, jsonUrl, alias, subs[..|subs| - 1], listings, c, a, s);
      SameAliasStep(index, jsonUrl, alias, subs, listings, c, s);
    } else {
      IndexSubaliasesLookup(index, jsonUrl, alias, subs[..|subs| - 1], listings, c, a, s);
      OtherAliasStep(index, jsonUrl, alias, subs, listings, c, a, s);
    }
  }

  lemma {:induction false} SameAliasStep(index: CountriesData, jsonUrl: string, alias: string, subs: seq<string>,
                      listings: map<string, seq<ListingEntry>>, c: string, s: string)
    requires DeepValid(index)
    requires subs != []
    requires Lookup(IndexSubaliases(index, jsonUrl, alias, subs[..|subs| - 1], listings), c, alias, s) ==
             Lookup(index, c, alias, s) + CountryUrls(jsonUrl, alias, subs[..|subs| - 1], listings, c, s)
    ensures Lookup(IndexSubaliases(index, jsonUrl, alias, subs, listings), c, alias, s) ==
            Lookup(index, c, alias, s) + CountryUrls(jsonUrl, alias, subs, listings, c, s)
  {
    var init := subs[..|subs| - 1];
    var last := subs[|subs| - 1];
    var prev := IndexSubaliases(index, jsonUrl, alias, init, listings);
    var url := ListingUrl(jsonUrl, alias, last);
    var data := Listing(listings, url);
    assert IndexSubaliases(index, jsonUrl, alias, subs, listings) == AddListing(prev, alias, last, url, data);
    AddListingLookup(prev, alias, last, url, data, c, alias, s);
    CountryUrlsSnoc(jsonUrl, alias, subs, listings, c, s);
    var x := Lookup(index, c, alias, s);
    var y := CountryUrls(jsonUrl, alias, init, listings, c, s);
    var z := if s == last && ListsCode(listings, url, c) then [url + "?iso3=" + c] else [];
    assert (c in CodesOf(data) && s == last) <==> (s == last && ListsCode(listings, url, c));
    assert Lookup(prev, c, alias, s) == x + y;
    AppendAssoc(x, y, z);
  }

  lemma {:induction false} OtherAliasStep(index: CountriesData, jsonUrl: string, alias: string, subs: seq<string>,
                       listings: map<string, seq<ListingEntry>>, c: string, a: string, s: string)
    requires DeepValid(index)
    requires subs != [] && a != alias
    requires Lookup(IndexSubaliases(index, jsonUrl, alias, subs[..|subs| - 1], listings), c, a, s) == Lookup(index, c, a, s) + []
    ensures Lookup(IndexSubaliases(index, jsonUrl, alias, subs, listings), c, a, s) == Lookup(index, c, a, s) + []
  {
    var init := subs[..|subs| - 1];
    var last := subs[|subs| - 1];
    var prev := IndexSubaliases(index, jsonUrl, alias, init, listings);
    var url := ListingUrl(jsonUrl, alias, last);
    AddListingLookup(prev, alias, last, url, Listing(listings, url), c, a, s);
    AppendNil(Lookup(prev, c, a, s));
  }

  lemma {:induction false} IndexSubaliasesKeys(index: CountriesData, jsonUrl: string, alias: string, subs: seq<string>,
                                               listings: map<string, seq<ListingEntry>>)
    requires DeepValid(index)
    ensures IndexSubaliases(index, jsonUrl, alias, subs, listings).m.Keys == index.m.Keys + AliasCodes(jsonUrl, alias, subs, listings)
    decreases |subs|
  {
    if subs != [] {
      var init := subs[..|subs| - 1];
      var last := subs[|subs| - 1];
      var url := ListingUrl(jsonUrl, alias, last);
      IndexSubaliasesKeys(index, jsonUrl, alias, init, listings);
      AddListingKeys(IndexSubaliases(index, jsonUrl, alias, init, listings), alias, last, url, Listing(listings, url));
    }
  }

  /** One alias leaves every list it does not configure as it was: its
      country listings add to its own lists, and its global listing
      replaces only the "World" list of the global sub-alias. */
  lemma IndexAliasLookup(index: CountriesData, jsonUrl: string, alias: string, config: AliasConfig,
                         listings: map<string, seq<ListingEntry>>, c: string, a: string, s: string)
    requires DeepValid(index)
    requires !(c == World && a == alias && s == config.global && config.global != [])
    ensures Lookup(IndexAlias(index, jsonUrl, alias, config, listings), c, a, s) ==
            Lookup(index, c, a, s) + (if a == alias then CountryUrls(jsonUrl, alias, config.country, listings, c, s) else [])
  {
    var countries := IndexSubaliases(index, jsonUrl, alias, config.country, listings);
    IndexSubaliasesLookup(index, jsonUrl, alias, config.country, listings, c, a, s);
    if config.global != [] {
      var url := ListingUrl(jsonUrl, alias, config.global);
      PutUrlsLookup(countries, World, alias, config.global, GlobalUrls(url, Listing(listings, url)), c, a, s);
    }
  }

  lemma IndexAliasGlobal(index: CountriesData, jsonUrl: string, alias: string, config: AliasConfig,
                         listings: map<string, seq<ListingEntry>>)
    requires DeepValid(index)
    requires config.global != []
    ensures var url := ListingUrl(jsonUrl, alias, config.global);
            Lookup(IndexAlias(index, jsonUrl, alias, config, listings), World, alias, config.global) == GlobalUrls(url, Listing(listings, url))
  {
    var countries := IndexSubaliases(index, jsonUrl, alias, config.country, listings);
    var url := ListingUrl(jsonUrl, alias, config.global);
    PutUrlsLookup(countries, World, alias, config.global, GlobalUrls(url, Listing(listings, url)), World, alias, config.global);
  }

  lemma IndexAliasKeys(index: CountriesData, jsonUrl: string, alias: string, config: AliasConfig,
                       listings: map<string, seq<ListingEntry>>)
    requires DeepValid(index)
    ensures IndexAlias(index, jsonUrl, alias, config, listings).m.Keys ==
            index.m.Keys + AliasCodes(jsonUrl, alias, config.country, listings) + (if config.global != [] then {World} else {})
  {
    var countries := IndexSubaliases(index, jsonUrl, alias, config.country, listings);
    IndexSubaliasesKeys(index, jsonUrl, alias, config.country, listings);
    if config.global != [] {
      var url := ListingUrl(jsonUrl, alias, config.global);
      PutUrlsKeys(countries, World, alias, config.global, GlobalUrls(url, Listing(listings, url)));
    }
  }

  /** A country code (other than "World") holds, under an alias and one of
      its sub-aliases, the listing's URL once per time the sub-alias is
      configured, when that listing names the code; nothing under an alias
      that is not configured. */
  lemma {:induction false} IndexAliasesLookup(jsonUrl: string, aliases: seq<string>, indicators: ODict<string, AliasConfig>,
                                              listings: map<string, seq<ListingEntry>>, c: string, a: string, s: string)
    requires forall a' :: a' in aliases ==> a' in indicators.m
    requires Distinct(aliases)
    requires c != World
    ensures Lookup(IndexAliases(jsonUrl, aliases, indicators, listings), c, a, s) ==
            if a in aliases then CountryUrls(jsonUrl, a, indicators.m[a].country, listings, c, s) else []
    decreases |aliases|
  {
    if aliases != [] {
      var init := aliases[..|aliases| - 1];
      var last := aliases[|aliases| - 1];
      assert aliases == init + [last];
      IndexAliasesLookup(jsonUrl, init, indicators, listings, c, a, s);
      IndexAliasLookup(IndexAliases(jsonUrl, init, indicators, listings), jsonUrl, last, indicators.m[last], listings, c, a, s);
    }
  }

  /** The "World" list of a configured global sub-alias holds the `?id=`
      URLs of its listing, in order. */
  lemma {:induction false} IndexAliasesGlobal(jsonUrl: string, aliases: seq<string>, indicators: ODict<string, AliasConfig>,
                                              listings: map<string, seq<ListingEntry>>, a: string)
    requires forall a' :: a' in aliases ==> a' in indicators.m
    requires a in aliases && indicators.m[a].global != []
    ensures var g := indicators.m[a].global;
            var url := ListingUrl(jsonUrl, a, g);
            Lookup(IndexAliases(jsonUrl, aliases, indicators, listings), World, a, g) == GlobalUrls(url, Listing(listings, url))
    decreases |aliases|
  {
    var init := aliases[..|aliases| - 1];
    var last := aliases[|aliases| - 1];
    assert aliases == init + [last];
    var prev := IndexAliases(jsonUrl, init, indicators, listings);
    if a == last {
      IndexAliasGlobal(prev, jsonUrl, a, indicators.m[a], listings);
    } else {
      IndexAliasesGlobal(jsonUrl, init, indicators, listings, a);
      IndexAliasLookup(prev, jsonUrl, last, indicators.m[last], listings, World, a, indicators.m[a].global);
    }
  }

  /** The index holds exactly the codes the country listings name, and
      "World" when some alias has a global listing. */
  lemma {:induction false} IndexAliasesKeys(jsonUrl: string, aliases: seq<string>, indicators: ODict<string, AliasConfig>,
                                            listings: map<string, seq<ListingEntry>>)
    requires forall a' :: a' in aliases ==> a' in indicators.m
    ensures IndexAliases(jsonUrl, aliases, indicators, listings).m.Keys ==
            ListedCodes(jsonUrl, aliases, indicators, listings) + (if AnyGlobal(aliases, indicators) then {World} else {})
    decreases |aliases|
  {
    if aliases != [] {
      var init := aliases[..|aliases| - 1];
      var last := aliases[|aliases| - 1];
      assert aliases == init + [last];
      IndexAliasesKeys(jsonUrl, init, indicators, listings);
      IndexAliasKeys(IndexAliases(jsonUrl, init, indicators, listings), jsonUrl, last, indicators.m[last], listings);
    }
  }
}
