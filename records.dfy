/** The records the scraper reads from the WorldPop catalogue and the
    records it hands to the publishing platform, with the collaborators it
    consults (slug and markdown conversion, the country-name table, the
    location check, the filename splitter) as plain values. */
module Records {

  import opened Base
  import opened Text

  /** One entry of the indicator listing. */
  datatype Indicator = Indicator(alias: string, name: string, title: string, desc: string)

  /** One entry of a per-indicator country listing; `id` is already the
      text Python's f-string makes of it. */
  datatype ListingEntry = ListingEntry(iso3: string, id: string)

  /** An instant: its calendar year and its position within that year (any
      measure that orders the instants of one year, such as microseconds
      since 1 January). */
  datatype Date = Date(year: int, offset: nat)

  /** `a < b` on datetimes. */
  predicate Before(a: Date, b: Date) {
    a.year < b.year || (a.year == b.year && a.offset < b.offset)
  }

  /** What `parse_date` makes of a record's `date` text. */
  datatype DateField = Parsed(date: Date) | Unparseable

  /** One year's metadata for a (country, indicator) pair. `popyear` is the
      text of the JSON field ("" when empty or null); the last three fields
      are the keys `startpopyear`, `endpopyear` and `alias` that the
      pipeline writes into a record (None while absent). */
  datatype Metadata = Metadata(
    title: string,
    desc: string,
    date: DateField,
    popyear: string,
    citation: string,
    public: string,
    project: string,
    category: string,
    files: seq<string>,
    urlImg: string,
    urlSummary: string,
    dataFormat: string,
    license: string,
    source: string,
    startPopYear: Option<string>,
    endPopYear: Option<string>,
    alias: Option<string>)

  /** The `data` member of a per-country JSON document: a list of records
      or a single record. */
  datatype Payload = Many(records: seq<Metadata>) | One(record: Metadata)

  /** What `extend` (for a list) or `append` (for a single record) adds. */
  function RecordsOf(p: Payload): seq<Metadata> {
    match p
    case Many(rs) => rs
    case One(r) => [r]
  }

  /** `metadata["public"].lower() == "y"` */
  predicate IsPublic(m: Metadata) {
    Lower(m.public) == "y"
  }

  /** A public record is one whose flag is "y" or "Y". */
  lemma PublicFlag(m: Metadata)
    ensures IsPublic(m) <==> m.public == "y" || m.public == "Y"
  {
    LowerIsY(m.public);
  }

  datatype Resource = Resource(name: string, url: string, format: string, description: string, updated: Date)

  datatype Showcase = Showcase(name: string, title: string, notes: string, url: string, imageUrl: string, tags: seq<string>)

  datatype YearRange = YearRange(start: int, end: int)

  /** A dataset as handed to the publishing platform. `methodologyOther`,
      `source` and `licenseOther` are set by the first-generation scraper
      only. */
  datatype Dataset = Dataset(
    name: string,
    title: string,
    notes: string,
    caveats: string,
    methodologyOther: Option<string>,
    source: Option<string>,
    licenseOther: Option<string>,
    location: string,
    tags: seq<string>,
    maintainer: string,
    organization: string,
    updateFrequency: string,
    subnational: bool,
    yearRange: YearRange,
    resources: seq<Resource>)

  const Maintainer := "37023db4-a571-4f28-8d1f-15f0353586af"
  const Organization := "3f077dff-1d05-484d-a7c2-4cb620f22689"
  const UpdateFrequency := "Every year"
  const CaveatsPrefix := "Data for earlier dates is available directly from WorldPop  \n  \n"
  const World := "World"

  /** The library code and lookup tables the scraper calls but that are not
      part of this model. `countryNames` is the ISO3 table (a missing or
      empty name means "not recognised"); `acceptsLocation` says whether
      `add_other_location` accepts a code; `splitFilename` is
      `get_filename_extension_from_url`; `defaultEndDate` is the library's
      `default_enddate`. */
  datatype Collaborators = Collaborators(
    slugify: string -> string,
    markdownify: string -> string,
    countryNames: map<string, string>,
    acceptsLocation: string -> bool,
    splitFilename: string -> (string, string),
    defaultEndDate: Date)

  /** The country name used in titles: "World" names itself, any other code
      is looked up and an unknown or empty name means the code is not
      recognised. */
  function CountryName(code: string, names: map<string, string>): (r: Option<string>)
    ensures code == World ==> r == Some(World)
    ensures r.Some? ==> r.value != []
    ensures code != World ==>
      (r.Some? <==> code in names && names[code] != []) &&
      (r.Some? ==> r.value == names[code])
  {
    if code == World then Some(World)
    else if code in names && names[code] != [] then Some(names[code])
    else None
  }

  /** `[indicator name lower-cased, "geodata"]` */
  function Tags(indicator: Indicator): (tags: seq<string>)
    ensures |tags| == 2 && tags[1] == "geodata"
    ensures tags[0] == Lower(indicator.name)
  {
    [Lower(indicator.name), "geodata"]
  }

  // -----------------------------------------------------------------------
  // Resources on a dataset: `add_update_resource`, taken here to replace the
  // resource of the same name where it stands, or else to append.

  function Names(rs: seq<Resource>): set<string> {
    set i | 0 <= i < |rs| :: rs[i].name
  }

  predicate DistinctNames(rs: seq<Resource>) {
    forall i, j :: 0 <= i < j < |rs| ==> rs[i].name != rs[j].name
  }

  function IndexOfName(rs: seq<Resource>, name: string): (i: nat)
    ensures i <= |rs|
    ensures i < |rs| ==> rs[i].name == name
    ensures forall j :: 0 <= j < i ==> rs[j].name != name
  {
    if rs == [] then 0
    else if rs[0].name == name then 0
    else 1 + IndexOfName(rs[1..], name)
  }

  function AddUpdateResource(rs: seq<Resource>, r: Resource): seq<Resource> {
    var i := IndexOfName(rs, r.name);
    if i < |rs| then rs[i := r] else rs + [r]
  }

  /** `add_update_resource` keeps names distinct, adds the new resource's
      name, holds the new resource, keeps every resource of another name
      and holds nothing else. */
  lemma AddUpdateResourceFacts(rs: seq<Resource>, r: Resource)
    requires DistinctNames(rs)
    ensures var out := AddUpdateResource(rs, r);
      && DistinctNames(out)
      && Names(out) == Names(rs) + {r.name}
      && r in out
      && (forall i :: 0 <= i < |rs| && rs[i].name != r.name ==> rs[i] in out)
      && (forall x :: x in out && x != r ==> x in rs && x.name != r.name)
  {
    var i := IndexOfName(rs, r.name);
    if i < |rs| {
      ReplaceKeepsNames(rs, i, r);
    } else {
      AppendKeepsNames(rs, r);
    }
  }

  /** Replacing the resource that has the new one's name. */
  lemma ReplaceKeepsNames(rs: seq<Resource>, i: nat, r: Resource)
    requires DistinctNames(rs) && i < |rs| && rs[i].name == r.name
    ensures DistinctNames(rs[i := r])
    ensures Names(rs[i := r]) == Names(rs) + {r.name}
    ensures r in rs[i := r]
    ensures forall j :: 0 <= j < |rs| && rs[j].name != r.name ==> rs[j] in rs[i := r]
    ensures forall x :: x in rs[i := r] && x != r ==> x in rs && x.name != r.name
  {
    var out := rs[i := r];
    assert forall j :: 0 <= j < |out| ==> out[j].name == rs[j].name;
    assert out[i] == r;
    forall j | 0 <= j < |rs| && rs[j].name != r.name ensures rs[j] in out {
      assert out[j] == rs[j];
    }
    forall x | x in out && x != r ensures x in rs && x.name != r.name {
      var j :| 0 <= j < |out| && out[j] == x;
      assert j != i;
    }
  }

  /** Appending a resource whose name is new. */
  lemma AppendKeepsNames(rs: seq<Resource>, r: Resource)
    requires DistinctNames(rs)
    requires forall j :: 0 <= j < |rs| ==> rs[j].name != r.name
    ensures DistinctNames(rs + [r])
    ensures Names(rs + [r]) == Names(rs) + {r.name}
    ensures r in rs + [r]
    ensures forall j :: 0 <= j < |rs| && rs[j].name != r.name ==> rs[j] in rs + [r]
    ensures forall x :: x in rs + [r] && x != r ==> x in rs && x.name != r.name
  {
    NamesSnoc(rs, r);
    forall x | x in rs + [r] && x != r ensures x in rs && x.name != r.name {
      var j :| 0 <= j < |rs + [r]| && (rs + [r])[j] == x;
      assert j < |rs|;
    }
  }

  /** The resources a dataset holds after `add_update_resource` of each of
      `adds` in turn. */
  function AddUpdateAll(rs: seq<Resource>, adds: seq<Resource>): seq<Resource>
    decreases |adds|
  {
    if adds == [] then rs
    else AddUpdateResource(AddUpdateAll(rs, adds[..|adds| - 1]), adds[|adds| - 1])
  }

  /** Resource names stay distinct however many resources are added. */
  lemma {:induction false} AddUpdateAllDistinct(rs: seq<Resource>, adds: seq<Resource>)
    requires DistinctNames(rs)
    ensures DistinctNames(AddUpdateAll(rs, adds))
    decreases |adds|
  {
    if adds != [] {
      AddUpdateAllDistinct(rs, adds[..|adds| - 1]);
      AddUpdateResourceFacts(AddUpdateAll(rs, adds[..|adds| - 1]), adds[|adds| - 1]);
    }
  }

  /** `adds[k]` is the last resource of `adds` with its name. */
  ghost predicate LastWithName(adds: seq<Resource>, k: nat)
    requires k < |adds|
  {
    forall l :: k < l < |adds| ==> adds[l].name != adds[k].name
  }

  lemma NamesSnoc(rs: seq<Resource>, r: Resource)
    ensures Names(rs + [r]) == Names(rs) + {r.name}
  {
    forall x | x in Names(rs + [r]) ensures x in Names(rs) + {r.name} {
      var k :| 0 <= k < |rs + [r]| && (rs + [r])[k].name == x;
      if k < |rs| { assert rs[k].name == x; }
    }
    forall x | x in Names(rs) ensures x in Names(rs + [r]) {
      var k :| 0 <= k < |rs| && rs[k].name == x;
      assert (rs + [r])[k].name == x;
    }
    assert (rs + [r])[|rs|].name == r.name;
  }

  /** Starting from no resources, the dataset holds exactly the names
      added. */
  lemma {:induction false} AddUpdateAllNames(adds: seq<Resource>)
    ensures Names(AddUpdateAll([], adds)) == Names(adds)
    decreases |adds|
  {
    if adds != [] {
      var init := adds[..|adds| - 1];
      assert adds == init + [adds[|adds| - 1]];
      NamesSnoc(init, adds[|adds| - 1]);
      AddUpdateAllNames(init);
      AddUpdateAllDistinct([], init);
      AddUpdateResourceFacts(AddUpdateAll([], init), adds[|adds| - 1]);
    }
  }

  /** The last resource added under a name is the one the dataset keeps. */
  lemma {:induction false} AddUpdateAllKeepsLast(adds: seq<Resource>, k: nat)
    requires k < |adds| && LastWithName(adds, k)
    ensures adds[k] in AddUpdateAll([], adds)
    decreases |adds|
  {
    var init := adds[..|adds| - 1];
    AddUpdateAllDistinct([], init);
    AddUpdateResourceFacts(AddUpdateAll([], init), adds[|adds| - 1]);
    if k < |init| {
      AddUpdateAllKeepsLast(init, k);
      assert adds[k].name != adds[|adds| - 1].name;
    }
  }

  lemma AddUpdateAllSnoc(rs: seq<Resource>, adds: seq<Resource>, r: Resource)
    ensures AddUpdateAll(rs, adds + [r]) == AddUpdateResource(AddUpdateAll(rs, adds), r)
  {
    assert (adds + [r])[..|adds|] == adds;
  }

  /** Every resource the dataset holds is the last one added under its
      name: `k` is where it was added. */
  lemma {:induction false} AddUpdateAllOnlyLast(adds: seq<Resource>, x: Resource) returns (k: nat)
    requires x in AddUpdateAll([], adds)
    ensures k < |adds| && adds[k] == x && LastWithName(adds, k)
    decreases |adds|
  {
    var init := adds[..|adds| - 1];
    var last := adds[|adds| - 1];
    assert adds == init + [last];
    AddUpdateAllSnoc([], init, last);
    var prev := AddUpdateAll([], init);
    AddUpdateAllDistinct([], init);
    AddUpdateResourceFacts(prev, last);
    if x == last {
      k := |adds| - 1;
    } else {
      assert x in prev && x.name != last.name;
      k := AddUpdateAllOnlyLast(init, x);
      assert LastWithName(init, k);
      forall l | k < l < |adds| ensures adds[l].name != x.name {
        if l < |init| {
          assert adds[l] == init[l];
        }
      }
    }
  }
}
