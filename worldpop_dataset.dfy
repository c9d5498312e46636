/** The first-generation scraper's dataset builder: one dataset per
    (country, indicator) pair, holding one resource per file of every public
    record, newest population year first, and one showcase per sub-alias
    whose last record has a summary image. */
module WorldPopDataset {

  import opened Base
  import opened Text
  import opened Records
  import opened Gather
  import WorldPopIndex

  // -----------------------------------------------------------------------
  // The scan over the public records

  /** The four variables the scan updates: the earliest trusted date seen
      (initially the library's default end date), the smallest and largest
      population year (initially 10000 and 0), and the resources grouped by
      population year. */
  datatype Scan = Scan(earliestDate: Date, earliestYear: int, latestYear: int, byYear: ODict<int, seq<Resource>>)

  const NoEarliestYear := 10000
  const NoLatestYear := 0

  function InitialScan(defaultEndDate: Date): (st: Scan)
    ensures st.byYear.Valid() && st.byYear.keys == []
  {
    Scan(defaultEndDate, NoEarliestYear, NoLatestYear, EmptyDict())
  }

  /** A date the scan believes: one that parsed and lies in 2000 or later. */
  predicate Trusted(m: Metadata) {
    m.date.Parsed? && m.date.date.year >= 2000
  }

  /** The date a record's resources carry: its own date when trusted, the
      earliest date seen so far otherwise. */
  function StampDate(earliest: Date, m: Metadata): (d: Date)
    ensures d == earliest || (Trusted(m) && d == m.date.date)
    ensures Trusted(m) ==> d == m.date.date && d.year >= 2000
  {
    if Trusted(m) then m.date.date else earliest
  }

  /** The earliest date after looking at one more record. */
  function NextEarliest(earliest: Date, m: Metadata): Date {
    if Trusted(m) && Before(m.date.date, earliest) then m.date.date else earliest
  }

  /** The population year of a record stamped with `d`: its `popyear` text
      read as an integer, or the year of `d` when that text is empty. Text
      that is not an integer raises ValueError. */
  function RecordYear(m: Metadata, d: Date): (r: Result<int>)
    ensures m.popyear == [] ==> r == Ok(d.year)
    ensures m.popyear != [] ==> (r.Ok? <==> ParseInt(m.popyear).Some?)
    ensures m.popyear != [] && r.Ok? ==> r.value == ParseInt(m.popyear).value
    ensures r.Failure? ==> r.error == ValueError
  {
    if m.popyear == [] then Ok(d.year)
    else
      match ParseInt(m.popyear)
      case Some(y) => Ok(y)
      case None => Failure(ValueError)
  }

  /** The resource made of one file of a record: named after the text that
      follows the file URL's last "/". */
  function FileResource(m: Metadata, url: string, d: Date): (r: Resource)
    ensures r.url == url && '/' !in r.name
    ensures |r.name| <= |url| && r.name == url[|url| - |r.name|..]
  {
    Resource(AfterLast(url, '/'), url, m.dataFormat, m.category, d)
  }

  /** The resources of the files `urls` of record `m`, in that order. */
  function FileResources(m: Metadata, urls: seq<string>, d: Date): (rs: seq<Resource>)
    ensures |rs| == |urls|
    ensures forall k :: 0 <= k < |urls| ==> rs[k] == FileResource(m, urls[k], d)
  {
    seq(|urls|, k requires 0 <= k < |urls| => FileResource(m, urls[k], d))
  }

  /** `dict_of_lists_add(d, y, r)` */
  function AddToYear(d: ODict<int, seq<Resource>>, y: int, r: Resource): (out: ODict<int, seq<Resource>>)
    requires d.Valid()
    ensures out.Valid()
  {
    d.Put(y, d.Get(y, []) + [r])
  }

  /** `dict_of_lists_add` of each of `rs` in turn under the same year. */
  function AddAllToYear(d: ODict<int, seq<Resource>>, y: int, rs: seq<Resource>): (out: ODict<int, seq<Resource>>)
    requires d.Valid()
    ensures out.Valid()
    decreases |rs|
  {
    if rs == [] then d else AddToYear(AddAllToYear(d, y, rs[..|rs| - 1]), y, rs[|rs| - 1])
  }

  /** Adding a run of resources under one year appends them, in order, to
      that year's list and touches nothing else; adding none changes
      nothing. */
  lemma {:induction false} AddAllToYearAppends(d: ODict<int, seq<Resource>>, y: int, rs: seq<Resource>)
    requires d.Valid()
    ensures rs == [] ==> AddAllToYear(d, y, rs) == d
    ensures rs != [] ==> AddAllToYear(d, y, rs) == d.Put(y, d.Get(y, []) + rs)
    decreases |rs|
  {
    if rs != [] {
      var init := rs[..|rs| - 1];
      var r := rs[|rs| - 1];
      AddAllToYearAppends(d, y, init);
      var prev := d.Get(y, []);
      if init == [] {
        assert rs == [r];
      } else {
        var mid := d.Put(y, prev + init);
        assert mid.Get(y, []) + [r] == prev + rs;
        PutTwice(d, y, prev + init, prev + rs);
      }
    }
  }

  /** One record of the scan. Records that are not public are skipped. */
  function Step(st: Scan, m: Metadata): (r: Result<Scan>)
    requires st.byYear.Valid()
    ensures r.Ok? ==> r.value.byYear.Valid()
  {
    if !IsPublic(m) then Ok(st)
    else
      var d := StampDate(st.earliestDate, m);
      match RecordYear(m, d)
      case Failure(e) => Failure(e)
      case Ok(y) =>
        Ok(Scan(NextEarliest(st.earliestDate, m),
                if y < st.earliestYear then y else st.earliestYear,
                if y > st.latestYear then y else st.latestYear,
                AddAllToYear(st.byYear, y, FileResources(m, SortDescending(m.files), d))))
  }

  /** The scan state after the records `recs` from position `j` on,
      starting from `st`, or the ValueError of the first public record
      whose `popyear` is not an integer. */
  function ScanFrom(recs: seq<Metadata>, j: nat, st: Scan): (r: Result<Scan>)
    requires j <= |recs| && st.byYear.Valid()
    ensures r.Ok? ==> r.value.byYear.Valid()
    decreases |recs| - j
  {
    if j == |recs| then Ok(st)
    else
      match Step(st, recs[j])
      case Failure(e) => Failure(e)
      case Ok(next) => ScanFrom(recs, j + 1, next)
  }

  /** The scan over the sub-aliases' record lists from position `i` on:
      each list in turn, in dictionary order. */
  function ScanGroups(values: seq<seq<Metadata>>, i: nat, st: Scan): (r: Result<Scan>)
    requires i <= |values| && st.byYear.Valid()
    ensures r.Ok? ==> r.value.byYear.Valid()
    decreases |values| - i
  {
    if i == |values| then Ok(st)
    else
      match ScanFrom(values[i], 0, st)
      case Failure(e) => Failure(e)
      case Ok(next) => ScanGroups(values, i + 1, next)
  }

  lemma AddFileStep(byYear: ODict<int, seq<Resource>>, year: int, m: Metadata, files: seq<string>, k: nat, date: Date)
    requires byYear.Valid() && k < |files|
    ensures AddAllToYear(byYear, year, FileResources(m, files[..k + 1], date)) ==
            AddToYear(AddAllToYear(byYear, year, FileResources(m, files[..k], date)), year, FileResource(m, files[k], date))
  {
    var done := FileResources(m, files[..k], date);
    var next := FileResources(m, files[..k + 1], date);
    assert forall j :: 0 <= j < k ==> next[j] == done[j];
    assert next == done + [FileResource(m, files[k], date)];
    assert next[..k] == done;
  }

  /** The files loop of the scan: one resource per file, in the order
      given, each added to the year's list. */
  method AddFileResources(byYear: ODict<int, seq<Resource>>, year: int, m: Metadata, files: seq<string>, date: Date)
    returns (out: ODict<int, seq<Resource>>)
    requires byYear.Valid()
    ensures out == AddAllToYear(byYear, year, FileResources(m, files, date))
  {
    out := byYear;
    for k := 0 to |files|
      invariant out.Valid()
      invariant out == AddAllToYear(byYear, year, FileResources(m, files[..k], date))
    {
      AddFileStep(byYear, year, m, files, k, date);
      out := AddToYear(out, year, FileResource(m, files[k], date));
    }
    assert files[..|files|] == files;
  }

  /** The body of the scan for one record. */
  method ScanRecord(st: Scan, m: Metadata) returns (r: Result<Scan>)
    requires st.byYear.Valid()
    ensures r == Step(st, m)
  {
    if Lower(m.public) != "y" {
      return Ok(st);
    }
    var earliestDate := st.earliestDate;
    var date := if Trusted(m) then m.date.date else earliestDate;
    if Trusted(m) && Before(m.date.date, earliestDate) {
      earliestDate := m.date.date;
    }
    var year := RecordYear(m, date);
    if year.Failure? {
      return Failure(year.error);
    }
    var latestYear := st.latestYear;
    if year.value > latestYear {
      latestYear := year.value;
    }
    var earliestYear := st.earliestYear;
    if year.value < earliestYear {
      earliestYear := year.value;
    }
    var byYear := AddFileResources(st.byYear, year.value, m, SortDescending(m.files), date);
    r := Ok(Scan(earliestDate, earliestYear, latestYear, byYear));
  }

  /** The inner loop of the scan: the records of one sub-alias. */
  method ScanGroup(records: seq<Metadata>, st0: Scan) returns (r: Result<Scan>)
    requires st0.byYear.Valid()
    ensures r == ScanFrom(records, 0, st0)
  {
    var st := st0;
    for j := 0 to |records|
      invariant st.byYear.Valid()
      invariant ScanFrom(records, j, st) == ScanFrom(records, 0, st0)
    {
      var next := ScanRecord(st, records[j]);
      if next.Failure? {
        return next;
      }
      st := next.value;
    }
    r := Ok(st);
  }

  /** The scan over every record of every sub-alias, in dictionary order. */
  method ScanMetadata(all: ODict<string, seq<Metadata>>, defaultEndDate: Date) returns (r: Result<Scan>)
    requires all.Valid()
    ensures r == ScanGroups(all.Values(), 0, InitialScan(defaultEndDate))
  {
    var values := all.Values();
    var st := InitialScan(defaultEndDate);
    for i := 0 to |all.keys|
      invariant st.byYear.Valid()
      invariant ScanGroups(values, i, st) == ScanGroups(values, 0, InitialScan(defaultEndDate))
    {
      var records := all.m[all.keys[i]];
      assert records == values[i];
      var next := ScanGroup(records, st);
      if next.Failure? {
        return next;
      }
      st := next.value;
    }
    r := Ok(st);
  }

  // -----------------------------------------------------------------------
  // Adding the resources, newest year first

  predicate StrictlyDescending(s: seq<int>) {
    forall i, j :: 0 <= i < j < |s| ==> s[i] > s[j]
  }

  /** `sorted(years, reverse=True)` by insertion. */
  function InsertYear(y: int, s: seq<int>): (r: seq<int>)
    requires StrictlyDescending(s) && y !in s
    ensures forall x :: x in r <==> x == y || x in s
    ensures StrictlyDescending(r)
    decreases |s|
  {
    if s == [] then [y]
    else if y > s[0] then
      DescendingTail(s);
      ConsDescending(y, s);
      [y] + s
    else
      var tail := s[1..];
      DescendingTail(s);
      var r' := InsertYear(y, tail);
      ConsDescending(s[0], r');
      [s[0]] + r'
  }

  lemma DescendingTail(s: seq<int>)
    requires StrictlyDescending(s) && s != []
    ensures StrictlyDescending(s[1..])
    ensures forall x :: x in s[1..] ==> x < s[0]
  {
    forall x | x in s[1..] ensures x < s[0] {
      var k :| 0 <= k < |s[1..]| && s[1..][k] == x;
      assert s[k + 1] == x;
    }
  }

  lemma ConsDescending(h: int, s: seq<int>)
    requires StrictlyDescending(s)
    requires forall x :: x in s ==> x < h
    ensures StrictlyDescending([h] + s)
  {
    var r := [h] + s;
    forall i, j | 0 <= i < j < |r| ensures r[i] > r[j] {
      assert r[j] == s[j - 1] && s[j - 1] in s;
      if i > 0 {
        assert r[i] == s[i - 1];
      }
    }
  }

  /** The population years with resources, newest first. The keys of a
      dictionary are distinct, so the order is strict. */
  function SortYearsDescending(s: seq<int>): (r: seq<int>)
    requires forall i, j :: 0 <= i < j < |s| ==> s[i] != s[j]
    ensures forall x :: x in r <==> x in s
    ensures StrictlyDescending(r)
  {
    if s == [] then []
    else
      assert s == [s[0]] + s[1..];
      var r' := SortYearsDescending(s[1..]);
      assert s[0] !in s[1..];
      InsertYear(s[0], r')
  }

  /** The resources of the years `years`, in that order, each year's
      resources in the order the scan produced them. */
  function InYears(byYear: ODict<int, seq<Resource>>, years: seq<int>): seq<Resource>
    decreases |years|
  {
    if years == [] then [] else InYears(byYear, years[..|years| - 1]) + byYear.Get(years[|years| - 1], [])
  }

  /** The resources in the order they are added to the dataset: newest year
      first. */
  function YearOrdered(byYear: ODict<int, seq<Resource>>): seq<Resource>
    requires byYear.Valid()
  {
    InYears(byYear, SortYearsDescending(byYear.keys))
  }

  /** `add_update_resource` of `adds` in turn, on top of `rs`. */
  method AddUpdateResources(rs: seq<Resource>, adds: seq<Resource>) returns (out: seq<Resource>)
    ensures out == AddUpdateAll(rs, adds)
  {
    out := rs;
    for j := 0 to |adds|
      invariant out == AddUpdateAll(rs, adds[..j])
    {
      assert adds[..j + 1] == adds[..j] + [adds[j]];
      AddUpdateAllSnoc(rs, adds[..j], adds[j]);
      out := AddUpdateResource(out, adds[j]);
    }
    assert adds[..|adds|] == adds;
  }

  /** Adding two runs in turn is adding their concatenation. */
  lemma {:induction false} AddUpdateAllConcat(rs: seq<Resource>, a: seq<Resource>, b: seq<Resource>)
    ensures AddUpdateAll(rs, a + b) == AddUpdateAll(AddUpdateAll(rs, a), b)
    decreases |b|
  {
    if b == [] {
      assert a + b == a;
    } else {
      var binit := b[..|b| - 1];
      var x := b[|b| - 1];
      assert b == binit + [x];
      assert a + b == (a + binit) + [x];
      AddUpdateAllConcat(rs, a, binit);
      AddUpdateAllSnoc(rs, a + binit, x);
      AddUpdateAllSnoc(AddUpdateAll(rs, a), binit, x);
    }
  }

  lemma InYearsSnoc(byYear: ODict<int, seq<Resource>>, years: seq<int>, i: nat)
    requires i < |years| && years[i] in byYear.m
    ensures InYears(byYear, years[..i + 1]) == InYears(byYear, years[..i]) + byYear.m[years[i]]
  {
    assert years[..i + 1][..i] == years[..i];
  }

  /** The loop of `add_update_resource` calls over the years, newest first. */
  method AddResourcesByYear(byYear: ODict<int, seq<Resource>>) returns (resources: seq<Resource>)
    requires byYear.Valid()
    ensures resources == AddUpdateAll([], YearOrdered(byYear))
  {
    var years := SortYearsDescending(byYear.keys);
    resources := [];
    for i := 0 to |years|
      invariant resources == AddUpdateAll([], InYears(byYear, years[..i]))
    {
      assert years[i] in byYear.keys;
      var rs := byYear.m[years[i]];
      InYearsSnoc(byYear, years, i);
      AddUpdateAllConcat([], InYears(byYear, years[..i]), rs);
      resources := AddUpdateResources(resources, rs);
    }
    assert years[..|years|] == years;
  }

  // -----------------------------------------------------------------------
  // Showcases

  /** The showcase of the first sub-alias is `<slug>-showcase`; that of the
      sub-alias at position i > 0 is `<slug>-<i+1>-showcase`. */
  function ShowcaseName(slug: string, i: nat): (name: string)
    ensures |slug| + 9 <= |name| && name[..|slug|] == slug
    ensures name[|name| - 9..] == "-showcase"
  {
    if i == 0 then slug + "-showcase" else slug + "-" + IntToString(i + 1) + "-showcase"
  }

  /** The summary-page showcase for the sub-alias at position `i`, made from
      its last record. */
  function SummaryShowcase(slug: string, countryName: string, indicator: Indicator, last: Metadata, i: nat): (s: Showcase)
    ensures s.name == ShowcaseName(slug, i)
    ensures s.url == last.urlSummary && s.imageUrl == last.urlImg && s.tags == Tags(indicator)
  {
    Showcase(ShowcaseName(slug, i),
             "WorldPop " + countryName + " " + indicator.title + " Summary Page",
             "Summary for " + last.category + " - " + countryName,
             last.urlSummary, last.urlImg, Tags(indicator))
  }

  /** The summary showcase of the sub-alias at position `i`, if its last
      record has a summary image. */
  function ImagedAt(slug: string, countryName: string, indicator: Indicator, values: seq<seq<Metadata>>, i: nat)
    : (ss: seq<Showcase>)
    requires i < |values|
    ensures |ss| <= 1
    ensures ss != [] <==> values[i] != [] && values[i][|values[i]| - 1].urlImg != []
  {
    var group := values[i];
    if group != [] && group[|group| - 1].urlImg != [] then
      [SummaryShowcase(slug, countryName, indicator, group[|group| - 1], i)]
    else []
  }

  /** The showcases of the sub-aliases in `values` from position `i` on,
      after `acc`: one for each whose last record has a summary image; a
      sub-alias without records raises IndexError. */
  function ShowcasesFrom(slug: string, countryName: string, indicator: Indicator, values: seq<seq<Metadata>>,
                         i: nat, acc: seq<Showcase>): Result<seq<Showcase>>
    requires i <= |values|
    decreases |values| - i
  {
    if i == |values| then Ok(acc)
    else
      var group := values[i];
      if group == [] then Failure(IndexError)
      else
        ShowcasesFrom(slug, countryName, indicator, values, i + 1, acc + ImagedAt(slug, countryName, indicator, values, i))
  }

  lemma ShowcasesFromStep(slug: string, countryName: string, indicator: Indicator, values: seq<seq<Metadata>>,
                          i: nat, acc: seq<Showcase>)
    requires i < |values|
    ensures values[i] == [] ==> ShowcasesFrom(slug, countryName, indicator, values, i, acc) == Failure(IndexError)
    ensures values[i] != [] ==>
      ShowcasesFrom(slug, countryName, indicator, values, i, acc) ==
        ShowcasesFrom(slug, countryName, indicator, values, i + 1, acc + ImagedAt(slug, countryName, indicator, values, i))
  {
  }

  /** The body of the showcase loop for a sub-alias with records: its
      summary showcase, or none when its last record has no image. */
  method ShowcaseFor(slug: string, countryName: string, indicator: Indicator, values: seq<seq<Metadata>>, i: nat)
    returns (more: seq<Showcase>)
    requires i < |values| && values[i] != []
    ensures more == ImagedAt(slug, countryName, indicator, values, i)
  {
    var group := values[i];
    var last := group[|group| - 1];
    if last.urlImg == [] {
      return [];
    }
    more := [SummaryShowcase(slug, countryName, indicator, last, i)];
  }

  /** The showcase loop of `generate_dataset_and_showcases`. */
  method MakeShowcases(slug: string, countryName: string, indicator: Indicator, values: seq<seq<Metadata>>)
    returns (r: Result<seq<Showcase>>)
    ensures r == ShowcasesFrom(slug, countryName, indicator, values, 0, [])
  {
    var showcases := [];
    for i := 0 to |values|
      invariant ShowcasesFrom(slug, countryName, indicator, values, i, showcases) ==
                ShowcasesFrom(slug, countryName, indicator, values, 0, [])
    {
      var group := values[i];
      ShowcasesFromStep(slug, countryName, indicator, values, i, showcases);
      if group == [] {
        return Failure(IndexError);
      }
      var more := ShowcaseFor(slug, countryName, indicator, values, i);
      showcases := showcases + more;
    }
    r := Ok(showcases);
  }

  // -----------------------------------------------------------------------
  // One dataset

  /** The dataset's name: the slug of "WorldPop <indicator title> for
      <country name>", lower-cased. */
  function DatasetSlug(env: Collaborators, indicator: Indicator, countryName: string): string {
    Lower(env.slugify("WorldPop " + indicator.title + " for " + countryName))
  }

  /** The dataset built from the last record of the first sub-alias, the
      licence text and the finished scan. */
  function BuildDataset(env: Collaborators, licence: string, countryiso: string, countryName: string,
                        indicator: Indicator, last: Metadata, st: Scan): Dataset
    requires st.byYear.Valid()
  {
    Dataset(DatasetSlug(env, indicator, countryName),
            countryName + " - " + indicator.title,
            env.markdownify(indicator.desc),
            CaveatsPrefix + last.citation,
            Some(ReplaceAll(last.desc, "Constrained", "Constrained and unconstrained")),
            Some(last.source),
            Some(licence),
            countryiso,
            Tags(indicator),
            Maintainer, Organization, UpdateFrequency, true,
            YearRange(st.earliestYear, st.latestYear),
            AddUpdateAll([], YearOrdered(st.byYear)))
  }

  /** Everything after the download, from the gathered records: None where
      the source returns `(None, None)`, or the exception it raises. */
  function FromMetadata(env: Collaborators, texts: map<string, string>, countryiso: string,
                        indicator: Indicator, all: ODict<string, seq<Metadata>>): Result<Option<(Dataset, seq<Showcase>)>>
    requires all.Valid()
  {
    var values := all.Values();
    if values == [] || values[0] == [] then Failure(IndexError)
    else
      var last: Metadata := values[0][|values[0]| - 1];
      match CountryName(countryiso, env.countryNames)
      case None => Ok(None)
      case Some(countryName) =>
        var licenceUrl := Lower(last.license);
        if licenceUrl !in texts then Failure(DownloadFailed(licenceUrl))
        else if !env.acceptsLocation(countryiso) then Ok(None)
        else Finish(env, texts[licenceUrl], countryiso, countryName, indicator, last, values)
  }

  /** The scan, the showcases and the dataset, once the country, the
      licence and the location are settled: None when no public record has
      files. */
  function Finish(env: Collaborators, licence: string, countryiso: string, countryName: string,
                  indicator: Indicator, last: Metadata, values: seq<seq<Metadata>>)
    : Result<Option<(Dataset, seq<Showcase>)>>
  {
    match ScanGroups(values, 0, InitialScan(env.defaultEndDate))
    case Failure(e) => Failure(e)
    case Ok(st) =>
      if st.byYear.keys == [] then Ok(None)
      else
        match ShowcasesFrom(DatasetSlug(env, indicator, countryName), countryName, indicator, values, 0, [])
        case Failure(e) => Failure(e)
        case Ok(showcases) =>
          Ok(Some((BuildDataset(env, licence, countryiso, countryName, indicator, last, st), showcases)))
  }

  /** `generate_dataset_and_showcases` as a value: `served` holds the JSON
      documents the fetcher can serve and `texts` the licence texts. */
  function Generate(env: Collaborators, texts: map<string, string>, served: map<string, Payload>,
                    countryiso: string, indicator: Indicator, countryalias: WorldPopIndex.CountryAlias)
    : Result<Option<(Dataset, seq<Showcase>)>>
    requires countryalias.Valid()
  {
    match GatherFrom(countryalias, 0, EmptyDict(), served)
    case Failure(e) => Failure(e)
    case Ok(all) => FromMetadata(env, texts, countryiso, indicator, all)
  }

  /** The part of `generate_dataset_and_showcases` after the download. */
  method DatasetFromMetadata(env: Collaborators, texts: map<string, string>, countryiso: string,
                             indicator: Indicator, all: ODict<string, seq<Metadata>>)
    returns (r: Result<Option<(Dataset, seq<Showcase>)>>)
    requires all.Valid()
    ensures r == FromMetadata(env, texts, countryiso, indicator, all)
  {
    var values := all.Values();
    if |values| == 0 || |values[0]| == 0 {
      return Failure(IndexError);
    }
    var last: Metadata := values[0][|values[0]| - 1];
    var name := CountryName(countryiso, env.countryNames);
    if name.None? {
      return Ok(None);
    }
    var countryName := name.value;
    var slug := Lower(env.slugify("WorldPop " + indicator.title + " for " + countryName));
    var licenceUrl := Lower(last.license);
    if licenceUrl !in texts {
      return Failure(DownloadFailed(licenceUrl));
    }
    var licence := texts[licenceUrl];
    if !env.acceptsLocation(countryiso) {
      return Ok(None);
    }
    var scanned := ScanMetadata(all, env.defaultEndDate);
    if scanned.Failure? {
      return Failure(scanned.error);
    }
    var st := scanned.value;
    if |st.byYear.keys| == 0 {
      return Ok(None);
    }
    var resources := AddResourcesByYear(st.byYear);
    var showcases := MakeShowcases(slug, countryName, indicator, values);
    if showcases.Failure? {
      return Failure(showcases.error);
    }
    var dataset := Dataset(slug, countryName + " - " + indicator.title, env.markdownify(indicator.desc),
                           CaveatsPrefix + last.citation,
                           Some(ReplaceAll(last.desc, "Constrained", "Constrained and unconstrained")),
                           Some(last.source), Some(licence), countryiso, Tags(indicator),
                           Maintainer, Organization, UpdateFrequency, true,
                           YearRange(st.earliestYear, st.latestYear), resources);
    r := Ok(Some((dataset, showcases.value)));
  }

  /** `generate_dataset_and_showcases`: `(None, None)` becomes `Ok(None)`. */
  method GenerateDatasetAndShowcases(env: Collaborators, texts: map<string, string>, served: map<string, Payload>,
                                     countryiso: string, indicator: Indicator, countryalias: WorldPopIndex.CountryAlias)
    returns (r: Result<Option<(Dataset, seq<Showcase>)>>)
    requires countryalias.Valid()
    ensures r == Generate(env, texts, served, countryiso, indicator, countryalias)
  {
    var gathered := GatherMetadata(EmptyDict(), countryalias, served);
    if gathered.Failure? {
      return Failure(gathered.error);
    }
    r := DatasetFromMetadata(env, texts, countryiso, indicator, gathered.value);
  }

  // -----------------------------------------------------------------------
  // All the datasets of one country

  /** The outcome of the alias at position `k`: what
      `generate_dataset_and_showcases` gives for it, or the KeyError of an
      alias without catalogue metadata. */
  function AliasOutcome(env: Collaborators, texts: map<string, string>, served: map<string, Payload>,
                        countryiso: string, indicators: map<string, Indicator>,
                        countrydata: WorldPopIndex.CountryData, k: nat): Result<Option<(Dataset, seq<Showcase>)>>
    requires countrydata.Valid() && k < |countrydata.keys|
    requires forall a :: a in countrydata.m ==> countrydata.m[a].Valid()
  {
    var alias := countrydata.keys[k];
    if alias !in indicators then Failure(KeyError(alias))
    else Generate(env, texts, served, countryiso, indicators[alias], countrydata.m[alias])
  }

  /** What one alias's outcome adds: nothing for `(None, None)`, else its
      dataset at the end of the list and its showcases appended under the
      dataset's name. */
  function Collect(acc: (seq<Dataset>, ODict<string, seq<Showcase>>), generated: Result<Option<(Dataset, seq<Showcase>)>>)
    : (r: Result<(seq<Dataset>, ODict<string, seq<Showcase>>)>)
    requires acc.1.Valid()
    ensures r.Ok? ==> r.value.1.Valid()
  {
    match generated
    case Failure(e) => Failure(e)
    case Ok(None) => Ok(acc)
    case Ok(Some(pair)) =>
      Ok((acc.0 + [pair.0], acc.1.Put(pair.0.name, acc.1.Get(pair.0.name, []) + pair.1)))
  }

  /** The datasets and showcases after the aliases from position `k` on,
      starting from `acc`; the first failure ends the loop. */
  function AssembleFrom(env: Collaborators, texts: map<string, string>, served: map<string, Payload>, countryiso: string,
                        indicators: map<string, Indicator>, countrydata: WorldPopIndex.CountryData, k: nat,
                        acc: (seq<Dataset>, ODict<string, seq<Showcase>>))
    : (r: Result<(seq<Dataset>, ODict<string, seq<Showcase>>)>)
    requires countrydata.Valid() && k <= |countrydata.keys| && acc.1.Valid()
    requires forall a :: a in countrydata.m ==> countrydata.m[a].Valid()
    ensures r.Ok? ==> r.value.1.Valid()
    decreases |countrydata.keys| - k
  {
    if k == |countrydata.keys| then Ok(acc)
    else
      match Collect(acc, AliasOutcome(env, texts, served, countryiso, indicators, countrydata, k))
      case Failure(e) => Failure(e)
      case Ok(next) => AssembleFrom(env, texts, served, countryiso, indicators, countrydata, k + 1, next)
  }

  /** The loop body of `generate_datasets_and_showcases` for the alias at
      position `n`. */
  method AddAliasDataset(env: Collaborators, texts: map<string, string>, served: map<string, Payload>, countryiso: string,
                         indicators: map<string, Indicator>, countrydata: WorldPopIndex.CountryData, n: nat,
                         acc: (seq<Dataset>, ODict<string, seq<Showcase>>))
    returns (r: Result<(seq<Dataset>, ODict<string, seq<Showcase>>)>)
    requires countrydata.Valid() && n < |countrydata.keys| && acc.1.Valid()
    requires forall a :: a in countrydata.m ==> countrydata.m[a].Valid()
    ensures r == Collect(acc, AliasOutcome(env, texts, served, countryiso, indicators, countrydata, n))
  {
    var alias := countrydata.keys[n];
    if alias !in indicators {
      return Failure(KeyError(alias));
    }
    var generated := GenerateDatasetAndShowcases(env, texts, served, countryiso, indicators[alias], countrydata.m[alias]);
    if generated.Failure? {
      return Failure(generated.error);
    }
    if generated.value.None? {
      return Ok(acc);
    }
    var dataset := generated.value.value.0;
    var found := generated.value.value.1;
    r := Ok((acc.0 + [dataset], acc.1.Put(dataset.name, acc.1.Get(dataset.name, []) + found)));
  }

  /** `generate_datasets_and_showcases` */
  method GenerateDatasetsAndShowcases(env: Collaborators, texts: map<string, string>, served: map<string, Payload>, countryiso: string,
                                      indicators: map<string, Indicator>, countrydata: WorldPopIndex.CountryData)
    returns (r: Result<(seq<Dataset>, ODict<string, seq<Showcase>>)>)
    requires countrydata.Valid()
    requires forall a :: a in countrydata.m ==> countrydata.m[a].Valid()
    ensures r == AssembleFrom(env, texts, served, countryiso, indicators, countrydata, 0, ([], EmptyDict()))
  {
    var acc: (seq<Dataset>, ODict<string, seq<Showcase>>) := ([], EmptyDict());
    for i := 0 to |countrydata.keys|
      invariant acc.1.Valid()
      invariant AssembleFrom(env, texts, served, countryiso, indicators, countrydata, i, acc) ==
                AssembleFrom(env, texts, served, countryiso, indicators, countrydata, 0, ([], EmptyDict()))
    {
      r := AddAliasDataset(env, texts, served, countryiso, indicators, countrydata, i, acc);
      if r.Failure? {
        return;
      }
      acc := r.value;
    }
    r := Ok(acc);
  }
}
