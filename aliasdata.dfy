/** The second-generation dataset builder (`aliasdata.py`, class
    `AliasData`): one dataset per public record of an indicator, named after
    the record's category and population year, with one resource per file
    whose name has the distance tag (`_100m`, `_1km`, ...) cut off, and one
    showcase per base name. */
module Aliasdata {

  import opened Base
  import opened Text
  import opened Records
  import opened Gather

  // -----------------------------------------------------------------------
  // The category text

  /** `estimate_type, _ = category.split(maxsplit=1)`: the first word of the
      category, or ValueError when the category has fewer than two words. */
  function EstimateType(category: string): (r: Result<string>)
    ensures r.Ok? <==> |Words(category)| >= 2
    ensures r.Ok? ==> r.value == Words(category)[0] && r.value != [] && NoSpace(r.value)
    ensures r.Failure? ==> r.error == ValueError
  {
    SplitOnceAgreesWithWords(category);
    var parts := SplitOnce(category);
    if |parts| == 2 then Ok(parts[0]) else Failure(ValueError)
  }

  /** `start, end = category.split("-")`: the text before and after the one
      dash, or ValueError when there is not exactly one. */
  function SplitOnDash(category: string): (r: Result<(string, string)>)
    ensures r.Ok? <==> Count(category, '-') == 1
    ensures r.Ok? ==> r.value.0 + "-" + r.value.1 == category
    ensures r.Ok? ==> '-' !in r.value.0 && '-' !in r.value.1
    ensures r.Failure? ==> r.error == ValueError
  {
    if Count(category, '-') != 1 then Failure(ValueError)
    else
      var i := FirstIndex(category, '-');
      DashParts(category, i);
      Ok((category[..i], category[i + 1..]))
  }

  lemma DashParts(s: string, i: nat)
    requires Count(s, '-') == 1 && i == FirstIndex(s, '-')
    ensures i < |s| && s[..i] + "-" + s[i + 1..] == s
    ensures '-' !in s[..i] && '-' !in s[i + 1..]
  {
    DashFound(s, i);
    DashSplit(s, i);
    NoneBefore(s, i, '-');
    CountAround(s[..i], s[i + 1..]);
  }

  lemma DashFound(s: string, i: nat)
    requires Count(s, '-') > 0 && i == FirstIndex(s, '-')
    ensures i < |s| && s[i] == '-'
  {
    assert '-' in s;
  }

  lemma DashSplit(s: string, i: nat)
    requires i < |s| && s[i] == '-'
    ensures s[..i] + "-" + s[i + 1..] == s
  {
    assert s == s[..i] + [s[i]] + s[i + 1..];
  }

  lemma NoneBefore(s: string, i: nat, c: char)
    requires i <= |s| && forall j :: 0 <= j < i ==> s[j] != c
    ensures c !in s[..i]
  {
    assert forall j :: 0 <= j < i ==> s[..i][j] == s[j];
  }

  /** The dashes of `a + "-" + b` are the one between and those of `b`. */
  lemma CountAround(a: string, b: string)
    requires '-' !in a
    ensures Count(a + "-" + b, '-') == 1 + Count(b, '-')
  {
    CountSplit(a, "-" + b, '-');
    CountSplit("-", b, '-');
    assert a + "-" + b == a + ("-" + b);
  }

  /** `category[i]` is the first "(" and `j` is the position of the first
      ")" after it, or the end of the category. */
  predicate BracketAt(category: string, i: nat, j: nat) {
    && i < j <= |category|
    && category[i] == '(' && '(' !in category[..i]
    && ')' !in category[i + 1..j] && (j == |category| || category[j] == ')')
  }

  lemma FirstBracket(category: string, i: nat, k: nat)
    requires i == FirstIndex(category, '(') && i < |category|
    requires k == FirstIndex(category[i + 1..], ')')
    ensures BracketAt(category, i, i + 1 + k)
    ensures category[i + 1..][..k] == category[i + 1..i + 1 + k]
  {
    var rest := category[i + 1..];
    NoneBefore(category, i, '(');
    NoneBefore(rest, k, ')');
    assert rest[..k] == category[i + 1..i + 1 + k];
  }

  /** `category.split("(", 1)[1].split(")")[0].strip()`: the stripped text
      between the first "(" and the ")" that follows it (or the end of the
      category); IndexError when there is no "(". */
  function Bracketed(category: string): (r: Result<string>)
    ensures r.Ok? <==> '(' in category
    ensures r.Failure? ==> r.error == IndexError
    ensures r.Ok? ==> exists i: nat, j: nat :: BracketAt(category, i, j) && r.value == Strip(category[i + 1..j])
  {
    var i := FirstIndex(category, '(');
    if i == |category| then Failure(IndexError)
    else
      var k := FirstIndex(category[i + 1..], ')');
      FirstBracket(category, i, k);
      Ok(Strip(category[i + 1..][..k]))
  }

  /** What the category makes of a record: its estimate type, the shorter
      category used in names, and the dataset title. */
  datatype Naming = Naming(estimateType: string, categoryShorter: string, title: string)

  /** The shorter category of a category with one dash: the estimate type
      lower-cased, then "<last four before the dash>-<first four after
      it>". */
  function DashShorter(estimateType: string, category: string): (r: string)
    requires Count(category, '-') == 1
    ensures exists start, end ::
      && start + "-" + end == category && '-' !in start && '-' !in end
      && r == Lower(estimateType) + " " + Tail(start, 4) + "-" + Head(end, 4)
  {
    var parts := SplitOnDash(category).value;
    Lower(estimateType) + " " + Tail(parts.0, 4) + "-" + Head(parts.1, 4)
  }

  /** A category with a dash ("Constrained individual countries 2015-2030")
      gives a shorter category with a year range, and a title with the
      year; without a dash only the estimate type is used. */
  function CategoryNaming(title: string, category: string, year: int): (r: Result<Naming>)
    ensures r.Ok? <==> |Words(category)| >= 2 && Count(category, '-') <= 1
    ensures r.Failure? ==> r.error == ValueError
    ensures r.Ok? ==> r.value.estimateType == Words(category)[0]
    ensures r.Ok? && '-' !in category ==>
      && r.value.categoryShorter == Lower(r.value.estimateType)
      && r.value.title == title + " (" + r.value.estimateType + ")"
    ensures r.Ok? && '-' in category ==>
      && r.value.categoryShorter == DashShorter(r.value.estimateType, category)
      && r.value.title == title + " for " + IntToString(year) + " (" + r.value.categoryShorter + ")"
  {
    match EstimateType(category)
    case Failure(e) => Failure(e)
    case Ok(est) =>
      if '-' !in category then Ok(Naming(est, Lower(est), title + " (" + est + ")"))
      else if Count(category, '-') != 1 then Failure(ValueError)
      else
        var shorter := DashShorter(est, category);
        Ok(Naming(est, shorter, title + " for " + IntToString(year) + " (" + shorter + ")"))
  }

  // -----------------------------------------------------------------------
  // The distance tag `_\d*m`

  /** The number of ASCII digits in a row from position `k`. */
  function DigitRun(s: string, k: nat): (n: nat)
    ensures k + n <= |s| || (k >= |s| && n == 0)
    ensures forall t :: k <= t < k + n ==> IsDigit(s[t])
    ensures k + n < |s| ==> !IsDigit(s[k + n])
    decreases |s| - k
  {
    if k >= |s| || !IsDigit(s[k]) then 0 else 1 + DigitRun(s, k + 1)
  }

  /** `_\d*m` matches at position `p`: an underscore, digits (possibly none)
      and an "m". The digits are taken greedily; giving some back never lets
      an "m" follow, so this is the only way to match at `p`. */
  predicate DistanceAt(s: string, p: nat) {
    p < |s| && s[p] == '_' && p + 1 + DigitRun(s, p + 1) < |s| && s[p + 1 + DigitRun(s, p + 1)] == 'm'
  }

  /** The end of the match at `p`. */
  function DistanceEndAt(s: string, p: nat): nat
    requires DistanceAt(s, p)
  {
    p + 2 + DigitRun(s, p + 1)
  }

  /** `distance_regex.search(s)` from position `from`: the leftmost match. */
  function FirstDistance(s: string, from: nat): (p: Option<nat>)
    ensures p.Some? ==> from <= p.value && DistanceAt(s, p.value)
    ensures forall q :: from <= q && (p.None? || q < p.value) ==> !DistanceAt(s, q)
    decreases |s| - from
  {
    if from >= |s| then None
    else if DistanceAt(s, from) then Some(from)
    else FirstDistance(s, from + 1)
  }

  /** `filename[:match.end()]` when the pattern matches, else the filename
      unchanged. */
  function CutDistance(s: string): (r: string)
    ensures |r| <= |s| && r == s[..|r|]
    ensures FirstDistance(s, 0).None? ==> r == s
    ensures FirstDistance(s, 0).Some? ==>
      |r| == DistanceEndAt(s, FirstDistance(s, 0).value) && r[|r| - 1] == 'm'
  {
    match FirstDistance(s, 0)
    case None => s
    case Some(p) => s[..DistanceEndAt(s, p)]
  }

  /** Digits read from `k` stop at the same place in `x` and in any
      extension of `x` when `x` has a non-digit at or after `k`. */
  lemma {:induction false} DigitRunExtend(x: string, z: string, k: nat, m: nat)
    requires k <= m < |x| && !IsDigit(x[m])
    ensures DigitRun(x + z, k) == DigitRun(x, k) && k + DigitRun(x, k) <= m
    decreases m - k
  {
    if IsDigit(x[k]) {
      assert (x + z)[k] == x[k];
      DigitRunExtend(x, z, k + 1, m);
    } else {
      assert (x + z)[k] == x[k];
    }
  }

  /** The pattern matches at the same positions of `x` and of `x + z` up to
      the end of a match in `x`. */
  lemma DistanceAtExtend(x: string, z: string, p: nat, q: nat)
    requires DistanceAt(x, p) && q <= p
    ensures DistanceAt(x + z, q) <==> DistanceAt(x, q)
    ensures q == p ==> DistanceEndAt(x + z, p) == DistanceEndAt(x, p)
  {
    var e := DistanceEndAt(x, p);
    DigitRunExtend(x, z, q + 1, e - 1);
    assert (x + z)[q] == x[q];
    var n := DigitRun(x, q + 1);
    assert q + 1 + n < |x| ==> (x + z)[q + 1 + n] == x[q + 1 + n];
  }

  /** Everything after a distance tag is irrelevant: a file name that
      extends one with a tag is cut to the same name. This is what makes
      re-releases of a file collide on the resource name. */
  lemma CutDistanceExtend(x: string, z: string)
    requires FirstDistance(x, 0).Some?
    ensures CutDistance(x + z) == CutDistance(x)
  {
    var p := FirstDistance(x, 0).value;
    forall q: nat | q <= p ensures DistanceAt(x + z, q) <==> DistanceAt(x, q) {
      DistanceAtExtend(x, z, p, q);
    }
    FirstDistanceIs(x + z, p);
    DistanceAtExtend(x, z, p, p);
    var e := DistanceEndAt(x, p);
    assert (x + z)[..e] == x[..e];
  }

  /** A match with no earlier match is the first one. */
  lemma FirstDistanceIs(s: string, p: nat)
    requires DistanceAt(s, p) && forall q: nat :: q < p ==> !DistanceAt(s, q)
    ensures FirstDistance(s, 0) == Some(p)
  {
  }

  /** Cutting twice cuts nothing more: a cut name keeps its tag at its
      end. */
  lemma CutDistanceIdempotent(s: string)
    ensures CutDistance(CutDistance(s)) == CutDistance(s)
  {
    var f := FirstDistance(s, 0);
    if f.Some? {
      var e := DistanceEndAt(s, f.value);
      var x := s[..e];
      assert s == x + s[e..];
      forall q: nat | q <= f.value ensures DistanceAt(x, q) <==> DistanceAt(s, q) {
        DistanceAtInPrefix(s, e, f.value, q);
      }
      FirstDistanceIs(x, f.value);
      CutDistanceExtend(x, s[e..]);
      assert x[..e] == x;
    }
  }

  /** The prefix of `s` ending with the match at `p` has the same matches up
      to `p`. */
  lemma DistanceAtInPrefix(s: string, e: nat, p: nat, q: nat)
    requires DistanceAt(s, p) && e == DistanceEndAt(s, p) && q <= p
    ensures DistanceAt(s[..e], q) <==> DistanceAt(s, q)
  {
    var x := s[..e];
    assert s == x + s[e..];
    assert x[e - 1] == 'm' && s[e - 1] == 'm';
    DigitRunExtend(x, s[e..], q + 1, e - 1);
    assert x[q] == s[q];
    var n := DigitRun(x, q + 1);
    assert q + 1 + n < |x| ==> x[q + 1 + n] == s[q + 1 + n];
  }

  // -----------------------------------------------------------------------
  // One dataset per record

  /** The `resource_data` shared by every resource of a dataset. */
  datatype ResourceData = ResourceData(description: string, format: string)

  /** The text an f-string makes of the country name attribute. */
  function NameText(name: Option<string>): string {
    match name
    case None => "None"
    case Some(s) => s
  }

  /** `get_caveats`: the fixed prefix, then the citation of the last record
      of the first sub-alias; IndexError when there is none. */
  function Caveats(all: ODict<string, seq<Metadata>>): (r: Result<string>)
    requires all.Valid()
    ensures r.Ok? <==> |all.keys| > 0 && all.m[all.keys[0]] != []
    ensures r.Failure? ==> r.error == IndexError
    ensures r.Ok? ==>
      var first := all.m[all.keys[0]];
      r.value == CaveatsPrefix + first[|first| - 1].citation
  {
    if all.keys == [] || all.m[all.keys[0]] == [] then Failure(IndexError)
    else
      var first := all.m[all.keys[0]];
      Ok(CaveatsPrefix + first[|first| - 1].citation)
  }

  /** What `generate_dataset` reads off a record before building
      anything: the population year, the title and name parts of the
      category, the caveats and the bracketed part of the category. */
  datatype Reading = Reading(year: int, naming: Naming, caveats: string, bracketed: string)

  /** The reading of one record: an error when the population year, the
      category or the caveats cannot be read. */
  function ReadRecord(all: ODict<string, seq<Metadata>>, m: Metadata): (r: Result<Reading>)
    requires all.Valid()
    ensures r.Ok? ==> ParseInt(m.popyear) == Some(r.value.year)
  {
    match ParseInt(m.popyear)
    case None => Failure(ValueError)
    case Some(year) =>
      match CategoryNaming(m.title, m.category, year)
      case Failure(e) => Failure(e)
      case Ok(naming) =>
        match Caveats(all)
        case Failure(e) => Failure(e)
        case Ok(caveats) =>
          match Bracketed(m.category)
          case Failure(e) => Failure(e)
          case Ok(bracketed) => Ok(Reading(year, naming, caveats, bracketed))
  }

  /** The dataset, resource template and showcase built from a reading. */
  function MakeDataset(env: Collaborators, countryIso3: string, countryName: Option<string>, indicator: Indicator,
                       m: Metadata, rd: Reading): (Dataset, ResourceData, Showcase)
  {
    var baseName := env.slugify("worldpop-" + m.project + "-" + rd.naming.categoryShorter + "-" + countryIso3);
    var tags := Tags(indicator);
    var dataset := Dataset(baseName + "-" + IntToString(rd.year), rd.naming.title, m.desc, rd.caveats,
                           None, None, None, countryIso3, tags,
                           Maintainer, Organization, UpdateFrequency, true, YearRange(rd.year, rd.year), []);
    var data := ResourceData(rd.naming.estimateType + " " + Lower(m.project) + " (" + rd.bracketed + ") for " + IntToString(rd.year),
                             m.dataFormat);
    var showcase := Showcase(baseName,
                             "WorldPop " + NameText(countryName) + " " + m.project + " Summary Page",
                             "Summary for " + m.category + " - " + NameText(countryName),
                             m.urlSummary, m.urlImg, tags);
    (dataset, data, showcase)
  }

  /** The dataset, resource template and showcase that `generate_dataset`
      makes of one record: None when the location is rejected, an error
      when the record cannot be read. */
  function DeriveDataset(env: Collaborators, countryIso3: string, countryName: Option<string>, indicator: Indicator,
                         all: ODict<string, seq<Metadata>>, m: Metadata)
    : Result<Option<(Dataset, ResourceData, Showcase)>>
    requires all.Valid()
  {
    if !env.acceptsLocation(countryIso3) then Ok(None)
    else
      match ReadRecord(all, m)
      case Failure(e) => Failure(e)
      case Ok(rd) => Ok(Some(MakeDataset(env, countryIso3, countryName, indicator, m, rd)))
  }

  /** The resource made of one file: its filename cut after the distance
      tag, the extension put back, all lower-cased. */
  function FileResource(env: Collaborators, data: ResourceData, url: string, date: Date): (r: Resource)
    ensures r.url == url && r.description == data.description && r.format == data.format
    ensures r.name == Lower(CutDistance(env.splitFilename(url).0) + env.splitFilename(url).1)
  {
    var parts := env.splitFilename(url);
    Resource(Lower(CutDistance(parts.0) + parts.1), url, data.format, data.description, date)
  }

  /** The resources of `urls`, in that order. */
  function FileResources(env: Collaborators, data: ResourceData, urls: seq<string>, date: Date): (rs: seq<Resource>)
    ensures |rs| == |urls|
    ensures forall k :: 0 <= k < |urls| ==> rs[k] == FileResource(env, data, urls[k], date)
  {
    seq(|urls|, k requires 0 <= k < |urls| => FileResource(env, data, urls[k], date))
  }

  lemma FileResourcesSnoc(env: Collaborators, data: ResourceData, urls: seq<string>, k: nat, date: Date)
    requires k < |urls|
    ensures FileResources(env, data, urls[..k + 1], date) ==
            FileResources(env, data, urls[..k], date) + [FileResource(env, data, urls[k], date)]
  {
    var a, b := FileResources(env, data, urls[..k + 1], date), FileResources(env, data, urls[..k], date);
    assert forall j :: 0 <= j < k ==> a[j] == b[j];
  }

  /** The datasets collected so far and the showcase dictionary. */
  datatype Progress = Progress(datasets: seq<Dataset>, showcases: ODict<string, Showcase>)

  /** What a public record does once its dataset has been derived: the
      showcase is stored under the base name and, when the record has
      files, its dataset is added with one resource per file, files in
      descending order, each added with `add_update_resource`. */
  function Store(env: Collaborators, m: Metadata, derived: Result<Option<(Dataset, ResourceData, Showcase)>>, acc: Progress)
    : (r: Result<Progress>)
    requires acc.showcases.Valid()
    ensures r.Ok? ==> r.value.showcases.Valid()
  {
    match derived
    case Failure(e) => Failure(e)
    case Ok(None) => Ok(acc)
    case Ok(Some(made)) =>
      var showcases := acc.showcases.Put(made.2.name, made.2);
      match m.date
      case Unparseable => Failure(ParserError)
      case Parsed(date) =>
        var resources := AddUpdateAll([], FileResources(env, made.1, SortDescending(m.files), date));
        if resources == [] then Ok(Progress(acc.datasets, showcases))
        else Ok(Progress(acc.datasets + [made.0.(resources := resources)], showcases))
  }

  /** One record of `generate_datasets`: records that are not public are
      skipped. */
  function RecordStep(env: Collaborators, countryIso3: string, countryName: Option<string>, indicator: Indicator,
                      all: ODict<string, seq<Metadata>>, m: Metadata, acc: Progress): (r: Result<Progress>)
    requires all.Valid() && acc.showcases.Valid()
    ensures r.Ok? ==> r.value.showcases.Valid()
  {
    if !IsPublic(m) then Ok(acc)
    else Store(env, m, DeriveDataset(env, countryIso3, countryName, indicator, all, m), acc)
  }

  /** The records of one sub-alias from position `j` on. */
  function RecordsFrom(env: Collaborators, countryIso3: string, countryName: Option<string>, indicator: Indicator,
                       all: ODict<string, seq<Metadata>>, recs: seq<Metadata>, j: nat, acc: Progress): (r: Result<Progress>)
    requires all.Valid() && acc.showcases.Valid() && j <= |recs|
    ensures r.Ok? ==> r.value.showcases.Valid()
    decreases |recs| - j
  {
    if j == |recs| then Ok(acc)
    else
      match RecordStep(env, countryIso3, countryName, indicator, all, recs[j], acc)
      case Failure(e) => Failure(e)
      case Ok(next) => RecordsFrom(env, countryIso3, countryName, indicator, all, recs, j + 1, next)
  }

  /** The sub-aliases from position `i` on, in dictionary order. */
  function GroupsFrom(env: Collaborators, countryIso3: string, countryName: Option<string>, indicator: Indicator,
                      all: ODict<string, seq<Metadata>>, i: nat, acc: Progress): (r: Result<Progress>)
    requires all.Valid() && acc.showcases.Valid() && i <= |all.keys|
    ensures r.Ok? ==> r.value.showcases.Valid()
    decreases |all.keys| - i
  {
    if i == |all.keys| then Ok(acc)
    else
      match RecordsFrom(env, countryIso3, countryName, indicator, all, all.m[all.keys[i]], 0, acc)
      case Failure(e) => Failure(e)
      case Ok(next) => GroupsFrom(env, countryIso3, countryName, indicator, all, i + 1, next)
  }

  lemma RecordsFromStep(env: Collaborators, countryIso3: string, countryName: Option<string>, indicator: Indicator,
                        all: ODict<string, seq<Metadata>>, recs: seq<Metadata>, j: nat, acc: Progress)
    requires all.Valid() && acc.showcases.Valid() && j < |recs|
    ensures var step := RecordStep(env, countryIso3, countryName, indicator, all, recs[j], acc);
      RecordsFrom(env, countryIso3, countryName, indicator, all, recs, j, acc) ==
        if step.Failure? then Failure(step.error)
        else RecordsFrom(env, countryIso3, countryName, indicator, all, recs, j + 1, step.value)
  {
  }

  lemma GroupsFromStep(env: Collaborators, countryIso3: string, countryName: Option<string>, indicator: Indicator,
                       all: ODict<string, seq<Metadata>>, i: nat, acc: Progress)
    requires all.Valid() && acc.showcases.Valid() && i < |all.keys|
    ensures var group := RecordsFrom(env, countryIso3, countryName, indicator, all, all.m[all.keys[i]], 0, acc);
      GroupsFrom(env, countryIso3, countryName, indicator, all, i, acc) ==
        if group.Failure? then Failure(group.error)
        else GroupsFrom(env, countryIso3, countryName, indicator, all, i + 1, group.value)
  {
  }

  // -----------------------------------------------------------------------
  // The class

  class AliasData {
    const countryIso3: string
    const indicatorMetadata: Indicator
    /** sub-alias -> the URLs of its per-country metadata */
    const countryData: ODict<string, seq<string>>
    var allMetadata: ODict<string, seq<Metadata>>
    var countryName: Option<string>
    var showcases: ODict<string, Showcase>

    ghost predicate Valid()
      reads this
    {
      countryData.Valid() && allMetadata.Valid() && showcases.Valid()
    }

    constructor (countryIso3: string, indicatorMetadata: Indicator, countryData: ODict<string, seq<string>>)
      requires countryData.Valid()
      ensures Valid()
      ensures this.countryIso3 == countryIso3 && this.indicatorMetadata == indicatorMetadata && this.countryData == countryData
      ensures allMetadata == EmptyDict() && countryName == None && showcases == EmptyDict()
    {
      this.countryIso3 := countryIso3;
      this.indicatorMetadata := indicatorMetadata;
      this.countryData := countryData;
      allMetadata := EmptyDict();
      countryName := None;
      showcases := EmptyDict();
    }

    /** `get_allmetadata_for_country`: the records of every URL of every
        sub-alias, appended under the sub-alias to what was gathered
        before. */
    method GetAllMetadataForCountry(served: map<string, Payload>) returns (r: Result<ODict<string, seq<Metadata>>>)
      requires Valid()
      modifies this`allMetadata
      ensures Valid()
      ensures r.Failure? ==> r == GatherFrom(countryData, 0, old(allMetadata), served)
      ensures r.Ok? ==> r == GatherFrom(countryData, 0, old(allMetadata), served) && allMetadata == r.value
    {
      for i := 0 to |countryData.keys|
        invariant Valid()
        invariant GatherFrom(countryData, i, allMetadata, served) == GatherFrom(countryData, 0, old(allMetadata), served)
      {
        var subalias := countryData.keys[i];
        var fetched := FetchAll(countryData.m[subalias], served);
        if fetched.Failure? {
          return Failure(fetched.error);
        }
        allMetadata := allMetadata.Put(subalias, allMetadata.Get(subalias, []) + fetched.value);
      }
      r := Ok(allMetadata);
    }

    /** `set_country_name`: "World" names itself; any other code takes the
        table's entry, and an absent or empty one is reported as not
        recognised. */
    method SetCountryName(names: map<string, string>) returns (ok: bool)
      modifies this`countryName
      ensures countryName == if countryIso3 == World then Some(World)
                             else if countryIso3 in names then Some(names[countryIso3]) else None
      ensures ok <==> CountryName(countryIso3, names).Some?
      ensures ok ==> countryName == CountryName(countryIso3, names)
    {
      if countryIso3 == World {
        countryName := Some(countryIso3);
      } else {
        countryName := if countryIso3 in names then Some(names[countryIso3]) else None;
        if countryName.None? || countryName.value == [] {
          return false;
        }
      }
      ok := true;
    }

    /** `generate_dataset`: on success the showcase is stored under its base
        name, replacing any showcase stored there before. */
    method GenerateDataset(env: Collaborators, m: Metadata) returns (r: Result<Option<(Dataset, ResourceData)>>)
      requires Valid()
      modifies this`showcases
      ensures Valid()
      ensures var d := DeriveDataset(env, countryIso3, countryName, indicatorMetadata, allMetadata, m);
        && (d.Failure? ==> r == Failure(d.error) && showcases == old(showcases))
        && (d == Ok(None) ==> r == Ok(None) && showcases == old(showcases))
        && (d.Ok? && d.value.Some? ==>
              && r == Ok(Some((d.value.value.0, d.value.value.1)))
              && showcases == old(showcases).Put(d.value.value.2.name, d.value.value.2))
    {
      if !env.acceptsLocation(countryIso3) {
        return Ok(None);
      }
      var reading := ReadRecord(allMetadata, m);
      if reading.Failure? {
        return Failure(reading.error);
      }
      var made := MakeDataset(env, countryIso3, countryName, indicatorMetadata, m, reading.value);
      showcases := showcases.Put(made.2.name, made.2);
      r := Ok(Some((made.0, made.1)));
    }

    /** The files loop of `generate_datasets`: every file becomes a
        resource added with `add_update_resource`. */
    static method AddFileResources(env: Collaborators, data: ResourceData, files: seq<string>, date: Date)
      returns (resources: seq<Resource>)
      ensures resources == AddUpdateAll([], FileResources(env, data, files, date))
    {
      resources := [];
      for k := 0 to |files|
        invariant resources == AddUpdateAll([], FileResources(env, data, files[..k], date))
      {
        var parts := env.splitFilename(files[k]);
        var filename := CutDistance(parts.0);
        var resource := Resource(Lower(filename + parts.1), files[k], data.format, data.description, date);
        FileResourcesSnoc(env, data, files, k, date);
        AddUpdateAllSnoc([], FileResources(env, data, files[..k], date), resource);
        resources := AddUpdateResource(resources, resource);
      }
      assert files[..|files|] == files;
    }

    /** The body of `generate_datasets` for one record. */
    method GenerateRecord(env: Collaborators, m: Metadata, datasets: seq<Dataset>) returns (r: Result<seq<Dataset>>)
      requires Valid()
      modifies this`showcases
      ensures Valid()
      ensures var step := RecordStep(env, countryIso3, countryName, indicatorMetadata, allMetadata, m,
                                     Progress(datasets, old(showcases)));
        && (step.Failure? ==> r == Failure(step.error))
        && (step.Ok? ==> r == Ok(step.value.datasets) && showcases == step.value.showcases)
    {
      if Lower(m.public) != "y" {
        return Ok(datasets);
      }
      var made := GenerateDataset(env, m);
      if made.Failure? {
        return Failure(made.error);
      }
      if made.value.None? {
        return Ok(datasets);
      }
      var dataset := made.value.value.0;
      var data := made.value.value.1;
      if m.date.Unparseable? {
        return Failure(ParserError);
      }
      var resources := AddFileResources(env, data, SortDescending(m.files), m.date.date);
      if |resources| == 0 {
        return Ok(datasets);
      }
      r := Ok(datasets + [dataset.(resources := resources)]);
    }

    /** The records of one sub-alias. */
    method GenerateGroup(env: Collaborators, records: seq<Metadata>, datasets0: seq<Dataset>) returns (r: Result<seq<Dataset>>)
      requires Valid()
      modifies this`showcases
      ensures Valid()
      ensures var all := RecordsFrom(env, countryIso3, countryName, indicatorMetadata, allMetadata, records, 0,
                                     Progress(datasets0, old(showcases)));
        && (all.Failure? ==> r == Failure(all.error))
        && (all.Ok? ==> r == Ok(all.value.datasets) && showcases == all.value.showcases)
    {
      var datasets := datasets0;
      for j := 0 to |records|
        invariant Valid()
        invariant RecordsFrom(env, countryIso3, countryName, indicatorMetadata, allMetadata, records, j, Progress(datasets, showcases)) ==
                  RecordsFrom(env, countryIso3, countryName, indicatorMetadata, allMetadata, records, 0, Progress(datasets0, old(showcases)))
      {
        ghost var before := Progress(datasets, showcases);
        ghost var step := RecordStep(env, countryIso3, countryName, indicatorMetadata, allMetadata, records[j], before);
        RecordsFromStep(env, countryIso3, countryName, indicatorMetadata, allMetadata, records, j, before);
        var next := GenerateRecord(env, records[j], datasets);
        if next.Failure? {
          return next;
        }
        datasets := next.value;
        assert Progress(datasets, showcases) == step.value;
      }
      r := Ok(datasets);
    }

    /** `generate_datasets`: the datasets of the public records of every
        sub-alias, sub-aliases in dictionary order, records in order. */
    method GenerateDatasets(env: Collaborators) returns (r: Result<seq<Dataset>>)
      requires Valid()
      modifies this`showcases
      ensures Valid()
      ensures var all := GroupsFrom(env, countryIso3, countryName, indicatorMetadata, allMetadata, 0,
                                    Progress([], old(showcases)));
        && (all.Failure? ==> r == Failure(all.error))
        && (all.Ok? ==> r == Ok(all.value.datasets) && showcases == all.value.showcases)
    {
      var datasets := [];
      for i := 0 to |allMetadata.keys|
        invariant Valid()
        invariant GroupsFrom(env, countryIso3, countryName, indicatorMetadata, allMetadata, i, Progress(datasets, showcases)) ==
                  GroupsFrom(env, countryIso3, countryName, indicatorMetadata, allMetadata, 0, Progress([], old(showcases)))
      {
        GroupsFromStep(env, countryIso3, countryName, indicatorMetadata, allMetadata, i, Progress(datasets, showcases));
        var next := GenerateGroup(env, allMetadata.m[allMetadata.keys[i]], datasets);
        if next.Failure? {
          return next;
        }
        datasets := next.value;
      }
      r := Ok(datasets);
    }
  }
}
