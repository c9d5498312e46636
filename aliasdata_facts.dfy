/** Properties of the second-generation dataset builder: how a dataset's
    name, year range and tags follow from its record, when a record yields
    a dataset, and what every dataset `generate_datasets` returns looks
    like. */
module AliasdataFacts {

  import opened Base
  import opened Text
  import opened Records
  import opened Aliasdata

  /** A dataset that `generate_dataset` makes is named after its showcase
      and the record's population year, covers exactly that year, shares
      the showcase's tags and starts with no resources; the year can be read
      back from the name. */
  lemma DerivedNaming(env: Collaborators, countryIso3: string, countryName: Option<string>, indicator: Indicator,
                      all: ODict<string, seq<Metadata>>, m: Metadata, d: Dataset, data: ResourceData, sc: Showcase)
    requires all.Valid()
    requires DeriveDataset(env, countryIso3, countryName, indicator, all, m) == Ok(Some((d, data, sc)))
    ensures env.acceptsLocation(countryIso3)
    ensures ParseInt(m.popyear).Some?
    ensures var year := ParseInt(m.popyear).value;
      && d.name == sc.name + "-" + IntToString(year)
      && ParseInt(d.name[|sc.name| + 1..]) == Some(year)
      && d.yearRange == YearRange(year, year)
      && d.tags == sc.tags == Tags(indicator)
      && d.location == countryIso3
      && d.resources == []
  {
    var rd := ReadRecord(all, m).value;
    assert (d, data, sc) == MakeDataset(env, countryIso3, countryName, indicator, m, rd);
    assert d.name[|sc.name| + 1..] == IntToString(rd.year);
    IntRoundTrip(rd.year);
  }

  /** A record can be read exactly when its population year, its
      category (two or more words, at most one dash, an opening bracket)
      and the first sub-alias can all be read. */
  lemma ReadRecordOutcome(all: ODict<string, seq<Metadata>>, m: Metadata)
    requires all.Valid()
    ensures ReadRecord(all, m).Ok? <==>
      && ParseInt(m.popyear).Some?
      && |Words(m.category)| >= 2 && Count(m.category, '-') <= 1
      && |all.keys| > 0 && all.m[all.keys[0]] != []
      && '(' in m.category
  {
    var year := ParseInt(m.popyear);
    if year.Some? {
      var naming := CategoryNaming(m.title, m.category, year.value);
      if naming.Ok? {
        var caveats := Caveats(all);
        var bracketed := Bracketed(m.category);
      }
    }
  }

  /** Two files whose stems agree up to and including a distance tag and
      whose extensions agree get the same resource name, so one replaces
      the other. */
  lemma FileNamesCollide(env: Collaborators, data: ResourceData, u1: string, u2: string, date: Date,
                         x: string, z1: string, z2: string)
    requires FirstDistance(x, 0).Some?
    requires env.splitFilename(u1).0 == x + z1 && env.splitFilename(u2).0 == x + z2
    requires env.splitFilename(u1).1 == env.splitFilename(u2).1
    ensures FileResource(env, data, u1, date).name == FileResource(env, data, u2, date).name
  {
    CutDistanceExtend(x, z1);
    CutDistanceExtend(x, z2);
  }

  /** Cutting a resource name is stable: a file whose stem is already cut
      keeps its stem. */
  lemma CutStemStable(env: Collaborators, data: ResourceData, url: string, date: Date)
    requires env.splitFilename(url).0 == CutDistance(env.splitFilename(url).0)
    ensures FileResource(env, data, url, date).name == Lower(env.splitFilename(url).0 + env.splitFilename(url).1)
  {
  }

  // -----------------------------------------------------------------------
  // The datasets of `generate_datasets`

  /** A dataset named `<b>-<year>` for a showcase key `b`. */
  ghost predicate NamedAfter(d: Dataset, keys: set<string>) {
    exists b, year :: b in keys && d.name == b + "-" + IntToString(year)
  }

  /** Every dataset has resources with distinct names and is named after a
      stored showcase. */
  ghost predicate Good(p: Progress) {
    forall d :: d in p.datasets ==> d.resources != [] && DistinctNames(d.resources) && NamedAfter(d, p.showcases.m.Keys)
  }

  /** The resources of a record's files are empty exactly when it has no
      files, and their names are distinct. */
  lemma FileResourcesFacts(env: Collaborators, data: ResourceData, files: seq<string>, date: Date)
    ensures var rs := AddUpdateAll([], FileResources(env, data, SortDescending(files), date));
      && (rs == [] <==> files == [])
      && DistinctNames(rs)
  {
    var sorted := SortDescending(files);
    var adds := FileResources(env, data, sorted, date);
    AddUpdateAllNames(adds);
    AddUpdateAllDistinct([], adds);
    assert |sorted| == |files| by {
      assert |multiset(sorted)| == |multiset(files)|;
    }
    var rs := AddUpdateAll([], adds);
    if files != [] {
      assert adds[0].name in Names(adds);
      assert rs != [];
    }
    if rs != [] {
      assert rs[0].name in Names(rs);
    }
  }

  /** Storing a showcase, and adding a dataset named after it with
      distinct, non-empty resources, keeps `Good`. */
  lemma StoreKeepsGood(acc: Progress, sc: Showcase, added: seq<Dataset>, year: int)
    requires acc.showcases.Valid() && Good(acc)
    requires forall d :: d in added ==> d.resources != [] && DistinctNames(d.resources) && d.name == sc.name + "-" + IntToString(year)
    ensures Good(Progress(acc.datasets + added, acc.showcases.Put(sc.name, sc)))
  {
    var keys := acc.showcases.Put(sc.name, sc).m.Keys;
    assert keys == acc.showcases.m.Keys + {sc.name};
    forall d | d in acc.datasets + added ensures NamedAfter(d, keys) {
      if d in acc.datasets {
        var b, y :| b in acc.showcases.m.Keys && d.name == b + "-" + IntToString(y);
        assert b in keys;
      } else {
        assert d.name == sc.name + "-" + IntToString(year);
      }
    }
  }

  /** A derived dataset with a parsed date stores the showcase and adds
      the dataset with the record's resources, unless it has none. */
  lemma StoreAdds(env: Collaborators, m: Metadata, made: (Dataset, ResourceData, Showcase), acc: Progress)
    requires acc.showcases.Valid() && m.date.Parsed?
    ensures var resources := AddUpdateAll([], FileResources(env, made.1, SortDescending(m.files), m.date.date));
      Store(env, m, Ok(Some(made)), acc) ==
        Ok(Progress(acc.datasets + (if resources == [] then [] else [made.0.(resources := resources)]),
                    acc.showcases.Put(made.2.name, made.2)))
  {
    assert acc.datasets + [] == acc.datasets;
  }

  /** Storing a derived dataset keeps `Good`, keeps the datasets so far,
      and adds one dataset exactly when the record has files. */
  lemma StoreGood(env: Collaborators, m: Metadata, made: (Dataset, ResourceData, Showcase), year: int, acc: Progress)
    requires acc.showcases.Valid() && Good(acc)
    requires made.0.name == made.2.name + "-" + IntToString(year)
    ensures var r := Store(env, m, Ok(Some(made)), acc);
      r.Ok? ==> && Good(r.value)
                && acc.datasets <= r.value.datasets
                && |r.value.datasets| == |acc.datasets| + if m.files != [] then 1 else 0
  {
    if m.date.Parsed? {
      var resources := AddUpdateAll([], FileResources(env, made.1, SortDescending(m.files), m.date.date));
      var added := if resources == [] then [] else [made.0.(resources := resources)];
      StoreAdds(env, m, made, acc);
      FileResourcesFacts(env, made.1, m.files, m.date.date);
      assert |added| == if m.files != [] then 1 else 0;
      StoreKeepsGood(acc, made.2, added, year);
    }
  }

  /** One record keeps `Good`; it adds a dataset exactly when it is public,
      yields a dataset and has files, and the datasets so far are kept. */
  lemma RecordStepGood(env: Collaborators, countryIso3: string, countryName: Option<string>, indicator: Indicator,
                       all: ODict<string, seq<Metadata>>, m: Metadata, acc: Progress)
    requires all.Valid() && acc.showcases.Valid() && Good(acc)
    ensures var r := RecordStep(env, countryIso3, countryName, indicator, all, m, acc);
      r.Ok? ==> && Good(r.value)
                && acc.datasets <= r.value.datasets
                && |r.value.datasets| == |acc.datasets| +
                     if IsPublic(m) && DeriveDataset(env, countryIso3, countryName, indicator, all, m).value.Some? && m.files != []
                     then 1 else 0
  {
    var d := DeriveDataset(env, countryIso3, countryName, indicator, all, m);
    if IsPublic(m) && d.Ok? && d.value.Some? {
      var made := d.value.value;
      DerivedNaming(env, countryIso3, countryName, indicator, all, m, made.0, made.1, made.2);
      StoreGood(env, m, made, ParseInt(m.popyear).value, acc);
    }
  }

  /** The records of one sub-alias keep `Good`. */
  lemma {:induction false} RecordsFromGood(env: Collaborators, countryIso3: string, countryName: Option<string>, indicator: Indicator,
                                           all: ODict<string, seq<Metadata>>, recs: seq<Metadata>, j: nat, acc: Progress)
    requires all.Valid() && acc.showcases.Valid() && j <= |recs| && Good(acc)
    ensures var r := RecordsFrom(env, countryIso3, countryName, indicator, all, recs, j, acc);
      r.Ok? ==> Good(r.value) && acc.datasets <= r.value.datasets && |r.value.datasets| <= |acc.datasets| + |recs| - j
    decreases |recs| - j
  {
    if j < |recs| {
      RecordStepGood(env, countryIso3, countryName, indicator, all, recs[j], acc);
      var step := RecordStep(env, countryIso3, countryName, indicator, all, recs[j], acc);
      if step.Ok? {
        RecordsFromGood(env, countryIso3, countryName, indicator, all, recs, j + 1, step.value);
      }
    }
  }

  /** The whole of `generate_datasets` keeps `Good`: every dataset it adds
      has resources with distinct names and is named after one of the
      showcases it stores. */
  lemma {:induction false} GroupsFromGood(env: Collaborators, countryIso3: string, countryName: Option<string>, indicator: Indicator,
                                          all: ODict<string, seq<Metadata>>, i: nat, acc: Progress)
    requires all.Valid() && acc.showcases.Valid() && i <= |all.keys| && Good(acc)
    ensures var r := GroupsFrom(env, countryIso3, countryName, indicator, all, i, acc);
      r.Ok? ==> Good(r.value) && acc.datasets <= r.value.datasets
    decreases |all.keys| - i
  {
    if i < |all.keys| {
      RecordsFromGood(env, countryIso3, countryName, indicator, all, all.m[all.keys[i]], 0, acc);
      var next := RecordsFrom(env, countryIso3, countryName, indicator, all, all.m[all.keys[i]], 0, acc);
      if next.Ok? {
        GroupsFromGood(env, countryIso3, countryName, indicator, all, i + 1, next.value);
      }
    }
  }

  /** Records none of which is public leave everything as it was. */
  lemma {:induction false} RecordsFromPrivate(env: Collaborators, countryIso3: string, countryName: Option<string>, indicator: Indicator,
                                              all: ODict<string, seq<Metadata>>, recs: seq<Metadata>, j: nat, acc: Progress)
    requires all.Valid() && acc.showcases.Valid() && j <= |recs|
    requires forall k :: j <= k < |recs| ==> !IsPublic(recs[k])
    ensures RecordsFrom(env, countryIso3, countryName, indicator, all, recs, j, acc) == Ok(acc)
    decreases |recs| - j
  {
    if j < |recs| {
      RecordsFromPrivate(env, countryIso3, countryName, indicator, all, recs, j + 1, acc);
    }
  }

  /** A country none of whose records is public gets no datasets and no
      showcases. */
  lemma {:induction false} GroupsFromPrivate(env: Collaborators, countryIso3: string, countryName: Option<string>, indicator: Indicator,
                                             all: ODict<string, seq<Metadata>>, i: nat, acc: Progress)
    requires all.Valid() && acc.showcases.Valid() && i <= |all.keys|
    requires forall k, l :: i <= k < |all.keys| && 0 <= l < |all.m[all.keys[k]]| ==> !IsPublic(all.m[all.keys[k]][l])
    ensures GroupsFrom(env, countryIso3, countryName, indicator, all, i, acc) == Ok(acc)
    decreases |all.keys| - i
  {
    if i < |all.keys| {
      RecordsFromPrivate(env, countryIso3, countryName, indicator, all, all.m[all.keys[i]], 0, acc);
      GroupsFromPrivate(env, countryIso3, countryName, indicator, all, i + 1, acc);
    }
  }
}
