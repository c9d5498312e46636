/** Filtering the indicator listing down to the configured aliases. Both
    generations of the scraper do this the same way, each in a loop over
    the listing; this is the dictionary that loop builds. */
module Catalog {

  import opened Records

  /** The dictionary after storing, in order, every entry of `catalog`
      whose alias is one of `wanted` under that alias, starting from
      `acc`. */
  function SelectIndicators(acc: map<string, Indicator>, catalog: seq<Indicator>, wanted: seq<string>): map<string, Indicator>
    decreases |catalog|
  {
    if catalog == [] then acc
    else
      var prev := SelectIndicators(acc, catalog[..|catalog| - 1], wanted);
      var last := catalog[|catalog| - 1];
      if last.alias in wanted then prev[last.alias := last] else prev
  }

  /** The position of the last catalogue entry with alias `a`, or -1. */
  function LastIndexOfAlias(catalog: seq<Indicator>, a: string): (k: int)
    ensures -1 <= k < |catalog|
    ensures k >= 0 ==> catalog[k].alias == a
    ensures forall j :: k < j < |catalog| ==> catalog[j].alias != a
  {
    if catalog == [] then -1
    else if catalog[|catalog| - 1].alias == a then |catalog| - 1
    else LastIndexOfAlias(catalog[..|catalog| - 1], a)
  }

  /** A configured alias that occurs in the catalogue is stored, and holds
      its last entry; every other key keeps what it held before, and no
      other key appears. */
  lemma {:induction false} SelectedEntry(acc: map<string, Indicator>, catalog: seq<Indicator>, wanted: seq<string>, a: string)
    ensures var r := SelectIndicators(acc, catalog, wanted);
            var k := LastIndexOfAlias(catalog, a);
            && (a in wanted && k >= 0 ==> a in r && r[a] == catalog[k])
            && (!(a in wanted && k >= 0) ==> (a in r <==> a in acc) && (a in acc ==> r[a] == acc[a]))
    decreases |catalog|
  {
    if catalog != [] {
      SelectedEntry(acc, catalog[..|catalog| - 1], wanted, a);
    }
  }

  /** Starting from an empty dictionary, the result holds only configured
      aliases, each under its own `alias` field. */
  lemma SelectedUnderOwnAlias(catalog: seq<Indicator>, wanted: seq<string>, a: string)
    requires a in SelectIndicators(map[], catalog, wanted)
    ensures a in wanted
    ensures SelectIndicators(map[], catalog, wanted)[a].alias == a
  {
    SelectedEntry(map[], catalog, wanted, a);
  }
}
