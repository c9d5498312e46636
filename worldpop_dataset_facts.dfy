/** Properties of the first-generation dataset builder: what the record
    scan computes (year range, earliest date, resources grouped by year),
    that it ignores records that are not public and fails only on a
    population year that is not an integer, how resources and showcases
    are named, and what the assembler collects. */
module DatasetFacts {

  import opened Base
  import opened Text
  import opened Records
  import opened WorldPopDataset

  // -----------------------------------------------------------------------
  // The record scan

  /** Every year with resources has some, and lies within the running
      year range. */
  ghost predicate Coherent(st: Scan) {
    && st.byYear.Valid()
    && forall y :: y in st.byYear.m ==> st.earliestYear <= y <= st.latestYear && st.byYear.m[y] != []
  }

  /** `a` is `b` or comes before it. */
  predicate NotLater(a: Date, b: Date) {
    a == b || Before(a, b)
  }

  /** A record that aborts the scan: public, with a population year text
      that is not an integer. */
  predicate BadYear(m: Metadata) {
    IsPublic(m) && m.popyear != [] && ParseInt(m.popyear).None?
  }

  /** A public record whose population year is given as an integer. */
  predicate GivenYear(m: Metadata) {
    IsPublic(m) && m.popyear != [] && ParseInt(m.popyear).Some?
  }

  lemma SortedFilesCount(files: seq<string>)
    ensures |SortDescending(files)| == |files|
  {
    assert |multiset(SortDescending(files))| == |multiset(files)|;
  }

  /** One record fails the scan exactly when it aborts it; dates never
      do. */
  lemma StepFails(st: Scan, m: Metadata)
    requires st.byYear.Valid()
    ensures Step(st, m).Failure? <==> BadYear(m)
  {
  }

  /** One record only widens the year range, and takes in its population
      year when it gives one. */
  lemma StepYears(st: Scan, m: Metadata)
    requires st.byYear.Valid()
    ensures var r := Step(st, m);
      r.Ok? ==> && r.value.earliestYear <= st.earliestYear && r.value.latestYear >= st.latestYear
                && (GivenYear(m) ==> r.value.earliestYear <= ParseInt(m.popyear).value <= r.value.latestYear)
  {
  }

  /** One record moves the earliest date only to an earlier, trusted date
      of a public record. */
  lemma StepDates(st: Scan, m: Metadata)
    requires st.byYear.Valid()
    ensures var r := Step(st, m);
      r.Ok? ==> && NotLater(r.value.earliestDate, st.earliestDate)
                && (r.value.earliestDate != st.earliestDate ==>
                      IsPublic(m) && Trusted(m) && r.value.earliestDate == m.date.date)
  {
  }

  /** One record keeps every year with resources inside the year range. */
  lemma StepCoherent(st: Scan, m: Metadata)
    requires Coherent(st)
    ensures Step(st, m).Ok? ==> Coherent(Step(st, m).value)
  {
    if IsPublic(m) {
      var d := StampDate(st.earliestDate, m);
      var year := RecordYear(m, d);
      if year.Ok? {
        var y := year.value;
        var rs := FileResources(m, SortDescending(m.files), d);
        AddAllToYearAppends(st.byYear, y, rs);
        var r := Step(st, m).value;
        assert r.byYear == AddAllToYear(st.byYear, y, rs);
        forall x | x in r.byYear.m ensures r.earliestYear <= x <= r.latestYear && r.byYear.m[x] != [] {
          if x != y || rs == [] {
            assert x in st.byYear.m;
          }
        }
      }
    }
  }

  /** One record keeps the scan coherent; the year range becomes the least
      and the greatest of the old bounds and the year the record gives,
      from its `popyear` or its date; the earliest date moves only to an
      earlier, trusted date of a public record; and the scan has resources
      after it exactly when it had some or the record is public with
      files. */
  lemma StepFacts(st: Scan, m: Metadata)
    requires Coherent(st)
    ensures var r := Step(st, m); var t := TakenYear(st, m);
      r.Ok? ==> && Coherent(r.value)
                && r.value.earliestYear == MinOf(st.earliestYear, t)
                && r.value.latestYear == MaxOf(st.latestYear, t)
                && (t == [] <==> !IsPublic(m))
                && (GivenYear(m) ==> r.value.earliestYear <= ParseInt(m.popyear).value <= r.value.latestYear)
                && NotLater(r.value.earliestDate, st.earliestDate)
                && (r.value.earliestDate != st.earliestDate ==>
                      IsPublic(m) && Trusted(m) && r.value.earliestDate == m.date.date)
                && (r.value.byYear.keys == [] <==> st.byYear.keys == [] && (IsPublic(m) ==> m.files == []))
  {
    StepYears(st, m);
    StepTaken(st, m);
    StepDates(st, m);
    StepCoherent(st, m);
    StepKeys(st, m);
  }

  /** Some record from position `j` on aborts the scan exactly when the
      one at `j` does or some record after it does. */
  lemma BadSplit(recs: seq<Metadata>, j: nat)
    requires j < |recs|
    ensures (exists k :: j <= k < |recs| && BadYear(recs[k])) <==>
            BadYear(recs[j]) || exists k :: j + 1 <= k < |recs| && BadYear(recs[k])
  {
    if exists k :: j <= k < |recs| && BadYear(recs[k]) {
      var k :| j <= k < |recs| && BadYear(recs[k]);
      assert k == j || j + 1 <= k;
    }
  }

  /** The scan of one sub-alias's records from position `j` on fails
      exactly when one of them aborts it. */
  lemma {:induction false} ScanFromFails(recs: seq<Metadata>, j: nat, st: Scan)
    requires j <= |recs| && st.byYear.Valid()
    ensures ScanFrom(recs, j, st).Failure? <==> exists k :: j <= k < |recs| && BadYear(recs[k])
    decreases |recs| - j
  {
    if j < |recs| {
      StepFails(st, recs[j]);
      BadSplit(recs, j);
      var step := Step(st, recs[j]);
      if step.Ok? {
        ScanFromFails(recs, j + 1, step.value);
        assert ScanFrom(recs, j, st) == ScanFrom(recs, j + 1, step.value);
      } else {
        assert ScanFrom(recs, j, st) == Failure(step.error);
      }
    }
  }

  /** The population year of every record from position `j` on that gives
      one lies in `[lo, hi]`. */
  ghost predicate Covers(recs: seq<Metadata>, j: nat, lo: int, hi: int) {
    forall k :: j <= k < |recs| && GivenYear(recs[k]) ==> lo <= ParseInt(recs[k].popyear).value <= hi
  }

  /** `after` is coherent, its year range contains that of `before`, and
      its earliest date is no later. */
  ghost predicate Widens(before: Scan, after: Scan) {
    && Coherent(after)
    && after.earliestYear <= before.earliestYear && after.latestYear >= before.latestYear
    && NotLater(after.earliestDate, before.earliestDate)
  }

  lemma WidensTransitive(a: Scan, b: Scan, c: Scan)
    requires Widens(a, b) && Widens(b, c)
    ensures Widens(a, c)
  {
  }

  /** A wider range that covers the records after `j` and the year of
      record `j` covers the records from `j` on. */
  lemma CoversStep(recs: seq<Metadata>, j: nat, lo: int, hi: int, lo': int, hi': int)
    requires j < |recs| && Covers(recs, j + 1, lo', hi') && lo' <= lo && hi <= hi'
    requires GivenYear(recs[j]) ==> lo <= ParseInt(recs[j].popyear).value <= hi
    ensures Covers(recs, j, lo', hi')
  {
  }

  /** The records of one sub-alias from position `j` on keep the scan
      coherent and only widen its year range, which takes in the population
      year of every public record that gives one; the earliest date only
      moves earlier. The year range ends as the least and the greatest of
      the starting bounds and the years taken, one per public record; the
      scan ends without resources exactly when it started without and no
      public record has files. */
  lemma {:induction false} ScanFromFacts(recs: seq<Metadata>, j: nat, st: Scan)
    requires j <= |recs| && Coherent(st)
    ensures var r := ScanFrom(recs, j, st); var ys := YearsFrom(recs, j, st);
      r.Ok? ==> && Widens(st, r.value) && Covers(recs, j, r.value.earliestYear, r.value.latestYear)
                && r.value.earliestYear == MinOf(st.earliestYear, ys)
                && r.value.latestYear == MaxOf(st.latestYear, ys)
                && (ys == [] <==> NoPublicFrom(recs, j))
                && (r.value.byYear.keys == [] <==> st.byYear.keys == [] && FilelessFrom(recs, j))
    decreases |recs| - j
  {
    ScanFromYears(recs, j, st);
    ScanFromKeys(recs, j, st);
    if j < |recs| {
      StepFacts(st, recs[j]);
      var step := Step(st, recs[j]);
      if step.Ok? {
        assert ScanFrom(recs, j, st) == ScanFrom(recs, j + 1, step.value);
        ScanFromFacts(recs, j + 1, step.value);
        var r := ScanFrom(recs, j + 1, step.value);
        if r.Ok? {
          WidensTransitive(st, step.value, r.value);
          CoversStep(recs, j, step.value.earliestYear, step.value.latestYear, r.value.earliestYear, r.value.latestYear);
        }
      }
    }
  }

  /** Some record of the sub-aliases from position `i` on aborts the scan
      exactly when one of sub-alias `i` does or one of a later sub-alias
      does. */
  lemma GroupBadSplit(values: seq<seq<Metadata>>, i: nat)
    requires i < |values|
    ensures (exists g, k :: i <= g < |values| && 0 <= k < |values[g]| && BadYear(values[g][k])) <==>
            (exists k :: 0 <= k < |values[i]| && BadYear(values[i][k])) ||
            (exists g, k :: i + 1 <= g < |values| && 0 <= k < |values[g]| && BadYear(values[g][k]))
  {
    if exists g, k :: i <= g < |values| && 0 <= k < |values[g]| && BadYear(values[g][k]) {
      var g, k :| i <= g < |values| && 0 <= k < |values[g]| && BadYear(values[g][k]);
      assert g == i || i + 1 <= g;
    }
    if exists k :: 0 <= k < |values[i]| && BadYear(values[i][k]) {
      var k :| 0 <= k < |values[i]| && BadYear(values[i][k]);
      assert i <= i < |values| && 0 <= k < |values[i]| && BadYear(values[i][k]);
    }
  }

  /** The whole scan fails exactly when a record of some sub-alias aborts
      it. */
  lemma {:induction false} ScanGroupsFails(values: seq<seq<Metadata>>, i: nat, st: Scan)
    requires i <= |values| && st.byYear.Valid()
    ensures ScanGroups(values, i, st).Failure? <==>
      exists g, k :: i <= g < |values| && 0 <= k < |values[g]| && BadYear(values[g][k])
    decreases |values| - i
  {
    if i < |values| {
      ScanFromFails(values[i], 0, st);
      GroupBadSplit(values, i);
      var first := ScanFrom(values[i], 0, st);
      if first.Ok? {
        ScanGroupsFails(values, i + 1, first.value);
        assert ScanGroups(values, i, st) == ScanGroups(values, i + 1, first.value);
      } else {
        assert ScanGroups(values, i, st) == Failure(first.error);
      }
    }
  }

  /** The population year of every record of the sub-aliases from
      position `i` on that gives one lies in `[lo, hi]`. */
  ghost predicate CoversAll(values: seq<seq<Metadata>>, i: nat, lo: int, hi: int) {
    forall g, k :: i <= g < |values| && 0 <= k < |values[g]| && GivenYear(values[g][k]) ==>
      lo <= ParseInt(values[g][k].popyear).value <= hi
  }

  lemma CoversAllStep(values: seq<seq<Metadata>>, i: nat, lo: int, hi: int, lo': int, hi': int)
    requires i < |values| && CoversAll(values, i + 1, lo', hi') && lo' <= lo && hi <= hi'
    requires Covers(values[i], 0, lo, hi)
    ensures CoversAll(values, i, lo', hi')
  {
  }

  /** The whole scan: as `ScanFromFacts`, over every sub-alias's records in
      turn. */
  lemma {:induction false} ScanGroupsFacts(values: seq<seq<Metadata>>, i: nat, st: Scan)
    requires i <= |values| && Coherent(st)
    ensures var r := ScanGroups(values, i, st); var ys := YearsOfGroups(values, i, st);
      r.Ok? ==> && Widens(st, r.value) && CoversAll(values, i, r.value.earliestYear, r.value.latestYear)
                && r.value.earliestYear == MinOf(st.earliestYear, ys)
                && r.value.latestYear == MaxOf(st.latestYear, ys)
                && (ys == [] <==> NoPublicAll(values, i))
                && (r.value.byYear.keys == [] <==> st.byYear.keys == [] && FilelessAll(values, i))
    decreases |values| - i
  {
    ScanGroupsYears(values, i, st);
    ScanGroupsKeys(values, i, st);
    if i < |values| {
      ScanFromFacts(values[i], 0, st);
      var first := ScanFrom(values[i], 0, st);
      if first.Ok? {
        assert ScanGroups(values, i, st) == ScanGroups(values, i + 1, first.value);
        ScanGroupsFacts(values, i + 1, first.value);
        var r := ScanGroups(values, i + 1, first.value);
        if r.Ok? {
          WidensTransitive(st, first.value, r.value);
          CoversAllStep(values, i, first.value.earliestYear, first.value.latestYear, r.value.earliestYear, r.value.latestYear);
        }
      }
    }
  }

  // -----------------------------------------------------------------------
  // The year range the scan reaches

  /** `min(lo, *ys)`: the least of `lo` and the years `ys`. */
  function MinOf(lo: int, ys: seq<int>): (r: int)
    ensures r <= lo && forall y :: y in ys ==> r <= y
    ensures r == lo || r in ys
    decreases |ys|
  {
    if ys == [] then lo
    else
      assert ys == [ys[0]] + ys[1..];
      MinOf(if ys[0] < lo then ys[0] else lo, ys[1..])
  }

  /** `max(hi, *ys)`: the greatest of `hi` and the years `ys`. */
  function MaxOf(hi: int, ys: seq<int>): (r: int)
    ensures r >= hi && forall y :: y in ys ==> r >= y
    ensures r == hi || r in ys
    decreases |ys|
  {
    if ys == [] then hi
    else
      assert ys == [ys[0]] + ys[1..];
      MaxOf(if ys[0] > hi then ys[0] else hi, ys[1..])
  }

  /** Folding two runs of years in turn is folding their concatenation. */
  lemma {:induction false} FoldConcat(lo: int, hi: int, a: seq<int>, b: seq<int>)
    ensures MinOf(lo, a + b) == MinOf(MinOf(lo, a), b)
    ensures MaxOf(hi, a + b) == MaxOf(MaxOf(hi, a), b)
    decreases |a|
  {
    if a == [] {
      assert a + b == b;
    } else {
      assert (a + b)[0] == a[0] && (a + b)[1..] == a[1..] + b;
      FoldConcat(if a[0] < lo then a[0] else lo, if a[0] > hi then a[0] else hi, a[1..], b);
    }
  }

  /** The year the scan takes from one record: that of `RecordYear` at the
      record's stamp date when the record is public and the year reads;
      none otherwise. */
  function TakenYear(st: Scan, m: Metadata): (ys: seq<int>)
    ensures |ys| <= 1
    ensures ys != [] <==> IsPublic(m) && !BadYear(m)
  {
    if !IsPublic(m) then []
    else
      match RecordYear(m, StampDate(st.earliestDate, m))
      case Ok(y) => [y]
      case Failure(_) => []
  }

  /** The years the scan takes from the records from position `j` on, in
      order, up to the first record that aborts it. */
  ghost function YearsFrom(recs: seq<Metadata>, j: nat, st: Scan): seq<int>
    requires j <= |recs| && st.byYear.Valid()
    decreases |recs| - j
  {
    if j == |recs| then []
    else
      match Step(st, recs[j])
      case Failure(_) => []
      case Ok(next) => TakenYear(st, recs[j]) + YearsFrom(recs, j + 1, next)
  }

  /** No record from position `j` on is public. */
  ghost predicate NoPublicFrom(recs: seq<Metadata>, j: nat) {
    forall k :: j <= k < |recs| ==> !IsPublic(recs[k])
  }

  /** One record folds the year it takes into the year range. */
  lemma StepTaken(st: Scan, m: Metadata)
    requires st.byYear.Valid()
    ensures var r := Step(st, m); var t := TakenYear(st, m);
      r.Ok? ==> && r.value.earliestYear == MinOf(st.earliestYear, t)
                && r.value.latestYear == MaxOf(st.latestYear, t)
                && (t == [] <==> !IsPublic(m))
  {
  }

  /** The scan of one sub-alias's records from position `j` on ends with
      the least and the greatest of the year range it started with and the
      years it takes, one from each public record. */
  lemma {:induction false} ScanFromYears(recs: seq<Metadata>, j: nat, st: Scan)
    requires j <= |recs| && st.byYear.Valid()
    ensures var r := ScanFrom(recs, j, st); var ys := YearsFrom(recs, j, st);
      r.Ok? ==> && r.value.earliestYear == MinOf(st.earliestYear, ys)
                && r.value.latestYear == MaxOf(st.latestYear, ys)
                && (ys == [] <==> NoPublicFrom(recs, j))
    decreases |recs| - j
  {
    if j < |recs| {
      var step := Step(st, recs[j]);
      if step.Ok? {
        var next := step.value;
        var t := TakenYear(st, recs[j]);
        StepTaken(st, recs[j]);
        assert ScanFrom(recs, j, st) == ScanFrom(recs, j + 1, next);
        assert YearsFrom(recs, j, st) == t + YearsFrom(recs, j + 1, next);
        ScanFromYears(recs, j + 1, next);
        FoldConcat(st.earliestYear, st.latestYear, t, YearsFrom(recs, j + 1, next));
        if !IsPublic(recs[j]) && NoPublicFrom(recs, j + 1) {
          assert NoPublicFrom(recs, j);
        }
      }
    }
  }

  /** The years the whole scan takes from the sub-aliases from position `i`
      on, in order. */
  ghost function YearsOfGroups(values: seq<seq<Metadata>>, i: nat, st: Scan): seq<int>
    requires i <= |values| && st.byYear.Valid()
    decreases |values| - i
  {
    if i == |values| then []
    else
      match ScanFrom(values[i], 0, st)
      case Failure(_) => []
      case Ok(next) => YearsFrom(values[i], 0, st) + YearsOfGroups(values, i + 1, next)
  }

  /** No record of the sub-aliases from position `i` on is public. */
  ghost predicate NoPublicAll(values: seq<seq<Metadata>>, i: nat) {
    forall g, k :: i <= g < |values| && 0 <= k < |values[g]| ==> !IsPublic(values[g][k])
  }

  lemma NoPublicAllStep(values: seq<seq<Metadata>>, i: nat)
    requires i < |values|
    ensures NoPublicAll(values, i) <==> NoPublicFrom(values[i], 0) && NoPublicAll(values, i + 1)
  {
    if NoPublicFrom(values[i], 0) && NoPublicAll(values, i + 1) {
      forall g, k | i <= g < |values| && 0 <= k < |values[g]| ensures !IsPublic(values[g][k]) {
        if g == i {
          assert !IsPublic(values[i][k]);
        }
      }
    }
  }

  /** The whole scan ends with the least and the greatest of the year range
      it started with and the years it takes, one from each public record
      of each sub-alias. */
  lemma {:induction false} ScanGroupsYears(values: seq<seq<Metadata>>, i: nat, st: Scan)
    requires i <= |values| && st.byYear.Valid()
    ensures var r := ScanGroups(values, i, st); var ys := YearsOfGroups(values, i, st);
      r.Ok? ==> && r.value.earliestYear == MinOf(st.earliestYear, ys)
                && r.value.latestYear == MaxOf(st.latestYear, ys)
                && (ys == [] <==> NoPublicAll(values, i))
    decreases |values| - i
  {
    if i < |values| {
      var first := ScanFrom(values[i], 0, st);
      if first.Ok? {
        var next := first.value;
        var a := YearsFrom(values[i], 0, st);
        ScanFromYears(values[i], 0, st);
        assert ScanGroups(values, i, st) == ScanGroups(values, i + 1, next);
        assert YearsOfGroups(values, i, st) == a + YearsOfGroups(values, i + 1, next);
        ScanGroupsYears(values, i + 1, next);
        FoldConcat(st.earliestYear, st.latestYear, a, YearsOfGroups(values, i + 1, next));
        NoPublicAllStep(values, i);
      }
    }
  }

  // -----------------------------------------------------------------------
  // When the scan finds no resources

  /** Every public record from position `j` on has no files. */
  ghost predicate FilelessFrom(recs: seq<Metadata>, j: nat) {
    forall k :: j <= k < |recs| && IsPublic(recs[k]) ==> recs[k].files == []
  }

  /** Every public record of the sub-aliases from position `i` on has no
      files. */
  ghost predicate FilelessAll(values: seq<seq<Metadata>>, i: nat) {
    forall g, k :: i <= g < |values| && 0 <= k < |values[g]| && IsPublic(values[g][k]) ==> values[g][k].files == []
  }

  /** After one record the scan has no resources exactly when it had none
      and the record is not public or has no files. */
  lemma StepKeys(st: Scan, m: Metadata)
    requires st.byYear.Valid()
    ensures var r := Step(st, m);
      r.Ok? ==> (r.value.byYear.keys == [] <==> st.byYear.keys == [] && (IsPublic(m) ==> m.files == []))
  {
    if IsPublic(m) && Step(st, m).Ok? {
      var d := StampDate(st.earliestDate, m);
      var y := RecordYear(m, d).value;
      var rs := FileResources(m, SortDescending(m.files), d);
      SortedFilesCount(m.files);
      AddAllToYearAppends(st.byYear, y, rs);
      assert Step(st, m).value.byYear == AddAllToYear(st.byYear, y, rs);
    }
  }

  /** The scan of one sub-alias's records from position `j` on ends without
      resources exactly when it started without any and none of those
      public records has files. */
  lemma {:induction false} ScanFromKeys(recs: seq<Metadata>, j: nat, st: Scan)
    requires j <= |recs| && st.byYear.Valid()
    ensures var r := ScanFrom(recs, j, st);
      r.Ok? ==> (r.value.byYear.keys == [] <==> st.byYear.keys == [] && FilelessFrom(recs, j))
    decreases |recs| - j
  {
    if j < |recs| {
      var step := Step(st, recs[j]);
      if step.Ok? {
        StepKeys(st, recs[j]);
        assert ScanFrom(recs, j, st) == ScanFrom(recs, j + 1, step.value);
        ScanFromKeys(recs, j + 1, step.value);
        if IsPublic(recs[j]) ==> recs[j].files == [] {
          if FilelessFrom(recs, j + 1) {
            assert FilelessFrom(recs, j);
          }
        }
      }
    }
  }

  lemma FilelessAllStep(values: seq<seq<Metadata>>, i: nat)
    requires i < |values|
    ensures FilelessAll(values, i) <==> FilelessFrom(values[i], 0) && FilelessAll(values, i + 1)
  {
    if FilelessFrom(values[i], 0) && FilelessAll(values, i + 1) {
      forall g, k | i <= g < |values| && 0 <= k < |values[g]| && IsPublic(values[g][k])
        ensures values[g][k].files == []
      {
        if g == i {
          assert IsPublic(values[i][k]);
        }
      }
    }
  }

  /** The whole scan ends without resources exactly when it started without
      any and no public record of any sub-alias has files. */
  lemma {:induction false} ScanGroupsKeys(values: seq<seq<Metadata>>, i: nat, st: Scan)
    requires i <= |values| && st.byYear.Valid()
    ensures var r := ScanGroups(values, i, st);
      r.Ok? ==> (r.value.byYear.keys == [] <==> st.byYear.keys == [] && FilelessAll(values, i))
    decreases |values| - i
  {
    if i < |values| {
      var first := ScanFrom(values[i], 0, st);
      if first.Ok? {
        ScanFromKeys(values[i], 0, st);
        assert ScanGroups(values, i, st) == ScanGroups(values, i + 1, first.value);
        ScanGroupsKeys(values, i + 1, first.value);
        FilelessAllStep(values, i);
      }
    }
  }

  /** The public records of `recs`, in order. */
  function Publics(recs: seq<Metadata>): (ps: seq<Metadata>)
    ensures forall p :: p in ps ==> IsPublic(p) && p in recs
  {
    if recs == [] then []
    else (if IsPublic(recs[0]) then [recs[0]] else []) + Publics(recs[1..])
  }

  /** Scanning from position `j` is scanning the suffix from its start. */
  lemma {:induction false} ScanSuffix(recs: seq<Metadata>, j: nat, st: Scan)
    requires j <= |recs| && st.byYear.Valid()
    ensures ScanFrom(recs, j, st) == ScanFrom(recs[j..], 0, st)
    decreases |recs| - j
  {
    if j < |recs| {
      var tail := recs[j..];
      assert tail[0] == recs[j];
      assert tail[1..] == recs[j + 1..];
      match Step(st, recs[j])
      case Failure(_) =>
      case Ok(next) =>
        ScanSuffix(recs, j + 1, next);
        ScanSuffix(tail, 1, next);
    }
  }

  /** Records that are not public play no part in the scan: scanning a
      sub-alias's records is scanning its public records alone. */
  lemma {:induction false} PublicOnly(recs: seq<Metadata>, st: Scan)
    requires st.byYear.Valid()
    ensures ScanFrom(recs, 0, st) == ScanFrom(Publics(recs), 0, st)
    decreases |recs|
  {
    if recs != [] {
      var x := recs[0];
      var rest := recs[1..];
      match Step(st, x)
      case Failure(_) =>
        if IsPublic(x) {
          assert Publics(recs)[0] == x;
        }
      case Ok(next) =>
        ScanSuffix(recs, 1, next);
        PublicOnly(rest, next);
        if IsPublic(x) {
          var ps := Publics(recs);
          assert ps == [x] + Publics(rest);
          ScanSuffix(ps, 1, next);
          assert ps[1..] == Publics(rest);
        } else {
          assert Publics(recs) == Publics(rest);
        }
    }
  }

  // -----------------------------------------------------------------------
  // Resources

  /** A resource is among those of `years` exactly when it is among the
      resources of one of those years. */
  lemma {:induction false} InYearsMembers(byYear: ODict<int, seq<Resource>>, years: seq<int>, r: Resource)
    ensures r in InYears(byYear, years) <==> exists k :: 0 <= k < |years| && r in byYear.Get(years[k], [])
    decreases |years|
  {
    if years != [] {
      var n := |years| - 1;
      InYearsMembers(byYear, years[..n], r);
      if r in InYears(byYear, years[..n]) {
        var k :| 0 <= k < n && r in byYear.Get(years[..n][k], []);
        assert years[..n][k] == years[k];
      }
      if exists k :: 0 <= k < |years| && r in byYear.Get(years[k], []) {
        var k :| 0 <= k < |years| && r in byYear.Get(years[k], []);
        if k < n {
          assert years[..n][k] == years[k];
        }
      }
    }
  }

  /** No resource of the scan is lost or invented when the years are put
      in order: the ordered resources are those of every scanned year. */
  lemma YearOrderedMembers(byYear: ODict<int, seq<Resource>>, r: Resource)
    requires byYear.Valid()
    ensures r in YearOrdered(byYear) <==> exists y :: y in byYear.m && r in byYear.m[y]
  {
    var years := SortYearsDescending(byYear.keys);
    InYearsMembers(byYear, years, r);
    if exists y :: y in byYear.m && r in byYear.m[y] {
      var y :| y in byYear.m && r in byYear.m[y];
      assert y in years;
      var k :| 0 <= k < |years| && years[k] == y;
    }
  }

  /** The names of the resources scanned under any year. */
  ghost function ScannedNames(byYear: ODict<int, seq<Resource>>): set<string> {
    set y, r | y in byYear.m && r in byYear.m[y] :: r.name
  }

  /** Putting the years in order keeps exactly the scanned names. */
  lemma OrderedNames(byYear: ODict<int, seq<Resource>>)
    requires byYear.Valid()
    ensures Names(YearOrdered(byYear)) == ScannedNames(byYear)
  {
    var ordered := YearOrdered(byYear);
    forall n | n in Names(ordered) ensures n in ScannedNames(byYear) {
      var i :| 0 <= i < |ordered| && ordered[i].name == n;
      YearOrderedMembers(byYear, ordered[i]);
      var y :| y in byYear.m && ordered[i] in byYear.m[y];
    }
    forall n | n in ScannedNames(byYear) ensures n in Names(ordered) {
      var y, r :| y in byYear.m && r in byYear.m[y] && r.name == n;
      YearOrderedMembers(byYear, r);
      var i :| 0 <= i < |ordered| && ordered[i] == r;
    }
  }

  /** The resources added after a scan with at least one year: some, all
      with distinct names, each a resource of some scanned year, and
      exactly the names scanned. */
  lemma ScannedResources(byYear: ODict<int, seq<Resource>>)
    requires byYear.Valid() && byYear.keys != []
    requires forall y :: y in byYear.m ==> byYear.m[y] != []
    ensures var rs := AddUpdateAll([], YearOrdered(byYear));
      && rs != []
      && DistinctNames(rs)
      && (forall r :: r in rs ==> exists y :: y in byYear.m && r in byYear.m[y])
      && Names(rs) == ScannedNames(byYear)
  {
    OrderedNames(byYear);
    var ordered := YearOrdered(byYear);
    var rs := AddUpdateAll([], ordered);
    AddUpdateAllDistinct([], ordered);
    AddUpdateAllNames(ordered);
    var y := byYear.keys[0];
    assert y in byYear.m;
    var first := byYear.m[y][0];
    YearOrderedMembers(byYear, first);
    var k :| 0 <= k < |ordered| && ordered[k] == first;
    assert ordered[k].name in Names(ordered);
    assert rs != [] by {
      var p :| 0 <= p < |rs| && rs[p].name == ordered[k].name;
    }
    forall r | r in rs ensures exists y :: y in byYear.m && r in byYear.m[y] {
      var k := AddUpdateAllOnlyLast(ordered, r);
      YearOrderedMembers(byYear, r);
    }
  }

  /** The dataset built after a coherent scan with at least one year has
      resources, all with distinct names, each a resource of some scanned
      year, exactly the names scanned, and the scan's year range, which is
      not empty. */
  lemma BuildDatasetFacts(env: Collaborators, licence: string, countryiso: string, countryName: string,
                          indicator: Indicator, last: Metadata, st: Scan)
    requires Coherent(st) && st.byYear.keys != []
    ensures var d := BuildDataset(env, licence, countryiso, countryName, indicator, last, st);
      && d.resources != []
      && DistinctNames(d.resources)
      && (forall r :: r in d.resources ==> exists y :: y in st.byYear.m && r in st.byYear.m[y])
      && Names(d.resources) == ScannedNames(st.byYear)
      && d.yearRange == YearRange(st.earliestYear, st.latestYear)
      && d.yearRange.start <= d.yearRange.end
      && d.tags == Tags(indicator)
  {
    ScannedResources(st.byYear);
    var y := st.byYear.keys[0];
    assert y in st.byYear.m;
  }

  // -----------------------------------------------------------------------
  // Showcases

  /** The position number can be read back out of a numbered showcase
      name. */
  lemma NumberedMiddle(slug: string, t: string)
    ensures |slug + "-" + t + "-showcase"| == |slug| + |t| + 10
    ensures (slug + "-" + t + "-showcase")[|slug| + 1..|slug| + 1 + |t|] == t
  {
    var x := slug + "-" + t + "-showcase";
    assert x == slug + "-" + (t + "-showcase");
    assert forall c :: 0 <= c < |t| ==> x[|slug| + 1 + c] == t[c];
  }

  /** The length of a showcase name: the first one carries no number. */
  lemma ShowcaseNameLength(slug: string, i: nat)
    ensures |ShowcaseName(slug, i)| == if i == 0 then |slug| + 9 else |slug| + |IntToString(i + 1)| + 10
  {
  }

  /** Different sub-alias positions give different showcase names. */
  lemma ShowcaseNameInjective(slug: string, i: nat, k: nat)
    requires ShowcaseName(slug, i) == ShowcaseName(slug, k)
    ensures i == k
  {
    ShowcaseNameLength(slug, i);
    ShowcaseNameLength(slug, k);
    if i != 0 && k != 0 {
      NumberedInjective(slug, i, k);
    }
  }

  lemma NumberedInjective(slug: string, i: nat, k: nat)
    requires i != 0 && k != 0
    requires slug + "-" + IntToString(i + 1) + "-showcase" == slug + "-" + IntToString(k + 1) + "-showcase"
    ensures i == k
  {
    var a, b := IntToString(i + 1), IntToString(k + 1);
    NumberedEqual(slug, a, b);
    IntRoundTrip(i + 1);
    IntRoundTrip(k + 1);
    assert Some(i + 1) == ParseInt(a) == ParseInt(b) == Some(k + 1);
  }

  lemma NumberedEqual(slug: string, a: string, b: string)
    requires slug + "-" + a + "-showcase" == slug + "-" + b + "-showcase"
    ensures a == b
  {
    NumberedMiddle(slug, a);
    NumberedMiddle(slug, b);
  }

  /** Showcases named after sub-alias positions below `i`, under distinct
      names, each with a summary image. */
  ghost predicate NamedBelow(slug: string, acc: seq<Showcase>, i: nat) {
    NamesBelow(slug, acc, i) && DistinctShowcases(acc) && AllImaged(acc)
  }

  ghost predicate NamesBelow(slug: string, acc: seq<Showcase>, i: nat) {
    forall p :: 0 <= p < |acc| ==> NamedAt(slug, acc[p].name, i)
  }

  /** `name` is the showcase name of a sub-alias position below `i`. */
  ghost predicate NamedAt(slug: string, name: string, i: nat) {
    exists q :: 0 <= q < i && name == ShowcaseName(slug, q)
  }

  ghost predicate DistinctShowcases(acc: seq<Showcase>) {
    forall p, p' :: 0 <= p < p' < |acc| ==> acc[p].name != acc[p'].name
  }

  ghost predicate AllImaged(acc: seq<Showcase>) {
    forall p :: 0 <= p < |acc| ==> acc[p].imageUrl != []
  }

  /** Appending the showcase of position `i`, or nothing, keeps the
      showcases named below the next position. */
  lemma NamedBelowSnoc(slug: string, acc: seq<Showcase>, i: nat, more: seq<Showcase>)
    requires NamedBelow(slug, acc, i)
    requires more == [] || (|more| == 1 && more[0].name == ShowcaseName(slug, i) && more[0].imageUrl != [])
    ensures NamedBelow(slug, acc + more, i + 1)
  {
    if more == [] {
      assert acc + more == acc;
      NamesBelowWider(slug, acc, i);
    } else {
      NamesBelowSnoc(slug, acc, i, more[0]);
      DistinctSnoc(slug, acc, i, more[0]);
      ImagedSnoc(acc, more[0]);
      assert acc + more == acc + [more[0]];
    }
  }

  lemma NamesBelowWider(slug: string, acc: seq<Showcase>, i: nat)
    requires NamesBelow(slug, acc, i)
    ensures NamesBelow(slug, acc, i + 1)
  {
    forall p | 0 <= p < |acc| ensures NamedAt(slug, acc[p].name, i + 1) {
      var q :| 0 <= q < i && acc[p].name == ShowcaseName(slug, q);
      assert 0 <= q < i + 1 && acc[p].name == ShowcaseName(slug, q);
    }
  }

  lemma NamesBelowSnoc(slug: string, acc: seq<Showcase>, i: nat, x: Showcase)
    requires NamesBelow(slug, acc, i) && x.name == ShowcaseName(slug, i)
    ensures NamesBelow(slug, acc + [x], i + 1)
  {
    var next := acc + [x];
    forall p | 0 <= p < |next| ensures NamedAt(slug, next[p].name, i + 1) {
      if p < |acc| {
        var q :| 0 <= q < i && acc[p].name == ShowcaseName(slug, q);
        assert next[p] == acc[p];
        assert 0 <= q < i + 1 && next[p].name == ShowcaseName(slug, q);
      } else {
        assert next[p] == x;
        assert 0 <= i < i + 1 && next[p].name == ShowcaseName(slug, i);
      }
    }
  }

  lemma DistinctSnoc(slug: string, acc: seq<Showcase>, i: nat, x: Showcase)
    requires NamesBelow(slug, acc, i) && DistinctShowcases(acc) && x.name == ShowcaseName(slug, i)
    ensures DistinctShowcases(acc + [x])
  {
    var next := acc + [x];
    forall p, p' | 0 <= p < p' < |next| ensures next[p].name != next[p'].name {
      if p' >= |acc| {
        var q :| 0 <= q < i && acc[p].name == ShowcaseName(slug, q);
        assert next[p] == acc[p] && next[p'] == x;
        if acc[p].name == ShowcaseName(slug, i) {
          ShowcaseNameInjective(slug, q, i);
        }
      } else {
        assert next[p] == acc[p] && next[p'] == acc[p'];
      }
    }
  }

  lemma ImagedSnoc(acc: seq<Showcase>, x: Showcase)
    requires AllImaged(acc) && x.imageUrl != []
    ensures AllImaged(acc + [x])
  {
    var next := acc + [x];
    forall p | 0 <= p < |next| ensures next[p].imageUrl != [] {
      if p < |acc| { assert next[p] == acc[p]; } else { assert next[p] == x; }
    }
  }

  /** Some sub-alias from position `i` on has no records. */
  ghost predicate EmptyGroupFrom(values: seq<seq<Metadata>>, i: nat) {
    exists g :: i <= g < |values| && values[g] == []
  }

  lemma EmptyGroupStep(values: seq<seq<Metadata>>, i: nat)
    requires i < |values| && values[i] != []
    ensures EmptyGroupFrom(values, i) <==> EmptyGroupFrom(values, i + 1)
  {
    if EmptyGroupFrom(values, i) {
      var g :| i <= g < |values| && values[g] == [];
      assert i + 1 <= g;
    }
  }

  /** The summary showcases of the sub-aliases from position `i` on whose
      last record has a summary image, in sub-alias order. */
  ghost function Imaged(slug: string, countryName: string, indicator: Indicator, values: seq<seq<Metadata>>, i: nat)
    : seq<Showcase>
    requires i <= |values|
    decreases |values| - i
  {
    if i == |values| then [] else ImagedAt(slug, countryName, indicator, values, i) + Imaged(slug, countryName, indicator, values, i + 1)
  }

  /** What the showcase loop gives after `acc`: exactly the summary
      showcases of the sub-aliases with a summary image, in order. */
  lemma {:induction false} ShowcasesFromImaged(slug: string, countryName: string, indicator: Indicator,
                                               values: seq<seq<Metadata>>, i: nat, acc: seq<Showcase>)
    requires i <= |values|
    ensures var r := ShowcasesFrom(slug, countryName, indicator, values, i, acc);
      r.Ok? ==> r.value == acc + Imaged(slug, countryName, indicator, values, i)
    decreases |values| - i
  {
    if i == |values| {
      AppendNil(acc);
    } else {
      ShowcasesFromStep(slug, countryName, indicator, values, i, acc);
      if values[i] != [] {
        var more := ImagedAt(slug, countryName, indicator, values, i);
        ShowcasesFromImaged(slug, countryName, indicator, values, i + 1, acc + more);
        AppendAssoc(acc, more, Imaged(slug, countryName, indicator, values, i + 1));
      }
    }
  }

  /** The showcase loop fails exactly when a sub-alias has no records;
      otherwise it adds at most one showcase per sub-alias, each with a
      summary image, all under distinct names. */
  lemma {:induction false} ShowcasesFromFacts(slug: string, countryName: string, indicator: Indicator,
                                              values: seq<seq<Metadata>>, i: nat, acc: seq<Showcase>)
    requires i <= |values| && NamedBelow(slug, acc, i)
    ensures var r := ShowcasesFrom(slug, countryName, indicator, values, i, acc);
      && (r.Failure? <==> EmptyGroupFrom(values, i))
      && (r.Ok? ==> NamedBelow(slug, r.value, |values|) && acc <= r.value && |r.value| <= |acc| + |values| - i)
    decreases |values| - i
  {
    if i < |values| && values[i] != [] {
      ShowcasesFromStep(slug, countryName, indicator, values, i, acc);
      var more := ImagedAt(slug, countryName, indicator, values, i);
      NamedBelowSnoc(slug, acc, i, more);
      ShowcasesFromFacts(slug, countryName, indicator, values, i + 1, acc + more);
      EmptyGroupStep(values, i);
    } else if i < |values| {
      assert EmptyGroupFrom(values, i) by { assert values[i] == []; }
    }
  }
  /** Some public record of some sub-alias has a population year that is
      not an integer. */
  ghost predicate AnyBadYear(values: seq<seq<Metadata>>) {
    exists g, k :: 0 <= g < |values| && 0 <= k < |values[g]| && BadYear(values[g][k])
  }

  /** With no public record, no public record has files. */
  lemma NoPublicFileless(values: seq<seq<Metadata>>)
    requires NoPublicAll(values, 0)
    ensures FilelessAll(values, 0)
  {
  }

  /** What the dataset of `generate_dataset_and_showcases` and its
      showcases look like. */
  ghost predicate WellBuilt(d: Dataset, showcases: seq<Showcase>, values: seq<seq<Metadata>>,
                            countryName: string, indicator: Indicator, start: Date) {
    DatasetBuilt(d, values, start) && ShowcasesBuilt(d.name, showcases, values, countryName, indicator)
  }

  /** The dataset has resources under distinct names. The years `ys` are
      those the scan takes, one from each public record; the year range is
      the least and the greatest of them and of the sentinels 10000 and 0
      the scan starts from, and takes in every given population year. */
  ghost predicate DatasetBuilt(d: Dataset, values: seq<seq<Metadata>>, start: Date) {
    var ys := YearsOfGroups(values, 0, InitialScan(start));
    && d.resources != [] && DistinctNames(d.resources)
    && ys != []
    && d.yearRange == YearRange(MinOf(NoEarliestYear, ys), MaxOf(NoLatestYear, ys))
    && d.yearRange.start <= d.yearRange.end
    && (forall g, k :: 0 <= g < |values| && 0 <= k < |values[g]| && GivenYear(values[g][k]) ==>
          d.yearRange.start <= ParseInt(values[g][k].popyear).value <= d.yearRange.end)
  }

  /** The showcases are the summary showcases of the sub-aliases with a
      summary image, in order, named after their positions, under distinct
      names. */
  ghost predicate ShowcasesBuilt(slug: string, showcases: seq<Showcase>, values: seq<seq<Metadata>>,
                                 countryName: string, indicator: Indicator) {
    && showcases == Imaged(slug, countryName, indicator, values, 0)
    && NamedBelow(slug, showcases, |values|)
    && |showcases| <= |values|
  }

  /** The three outcomes once the country, the licence and the location are
      settled: the exception when a population year does not read or, with
      files to publish, a sub-alias has no records; `(None, None)` exactly
      when no public record has files. */
  lemma FinishOutcome(env: Collaborators, licence: string, countryiso: string, countryName: string,
                      indicator: Indicator, last: Metadata, values: seq<seq<Metadata>>)
    ensures var r := Finish(env, licence, countryiso, countryName, indicator, last, values);
      && (r.Failure? <==> AnyBadYear(values) || (!FilelessAll(values, 0) && EmptyGroupFrom(values, 0)))
      && (r == Ok(None) <==> !AnyBadYear(values) && FilelessAll(values, 0))
  {
    var st0 := InitialScan(env.defaultEndDate);
    ScanGroupsFails(values, 0, st0);
    ScanGroupsKeys(values, 0, st0);
    ShowcasesFromFacts(DatasetSlug(env, indicator, countryName), countryName, indicator, values, 0, []);
  }

  /** A dataset built once the country, the licence and the location are
      settled is well built. */
  lemma FinishFacts(env: Collaborators, licence: string, countryiso: string, countryName: string,
                    indicator: Indicator, last: Metadata, values: seq<seq<Metadata>>)
    ensures var r := Finish(env, licence, countryiso, countryName, indicator, last, values);
      r.Ok? && r.value.Some? ==> WellBuilt(r.value.value.0, r.value.value.1, values, countryName, indicator, env.defaultEndDate)
  {
    var st0 := InitialScan(env.defaultEndDate);
    var scan := ScanGroups(values, 0, st0);
    if scan.Ok? && scan.value.byYear.keys != [] {
      FinishDataset(env, licence, countryiso, countryName, indicator, last, values, scan.value);
      var slug := DatasetSlug(env, indicator, countryName);
      ShowcasesFromFacts(slug, countryName, indicator, values, 0, []);
      ShowcasesFromImaged(slug, countryName, indicator, values, 0, []);
      assert [] + Imaged(slug, countryName, indicator, values, 0) == Imaged(slug, countryName, indicator, values, 0);
    }
  }

  /** The dataset built from a successful scan that found resources is as
      `DatasetBuilt` describes. */
  lemma FinishDataset(env: Collaborators, licence: string, countryiso: string, countryName: string,
                      indicator: Indicator, last: Metadata, values: seq<seq<Metadata>>, st: Scan)
    requires ScanGroups(values, 0, InitialScan(env.defaultEndDate)) == Ok(st) && st.byYear.keys != []
    ensures DatasetBuilt(BuildDataset(env, licence, countryiso, countryName, indicator, last, st), values, env.defaultEndDate)
  {
    var st0 := InitialScan(env.defaultEndDate);
    ScanGroupsFacts(values, 0, st0);
    if NoPublicAll(values, 0) {
      NoPublicFileless(values);
    }
    BuildDatasetFacts(env, licence, countryiso, countryName, indicator, last, st);
  }

  /** When `generate_dataset_and_showcases` returns `(None, None)` for the
      gathered records: exactly when the country is unknown, or its licence
      is served and either the location is rejected or no public record
      has files and every population year reads. */
  lemma FromMetadataNone(env: Collaborators, texts: map<string, string>, countryiso: string,
                         indicator: Indicator, all: ODict<string, seq<Metadata>>)
    requires all.Valid()
    ensures var r := FromMetadata(env, texts, countryiso, indicator, all); var values := all.Values();
            var name := CountryName(countryiso, env.countryNames);
      r == Ok(None) <==>
        values != [] && values[0] != [] &&
        (name.None? || (Lower(values[0][|values[0]| - 1].license) in texts &&
                        (!env.acceptsLocation(countryiso) || (!AnyBadYear(values) && FilelessAll(values, 0)))))
  {
    var values := all.Values();
    if values != [] && values[0] != [] && CountryName(countryiso, env.countryNames).Some? {
      var last: Metadata := values[0][|values[0]| - 1];
      var licenceUrl := Lower(last.license);
      if licenceUrl in texts && env.acceptsLocation(countryiso) {
        var countryName := CountryName(countryiso, env.countryNames).value;
        FinishOutcome(env, texts[licenceUrl], countryiso, countryName, indicator, last, values);
      }
    }
  }

  /** A dataset `generate_dataset_and_showcases` builds from the gathered
      records is well built, for the country's name. */
  lemma FromMetadataFacts(env: Collaborators, texts: map<string, string>, countryiso: string,
                          indicator: Indicator, all: ODict<string, seq<Metadata>>)
    requires all.Valid()
    ensures var r := FromMetadata(env, texts, countryiso, indicator, all);
            var name := CountryName(countryiso, env.countryNames);
      r.Ok? && r.value.Some? ==>
        name.Some? && WellBuilt(r.value.value.0, r.value.value.1, all.Values(), name.value, indicator, env.defaultEndDate)
  {
    var values := all.Values();
    if values != [] && values[0] != [] && CountryName(countryiso, env.countryNames).Some? {
      var last: Metadata := values[0][|values[0]| - 1];
      var licenceUrl := Lower(last.license);
      if licenceUrl in texts {
        var countryName := CountryName(countryiso, env.countryNames).value;
        FinishFacts(env, texts[licenceUrl], countryiso, countryName, indicator, last, values);
      }
    }
  }

  // -----------------------------------------------------------------------
  // All the datasets of one country

  /** Every collected dataset has its showcases stored under its name. */
  ghost predicate Filed(acc: (seq<Dataset>, ODict<string, seq<Showcase>>)) {
    forall d :: d in acc.0 ==> d.name in acc.1.m
  }

  /** One alias's outcome: the exception is raised on; `(None, None)`
      changes nothing; a dataset is appended to the list and its showcases
      to those already under its name, with every other name's showcases
      kept. Every dataset stays filed. */
  lemma CollectFacts(acc: (seq<Dataset>, ODict<string, seq<Showcase>>), generated: Result<Option<(Dataset, seq<Showcase>)>>)
    requires acc.1.Valid()
    ensures var r := Collect(acc, generated);
      && (r.Failure? <==> generated.Failure?)
      && (r.Ok? && Filed(acc) ==> Filed(r.value))
      && (generated == Ok(None) ==> r == Ok(acc))
      && (generated.Ok? && generated.value.Some? ==>
            var d := generated.value.value.0;
            && r.Ok? && r.value.0 == acc.0 + [d]
            && forall n :: r.value.1.Get(n, []) == acc.1.Get(n, []) + ShowcasesUnder([generated.value.value], n))
  {
  }

  /** The datasets of `ps`, in order. */
  function DatasetsOf(ps: seq<(Dataset, seq<Showcase>)>): (ds: seq<Dataset>)
    ensures |ds| == |ps| && forall p :: 0 <= p < |ps| ==> ds[p] == ps[p].0
  {
    seq(|ps|, p requires 0 <= p < |ps| => ps[p].0)
  }

  /** The showcases of the datasets of `ps` named `n`, concatenated in
      order. */
  function ShowcasesUnder(ps: seq<(Dataset, seq<Showcase>)>, n: string): seq<Showcase> {
    if ps == [] then [] else (if ps[0].0.name == n then ps[0].1 else []) + ShowcasesUnder(ps[1..], n)
  }

  lemma ProducedConcat(own: seq<(Dataset, seq<Showcase>)>, rest: seq<(Dataset, seq<Showcase>)>, n: string)
    requires |own| <= 1
    ensures DatasetsOf(own + rest) == DatasetsOf(own) + DatasetsOf(rest)
    ensures ShowcasesUnder(own + rest, n) == ShowcasesUnder(own, n) + ShowcasesUnder(rest, n)
  {
    if own == [] {
      assert own + rest == rest;
    } else {
      assert (own + rest)[1..] == rest;
      assert ShowcasesUnder(own, n) == (if own[0].0.name == n then own[0].1 else []) + [] by {
        assert own[1..] == [];
      }
    }
  }

  /** Adding `own` and then `rest` is adding `own + rest`. */
  lemma ChainAdds(a0: seq<Dataset>, a1: seq<Dataset>, a2: seq<Dataset>,
                  m0: ODict<string, seq<Showcase>>, m1: ODict<string, seq<Showcase>>, m2: ODict<string, seq<Showcase>>,
                  own: seq<(Dataset, seq<Showcase>)>, rest: seq<(Dataset, seq<Showcase>)>)
    requires |own| <= 1
    requires a1 == a0 + DatasetsOf(own) && a2 == a1 + DatasetsOf(rest)
    requires forall n :: m1.Get(n, []) == m0.Get(n, []) + ShowcasesUnder(own, n)
    requires forall n :: m2.Get(n, []) == m1.Get(n, []) + ShowcasesUnder(rest, n)
    ensures a2 == a0 + DatasetsOf(own + rest)
    ensures forall n :: m2.Get(n, []) == m0.Get(n, []) + ShowcasesUnder(own + rest, n)
  {
    ProducedConcat(own, rest, "");
    AppendAssoc(a0, DatasetsOf(own), DatasetsOf(rest));
    forall n ensures m2.Get(n, []) == m0.Get(n, []) + ShowcasesUnder(own + rest, n) {
      ProducedConcat(own, rest, n);
      AppendAssoc(m0.Get(n, []), ShowcasesUnder(own, n), ShowcasesUnder(rest, n));
    }
  }

  /** The datasets and showcases that the outcomes `outs` produce, in
      order, leaving out `(None, None)` and exceptions. */
  function Produced(outs: seq<Result<Option<(Dataset, seq<Showcase>)>>>): (ps: seq<(Dataset, seq<Showcase>)>)
    ensures |ps| <= |outs|
  {
    if outs == [] then []
    else (if outs[0].Ok? && outs[0].value.Some? then [outs[0].value.value] else []) + Produced(outs[1..])
  }

  /** `Collect` of each of the outcomes `outs` in turn; the first exception
      ends it. */
  function CollectAll(acc: (seq<Dataset>, ODict<string, seq<Showcase>>), outs: seq<Result<Option<(Dataset, seq<Showcase>)>>>)
    : (r: Result<(seq<Dataset>, ODict<string, seq<Showcase>>)>)
    requires acc.1.Valid()
    ensures r.Ok? ==> r.value.1.Valid()
    decreases |outs|
  {
    if outs == [] then Ok(acc)
    else
      match Collect(acc, outs[0])
      case Failure(e) => Failure(e)
      case Ok(next) => CollectAll(next, outs[1..])
  }

  /** Collecting a run of outcomes gives the datasets before and then each
      produced dataset, in order; under each name, the showcases before and
      then those of every produced dataset of that name, in order. */
  lemma {:induction false} CollectAllFacts(acc: (seq<Dataset>, ODict<string, seq<Showcase>>),
                                           outs: seq<Result<Option<(Dataset, seq<Showcase>)>>>)
    requires acc.1.Valid()
    ensures var r := CollectAll(acc, outs); var ps := Produced(outs);
      r.Ok? ==> && r.value.0 == acc.0 + DatasetsOf(ps)
                && forall n :: r.value.1.Get(n, []) == acc.1.Get(n, []) + ShowcasesUnder(ps, n)
    decreases |outs|
  {
    if outs == [] {
      AppendNil(acc.0);
      forall n ensures acc.1.Get(n, []) + ShowcasesUnder([], n) == acc.1.Get(n, []) {
        AppendNil(acc.1.Get(n, []));
      }
    } else {
      var first := Collect(acc, outs[0]);
      CollectFacts(acc, outs[0]);
      if first.Ok? {
        var next := first.value;
        var own: seq<(Dataset, seq<Showcase>)> := if outs[0].value.Some? then [outs[0].value.value] else [];
        CollectAllFacts(next, outs[1..]);
        var r := CollectAll(next, outs[1..]);
        if r.Ok? {
          if own == [] {
            AppendNil(acc.0);
            forall n ensures next.1.Get(n, []) == acc.1.Get(n, []) + ShowcasesUnder(own, n) {
              AppendNil(acc.1.Get(n, []));
            }
          }
          ChainAdds(acc.0, next.0, r.value.0, acc.1, next.1, r.value.1, own, Produced(outs[1..]));
        }
      }
    }
  }

  /** The outcomes of the aliases from position `k` on, in alias order. */
  ghost function Outcomes(env: Collaborators, texts: map<string, string>, served: map<string, Payload>,
                          countryiso: string, indicators: map<string, Indicator>,
                          countrydata: WorldPopIndex.CountryData, k: nat): (outs: seq<Result<Option<(Dataset, seq<Showcase>)>>>)
    requires countrydata.Valid() && k <= |countrydata.keys|
    requires forall a :: a in countrydata.m ==> countrydata.m[a].Valid()
    decreases |countrydata.keys| - k
  {
    if k == |countrydata.keys| then []
    else [AliasOutcome(env, texts, served, countryiso, indicators, countrydata, k)] +
         Outcomes(env, texts, served, countryiso, indicators, countrydata, k + 1)
  }

  /** The alias loop collects the aliases' outcomes in turn. */
  lemma {:induction false} AssembleFromOutcomes(env: Collaborators, texts: map<string, string>, served: map<string, Payload>,
                                                countryiso: string, indicators: map<string, Indicator>,
                                                countrydata: WorldPopIndex.CountryData, k: nat,
                                                acc: (seq<Dataset>, ODict<string, seq<Showcase>>))
    requires countrydata.Valid() && k <= |countrydata.keys| && acc.1.Valid()
    requires forall a :: a in countrydata.m ==> countrydata.m[a].Valid()
    ensures AssembleFrom(env, texts, served, countryiso, indicators, countrydata, k, acc) ==
            CollectAll(acc, Outcomes(env, texts, served, countryiso, indicators, countrydata, k))
    decreases |countrydata.keys| - k
  {
    var outs := Outcomes(env, texts, served, countryiso, indicators, countrydata, k);
    if k < |countrydata.keys| {
      var rest := Outcomes(env, texts, served, countryiso, indicators, countrydata, k + 1);
      var out := AliasOutcome(env, texts, served, countryiso, indicators, countrydata, k);
      assert outs == [out] + rest;
      assert outs[0] == out && outs[1..] == rest;
      var step := Collect(acc, out);
      if step.Ok? {
        AssembleFromOutcomes(env, texts, served, countryiso, indicators, countrydata, k + 1, step.value);
      }
    }
  }

  /** Collecting a run of outcomes keeps every dataset filed under its
      name. */
  lemma {:induction false} CollectAllFiled(acc: (seq<Dataset>, ODict<string, seq<Showcase>>),
                                           outs: seq<Result<Option<(Dataset, seq<Showcase>)>>>)
    requires acc.1.Valid() && Filed(acc)
    ensures var r := CollectAll(acc, outs); r.Ok? ==> Filed(r.value)
    decreases |outs|
  {
    if outs != [] {
      CollectFacts(acc, outs[0]);
      var first := Collect(acc, outs[0]);
      if first.Ok? {
        CollectAllFiled(first.value, outs[1..]);
      }
    }
  }

  /** The alias loop keeps every dataset filed under its name. */
  lemma AssembleFromFiled(env: Collaborators, texts: map<string, string>, served: map<string, Payload>,
                          countryiso: string, indicators: map<string, Indicator>,
                          countrydata: WorldPopIndex.CountryData, k: nat,
                          acc: (seq<Dataset>, ODict<string, seq<Showcase>>))
    requires countrydata.Valid() && k <= |countrydata.keys| && acc.1.Valid() && Filed(acc)
    requires forall a :: a in countrydata.m ==> countrydata.m[a].Valid()
    ensures var r := AssembleFrom(env, texts, served, countryiso, indicators, countrydata, k, acc);
      r.Ok? ==> Filed(r.value)
  {
    AssembleFromOutcomes(env, texts, served, countryiso, indicators, countrydata, k, acc);
    CollectAllFiled(acc, Outcomes(env, texts, served, countryiso, indicators, countrydata, k));
  }

  /** The alias loop: the datasets collected are those before and then
      each alias's dataset, in alias order; under each name are the
      showcases before and then those of every dataset of that name, in
      alias order. */
  lemma AssembleFromFacts(env: Collaborators, texts: map<string, string>, served: map<string, Payload>,
                          countryiso: string, indicators: map<string, Indicator>,
                          countrydata: WorldPopIndex.CountryData, k: nat,
                          acc: (seq<Dataset>, ODict<string, seq<Showcase>>))
    requires countrydata.Valid() && k <= |countrydata.keys| && acc.1.Valid()
    requires forall a :: a in countrydata.m ==> countrydata.m[a].Valid()
    ensures var r := AssembleFrom(env, texts, served, countryiso, indicators, countrydata, k, acc);
            var ps := Produced(Outcomes(env, texts, served, countryiso, indicators, countrydata, k));
      r.Ok? ==> && r.value.0 == acc.0 + DatasetsOf(ps)
                && forall n :: r.value.1.Get(n, []) == acc.1.Get(n, []) + ShowcasesUnder(ps, n)
  {
    AssembleFromOutcomes(env, texts, served, countryiso, indicators, countrydata, k, acc);
    CollectAllFacts(acc, Outcomes(env, texts, served, countryiso, indicators, countrydata, k));
  }
}
