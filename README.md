# WorldPop scraper core, modelled in Dafny

The scraper publishes WorldPop's population rasters as datasets and showcases
on the Humanitarian Data Exchange. It exists in three generations, and all three are
modelled here.

- **`worldpop.py` (class `WorldPop`).** Reads the indicator catalogue and
  keeps the configured aliases. It builds a country index from the per-alias
  country listings (`?iso3=` URLs) and global listings (`?id=` URLs, stored
  under "World"). Per country and indicator, it downloads the per-sub-alias
  metadata and scans the public records into resources grouped by
  population year. It then builds one dataset whose resources run newest
  year first, plus one summary-page showcase per sub-alias.
- **`aliasdata.py` (class `AliasData`).** Builds one dataset per public
  record. The record's category gives the dataset's name, title and
  resource description. The record's files become resources whose names are
  cut after a `_<digits>m` distance tag. One showcase per base name is kept
  in a dictionary.
- **`pipeline.py` (class `Pipeline`).** Keeps one query URL per
  (country, alias), remapping Kosovo's listing code "KOS" to "XKX". For each
  alias of a country, it picks the record of the configured year, or the
  last record. It skips an alias whose chosen record is not public. Otherwise
  it builds one dataset from the whole series of records.

How Python is modelled:
- A dictionary is an ordered dictionary (`Base.ODict`): a key list in
  insertion order plus a map.
- A raised exception is the `Failure` of a `Result`. The error says whether
  a download, an index, a value, a key or a date parse failed.
- Downloads are maps from URL to the served JSON payload.
- Library code the scraper calls is a function-typed parameter (record
  `Collaborators`): slugify, markdownify, the country-name table,
  `add_other_location`, filename splitting and the default end date.
- Loops are methods whose `ensures` ties them to forward-recursive
  specification functions. The lemmas prove their properties about those
  functions.

## Model

| member | source | states |
|---|---|---|
| Text.Lower | worldpop.py:166 | lower-casing maps each character on its own: 'A' to 'Z' become 'a' to 'z', every other character is kept |
| Text.LowerIdempotent | worldpop.py:166 | lower-casing twice is lower-casing once |
| Text.Words | src/hdx/scraper/worldpop/aliasdata.py:79 | `split()` yields non-empty words without white space |
| Text.SplitOnceAgreesWithWords | src/hdx/scraper/worldpop/aliasdata.py:79 | `split(maxsplit=1)` has two parts exactly when the text has two or more words, and its first part is the first word |
| Text.Strip | src/hdx/scraper/worldpop/aliasdata.py:103 | `strip()` leaves no leading or trailing white space |
| Text.StripIsInfix | src/hdx/scraper/worldpop/aliasdata.py:103 | `strip()` removes only white space, from both ends |
| Text.IntRoundTrip | worldpop.py:179 | `int(str(n)) == n` for every integer |
| Text.ParseNonNegative | worldpop.py:179 | a digit string parses to its decimal value |
| Text.ParseNegative | worldpop.py:179 | a minus sign followed by digits parses to the negated value |
| Text.SortAscending | src/hdx/scraper/worldpop/pipeline.py:65 | `sorted` gives an ascending permutation of its input |
| Text.SortDescending | worldpop.py:184 | `sorted(..., reverse=True)` gives a descending permutation of its input |
| Text.SortDistinct | worldpop.py:79 | sorting distinct keys gives a strictly ascending list with the same elements |
| Text.LessTotal | worldpop.py:79 | string order is total |
| Text.LessTransitive | worldpop.py:79 | string order is transitive |
| Text.ReplaceAbsent | worldpop.py:131 | `replace` leaves a text without the pattern unchanged |
| Text.ReplaceAtFront | worldpop.py:131 | `replace` of a leading pattern puts the replacement in front |
| Base.Put | worldpop.py:65-69 | storing a key keeps the dictionary valid, maps the key to the value and appends it to the keys only if new |
| Base.Values | worldpop.py:114 | `list(d.values())` lists the values in key order |
| Base.FlattenConcat | worldpop.py:106-112 | the records of two runs of payloads are those of the first, then those of the second |
| Records.PublicFlag | worldpop.py:166 | a record is public exactly when its flag is "y" or "Y" |
| Records.CountryName | worldpop.py:117-123 | "World" names itself; another code takes its table entry, or nothing |
| Records.Tags | worldpop.py:157 | tags are the lower-cased indicator name, then "geodata" |
| Records.AddUpdateResourceFacts | worldpop.py:202 | `add_update_resource` keeps names distinct and adds the new resource's name to the names |
| Records.AddUpdateAllDistinct | worldpop.py:200-202 | any number of upserts keeps resource names distinct |
| Records.AddUpdateAllNames | worldpop.py:200-202 | starting empty, the dataset holds exactly the names added |
| Records.AddUpdateAllKeepsLast | worldpop.py:200-202 | the last resource added under a name is the one kept |
| Records.AddUpdateAllOnlyLast | worldpop.py:200-202 | every kept resource is the last one added under its name |
| Catalog.LastIndexOfAlias | worldpop.py:38-42 | the position of the last catalogue entry with an alias, or -1 |
| Catalog.SelectedEntry | worldpop.py:38-42 | a configured alias in the catalogue is stored with its last catalogue entry; an unconfigured or absent one keeps its previous entry |
| Catalog.SelectedUnderOwnAlias | worldpop.py:36-42 | every stored key is a configured alias, and its entry carries that alias |
| Gather.FirstUnserved | worldpop.py:106-107 | the first URL the download cannot serve, with every earlier one served |
| Gather.FirstUnservedIs | worldpop.py:106-107 | the first unserved position is fixed by which URLs are served |
| Gather.DownloadedConcat | worldpop.py:106-112 | downloading two runs of URLs yields the records of the first, then those of the second |
| Gather.GatherFrom | worldpop.py:102-113 | the gathered dictionary: each sub-alias appends its URLs' records to what it held, the first unserved URL ends the loop, and the result is a valid dictionary |
| Gather.FetchedSpec | worldpop.py:106-112 | one sub-alias's download succeeds iff every URL is served; otherwise it fails on the first unserved URL |
| Gather.GatherOk | worldpop.py:102-113 | gathering succeeds iff every URL of every sub-alias is served |
| Gather.GatherEntry | worldpop.py:102-113 | each sub-alias holds what it held before plus the records of its URLs, in order |
| Gather.GatherKeys | worldpop.py:102-113 | the gathered dictionary has the sub-aliases as keys, in order |
| Gather.FetchAll | worldpop.py:106-112 | the URL loop computes the sub-alias's records or the first failed download |
| Gather.GatherMetadata | worldpop.py:102-113 | the sub-alias loop computes the gathered dictionary or the first failed download |
| WorldPopIndex.GetIndicatorsMetadata | worldpop.py:34-43 | the catalogue loop stores each configured alias's last entry |
| WorldPopIndex.PutUrls | worldpop.py:64-68 | storing a list of URLs for a (country, alias, sub-alias) keeps the nested dictionary valid |
| WorldPopIndex.PutUrlsLookup | worldpop.py:65-69 | storing a list changes that (country, alias, sub-alias) lookup and no other |
| WorldPopIndex.PutUrlsKeys | worldpop.py:65-69 | storing adds the country key and no other |
| WorldPopIndex.AddListing | worldpop.py:59-69 | the index after one country listing: each code's first occurrence appends `{url}?iso3={code}`; the result is a valid nested dictionary |
| WorldPopIndex.AddListingLookup | worldpop.py:59-69 | a country listing adds its URL once to each code it names, under its own alias and sub-alias, however often the code repeats |
| WorldPopIndex.AddListingKeys | worldpop.py:59-69 | a country listing adds exactly its codes as countries |
| WorldPopIndex.IndexSubaliases | worldpop.py:57-69 | the index after the country listings of one alias's sub-aliases, in order; it stays a valid nested dictionary |
| WorldPopIndex.AddCountryListing | worldpop.py:59-69 | the loop with its `iso3s` set computes the listing's index |
| WorldPopIndex.IndexAlias | worldpop.py:56-77 | the index after one alias: its country listings, then its global listing under "World"; the result is a valid nested dictionary |
| WorldPopIndex.IndexAliases | worldpop.py:53-77 | the index after every configured alias in turn; the result is a valid nested dictionary |
| WorldPopIndex.GlobalUrls | worldpop.py:75 | one `?id=` URL per global listing entry, in listing order |
| WorldPopIndex.WithoutWorldKeepsOrder | worldpop.py:79 | dropping "World" from sorted keys keeps them strictly ascending |
| WorldPopIndex.CountryListOrder | worldpop.py:79-80 | the country list is every index code other than "World", ascending, then "World" |
| WorldPopIndex.CountryUrlsSnoc | worldpop.py:57-67 | one more sub-alias adds its listing URL to exactly the codes it names |
| WorldPopIndex.IndexCountryListings | worldpop.py:57-69 | the sub-alias loop succeeds iff every listing is served; on success it computes the index, on failure it names an unserved URL |
| WorldPopIndex.IndexOneAlias | worldpop.py:56-77 | one alias's country and global listings: success iff all are served |
| WorldPopIndex.GetCountriesData | worldpop.py:46-81 | succeeds iff every configured listing is served; returns the index of all aliases and the country list with "World" last |
| IndexFacts.IndexAliasLookup | worldpop.py:56-69 | one alias leaves every list it does not configure unchanged |
| IndexFacts.IndexAliasGlobal | worldpop.py:70-77 | a global sub-alias stores its `?id=` URLs under "World" |
| IndexFacts.IndexAliasKeys | worldpop.py:56-77 | one alias adds exactly the codes its country listings name, plus "World" when it has a global sub-alias |
| IndexFacts.IndexAliasesLookup | worldpop.py:55-69 | a code holds, under an alias and sub-alias, that listing's `?iso3=` URL once per time the sub-alias is configured if the listing names the code, else nothing |
| IndexFacts.IndexAliasesGlobal | worldpop.py:70-77 | "World" holds, under a configured global sub-alias, that listing's `?id=` URLs |
| IndexFacts.IndexAliasesKeys | worldpop.py:53-77 | the index holds exactly the codes the country listings name, and "World" iff some alias has a global sub-alias |
| WorldPopDataset.StampDate | worldpop.py:168-175 | a public record's resources carry its own date when it parses to a year of 2000 or later, and otherwise the earliest date seen so far |
| WorldPopDataset.InitialScan | worldpop.py:160-163 | the scan starts with no resources, year bounds 10000 and 0, and the default end date |
| WorldPopDataset.Step | worldpop.py:165-196 | one record of the scan: a record that is not public is skipped; otherwise its year moves the bounds, its date may move the earliest date, and its files' resources are added under its year; the year dictionary stays valid |
| WorldPopDataset.ScanFrom | worldpop.py:165-196 | one sub-alias's records in turn, or the first record's value error; the year dictionary stays valid |
| WorldPopDataset.ScanGroups | worldpop.py:164-196 | every sub-alias's records in dictionary order; the year dictionary stays valid |
| WorldPopDataset.RecordYear | worldpop.py:176-179 | an empty `popyear` takes the date's year; otherwise `int()` succeeds or raises a value error |
| WorldPopDataset.FileResource | worldpop.py:185-195 | a resource is named by the URL's text after its last '/' and keeps the URL |
| WorldPopDataset.FileResources | worldpop.py:184-195 | one resource per file URL, in the order given, each built by `FileResource` |
| WorldPopDataset.AddToYear | worldpop.py:196 | `dict_of_lists_add` of one resource keeps the year dictionary valid |
| WorldPopDataset.AddAllToYear | worldpop.py:196 | `dict_of_lists_add` of a run of resources keeps the year dictionary valid; `AddAllToYearAppends` states the contents |
| WorldPopDataset.AddAllToYearAppends | worldpop.py:196 | `dict_of_lists_add` of a run appends it in order under its year |
| WorldPopDataset.AddFileResources | worldpop.py:184-196 | the file loop adds each file's resource under the record's year |
| WorldPopDataset.ScanRecord | worldpop.py:165-196 | the loop body for one record computes the scan step |
| WorldPopDataset.ScanGroup | worldpop.py:165-196 | the record loop of one sub-alias computes the scan |
| WorldPopDataset.ScanMetadata | worldpop.py:160-196 | the nested loop scans every sub-alias's records in dictionary order |
| WorldPopDataset.InsertYear | worldpop.py:200 | inserting a year keeps the list strictly descending with the right members |
| WorldPopDataset.SortYearsDescending | worldpop.py:200 | the years with resources, strictly descending |
| WorldPopDataset.AddUpdateResources | worldpop.py:201-202 | the upsert loop computes the upserts of its resources in turn |
| WorldPopDataset.AddUpdateAllConcat | worldpop.py:200-202 | upserting two runs in turn is upserting their concatenation |
| WorldPopDataset.AddResourcesByYear | worldpop.py:200-202 | the years loop upserts each year's resources, newest year first |
| WorldPopDataset.ShowcaseName | worldpop.py:213-216 | a showcase name starts with the dataset's slug and ends with "-showcase" |
| WorldPopDataset.SummaryShowcase | worldpop.py:212-226 | the showcase is named after its sub-alias's position, links the last record's summary page and image, and carries the dataset's tags |
| WorldPopDataset.ImagedAt | worldpop.py:207-227 | a sub-alias with records gives at most one showcase, and one exactly when its last record has a summary image |
| WorldPopDataset.ShowcaseFor | worldpop.py:208-227 | the loop body for one sub-alias computes that showcase, or none |
| WorldPopDataset.MakeShowcases | worldpop.py:206-227 | the showcase loop computes the showcases, or fails with an index error on an empty sub-alias |
| WorldPopDataset.DatasetFromMetadata | worldpop.py:114-228 | everything after the download computes the dataset and showcases, or `(None, None)`, or the error raised |
| WorldPopDataset.GenerateDatasetAndShowcases | worldpop.py:84-228 | download, then build |
| WorldPopDataset.Collect | worldpop.py:240-245 | one alias's outcome: nothing for `(None, None)`, else the dataset appended and its showcases added under its name; the showcase dictionary stays valid |
| WorldPopDataset.AddAliasDataset | worldpop.py:237-245 | the body of the alias loop computes one alias's contribution |
| WorldPopDataset.GenerateDatasetsAndShowcases | worldpop.py:231-246 | the alias loop computes the datasets and the showcase dictionary |
| DatasetFacts.StepFails | worldpop.py:166-179 | one record aborts the scan iff it is public with a non-empty `popyear` that does not parse; a bad date never aborts |
| DatasetFacts.MinOf | worldpop.py:161-183 | the least of a start value and some years: at most each of them, and one of them |
| DatasetFacts.MaxOf | worldpop.py:162-181 | the greatest of a start value and some years: at least each of them, and one of them |
| DatasetFacts.FoldConcat | worldpop.py:164-183 | folding two runs of years in turn is folding their concatenation |
| DatasetFacts.TakenYear | worldpop.py:166-179 | a record gives a year to the bounds exactly when it is public and its year reads: its `popyear`, or else its resources' date's year |
| DatasetFacts.StepFacts | worldpop.py:166-196 | one record keeps the scan coherent; the new bounds are the least and greatest of the old bounds and the record's year, whether given or taken from a date; the earliest date only moves to an earlier, trusted date of a public record; the scan has resources afterwards iff it had some or the record is public with files |
| DatasetFacts.ScanFromFails | worldpop.py:165-196 | a sub-alias's scan fails iff one of its records aborts it |
| DatasetFacts.ScanFromFacts | worldpop.py:165-196 | a sub-alias's scan keeps the bounds coherent and monotone; they end as the least and greatest of the starting bounds and the years of its public records, which take in every given year; no year is taken iff no record is public; the scan ends without resources iff it started without and no public record has files |
| DatasetFacts.ScanGroupsFails | worldpop.py:164-196 | the whole scan fails iff some record of some sub-alias aborts it |
| DatasetFacts.ScanGroupsFacts | worldpop.py:164-196 | the same over every sub-alias in dictionary order; in particular the bounds are the least and greatest of the sentinels 10000 and 0 and every public record's year |
| DatasetFacts.PublicOnly | worldpop.py:166-167 | scanning all records is scanning only the public ones |
| DatasetFacts.YearOrderedMembers | worldpop.py:200-202 | the newest-year-first order loses and invents no resource |
| DatasetFacts.OrderedNames | worldpop.py:200-202 | the newest-year-first order holds exactly the names scanned |
| DatasetFacts.ScannedResources | worldpop.py:197-202 | upserting the scanned resources gives a non-empty list with distinct names, each a scanned resource, with exactly the scanned names |
| DatasetFacts.BuildDatasetFacts | worldpop.py:133-204 | after a coherent scan with resources, the dataset has non-empty, distinct-named resources, each drawn from some scanned year, with exactly the scanned names; its year range is the scan's bounds, with start <= end; its tags are the indicator's |
| DatasetFacts.ShowcaseNameLength | worldpop.py:213-216 | the first showcase name has no number |
| DatasetFacts.ShowcaseNameInjective | worldpop.py:213-216 | different sub-alias positions give different showcase names |
| DatasetFacts.ShowcasesFromImaged | worldpop.py:206-227 | when the showcase loop succeeds it gives exactly the summary showcases of the sub-aliases whose last record has an image, in order |
| DatasetFacts.ShowcasesFromFacts | worldpop.py:206-227 | the showcase loop fails iff a sub-alias has no records; otherwise it gives at most one showcase per sub-alias, each named after its position, with distinct names |
| DatasetFacts.FinishOutcome | worldpop.py:160-228 | once the country, licence and location are settled: an exception iff some public `popyear` does not read, or some public record has files and some sub-alias has no records; `(None, None)` iff every year reads and no public record has files |
| DatasetFacts.FinishDataset | worldpop.py:160-204 | the dataset built from a successful scan with resources has distinct-named resources and the year range of the least and greatest years taken (with the sentinels), which holds every given year |
| DatasetFacts.FinishFacts | worldpop.py:160-228 | a built dataset is as `FinishDataset` states, and its showcases are exactly the summary showcases of the imaged sub-aliases, in order, named after their positions |
| DatasetFacts.FromMetadataNone | worldpop.py:114-199 | `(None, None)` from the gathered records iff the first sub-alias has a record and either the country is unknown, or the licence is served and the location is rejected or no public record has files while every year reads |
| DatasetFacts.FromMetadataFacts | worldpop.py:114-228 | a dataset `generate_dataset_and_showcases` builds from the gathered records is well built for the country's name |
| DatasetFacts.CollectFacts | worldpop.py:237-245 | one alias's exception is raised on; `(None, None)` changes nothing; a dataset is appended to the list and its showcases to those under its name, with other names kept; datasets stay filed under their names |
| DatasetFacts.CollectAllFacts | worldpop.py:236-245 | collecting a run of outcomes appends each produced dataset in order, and under each name appends each produced dataset's showcases in order |
| DatasetFacts.CollectAllFiled | worldpop.py:236-245 | collecting a run of outcomes keeps every dataset filed under its name |
| DatasetFacts.AssembleFromOutcomes | worldpop.py:236-246 | the alias loop collects the aliases' outcomes in alias order |
| DatasetFacts.AssembleFromFiled | worldpop.py:236-246 | the alias loop keeps every dataset filed under its name |
| DatasetFacts.AssembleFromFacts | worldpop.py:236-246 | the datasets collected are the earlier ones then each alias's dataset in alias order; under each name are the earlier showcases then those of every dataset of that name, in alias order |
| Aliasdata.EstimateType | src/hdx/scraper/worldpop/aliasdata.py:79 | the estimate type is the first word; the unpacking fails with a value error iff the category has fewer than two words |
| Aliasdata.SplitOnDash | src/hdx/scraper/worldpop/aliasdata.py:81 | the two-way unpacking succeeds iff the category has exactly one dash, and the parts rebuild the category |
| Aliasdata.DashShorter | src/hdx/scraper/worldpop/aliasdata.py:81-83 | the shorter category: the lower-cased estimate type, then the last four characters before the dash, a dash, and the first four after it |
| Aliasdata.Bracketed | src/hdx/scraper/worldpop/aliasdata.py:103 | succeeds iff the category has '('; the result is the stripped text up to the next ')' |
| Aliasdata.CategoryNaming | src/hdx/scraper/worldpop/aliasdata.py:79-87 | succeeds iff two or more words and at most one dash; gives the dated title and shorter category with a dash, else "(estimate type)" |
| Aliasdata.FirstDistance | src/hdx/scraper/worldpop/aliasdata.py:18 | the leftmost match of `_\d*m` at or after a position |
| Aliasdata.CutDistance | src/hdx/scraper/worldpop/aliasdata.py:155-157 | the filename cut just after its first distance tag, or unchanged |
| Aliasdata.CutDistanceExtend | src/hdx/scraper/worldpop/aliasdata.py:155-157 | text after a distance tag does not affect the cut |
| Aliasdata.CutDistanceIdempotent | src/hdx/scraper/worldpop/aliasdata.py:155-157 | cutting twice is cutting once |
| Aliasdata.Caveats | src/hdx/scraper/worldpop/aliasdata.py:62-66 | the caveats cite the last record of the first sub-alias; an index error if there is none |
| Aliasdata.ReadRecord | src/hdx/scraper/worldpop/aliasdata.py:78-106 | a readable record's year is its parsed `popyear` |
| Aliasdata.FileResource | src/hdx/scraper/worldpop/aliasdata.py:154-161 | the resource is named by the lower-cased cut filename plus extension, and carries the URL, description and format |
| Aliasdata.FileResources | src/hdx/scraper/worldpop/aliasdata.py:153-161 | one resource per file URL, in the order given, each built by `FileResource` |
| Aliasdata.Store | src/hdx/scraper/worldpop/aliasdata.py:145-166 | a derived record stores its showcase under the base name, and adds its dataset with one resource per file when it has files; the showcase dictionary stays valid |
| Aliasdata.RecordStep | src/hdx/scraper/worldpop/aliasdata.py:143-166 | a record that is not public is skipped; otherwise it is derived and stored; the showcase dictionary stays valid |
| Aliasdata.RecordsFrom | src/hdx/scraper/worldpop/aliasdata.py:142-166 | one sub-alias's records in turn, the first exception ending the loop; the showcase dictionary stays valid |
| Aliasdata.GroupsFrom | src/hdx/scraper/worldpop/aliasdata.py:141-167 | every sub-alias's records in dictionary order; the showcase dictionary stays valid |
| Aliasdata.AliasData.constructor | src/hdx/scraper/worldpop/aliasdata.py:20-29 | empty metadata and showcases, no country name |
| Aliasdata.AliasData.GetAllMetadataForCountry | src/hdx/scraper/worldpop/aliasdata.py:34-45 | the gathered records become the object's metadata, or the first failed download is returned |
| Aliasdata.AliasData.SetCountryName | src/hdx/scraper/worldpop/aliasdata.py:50-60 | sets the country name; returns false iff a code other than "World" is not recognised |
| Aliasdata.AliasData.GenerateDataset | src/hdx/scraper/worldpop/aliasdata.py:68-122 | returns the derived dataset and resource data and stores the showcase under its base name; `(None, None)` when the location is rejected |
| Aliasdata.AliasData.AddFileResources | src/hdx/scraper/worldpop/aliasdata.py:153-162 | the file loop upserts each file's resource in the order given |
| Aliasdata.AliasData.GenerateRecord | src/hdx/scraper/worldpop/aliasdata.py:143-166 | one record's step, including the showcase it stores |
| Aliasdata.AliasData.GenerateGroup | src/hdx/scraper/worldpop/aliasdata.py:142-166 | one sub-alias's records, in order |
| Aliasdata.AliasData.GenerateDatasets | src/hdx/scraper/worldpop/aliasdata.py:124-167 | every sub-alias's records, in dictionary order; the datasets and the showcase dictionary are the specification's |
| AliasdataFacts.DerivedNaming | src/hdx/scraper/worldpop/aliasdata.py:88-121 | the dataset is named `<showcase name>-<year>`, the year reads back from the name, the range is that year alone, and the tags are shared |
| AliasdataFacts.ReadRecordOutcome | src/hdx/scraper/worldpop/aliasdata.py:64-106 | a record is read iff its year parses, its category has two or more words, at most one dash and a '(', and the first sub-alias has a record |
| AliasdataFacts.FileNamesCollide | src/hdx/scraper/worldpop/aliasdata.py:155-159 | files sharing a stem up to a distance tag and an extension get the same resource name |
| AliasdataFacts.CutStemStable | src/hdx/scraper/worldpop/aliasdata.py:155-159 | a stem already cut keeps its name |
| AliasdataFacts.FileResourcesFacts | src/hdx/scraper/worldpop/aliasdata.py:153-163 | a record's resources are empty iff it has no files, and their names are distinct |
| AliasdataFacts.RecordStepGood | src/hdx/scraper/worldpop/aliasdata.py:143-166 | one record adds a dataset iff it is public, derivable and has files; every dataset has distinct, non-empty resources and is named after a stored showcase |
| AliasdataFacts.RecordsFromGood | src/hdx/scraper/worldpop/aliasdata.py:142-166 | one sub-alias keeps that, adding at most one dataset per record |
| AliasdataFacts.GroupsFromGood | src/hdx/scraper/worldpop/aliasdata.py:141-167 | the whole of `generate_datasets` keeps that |
| AliasdataFacts.GroupsFromPrivate | src/hdx/scraper/worldpop/aliasdata.py:143-144 | with no public record, nothing is produced or stored |
| ScraperPipeline.IndexCode | src/hdx/scraper/worldpop/pipeline.py:53-57 | "KOS" is stored as "XKX"; other codes as themselves; never "KOS" |
| ScraperPipeline.PutUrl | src/hdx/scraper/worldpop/pipeline.py:61-63 | storing keeps the index valid and adds the country key |
| ScraperPipeline.PutUrlLookup | src/hdx/scraper/worldpop/pipeline.py:61-63 | storing changes that (country, alias) lookup and no other |
| ScraperPipeline.FirstFor | src/hdx/scraper/worldpop/pipeline.py:58-60 | the first listing entry stored under a code |
| ScraperPipeline.AddListing | src/hdx/scraper/worldpop/pipeline.py:51-63 | the index after one listing: the first entry for each index code stores its query URL; the index stays valid |
| ScraperPipeline.AddListingLookup | src/hdx/scraper/worldpop/pipeline.py:51-63 | a listing stores, under its alias, the query URL of the first entry for each code, with the listing's own code in the URL |
| ScraperPipeline.AddListingKeys | src/hdx/scraper/worldpop/pipeline.py:51-63 | a listing adds exactly its index codes as countries |
| ScraperPipeline.IndexListing | src/hdx/scraper/worldpop/pipeline.py:50-63 | the loop with its `iso3s` set computes the listing's index |
| ScraperPipeline.IndexAliases | src/hdx/scraper/worldpop/pipeline.py:48-63 | the index after each alias's listing in turn; the index stays valid |
| ScraperPipeline.IndexAliasesLookup | src/hdx/scraper/worldpop/pipeline.py:48-63 | over the whole configuration, a country holds under an alias the URL of that alias's first entry for the code, or nothing |
| ScraperPipeline.IndexAliasesKeys | src/hdx/scraper/worldpop/pipeline.py:48-63 | the countries are exactly the index codes of the listings |
| ScraperPipeline.NoKosovoKey | src/hdx/scraper/worldpop/pipeline.py:53-54 | "KOS" never becomes a country key |
| ScraperPipeline.PyIndex | src/hdx/scraper/worldpop/pipeline.py:93 | Python list indexing: a valid position iff `-n <= i < n`, negative from the end; an index error otherwise |
| ScraperPipeline.TemplateIndex | src/hdx/scraper/worldpop/pipeline.py:89-95 | the template is the last record when the year is past the series |
| ScraperPipeline.TemplateYear | src/hdx/scraper/worldpop/pipeline.py:89-95 | for consecutive years: the configured year's record when present; the last record when the year is later; a wrapped negative index or an index error when earlier |
| ScraperPipeline.Annotate | src/hdx/scraper/worldpop/pipeline.py:103-105 | the template gets the first and last population years and the alias, and nothing else changes |
| ScraperPipeline.TemplateOf | src/hdx/scraper/worldpop/pipeline.py:86-95 | a selected template is a position of the served series |
| ScraperPipeline.AliasOutcomeContributes | src/hdx/scraper/worldpop/pipeline.py:86-122 | an alias raises exactly when its template cannot be found; otherwise it contributes exactly when the template record is public, the builder makes a dataset from the annotated template, and that dataset has resources after every record's are added; it contributes that dataset with the builder's showcase |
| ScraperPipeline.AssembleFromShape | src/hdx/scraper/worldpop/pipeline.py:85-122 | the alias loop keeps datasets and showcases parallel, adds only datasets with resources, and adds at most one per alias |
| ScraperPipeline.AssembleShape | src/hdx/scraper/worldpop/pipeline.py:79-123 | the same for a whole country; an unrecognised country gives empty lists |
| ScraperPipeline.AssembleFromContents | src/hdx/scraper/worldpop/pipeline.py:85-122 | the alias loop appends, in index order, the dataset and the showcase of every contributing alias, so the dataset and the showcase at each position come from the same alias |
| ScraperPipeline.AssembleContents | src/hdx/scraper/worldpop/pipeline.py:79-123 | for a named country of the index, the result is exactly the contributing aliases' datasets and, position by position, their showcases |
| ScraperPipeline.PrivateTemplateSkipped | src/hdx/scraper/worldpop/pipeline.py:100-102 | an alias whose template record is not public contributes nothing |
| ScraperPipeline.Pipeline.constructor | src/hdx/scraper/worldpop/pipeline.py:21-28 | the configuration is kept; metadata and index start empty |
| ScraperPipeline.Pipeline.GetIndicatorsMetadata | src/hdx/scraper/worldpop/pipeline.py:31-39 | the catalogue loop updates the stored metadata with each configured alias's last entry |
| ScraperPipeline.Pipeline.GetCountriesData | src/hdx/scraper/worldpop/pipeline.py:41-66 | succeeds iff every alias's listing is served; the index becomes that of all aliases, and the codes are returned ascending |
| ScraperPipeline.Pipeline.SelectTemplate | src/hdx/scraper/worldpop/pipeline.py:86-98 | computes the template position or the error raised |
| ScraperPipeline.Pipeline.BuildDataset | src/hdx/scraper/worldpop/pipeline.py:106-117 | builds around the template and adds each record's resources |
| ScraperPipeline.Pipeline.GenerateForAlias | src/hdx/scraper/worldpop/pipeline.py:86-122 | the body of the alias loop computes one alias's outcome |
| ScraperPipeline.Pipeline.GenerateDatasetsAndShowcases | src/hdx/scraper/worldpop/pipeline.py:79-123 | the whole method computes the specification's outputs |

## Definitions

These specification functions carry no contract of their own: they define
what the code computes. The members named after each one state and prove
its properties, and the "## Model" table lists those.

- `Records.IsPublic` (worldpop.py:166): whether `metadata["public"].lower() == "y"`; stated by `Records.PublicFlag`.
- `Records.AddUpdateResource`, `Records.AddUpdateAll` (worldpop.py:200-202): `add_update_resource` as an upsert by name; stated by `Records.AddUpdateResourceFacts` and the `Records.AddUpdateAll` lemmas.
- `Catalog.SelectIndicators` (worldpop.py:36-42): each configured alias's last catalogue entry; stated by `Catalog.SelectedEntry` and `Catalog.SelectedUnderOwnAlias`.
- `WorldPopIndex.CountryList` (worldpop.py:79-80): the sorted codes without "World", then "World"; stated by `WorldPopIndex.CountryListOrder`.
- `WorldPopDataset.NextEarliest` (worldpop.py:170-173): the earliest date after a record, moved only to a trusted, earlier date; stated by `DatasetFacts.StepFacts`.
- `WorldPopDataset.DatasetSlug` (worldpop.py:125): the slugified, lower-cased `WorldPop <indicator title> for <country>`; stated by `WorldPopDataset.ShowcaseName` and `DatasetFacts.ShowcaseNameInjective`.
- `WorldPopDataset.YearOrdered` (worldpop.py:200-202): the resources newest year first; stated by `DatasetFacts.YearOrderedMembers` and `DatasetFacts.OrderedNames`.
- `WorldPopDataset.ShowcasesFrom` (worldpop.py:206-227): the showcase loop; stated by `DatasetFacts.ShowcasesFromImaged` and `DatasetFacts.ShowcasesFromFacts`.
- `WorldPopDataset.BuildDataset` (worldpop.py:133-204): the dataset after the scan; stated by `DatasetFacts.BuildDatasetFacts`.
- `WorldPopDataset.Finish` (worldpop.py:160-228): the scan, the showcases and the dataset; stated by `DatasetFacts.FinishOutcome` and `DatasetFacts.FinishFacts`.
- `WorldPopDataset.FromMetadata`, `WorldPopDataset.Generate` (worldpop.py:84-228): `generate_dataset_and_showcases`; stated by `DatasetFacts.FromMetadataNone` and `DatasetFacts.FromMetadataFacts`.
- `WorldPopDataset.AliasOutcome`, `WorldPopDataset.AssembleFrom` (worldpop.py:231-246): the alias loop; stated by `DatasetFacts.AssembleFromOutcomes`, `DatasetFacts.AssembleFromFiled` and `DatasetFacts.AssembleFromFacts`.
- `Aliasdata.MakeDataset`, `Aliasdata.DeriveDataset` (src/hdx/scraper/worldpop/aliasdata.py:68-122): `generate_dataset`; stated by `AliasdataFacts.DerivedNaming` and `AliasdataFacts.ReadRecordOutcome`.
- `ScraperPipeline.BuildFrom`, `ScraperPipeline.AliasOutcome`, `ScraperPipeline.AssembleFrom`, `ScraperPipeline.Assemble` (src/hdx/scraper/worldpop/pipeline.py:79-123): the alias loop; stated by `ScraperPipeline.AliasOutcomeContributes`, `ScraperPipeline.PrivateTemplateSkipped`, `ScraperPipeline.AssembleFromContents`, `ScraperPipeline.AssembleContents`, `ScraperPipeline.AssembleFromShape` and `ScraperPipeline.AssembleShape`.
- `ScraperPipeline.Contributions`, `ScraperPipeline.Made`, `ScraperPipeline.Firsts`, `ScraperPipeline.Seconds`: the contributing aliases' (dataset, showcase) pairs in index order, and their two halves.

## Left out

- Downloads, logging and the HDX client objects are not modelled. Downloads are input maps; a missing URL is a download error.
- The licence text (`download_text`) is an input map from URL to text; an unserved licence URL is a download error.
- `slugify`, `markdownify`, `get_filename_extension_from_url`, the country-name table and `add_other_location` are library code. They are function parameters with no properties assumed.
- `parse_date` is not a parameter: each record's date arrives already parsed, as a `DateField` of the record that is either a date or unparseable.
- `add_update_resource` is modelled as an upsert by resource name: replace in place, else append. The library's implementation is not part of this model.
- Dates are a (year, position) pair, not calendar datetimes.
- WorldPopDataset.AddResourcesByYear: within one year, resources keep record order, and each record's files run descending. There is no global URL order.
- ScraperPipeline.Pipeline.BuildDataset: `generate_dataset_and_showcase` and `add_resource_to` are not defined in the `AliasData` shown (its constructor takes four arguments, not five). The per-alias builder is therefore a parameter, and only its outcome's shape is proved.
- ScraperPipeline.Pipeline.GetCountriesData: each alias has one listing; the country list is the sorted codes without the `{"iso3": ...}` wrapping.
- Text.Lower: lower-cases the ASCII letters only. Python's `str.lower` also maps other letters and can change the length (for example 'İ'); the texts lower-cased here (the public flag, licence URLs, indicator names, filenames) are taken to be ASCII.
- Text.ParseInt: accepts optional white space, a sign and ASCII digits. Python's `int` also accepts other Unicode digits and `_` between digits; those inputs parse to a value error here.
- Aliasdata.FirstDistance: `\d` matches the ASCII digits '0' to '9' only. Python's `re` also matches other Unicode decimal digits there.
- DatasetFacts.ScanGroupsFacts: the year range includes the sentinels 10000 and 0 exactly as the code does. With no public record the range is (10000, 0), but then the dataset has no resources and is never built.
- Where the tests expect behaviour the code lacks (for example extra notes text), the model follows the code.
