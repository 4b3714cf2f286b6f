# CropGuard pest-record store and dashboard aggregates

This project is a Dafny model of the data core of CropGuard's dashboard script, `script.js`. That core has four parts:

- **The record store.** A list `pestData` of flat observations `{id, date, species, count, location}`, kept newest first.
  - It is loaded from storage, or from a five-record seed list when nothing is saved.
  - It is saved back after every change.
  - A manual entry and a simulated detection both put a new record at the front (`unshift`).
  - A confirmed delete filters out records by id.
- **The dashboard aggregates.** These are computed from the list:
  - total pests;
  - the high-risk alert count;
  - the density string;
  - the recent-activity window;
  - per-species totals in first-seen order;
  - the top species;
  - the number of detections.
- **The per-species `forEach` loop.** It fills an object of species totals. It is modelled as a method with loop invariants, proved against the specification functions.
- **The session flag.** Login stores `isLoggedIn` only for `admin` / `admin123`. Logout removes it.

Modules, one per concern:

- `PestRecords` (records.dfy): the record, the seed list, and the two record builders.
- `Aggregates` (aggregates.dfy): the dashboard figures.
- `SpeciesStats` (species.dfy): species totals, the top species, and the loop.
- `RecordStore` (store.dfy): the delete filter and the class `PestStore`. The class holds the live list, the saved copy (`Option<seq<Record>>`) and the login flag.
- `Seqs`, `Decimal` and `Wrappers`: JavaScript's `filter`/`reverse`, number-to-string, and `Option`.

Host facilities are method parameters:

- `Date.now()` is the id.
- The ISO timestamp is what the date is cut from.
- Each `Math.random()` draw is an index with its stated range.

The model follows the code as written:

- A delete removes every record with the id.
- A tie for top species goes to the later entry, because `a[1] > b[1] ? a : b` keeps `b` on equality.
- Density is "0%" whenever the total is at most zero.
- The session is a single stored flag.

## Model

| member | source | states |
|---|---|---|
| `PestRecords.DatePart` | script.js:138 | the date is the prefix of the ISO timestamp before its first 'T' (all of it when there is none); the prefix has no 'T' and is followed by 'T' when shorter |
| `PestRecords.NewRecord` | script.js:134-142 | a manual record keeps the clock id, species and count; its date is the part of the ISO timestamp before the first 'T'; its location is the given one, or exactly "Field A" when that is empty |
| `PestRecords.SimulatedLocation` | script.js:174 | the location is "Field X, Zone k", where X is the character with code 65 + field draw and k is the digit zone draw + 1 |
| `PestRecords.SimulatedRecord` | script.js:164-175 | a simulated record has the clock id and today's date, a species from the five-name list, a count in 5..34, and a location "Field A..C, Zone 1..4" |
| `PestRecords.SimulationReaches` | script.js:165-174 | every listed species, every count 5..34 and every "Field X, Zone k" is produced by some in-range draws |
| `Decimal.NatToString` | script.js:78 | the rendering of a number is a non-empty string of digits with no leading zero |
| `Decimal.ParseNatToString` | script.js:78 | reading a rendered number back gives the number |
| `Seqs.Filter` | script.js:156 | `filter` keeps only accepted elements of the input and never lengthens it |
| `Seqs.FilterComplete` | script.js:156 | `filter` drops no accepted element |
| `Seqs.FilterConcat` | script.js:156 | `filter` of a concatenation is the concatenation of the filters, so kept elements keep their order |
| `Seqs.FilterKeepsAll` | script.js:156 | a list the test accepts throughout is unchanged by `filter` |
| `Seqs.FilterIdempotent` | script.js:156 | filtering twice equals filtering once |
| `Seqs.Reverse` | script.js:92 | `reverse` keeps the length and puts element \|s\|-1-i at position i |
| `Aggregates.TotalPests` | script.js:76 | the total of the empty list is 0, and with non-negative counts the total is non-negative |
| `Aggregates.TotalConcat` | script.js:76 | the total of a concatenation is the sum of the totals |
| `Aggregates.TotalPrepend` | script.js:76 | a record added at the front raises the total by its count |
| `Aggregates.HighRisk` | script.js:77 | the high-risk count never exceeds the number of records |
| `Aggregates.HighRiskPrepend` | script.js:77 | a record added at the front raises the high-risk count by 1 exactly when its count is above 20, so the count never falls as records are added |
| `Aggregates.HighRiskCountsExactly` | script.js:77 | a record is counted as high-risk if and only if its count is above 20 |
| `Aggregates.AvgDensity` | script.js:78 | density is "0%" for a total of at most 0; otherwise it ends in '.', one character and '%', and its integer part has no leading zero |
| `Aggregates.AvgDensityMeaning` | script.js:78 | density is "0%" for a total of at most 0; otherwise it is digits with no leading zero, '.', one digit and '%', and those digits read as a one-decimal number are exactly total / 10 |
| `Aggregates.DensityOfHundred` | script.js:78 | a total of 100 shows as "10.0%" |
| `Aggregates.Recent` | script.js:92 | the recent window has min(5, n) records, and position j holds record min(5, n)-1-j |
| `Aggregates.RecentOfSeven` | script.js:92 | on seven records the window is positions 4, 3, 2, 1, 0 |
| `Aggregates.SeedFigures` | script.js:8-14 | the seed list totals 98 pests, has 2 high-risk entries and shows density "9.8%" |
| `SpeciesStats.SpeciesOrder` | script.js:195-198 | the key list is no longer than the record list and is non-empty for a non-empty list |
| `SpeciesStats.SpeciesOrderMembers` | script.js:196-198 | a species is a key exactly when some record has it |
| `SpeciesStats.SpeciesSum` | script.js:197 | with non-negative counts a species total lies between 0 and the total pest count |
| `SpeciesStats.SpeciesSumAbsent` | script.js:197 | a species no record has totals 0 |
| `SpeciesStats.SpeciesOrderDistinct` | script.js:196-198 | no species is a key twice |
| `SpeciesStats.SpeciesOrderFirstSeen` | script.js:203 | keys come in first-seen order: before any record of a later key, a record of every earlier key has appeared |
| `SpeciesStats.EntriesFor` | script.js:256 | entry j is the pair (key j, that key's summed count) |
| `SpeciesStats.SpeciesTotals` | script.js:256 | `Object.entries` has one entry per first-seen species, in that order, each paired with its summed count; it is non-empty for a non-empty list |
| `SpeciesStats.SpeciesTotalsSum` | script.js:251-254 | the species totals add up to the total pest count |
| `SpeciesStats.Pick` | script.js:256 | the reduce step returns one of its two entries, with a total at least both; it returns the second exactly when the second's total is at least the first's |
| `SpeciesStats.ReduceTop` | script.js:256 | the reduce returns one of the entries |
| `SpeciesStats.ReduceTopIsLastMaximum` | script.js:256 | the reduce returns an entry of maximal total, and every later entry has a strictly smaller total, so ties go to the later entry |
| `SpeciesStats.TopPest` | script.js:256 | there is no top pest exactly for the empty list (where the reduce throws); otherwise it is a species of the list |
| `SpeciesStats.TopPestIsLastMaximum` | script.js:250-256 | on a non-empty list the top pest has a maximal species total, and every species first seen after it has a strictly smaller one |
| `SpeciesStats.CountBySpecies` | script.js:195-198 | the `forEach` loop gives the first-seen species order as its keys, and the summed count of each species as that key's value |
| `RecordStore.RemoveId` | script.js:156 | no record with the id survives a delete; survivors come from the old list |
| `RecordStore.RemoveIdKeepsOthers` | script.js:156 | every record with another id survives |
| `RecordStore.RemoveIdConcat` | script.js:156 | delete works piecewise, so survivors keep their relative order |
| `RecordStore.RemoveIdAbsent` | script.js:156 | deleting an absent id leaves the list unchanged |
| `RecordStore.RemoveIdIdempotent` | script.js:156 | deleting twice equals deleting once |
| `RecordStore.PestStore.constructor` | script.js:2 | a page starts with an empty live list over the given storage: the saved list and the "isLoggedIn" flag that login and logout write |
| `RecordStore.PestStore.LoadData` | script.js:64-67 | the live list becomes the saved list, or the seed list when nothing is saved |
| `RecordStore.PestStore.SaveData` | script.js:70-72 | storage then holds the live list |
| `RecordStore.PestStore.AddPestData` | script.js:130-145 | the new record has the clock id, today's date and the given location ("Field A" when empty); it goes first, the old records follow in order, the length grows by one, and the list is saved |
| `RecordStore.PestStore.SimulateDetection` | script.js:164-178 | the simulated record (in-range species, count and location) goes first, the old records follow, and the list is saved |
| `RecordStore.PestStore.DeletePest` | script.js:154-161 | the live list becomes the filtered list, with no record of the id left, and it is saved |
| `RecordStore.PestStore.HandleLogin` | script.js:44-55 | login succeeds exactly for admin / admin123; success sets the flag, and failure changes nothing |
| `RecordStore.PestStore.Logout` | script.js:58-61 | the flag is cleared |
| `RecordStore.PestStore.UpdateDashboard` | script.js:75-92 | the displayed density is "0%" for a total of at most 0, and otherwise reads back as total / 10 with one decimal and no leading zero; the recent window holds the newest min(5, n) records, oldest first |
| `RecordStore.PestStore.InitCharts` | script.js:194-205 | the doughnut labels are the first-seen species, and each value is that species' summed count |
| `RecordStore.PestStore.UpdateAnalysisStats` | script.js:250-261 | nothing is computed exactly for the empty list, where the reduce throws; otherwise the top pest is a species of the list chosen as `TopPest` chooses, and the detection count is the list length |
| `RecordStore.ReloadAfterAdd` | script.js:144-145 | after an add and a page reload, the loaded list starts with the new record, followed by the previous list |

## Left out

- DOM rendering is not modelled: the data table, the activity markup, the `textContent` writes, showing and hiding the form, and the injected style. It is presentation only.
- Chart.js construction and the last-7-days trend are not modelled. The trend depends on `Date` parsing, time zones, `toLocaleDateString` and a lexical sort of locale strings. Only the doughnut chart's species series is modelled.
- `localStorage` and JSON are not modelled as real I/O. Storage is an optional list, and the flag is a boolean. A malformed saved blob, which makes `JSON.parse` throw, is not modelled.
- Clock, date and random numbers come in as parameters: `Date.now()`, `new Date().toISOString()` and `Math.random()`. Each random draw is an index in the range `Math.floor(Math.random() * n)` yields.
- `confirm` and `alert` dialogs, form resets and page navigation through `window.location` are not modelled. A delete is modelled as already confirmed.
- Device toggles, spray, camera, support and FAQ handlers (script.js:264-317) are not modelled. They are alerts and DOM changes around boolean assignments. Neither are the globals `isLoggedIn`, `detectionActive` and `irrigationActive` (script.js:3-5), which nothing in the modelled code reads.
- The script keeps no user accounts: login compares against the fixed admin / admin123 pair.
- RecordStore.PestStore.AddPestData: `parseInt` can yield `NaN`, but the count is an `int` here, so the NaN case is not modelled.
- RecordStore.PestStore.LoadData: when nothing is saved, the source makes `pestData` the seed array object itself, so a later `unshift` also changes the seed constant. The value model does not capture this aliasing.
- Aggregates.AvgDensity: the density is exact integer arithmetic. No floating-point rounding is modelled, and neither is exponent notation in `toFixed`, which starts at 10^21. Counts are unbounded integers, not doubles.
- SpeciesStats.CountBySpecies: species named after `Object.prototype` properties are not modelled, and the same holds for `InitCharts` and `UpdateAnalysisStats`. For "constructor", `speciesCount[sp] || 0` reads the inherited function, so the stored total becomes a string. For "__proto__", assigning a number is ignored and the key never appears. The model gives every species its numeric sum.
- SpeciesStats.CountBySpecies: a JavaScript object lists integer-like keys (such as "12") before other keys. The model keeps every key in insertion order, so a species name that is an array index is not modelled.
- SpeciesStats.TopPest: on an empty list the source's `reduce` throws a TypeError. The model returns `None` instead of modelling the exception.
- RecordStore.PestStore.UpdateAnalysisStats: the TypeError on an empty list is modelled as a `None` result with no figures. The exception's propagation out of `initCharts` is not modelled.
