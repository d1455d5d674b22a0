# EU Valley core in Dafny

EU Valley is a browser application that shows European companies on a map with a searchable
side list, and lets an administrator add, edit, hide and remove entries. This project models
the logic of that application and proves properties of the model:

- **Fuzzy search** (`fuzzy_search.dfy`, module `FuzzySearch`):
  - text normalisation (lower-case, drop `. ' & -`, collapse whitespace, trim);
  - Levenshtein distance, as the dynamic-programming table of the source filled in by
    nested loops over an `array2`, proved equal to a recursive definition of edit distance;
  - `fuzzyMatch`, the word-by-word tolerant match;
  - `fuzzyScore`, the 100/90/80/fuzzy ranking.
- **Company records** (`company.dfy`, module `Companies`): the stored company record and
  the object-spread merge `{ ...record, ...updates }` of a partial update.
- **Company store** (`company_storage.dfy`, module `CompanyStorage`): the `useCompanyStorage`
  hook as a class `CompanyStore`.
  - Its fields are the hook's state: the list of companies, the set of hidden ids and the
    loaded flag. A fourth field holds `localStorage`, as a map from key to stored document.
  - Its methods are the loading effect, `saveCompanies`, `saveHiddenIds`, `addCompany`,
    `removeCompany`, `updateCompany` and `toggleVisibility`.
  - `isVisible` and the visible list are functions of that state.
  - Each method is specified against a pure function of the old state. The lemmas about
    those functions state what the hook promises.
- **Index page** (`company_filter.dfy`, module `CompanyFilter`):
  - the `filteredCompanies` search and scope filter;
  - the `viewCenter` and `viewZoom` choice of the map's camera.
- **Flags** (`country_flags.dfy`, module `CountryFlags`): `countryCodeToFlag`, which turns a
  two-letter code into two Unicode Regional Indicator Symbols.
- **Mobile sheet** (`mobile_sidebar.dfy`, module `MobileSidebar`): the drag-to-open bottom
  sheet, as a class `SheetComponent` whose four state fields the touch handlers update.
  Each handler is specified against a step function on the state.
- **Helpers**:
  - `text.dfy` holds the string primitives the source takes from JavaScript: ASCII
    `toLowerCase`, the `\s` class, `startsWith`, `includes`.
  - `lists.dfy` holds `filter` and `join`, with the facts about them the rest relies on.
  - `wrappers.dfy` holds `Option` and `Result`.

The clock is a parameter wherever the source reads it. That is `clockMs` for `Date.now()`
and `now` for `new Date().toISOString()`. Every `localStorage.setItem` may throw, and a
`writeOk` flag says whether it succeeded.

Behaviour of the code worth knowing:

- There is no remote synchronisation: the hook keeps `localStorage` only.
- `removeCompany` does not take the id out of the hidden set.
- `lastEditDetails` lists the keys of the update object, not the fields whose value changed.
- The duplicate-name check runs only when a company is added.
- An update may overwrite a record's `id`.
- Ids need not be unique: the slugs of different names can coincide.
- No operation waits for the loading effect.
- The add operation does not check for an empty name.
- The page's search is a case-insensitive substring test, not `fuzzyMatch`. It looks at
  name, category, city and country, and not at the description.
- `saveCompanies` and `saveHiddenIds`, and the add, remove, update and toggle operations
  built on them, change in-memory state only when the storage write succeeds.
- The loading effect shows the unstamped defaults even when its migration write fails,
  and shows a stored list without writing anything.
- The page filters the static company list of the data module, never the store. Companies
  added, hidden, removed or edited through the store do not reach the page's list or map,
  so the store's visible list is not the input of the page's filter.

## Model

| member | source | states |
|---|---|---|
| FuzzySearch.Normalize | src/lib/fuzzySearch.ts:27-33 | `normalizeText`: lower-case, delete `. ' & -`, collapse whitespace runs, trim; the result is never longer than the input |
| FuzzySearch.NormalizeKeepsWords | src/lib/fuzzySearch.ts:27-33 | normalisation keeps, in order, every character of the lower-cased text that is neither whitespace nor `. ' & -`; only spacing and those four characters are lost |
| FuzzySearch.NormalizeIsNormal | src/lib/fuzzySearch.ts:27-33 | normalised text has no upper-case letter, none of `. ' & -`, only plain spaces as whitespace, no two adjacent spaces and no space at either end |
| FuzzySearch.NormalizeFixesNormal | src/lib/fuzzySearch.ts:27-33 | a string already in normal form is left unchanged by normalisation |
| FuzzySearch.NormalizeIdempotent | src/lib/fuzzySearch.ts:27-33 | normalising twice is normalising once |
| FuzzySearch.StripPunctuationChars | src/lib/fuzzySearch.ts:30 | removing punctuation is the order-preserving filter of the characters other than `. ' & -` |
| FuzzySearch.CollapseSpacesShape | src/lib/fuzzySearch.ts:31 | collapsing keeps every non-whitespace character of the input, in order; all whitespace left is plain spaces, no two adjacent, with a leading space exactly when the input starts with whitespace |
| FuzzySearch.CollapseLeadingRun | src/lib/fuzzySearch.ts:31 | a whole run of whitespace, followed by text that does not start with whitespace, becomes exactly one space |
| FuzzySearch.CollapseAppend | src/lib/fuzzySearch.ts:31 | text ending in a non-whitespace character collapses on its own, so the result is built run by run |
| FuzzySearch.TrimShape | src/lib/fuzzySearch.ts:32 | trimming cuts only whitespace, from both ends, and leaves a slice of the input with no whitespace at either end |
| FuzzySearch.TrimKeepsNonSpace | src/lib/fuzzySearch.ts:32 | trimming keeps every non-whitespace character, in order |
| FuzzySearch.FillRow | src/lib/fuzzySearch.ts:51-60 | filling one row of the table from the row above makes every cell of that row the edit distance of the matching prefixes, leaving the first column of later rows untouched |
| FuzzySearch.LevenshteinDistance | src/lib/fuzzySearch.ts:36-65 | the table filled row by row returns the edit distance of the two strings, including the early returns for an empty string |
| FuzzySearch.DistanceCell | src/lib/fuzzySearch.ts:52-59 | each table cell obeys the recurrence of the loop body: the diagonal on equal characters, otherwise one more than the least of its three neighbours |
| FuzzySearch.DistanceToEmpty | src/lib/fuzzySearch.ts:37-38 | the distance to the empty string is the other string's length, in either order |
| FuzzySearch.DistanceToSelf | src/lib/fuzzySearch.ts:42-64 | a string is at distance 0 from itself |
| FuzzySearch.DistanceZeroIsEqual | src/lib/fuzzySearch.ts:42-64 | distance 0 means the strings are equal |
| FuzzySearch.DistanceBounds | src/lib/fuzzySearch.ts:42-64 | the distance lies between the difference of the lengths and the larger length |
| FuzzySearch.DistanceSymmetric | src/lib/fuzzySearch.ts:36-65 | swapping the arguments does not change the distance |
| FuzzySearch.DistanceBetweenRuns | src/lib/fuzzySearch.ts:36-65 | two runs of one character are as far apart as their lengths differ |
| FuzzySearch.DistanceCommonSuffix | src/lib/fuzzySearch.ts:52-53 | a common suffix does not change the distance |
| FuzzySearch.WordsJoinBack | src/lib/fuzzySearch.ts:13-14 | splitting a normalised string on whitespace and joining with single spaces gives it back, so no text is lost by the split |
| FuzzySearch.FuzzyMatch | src/lib/fuzzySearch.ts:3-24 | `fuzzyMatch`: an occurrence of the normalised query in the normalised text, or every query word close to some text word; its properties are the lemmas below |
| FuzzySearch.OccurrenceMatches | src/lib/fuzzySearch.ts:8-10 | the normalised query occurring in the normalised text is a match |
| FuzzySearch.BlankQueryNormalizesToEmpty | src/lib/fuzzySearch.ts:27-33 | a query of only punctuation and whitespace normalises to the empty string |
| FuzzySearch.BlankQueryMatchesEverything | src/lib/fuzzySearch.ts:3-10 | an empty or all-punctuation query matches every text |
| FuzzySearch.FuzzyMatchSeesNormalForms | src/lib/fuzzySearch.ts:3-5 | the match depends only on the normal forms of text and query |
| FuzzySearch.FuzzyMatchReflexive | src/lib/fuzzySearch.ts:3-10 | every text matches itself |
| FuzzySearch.FuzzyMismatchWitness | src/lib/fuzzySearch.ts:12-23 | a failed match has no occurrence, and has a query word that no text word contains, is contained in, or is within its tolerance of |
| FuzzySearch.DeutscheBankExample | src/lib/fuzzySearch.ts:3-24 | "Deutsche Bank" matches "duetsche" (distance 2 within tolerance 2) |
| FuzzySearch.SpotifyExample | src/lib/fuzzySearch.ts:3-24 | "Spotify" does not match "xyz" |
| FuzzySearch.FuzzyScore | src/lib/fuzzySearch.ts:68-94 | the score is at most 100, and is 100 exactly when text and query have the same normal form |
| FuzzySearch.ScoreTiers | src/lib/fuzzySearch.ts:68-94 | the score is 100 exactly for equal normal forms, 90 exactly for a proper prefix, 80 exactly for a non-prefix occurrence, at least 80 exactly when the query occurs; otherwise 0 or `70 - 10d` with `1 <= d <=` the tolerance, so below 80 |
| FuzzySearch.ZeroDistanceMeansPrefix | src/lib/fuzzySearch.ts:87-90 | in the fuzzy branch, distance 0 would make the query a prefix, so that branch never sees 0 |
| FuzzySearch.ScoreOfRuns | src/lib/fuzzySearch.ts:88-91 | a run of one letter scored against a longer run within tolerance takes the fuzzy tier, 70 minus ten times the length difference |
| FuzzySearch.ScoreCanBeNegative | src/lib/fuzzySearch.ts:87-91 | a long query can score −10, so the score has no lower bound of 0 |
| FuzzySearch.ScoreExactExample | src/lib/fuzzySearch.ts:72-75 | `fuzzyScore("Acme", "Acme")` is 100 |
| FuzzySearch.ScorePrefixExample | src/lib/fuzzySearch.ts:77-80 | `fuzzyScore("Acme Corp", "acme")` is 90 |
| FuzzySearch.ScoreInnerExample | src/lib/fuzzySearch.ts:82-85 | `fuzzyScore("Global Acme", "acme")` is 80 |
| Companies.ApplyPatchEffect | src/hooks/useCompanyStorage.ts:103-105 | the spread merge carries every property of the update and keeps every field the update does not name |
| Companies.ApplyPatchIdempotent | src/hooks/useCompanyStorage.ts:103-105 | merging the same update object twice gives the record merging it once gives |
| Companies.ApplyUpdateEffect | src/hooks/useCompanyStorage.ts:103-105 | one property of the update sets its own field and no other |
| CompanyStorage.CompanyStore.constructor | src/hooks/useCompanyStorage.ts:15-17 | before loading: no companies, no hidden ids, not loaded |
| CompanyStorage.CompanyStore.Load | src/hooks/useCompanyStorage.ts:20-48 | the loading effect sets the list, the hidden ids and storage as `LoadFrom` says, and is loaded afterwards on every path |
| CompanyStorage.LoadUsesStoredList | src/hooks/useCompanyStorage.ts:25-26 | a stored list is shown as it is and nothing is written |
| CompanyStorage.FirstLoadMigrates | src/hooks/useCompanyStorage.ts:27-37 | with no stored list, the defaults stamped with `createdAt = updatedAt = now` and no alternatives are written and shown, the other fields unchanged |
| CompanyStorage.LoadFallsBack | src/hooks/useCompanyStorage.ts:43-46 | an unreadable list, a failed write or unreadable hidden ids leave the unstamped defaults shown and the hidden ids unchanged |
| CompanyStorage.ReloadShowsSameList | src/hooks/useCompanyStorage.ts:20-48 | a second load after a successful one shows the same list, whatever the clock and the write outcome |
| CompanyStorage.SavedListReloads | src/hooks/useCompanyStorage.ts:51-58 | the list `saveCompanies` writes is the list the next load shows |
| CompanyStorage.SavedHiddenReloads | src/hooks/useCompanyStorage.ts:61-68 | the ids `saveHiddenIds` writes are the ids the next load reads |
| CompanyStorage.CompanyStore.SaveCompanies | src/hooks/useCompanyStorage.ts:51-58 | storage and the list change together when the write succeeds; a failed write changes neither |
| CompanyStorage.CompanyStore.SaveHiddenIds | src/hooks/useCompanyStorage.ts:61-68 | storage and the hidden set change together when the write succeeds; a failed write changes neither |
| CompanyStorage.CompanyStore.AddCompany | src/hooks/useCompanyStorage.ts:71-91 | a name already present in any letter case is refused with the source's message and nothing changes; otherwise the new record is returned and, if the write succeeds, appended at the end |
| CompanyStorage.NewRecordFields | src/hooks/useCompanyStorage.ts:72-81 | the new record has id `slug + "-" + time`, `createdAt == updatedAt == now`, the given alternatives or `[]`, and every other field as given |
| CompanyStorage.SlugShape | src/hooks/useCompanyStorage.ts:72 | the slug has the name's length; `A`–`Z` become `a`–`z`, `a`–`z` and `0`–`9` are kept, and every other character becomes `-` |
| CompanyStorage.DecimalRoundTrip | src/hooks/useCompanyStorage.ts:72 | the decimal digits of the time read back as the time |
| CompanyStorage.SameNameIdsDifferInTime | src/hooks/useCompanyStorage.ts:72 | two ids of one name are equal only if they were made in the same millisecond |
| CompanyStorage.DifferentNamesCanShareId | src/hooks/useCompanyStorage.ts:72 | "A&B" and "a b" added in the same millisecond get the same id |
| CompanyStorage.NameTakenIgnoresCase | src/hooks/useCompanyStorage.ts:84 | the duplicate check compares lower-cased names |
| CompanyStorage.AddedNameIsTaken | src/hooks/useCompanyStorage.ts:84-90 | after an add, a second add of the same name in any letter case is refused |
| CompanyStorage.CompanyStore.RemoveCompany | src/hooks/useCompanyStorage.ts:94-97 | on a successful write the list becomes the list without the id; the hidden set is outside its frame |
| CompanyStorage.RemoveIdEffect | src/hooks/useCompanyStorage.ts:95 | removal keeps, in order, exactly the records with another id, so every record sharing the id goes; an unknown id changes nothing |
| CompanyStorage.RemoveCommutesWithVisible | src/hooks/useCompanyStorage.ts:95-128 | removing an id and hiding ids commute on the visible list |
| CompanyStorage.CompanyStore.UpdateCompany | src/hooks/useCompanyStorage.ts:100-111 | on a successful write every record with the id is replaced by its merged and stamped form, all others kept |
| CompanyStorage.UpdatedRecordEffect | src/hooks/useCompanyStorage.ts:103-108 | the edited record carries the update's values, keeps the fields it does not name, and has `updatedAt = now` and the edit note |
| CompanyStorage.EditNoteExample | src/hooks/useCompanyStorage.ts:107 | examples of the edit note: with no note and with an empty note, an update of `name` and `city` is noted as `"Updated: name, city"`; a given non-empty note is kept as it is |
| CompanyStorage.UpdateIdEffect | src/hooks/useCompanyStorage.ts:102-109 | the update keeps length and order, leaves records with other ids equal, stamps the matching ones, and changes nothing for an unknown id |
| CompanyStorage.UpdateCanChangeId | src/hooks/useCompanyStorage.ts:103-105 | an update that names `id` renames the record |
| CompanyStorage.CompanyStore.ToggleVisibility | src/hooks/useCompanyStorage.ts:114-122 | on a successful write the id's visibility flips and the new set is stored |
| CompanyStorage.ToggleFlips | src/hooks/useCompanyStorage.ts:115-120 | toggling flips the membership of that id and of no other |
| CompanyStorage.ToggleTwice | src/hooks/useCompanyStorage.ts:114-122 | toggling twice restores the hidden set |
| CompanyStorage.CompanyStore.IsVisible | src/hooks/useCompanyStorage.ts:125 | `isVisible`: an id is visible exactly when it is not in the hidden set; the visible list below is stated in its terms |
| CompanyStorage.CompanyStore.VisibleCompanies | src/hooks/useCompanyStorage.ts:125-128 | a company is visible exactly when it is in the list and `isVisible` holds for its id |
| CompanyStorage.VisibleSelects | src/hooks/useCompanyStorage.ts:128 | the visible list is the order-preserving sub-list of the records whose id is not hidden |
| CompanyFilter.FilteredCompanies | src/pages/Index.tsx:20-50 | `filteredCompanies`: the search stage followed by the scope stage; what it lists is stated by the lemmas below |
| CompanyFilter.FilteredIsOneFilter | src/pages/Index.tsx:20-50 | the search stage followed by the scope stage is a single filter by "passes the search and lies in the scope" |
| CompanyFilter.FilteredSelects | src/pages/Index.tsx:20-50 | the listed companies are the order-preserving sub-list of all companies that pass both stages |
| CompanyFilter.FilteredMembership | src/pages/Index.tsx:20-50 | a company is listed exactly when it is one of all companies and passes both stages |
| CompanyFilter.ListedMatchSearch | src/pages/Index.tsx:24-33 | with a search, every listed company has the lower-cased query in its lower-cased name, category, city or country |
| CompanyFilter.EmptySearchFiltersNothing | src/pages/Index.tsx:24 | an empty search box leaves only the scope filter |
| CompanyFilter.DescriptionNotSearched | src/pages/Index.tsx:26-32 | two lists that differ only in descriptions are filtered alike: the listings have the same length and differ position by position only in descriptions |
| CompanyFilter.CountryViewKeeps | src/pages/Index.tsx:36-37 | the country view lists a company exactly when it passes the search and has the selected code; the area filter plays no part |
| CompanyFilter.NoGeographicRestriction | src/pages/Index.tsx:38-47 | the world view, and the Europe view with all areas, list the search result as it is |
| CompanyFilter.AreaViewKeeps | src/pages/Index.tsx:40-46 | the Europe view with an area lists a company exactly when it passes the search and its code is in that area's list |
| CompanyFilter.FindCountry | src/pages/Index.tsx:54 | the entry found has the code; none is found exactly when no entry has it |
| CompanyFilter.FindCountryFirst | src/pages/Index.tsx:54 | the entry found is the first with the code |
| CompanyFilter.ViewCenter | src/pages/Index.tsx:52-60 | `viewCenter`: the camera centre for the view; stated by `ViewCenterChoice` |
| CompanyFilter.ViewZoom | src/pages/Index.tsx:62-69 | `viewZoom`: the camera zoom for the view; stated by `ZoomOrder` |
| CompanyFilter.ViewCenterChoice | src/pages/Index.tsx:52-60 | the country view centres on the first entry with the selected code, or on (4.9, 52.37) when there is none; Europe on (10, 50); the world on (0, 30) |
| CompanyFilter.ZoomOrder | src/pages/Index.tsx:62-69 | the zoom is 7, 4 and 2 for country, Europe and world, closer for the smaller area |
| CountryFlags.CountryCodeToFlag | src/lib/countryFlags.ts:5-15 | `countryCodeToFlag`; its shape, case-insensitivity and inverse are the lemmas below |
| CountryFlags.FlagShape | src/lib/countryFlags.ts:5-15 | the flag is empty exactly when the code is not two units long; otherwise it is two code points, each the upper-cased unit plus 127397 |
| CountryFlags.LettersBecomeIndicators | src/lib/countryFlags.ts:9-14 | letters of either case land in the Regional Indicator block U+1F1E6 to U+1F1FF |
| CountryFlags.FlagIgnoresCase | src/lib/countryFlags.ts:8 | lower-case and upper-case codes give the same flag |
| CountryFlags.FlagRoundTrip | src/lib/countryFlags.ts:8-14 | a flag made from an upper-case code reads back as that code, so different codes give different flags |
| CountryFlags.NetherlandsExample | src/lib/countryFlags.ts:5-15 | "NL" and "nl" both give U+1F1F3 U+1F1F1 |
| MobileSidebar.SheetComponent.constructor | src/components/map/MobileSidebar.tsx:12-15 | the sheet starts expanded, not dragging, with start and offset 0 |
| MobileSidebar.SheetComponent.HandleTouchStart | src/components/map/MobileSidebar.tsx:18-21 | the state becomes `TouchStart` of the old state, and the sheet stays without offset when at rest |
| MobileSidebar.TouchStart | src/components/map/MobileSidebar.tsx:18-21 | `handleTouchStart` as a step on the state; stated by `TouchStartEffect` |
| MobileSidebar.TouchStartEffect | src/components/map/MobileSidebar.tsx:18-21 | touching down starts a drag at the touch position and changes nothing else |
| MobileSidebar.SheetComponent.HandleTouchMove | src/components/map/MobileSidebar.tsx:23-35 | the state becomes `TouchMove` of the old state |
| MobileSidebar.TouchMove | src/components/map/MobileSidebar.tsx:23-35 | `handleTouchMove` as a step on the state; stated by `TouchMoveEffect` |
| MobileSidebar.TouchMoveEffect | src/components/map/MobileSidebar.tsx:23-35 | a move outside a drag changes nothing; in a drag only the offset changes, to `max(0, diff)` (never negative) when expanded and `min(0, diff)` (never positive) when collapsed |
| MobileSidebar.SheetComponent.HandleTouchEnd | src/components/map/MobileSidebar.tsx:37-47 | the state becomes `TouchEnd` of the old state |
| MobileSidebar.TouchEnd | src/components/map/MobileSidebar.tsx:37-47 | `handleTouchEnd` as a step on the state; stated by `TouchEndEffect` |
| MobileSidebar.TouchEndEffect | src/components/map/MobileSidebar.tsx:37-47 | lifting ends the drag and clears the offset; the sheet flips exactly when expanded with offset above 100 or collapsed with offset below −100 |
| MobileSidebar.GestureOutcome | src/components/map/MobileSidebar.tsx:18-47 | a whole touch-move-lift gesture from rest closes an expanded sheet exactly when the finger went more than 100 pixels down, opens a collapsed one exactly when it went more than 100 up, and leaves it at rest |
| MobileSidebar.TapChangesNothing | src/components/map/MobileSidebar.tsx:18-47 | under the touch handlers alone, touching and lifting without moving changes nothing but the recorded start |
| MobileSidebar.TapThenClickFlips | src/components/map/MobileSidebar.tsx:77-83 | a tap followed by the click on the same handle flips the sheet and leaves it at rest |
| MobileSidebar.StepsKeepAtRest | src/components/map/MobileSidebar.tsx:18-51 | every handler keeps the offset 0 whenever the sheet is not dragged |
| MobileSidebar.SheetComponent.ToggleExpand | src/components/map/MobileSidebar.tsx:49-51 | the state becomes `Toggle` of the old state |
| MobileSidebar.Toggle | src/components/map/MobileSidebar.tsx:49-51 | `toggleExpand` as a step on the state; stated by `ToggleTwice` |
| MobileSidebar.ToggleTwice | src/components/map/MobileSidebar.tsx:49-51 | toggling flips `isExpanded`, and twice restores the state |
| MobileSidebar.SheetComponent.TransformStyle | src/components/map/MobileSidebar.tsx:53-62 | the transform starts from the expanded position exactly when expanded, and its offset is the drag offset while dragging and 0 otherwise |
| MobileSidebar.TransformOf | src/components/map/MobileSidebar.tsx:53-62 | `getTransformStyle` as a function of the state; stated by `SheetComponent.TransformStyle` and `RestingTransform` |
| MobileSidebar.RestingTransform | src/components/map/MobileSidebar.tsx:53-62 | at rest two states have the same transform exactly when both are expanded or both collapsed |

## Left out

- Letter case: `toLowerCase` and `toUpperCase` are modelled on ASCII letters only. Other
  letters keep their case, and mappings that change a string's length are not modelled.
- SlugShape: states the slug of the ASCII lower-casing. JavaScript's `toLowerCase` maps
  some non-ASCII characters to ASCII letters (KELVIN SIGN U+212A becomes `k`), so the
  source keeps them in the slug where the model writes `-`. It also lengthens some
  characters (U+0130 becomes `i` and U+0307), so the source's slug can be longer than the
  name, which the model does not capture.
- Character units: strings of the fuzzy search, the store and the filter are sequences of
  Unicode code points, whereas JavaScript indexes UTF-16 code units (`charAt`, `length`,
  `slice`). This differs only for text outside the Basic Multilingual Plane. The flag
  function works on UTF-16 code units, as the source does.
- JSON: serialisation and parsing are not modelled. A stored entry is an abstract document:
  nothing or the empty string, text that fails to parse or has the wrong shape, a list of
  companies, or a list of ids. The order in which hidden ids are written is not kept.
- A parsed JSON value of an unexpected shape (a number, `null`, a list of another kind) is
  treated as a parse failure; the source would sometimes go on with it.
- `console.error` calls, React's batching of state updates and stale closures are not
  modelled: each method sees the state left by the previous one.
- The error `addCompany` throws is modelled as an `Err` result carrying the same message.
- An update object whose property is present with the value `undefined` is not modelled.
  Each property of an update carries a value.
- Coordinates and map centres are opaque real numbers; floating-point arithmetic plays no part.
- The `click` event a browser dispatches after a touch is not modelled as part of the
  gesture. `TapThenClickFlips` shows what a tap and its click do together. Whether a click
  also follows a drag depends on the browser, so `GestureOutcome` covers the touch
  handlers alone.
- The CSS strings of `getTransformStyle` are kept as the offset they describe, measured from
  the expanded or the collapsed position.
- Rendering and the other parts of the application are not part of this model. These are
  the map and list components, the admin form with its geocoding and validation, the
  password gate, and the HTTP handlers for blob storage and proxying.
- The country-code lists and the table of country centres from the data module are
  parameters, so no fact about particular countries is stated.
