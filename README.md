# Countries query layer, in Dafny

A model of the query tools of the countries tool server (`server.py`). The
server holds a read-only, ordered dataset of country records and answers
seven tools over it:
- name search (`_get_country_by_name` and `get_country_by_name`);
- code lookup (`get_country_by_code`);
- three attribute projections (`get_country_currency`, `get_country_capital`, `get_country_languages`);
- enumeration (`list_countries`);
- the region filter (`filter_countries_by_region`).

Here the dataset is an immutable `seq<Country>` handed to every operation. No
operation can change it. A record is the datatype `Countries.Country`, and
every field the tools read is an `Option`.

Files:
- `wrappers.dfy`: the `Option` type.
- `text.dfy`: the Python string built-ins the tools use. These are `str.lower`
  and `str.upper` on ASCII, the substring test `in`, and the code-point
  lexicographic order that `sorted` applies to strings. Its lemmas prove that
  this order is a total order.
- `sorting.dfy`: `sorted` on strings, written as insertion sort. It is proved
  to return an ascending permutation of its input. `SortedUnique` shows that
  only one sequence is both ascending and a permutation of the input, so every
  correct sorting algorithm, Python's included, returns the same list.
- `countries.dfy`: the record datatypes.
- `server.dfy`: the tools. These are written as follows:
  - The three loops (the name-search helper `_get_country_by_name`, the tools
    `get_country_by_code` and `filter_countries_by_region`) are methods with
    loop invariants. Each is proved
    against a specification function: `SearchByName` against
    `MatchingCountries`, `GetCountryByCode` against the first-match predicate,
    and `FilterCountriesByRegion` against `RegionNames` and `RegionOccurrences`.
  - `list_countries` and the three projections are functions.

The substring test `name_lower in common` (server.py:25) has no
non-emptiness guard, so an empty query matches every record
(`EmptyQueryMatchesAll`).

## Model

| member | source | states |
|---|---|---|
| `Server.MatchingCountries` | server.py:18-27 | the name search keeps only matching records and returns no more records than the dataset holds |
| `Server.SearchByName` | server.py:16-27 | the loop that lower-cases the query once, scans the dataset and appends each record whose lower-cased common or official name equals or contains it returns exactly `MatchingCountries` |
| `Server.GetCountryByName` | server.py:34-41 | the tool returns the name search's list unchanged: the matching records in dataset order, duplicates kept; so a record is returned exactly when it is in the dataset and matches, and no more records than the dataset holds |
| `Server.NameMatchesIffSubstring` | server.py:19-25 | a record matches exactly when lower(query) occurs in lower(common) or in lower(official), with a missing name taken as ""; the two equality tests add nothing |
| `Server.MatchingCountriesMembers` | server.py:20-26 | a record is in the result if and only if it is in the dataset and matches |
| `Server.MatchingCountriesInOrder` | server.py:18-27 | the result is the dataset filtered by the match test: its elements are dataset records at strictly increasing positions, and every matching position appears |
| `Server.MatchingCountriesEmpty` | server.py:60-61 | the search is empty if and only if no record of the dataset matches |
| `Server.MatchingCountriesFirst` | server.py:60-63 | when position i holds the first matching record, the search is non-empty and its first element is that record |
| `Server.MatchingCountriesHead` | server.py:60-63 | the two facts above, for every position at once, as the projections use them |
| `Server.EmptyQueryMatchesAll` | server.py:25 | searching for "" returns the whole dataset |
| `Server.GetCountryByCode` | server.py:44-55 | returns None exactly when no record has cca2 or cca3 equal to upper(code) or ccn3 equal to the code as given; otherwise returns the first such record in dataset order |
| `Server.NumericCodeMatchesVerbatim` | server.py:49-53 | for a code made of digits, upper-casing is the identity, so all three fields are compared with the code as given |
| `Server.GetCountryCurrency` | server.py:58-64 | None when no record matches the name; otherwise the first matching record's currencies field, unchanged (itself None when the record lacks it) |
| `Server.GetCountryCapital` | server.py:67-72 | None when no record matches the name; otherwise the first matching record's capital field, unchanged |
| `Server.GetCountryLanguages` | server.py:75-80 | None when no record matches the name; otherwise the first matching record's languages field, unchanged |
| `Server.DisplayNames` | server.py:32 | the comprehension yields one name per record |
| `Server.DisplayNamesCount` | server.py:32 | each name occurs in the comprehension as often as there are records whose common name is that name ("Unknown" when missing) |
| `Server.ListCountries` | server.py:30-32 | the result is ascending, has one entry per record, and holds each name as often as there are records listed under it, duplicates and "Unknown" placeholders included |
| `Server.RegionNamesCount` | server.py:88-92 | the names collected by the region loop hold each name as often as there are records in the region listed under it |
| `Server.RegionOccurrencesBounded` | server.py:88-92 | a region never holds more records listed under a name than the whole dataset |
| `Server.FilterCountriesByRegion` | server.py:83-93 | the result is ascending; it holds each name as often as there are records whose lower-cased region (missing taken as "") equals the lower-cased query and that are listed under the name; it is a sub-multiset of `ListCountries` |
| `Server.EmptyDatasetFindsNothing` | server.py:13 | on the empty dataset the name search, the listing and the region names are empty and every projection is None |
| `Server.FranceByCode` | server.py:49-54 | the lower-case code "fr" finds the France record |
| `Server.FranceCapital` | server.py:69-71 | the capital of "France" is ["Paris"] |
| `Server.FranceCurrency` | server.py:60-63 | "republic" finds France through its official name and yields its euro entry |
| `Server.FranceListed` | server.py:88-93 | France is listed, and is listed under the region "europe" |
| `Text.Lower` | server.py:19-22 | `lower()` keeps the length, maps each ASCII capital to its small letter, keeps every other character, and leaves no ASCII capital |
| `Text.Upper` | server.py:49 | `upper()` keeps the length, maps each ASCII small letter to its capital, keeps every other character, and leaves no ASCII small letter |
| `Text.UpperOfDigits` | server.py:49 | upper-casing a string of digits leaves it unchanged |
| `Text.ContainsIffOccurs` | server.py:25 | `needle in hay` holds if and only if the needle occurs at some position of the hay |
| `Text.ContainsSelf` | server.py:25 | every string contains itself, so the equality tests are special cases of the substring tests |
| `Text.LessEqReflexive` | server.py:32 | Python's string order is reflexive |
| `Text.LessEqAntisymmetric` | server.py:32 | two strings ordered both ways are equal |
| `Text.LessEqTransitive` | server.py:32 | Python's string order is transitive |
| `Text.LessEqTotal` | server.py:32 | any two strings are ordered one way or the other |
| `Sorting.SortedPairwise` | server.py:32 | an ascending sequence is ordered at every pair of positions |
| `Sorting.Insert` | server.py:32 | inserting into an ascending sequence keeps it ascending and adds exactly one occurrence of the new string |
| `Sorting.SortStrings` | server.py:32 | `sorted` returns an ascending permutation of its input |
| `Sorting.SortedUnique` | server.py:32 | two ascending sequences with the same elements are equal, so the result of `sorted` does not depend on the algorithm |

## Left out

- Loading `countries.json`, the fallback to an empty list when the file is missing, and the warning printed then (server.py:9-14). These are file I/O. The dataset is a parameter and may be empty.
- The `FastMCP` server object, the `@mcp.tool()` registration and `mcp.run()` (server.py:3, 6, 29, 95-96). This is protocol plumbing over a library that is not part of this model.
- Unicode case mapping. `str.lower` and `str.upper` are modelled on ASCII letters only, and other characters are left unchanged.
- The algorithm of Python's `sorted` (Timsort). Only its outcome is modelled: an ascending permutation. `SortedUnique` shows that this outcome is unique.
- The untyped JSON dictionary. A record is a typed datatype, with these consequences:
  - The nested `name` object is flattened into two optional fields, `common` and `official`. A missing `name` object is the same as both fields being None.
  - A JSON `null` or a non-string value in a name or region field, or a `null` `name` object, is not represented. In Python such a value makes the tool raise (server.py:21-22, 32, 91-92).
  - Currency entries are a typed pair of optional name and symbol.
- Idempotence and "no operation changes the dataset" are not stated as lemmas. They hold by construction: every operation is a function of its arguments, and the dataset is an immutable value.
- The projections return `Option` of the field. As in the source, "no matching record" and "matching record without the field" both give None.
