/**
 * The query tools of the countries server. The dataset is an immutable
 * sequence of records handed to every operation; no operation can change it.
 */
module Server {
  import opened Wrappers
  import opened Text
  import opened Sorting
  import opened Countries

  // ---------------------------------------------------------------------------
  // Name resolution
  // ---------------------------------------------------------------------------

  /** The match test of the name search, with the source's four alternatives. */
  predicate NameMatches(c: Country, query: string)
  {
    var nameLower := Lower(query);
    var common := Lower(c.common.GetOr(""));
    var official := Lower(c.official.GetOr(""));
    nameLower == common || nameLower == official || Contains(common, nameLower) || Contains(official, nameLower)
  }

  /** The records of `data` that match `query`, in dataset order. */
  function MatchingCountries(data: seq<Country>, query: string): (r: seq<Country>)
    ensures |r| <= |data|
    ensures forall k :: 0 <= k < |r| ==> NameMatches(r[k], query)
  {
    if data == [] then []
    else
      var last := data[|data| - 1];
      MatchingCountries(data[..|data| - 1], query) + (if NameMatches(last, query) then [last] else [])
  }

  /** The equality tests are subsumed: a record matches exactly when the lower-cased query
      occurs in its lower-cased common or official name, a missing name counting as "". */
  lemma NameMatchesIffSubstring(c: Country, query: string)
    ensures NameMatches(c, query) <==>
      IsSubstring(Lower(query), Lower(c.common.GetOr(""))) || IsSubstring(Lower(query), Lower(c.official.GetOr("")))
  {
    var common := Lower(c.common.GetOr(""));
    var official := Lower(c.official.GetOr(""));
    ContainsSelf(common);
    ContainsSelf(official);
    ContainsIffOccurs(common, Lower(query));
    ContainsIffOccurs(official, Lower(query));
  }

  /** `_get_country_by_name`: scan the dataset, appending every matching record. */
  method SearchByName(data: seq<Country>, name: string) returns (results: seq<Country>)
    ensures results == MatchingCountries(data, name)
  {
    results := [];
    var nameLower := Lower(name);
    for i := 0 to |data|
      invariant results == MatchingCountries(data[..i], name)
    {
      var country := data[i];
      var common := Lower(country.common.GetOr(""));
      var official := Lower(country.official.GetOr(""));
      assert data[..i + 1][..i] == data[..i];
      if nameLower == common || nameLower == official || Contains(common, nameLower) || Contains(official, nameLower) {
        results := results + [country];
      }
    }
    assert data[..|data|] == data;
  }

  /** `get_country_by_name`: the tool entry point for name resolution. */
  method GetCountryByName(data: seq<Country>, name: string) returns (results: seq<Country>)
    ensures results == MatchingCountries(data, name)
    ensures |results| <= |data|
    ensures forall c :: c in results <==> c in data && NameMatches(c, name)
  {
    results := SearchByName(data, name);
    MatchingCountriesMembers(data, name);
  }

  /** A record is found exactly when it is in the dataset and matches. */
  lemma {:induction false} MatchingCountriesMembers(data: seq<Country>, query: string)
    ensures forall c :: c in MatchingCountries(data, query) <==> c in data && NameMatches(c, query)
    decreases |data|
  {
    if data != [] {
      var front := data[..|data| - 1];
      MatchingCountriesMembers(front, query);
      assert data == front + [data[|data| - 1]];
    }
  }

  /** The result is the dataset filtered by NameMatches in dataset order: `idx` lists, in increasing
      order, the positions of the records returned, and every matching position is listed. */
  lemma {:induction false} MatchingCountriesInOrder(data: seq<Country>, query: string) returns (idx: seq<nat>)
    ensures |idx| == |MatchingCountries(data, query)|
    ensures forall k :: 0 <= k < |idx| ==> idx[k] < |data| && data[idx[k]] == MatchingCountries(data, query)[k]
    ensures forall k, l :: 0 <= k < l < |idx| ==> idx[k] < idx[l]
    ensures forall i :: 0 <= i < |data| ==> (NameMatches(data[i], query) <==> i in idx)
    decreases |data|
  {
    if data == [] {
      idx := [];
    } else {
      var n := |data| - 1;
      var front := data[..n];
      var prev := MatchingCountriesInOrder(front, query);
      if NameMatches(data[n], query) {
        idx := prev + [n];
      } else {
        idx := prev;
      }
      forall i | 0 <= i < |data| ensures NameMatches(data[i], query) <==> i in idx {
        if i < n {
          assert front[i] == data[i];
        }
      }
    }
  }

  /** `i` is the position of the first record that matches `query`. */
  predicate IsFirstMatch(data: seq<Country>, query: string, i: int)
  {
    0 <= i < |data| && NameMatches(data[i], query) && forall j :: 0 <= j < i ==> !NameMatches(data[j], query)
  }

  /** The search is empty exactly when no record matches. */
  lemma MatchingCountriesEmpty(data: seq<Country>, query: string)
    ensures MatchingCountries(data, query) == [] <==> forall i :: 0 <= i < |data| ==> !NameMatches(data[i], query)
  {
  }

  /** The search starts with the first matching record of the dataset. */
  lemma MatchingCountriesFirst(data: seq<Country>, query: string, i: int)
    requires IsFirstMatch(data, query, i)
    ensures MatchingCountries(data, query) != [] && MatchingCountries(data, query)[0] == data[i]
  {
    var idx := MatchingCountriesInOrder(data, query);
    assert i in idx;
    assert idx[0] in idx;
    assert idx[0] <= i;
  }

  /** Both facts together, for every candidate position. */
  lemma MatchingCountriesHead(data: seq<Country>, query: string)
    ensures MatchingCountries(data, query) == [] <==> forall i :: 0 <= i < |data| ==> !NameMatches(data[i], query)
    ensures forall i :: IsFirstMatch(data, query, i) ==>
      MatchingCountries(data, query) != [] && MatchingCountries(data, query)[0] == data[i]
  {
    MatchingCountriesEmpty(data, query);
    forall i | IsFirstMatch(data, query, i)
      ensures MatchingCountries(data, query) != [] && MatchingCountries(data, query)[0] == data[i]
    {
      MatchingCountriesFirst(data, query, i);
    }
  }

  /** The empty query occurs in every name, so it returns the whole dataset. */
  lemma {:induction false} EmptyQueryMatchesAll(data: seq<Country>)
    ensures MatchingCountries(data, "") == data
    decreases |data|
  {
    if data != [] {
      var last := data[|data| - 1];
      EmptyQueryMatchesAll(data[..|data| - 1]);
      ContainsEmpty(Lower(last.common.GetOr("")));
      assert data == data[..|data| - 1] + [last];
    }
  }

  // ---------------------------------------------------------------------------
  // Code lookup
  // ---------------------------------------------------------------------------

  /** The alphabetic codes are compared with the upper-cased code, the numeric code with the code as given;
      an absent field never equals a string. */
  predicate CodeMatches(c: Country, code: string)
  {
    var codeUpper := Upper(code);
    c.cca2 == Some(codeUpper) || c.cca3 == Some(codeUpper) || c.ccn3 == Some(code)
  }

  predicate IsFirstCodeMatch(data: seq<Country>, code: string, i: int)
  {
    0 <= i < |data| && CodeMatches(data[i], code) && forall j :: 0 <= j < i ==> !CodeMatches(data[j], code)
  }

  /** `get_country_by_code`: the first record whose code matches, or None when none does. */
  method GetCountryByCode(data: seq<Country>, code: string) returns (r: Option<Country>)
    ensures r.None? <==> forall i :: 0 <= i < |data| ==> !CodeMatches(data[i], code)
    ensures r.Some? ==> exists i :: IsFirstCodeMatch(data, code, i) && data[i] == r.value
  {
    var codeUpper := Upper(code);
    for i := 0 to |data|
      invariant forall j :: 0 <= j < i ==> !CodeMatches(data[j], code)
    {
      var country := data[i];
      if country.cca2 == Some(codeUpper) || country.cca3 == Some(codeUpper) || country.ccn3 == Some(code) {
        assert IsFirstCodeMatch(data, code, i);
        return Some(country);
      }
    }
    return None;
  }

  /** For a code made of digits the upper-casing changes nothing, so every field is compared with
      the code verbatim and the asymmetry between alphabetic and numeric codes cannot be observed. */
  lemma NumericCodeMatchesVerbatim(c: Country, code: string)
    requires forall i :: 0 <= i < |code| ==> '0' <= code[i] <= '9'
    ensures CodeMatches(c, code) <==> c.cca2 == Some(code) || c.cca3 == Some(code) || c.ccn3 == Some(code)
  {
    UpperOfDigits(code);
  }

  // ---------------------------------------------------------------------------
  // Attribute projection
  // ---------------------------------------------------------------------------

  /** `get_country_currency`: the first match's currencies, verbatim. */
  function GetCountryCurrency(data: seq<Country>, countryName: string): (r: Option<map<string, Currency>>)
    ensures (forall i :: 0 <= i < |data| ==> !NameMatches(data[i], countryName)) ==> r == None
    ensures forall i :: IsFirstMatch(data, countryName, i) ==> r == data[i].currencies
  {
    MatchingCountriesHead(data, countryName);
    var countries := MatchingCountries(data, countryName);
    if |countries| > 0 then countries[0].currencies else None
  }

  /** `get_country_capital`: the first match's capitals, verbatim. */
  function GetCountryCapital(data: seq<Country>, countryName: string): (r: Option<seq<string>>)
    ensures (forall i :: 0 <= i < |data| ==> !NameMatches(data[i], countryName)) ==> r == None
    ensures forall i :: IsFirstMatch(data, countryName, i) ==> r == data[i].capital
  {
    MatchingCountriesHead(data, countryName);
    var countries := MatchingCountries(data, countryName);
    if |countries| > 0 then countries[0].capital else None
  }

  /** `get_country_languages`: the first match's languages, verbatim. */
  function GetCountryLanguages(data: seq<Country>, countryName: string): (r: Option<map<string, string>>)
    ensures (forall i :: 0 <= i < |data| ==> !NameMatches(data[i], countryName)) ==> r == None
    ensures forall i :: IsFirstMatch(data, countryName, i) ==> r == data[i].languages
  {
    MatchingCountriesHead(data, countryName);
    var countries := MatchingCountries(data, countryName);
    if |countries| > 0 then countries[0].languages else None
  }

  // ---------------------------------------------------------------------------
  // Enumeration
  // ---------------------------------------------------------------------------

  /** The name a record is listed under: its common name, or "Unknown". */
  function DisplayName(c: Country): string
  {
    c.common.GetOr("Unknown")
  }

  /** The display name of every record, in dataset order. */
  function DisplayNames(data: seq<Country>): (r: seq<string>)
    ensures |r| == |data|
  {
    if data == [] then [] else DisplayNames(data[..|data| - 1]) + [DisplayName(data[|data| - 1])]
  }

  /** How many records of `data` are listed under `name`. */
  function Occurrences(data: seq<Country>, name: string): nat
  {
    if data == [] then 0
    else Occurrences(data[..|data| - 1], name) + (if DisplayName(data[|data| - 1]) == name then 1 else 0)
  }

  lemma {:induction false} DisplayNamesCount(data: seq<Country>)
    ensures forall name :: multiset(DisplayNames(data))[name] == Occurrences(data, name)
    decreases |data|
  {
    if data != [] {
      DisplayNamesCount(data[..|data| - 1]);
    }
  }

  /** `list_countries`: every record's display name, duplicates kept, in ascending order. */
  function ListCountries(data: seq<Country>): (r: seq<string>)
    ensures Sorted(r)
    ensures |r| == |data|
    ensures forall name :: multiset(r)[name] == Occurrences(data, name)
  {
    DisplayNamesCount(data);
    SortStrings(DisplayNames(data))
  }

  // ---------------------------------------------------------------------------
  // Region filter
  // ---------------------------------------------------------------------------

  /** Case-insensitive exact comparison of the record's region (missing: "") with `region`. */
  predicate InRegion(c: Country, region: string)
  {
    Lower(c.region.GetOr("")) == Lower(region)
  }

  /** The display names of the records in `region`, in dataset order. */
  function RegionNames(data: seq<Country>, region: string): seq<string>
  {
    if data == [] then []
    else
      var last := data[|data| - 1];
      RegionNames(data[..|data| - 1], region) + (if InRegion(last, region) then [DisplayName(last)] else [])
  }

  /** How many records of `data` lie in `region` and are listed under `name`. */
  function RegionOccurrences(data: seq<Country>, region: string, name: string): nat
  {
    if data == [] then 0
    else
      var last := data[|data| - 1];
      RegionOccurrences(data[..|data| - 1], region, name) + (if InRegion(last, region) && DisplayName(last) == name then 1 else 0)
  }

  lemma {:induction false} RegionNamesCount(data: seq<Country>, region: string)
    ensures forall name :: multiset(RegionNames(data, region))[name] == RegionOccurrences(data, region, name)
    decreases |data|
  {
    if data != [] {
      RegionNamesCount(data[..|data| - 1], region);
    }
  }

  /** A region holds no more records listed under a name than the whole dataset does. */
  lemma {:induction false} RegionOccurrencesBounded(data: seq<Country>, region: string, name: string)
    ensures RegionOccurrences(data, region, name) <= Occurrences(data, name)
    decreases |data|
  {
    if data != [] {
      RegionOccurrencesBounded(data[..|data| - 1], region, name);
    }
  }

  /** `filter_countries_by_region`: collect the display names of the records in the region, then sort them. */
  method FilterCountriesByRegion(data: seq<Country>, region: string) returns (names: seq<string>)
    ensures Sorted(names)
    ensures forall name :: multiset(names)[name] == RegionOccurrences(data, region, name)
    ensures multiset(names) <= multiset(ListCountries(data))
  {
    var results := [];
    var regionLower := Lower(region);
    for i := 0 to |data|
      invariant results == RegionNames(data[..i], region)
    {
      var country := data[i];
      assert data[..i + 1][..i] == data[..i];
      if Lower(country.region.GetOr("")) == regionLower {
        results := results + [country.common.GetOr("Unknown")];
      }
    }
    assert data[..|data|] == data;
    names := SortStrings(results);
    RegionNamesCount(data, region);
    forall name | true ensures multiset(names)[name] <= multiset(ListCountries(data))[name] {
      RegionOccurrencesBounded(data, region, name);
    }
  }

  /** With an empty dataset every query finds nothing. */
  lemma EmptyDatasetFindsNothing(query: string, region: string)
    ensures MatchingCountries([], query) == []
    ensures ListCountries([]) == []
    ensures RegionNames([], region) == []
    ensures GetCountryCurrency([], query) == None
    ensures GetCountryCapital([], query) == None
    ensures GetCountryLanguages([], query) == None
  {
  }

  /** A one-record dataset holding France. */
  function France(): Country
  {
    Country(Some("France"), Some("French Republic"), Some("FR"), Some("FRA"), Some("250"), Some("Europe"),
            Some(["Paris"]), Some(map["EUR" := Currency(Some("Euro"), Some("\U{20AC}"))]), Some(map["fra" := "French"]))
  }

  /** Looking up "fr" finds France: the alphabetic codes are compared upper-cased. */
  lemma FranceByCode()
    ensures IsFirstCodeMatch([France()], "fr", 0)
  {
    assert Upper("fr") == "FR";
  }

  /** The capital of "France" is found by an exact match on the common name. */
  lemma FranceCapital()
    ensures GetCountryCapital([France()], "France") == Some(["Paris"])
  {
  }

  /** The currencies of "republic" are found by a partial match on the official name. */
  lemma FranceCurrency()
    ensures GetCountryCurrency([France()], "republic") == Some(map["EUR" := Currency(Some("Euro"), Some("\U{20AC}"))])
  {
    assert Lower("republic") == "republic";
    assert Lower("French Republic") == "french republic";
    assert OccursAt("french republic", "republic", 7);
    ContainsIffOccurs("french republic", "republic");
    assert IsFirstMatch([France()], "republic", 0);
  }

  /** France is listed, and listed in "europe". */
  lemma FranceListed()
    ensures ListCountries([France()]) == ["France"]
    ensures RegionNames([France()], "europe") == ["France"]
  {
  }
}
