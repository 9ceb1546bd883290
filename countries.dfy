/**
 * One record of the country dataset. Every field the query layer reads may be
 * missing from a record, so each is optional.
 */
module Countries {
  import opened Wrappers

  /** The value of one entry of a record's `currencies` mapping. */
  datatype Currency = Currency(name: Option<string>, symbol: Option<string>)

  datatype Country = Country(
    common: Option<string>,      // name.common
    official: Option<string>,    // name.official
    cca2: Option<string>,        // two-letter code
    cca3: Option<string>,        // three-letter code
    ccn3: Option<string>,        // numeric code, as a string
    region: Option<string>,
    capital: Option<seq<string>>,
    currencies: Option<map<string, Currency>>,  // currency code to name and symbol
    languages: Option<map<string, string>>      // language code to language name
  )
}
