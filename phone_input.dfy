/** The phone-number field of src/components/PhoneInput.tsx: the digit
    filter on the number and the searchable country-code dropdown. The
    country table lives in a file that is not part of this model, so the
    list is a parameter; so is `toLowerCase`, whose Unicode case mapping is
    not modelled. */
module PhoneInput {
  import opened Wrappers
  import opened Seqs
  import opened JsValues

  /** `CountryCode`: the dialling code, the display name and the flag shown
      beside the selected code. */
  datatype Country = Country(code: string, name: string, flag: string)

  const DefaultMaxLength := 10

  /** `handlePhoneChange`: the digits of the entry, cut to `maxLength`. */
  function PhoneChange(value: string, maxLength: int): (r: string)
    ensures forall i :: 0 <= i < |r| ==> IsAsciiDigit(r[i])
    ensures |r| <= |DigitsOnly(value)| && r == DigitsOnly(value)[..|r|]
    ensures maxLength >= 0 ==> |r| == if |DigitsOnly(value)| < maxLength then |DigitsOnly(value)| else maxLength
  {
    Slice0(DigitsOnly(value), maxLength)
  }

  /** A digit entry shorter than the limit passes unchanged, so the filter
      leaves a value alone once it has been applied. */
  lemma PhoneChangeStable(value: string, maxLength: int)
    requires maxLength >= 0
    ensures PhoneChange(PhoneChange(value, maxLength), maxLength) == PhoneChange(value, maxLength)
  {
    var r := PhoneChange(value, maxLength);
    DigitsOnlyKeepsDigitStrings(r);
  }

  /** The search test: the lower-cased name, or the code, contains the
      lower-cased query (untrimmed). */
  predicate MatchesQuery(c: Country, query: string, lower: string -> string) {
    Includes(lower(c.name), lower(query)) || Includes(c.code, lower(query))
  }

  /** `COUNTRY_CODES.filter(...)`. */
  function Filter(countries: seq<Country>, query: string, lower: string -> string): (r: seq<Country>)
    ensures |r| <= |countries|
    ensures forall c :: c in r <==> c in countries && MatchesQuery(c, query, lower)
  {
    if countries == [] then []
    else
      var rest := Filter(countries[1..], query, lower);
      assert forall c :: c in countries <==> c == countries[0] || c in countries[1..];
      if MatchesQuery(countries[0], query, lower) then [countries[0]] + rest else rest
  }

  /** The filter keeps the table's order. */
  lemma {:induction false} FilterIsSubsequence(countries: seq<Country>, query: string, lower: string -> string)
    ensures IsSubsequence(Filter(countries, query, lower), countries)
  {
    if countries == [] {
      EmptyIsSubsequence(countries);
    } else {
      var rest := Filter(countries[1..], query, lower);
      FilterIsSubsequence(countries[1..], query, lower);
      assert countries == [countries[0]] + countries[1..];
      if MatchesQuery(countries[0], query, lower) {
        SubsequenceCons(countries[0], rest, countries[1..]);
      } else {
        SubsequenceSkip(countries[0], rest, countries[1..]);
      }
    }
  }

  /** The filter distributes over concatenation, so with its effect on a
      single country it fixes the result, repeated entries included. */
  lemma {:induction false} FilterAppend(a: seq<Country>, b: seq<Country>, query: string, lower: string -> string)
    ensures Filter(a + b, query, lower) == Filter(a, query, lower) + Filter(b, query, lower)
  {
    if a == [] {
      assert a + b == b;
    } else {
      assert (a + b)[0] == a[0];
      assert (a + b)[1..] == a[1..] + b;
      FilterAppend(a[1..], b, query, lower);
    }
  }

  /** `handleCountrySearch`'s list: the whole table for a blank query,
      otherwise the filtered table. */
  function Search(countries: seq<Country>, query: string, lower: string -> string): (r: seq<Country>)
    ensures IsBlank(query) ==> r == countries
    ensures !IsBlank(query) ==> forall c :: c in r <==> c in countries && MatchesQuery(c, query, lower)
  {
    if IsBlank(query) then countries else Filter(countries, query, lower)
  }

  /** Whatever the query, the list shown is an ordered selection of the table. */
  lemma SearchIsSubsequence(countries: seq<Country>, query: string, lower: string -> string)
    ensures IsSubsequence(Search(countries, query, lower), countries)
  {
    if IsBlank(query) {
      SubsequenceReflexive(countries);
    } else {
      FilterIsSubsequence(countries, query, lower);
    }
  }

  lemma {:induction false} SubsequenceReflexive<T>(s: seq<T>)
    ensures IsSubsequence(s, s)
  {
    if s != [] {
      SubsequenceReflexive(s[1..]);
    }
  }

  /** `COUNTRY_CODES.find(c => c.code === countryCode)`: the first entry
      with that code. */
  function FindByCode(countries: seq<Country>, code: string): (r: Option<Country>)
    ensures r.None? <==> forall i :: 0 <= i < |countries| ==> countries[i].code != code
    ensures r.Some? ==> r.value.code == code && r.value in countries
    ensures r.Some? ==> exists i :: FirstWithCode(countries, code, i) && countries[i] == r.value
  {
    if countries == [] then None
    else if countries[0].code == code then
      assert FirstWithCode(countries, code, 0);
      Some(countries[0])
    else
      var r := FindByCode(countries[1..], code);
      if r.None? then r
      else
        var j :| FirstWithCode(countries[1..], code, j) && countries[1..][j] == r.value;
        assert FirstWithCode(countries, code, j + 1) by {
          forall k | 0 <= k < j + 1 ensures countries[k].code != code {
            if k > 0 { assert countries[k] == countries[1..][k - 1]; }
          }
        }
        r
  }

  /** Index `i` holds `code`, and no entry before it does: the entry `find`
      stops at. */
  predicate FirstWithCode(countries: seq<Country>, code: string, i: int) {
    0 <= i < |countries| && countries[i].code == code &&
    forall k :: 0 <= k < i ==> countries[k].code != code
  }

  class CountryPicker {
    const countries: seq<Country>
    const lower: string -> string
    var showCountryDropdown: bool
    var filteredCountries: seq<Country>
    var searchText: string

    constructor (countries: seq<Country>, lower: string -> string)
      ensures this.countries == countries && this.lower == lower
      ensures !showCountryDropdown && filteredCountries == countries && searchText == ""
    {
      this.countries := countries;
      this.lower := lower;
      showCountryDropdown := false;
      filteredCountries := countries;
      searchText := "";
    }

    /** The toggle button beside the code. */
    method ToggleDropdown()
      modifies this`showCountryDropdown
      ensures showCountryDropdown == !old(showCountryDropdown)
    {
      showCountryDropdown := !showCountryDropdown;
    }

    /** The document's `mousedown` listener, for a press outside the dropdown. */
    method ClickOutside()
      modifies this`showCountryDropdown
      ensures !showCountryDropdown
    {
      showCountryDropdown := false;
    }

    /** `handleCountrySearch(value)`. */
    method HandleCountrySearch(value: string)
      modifies this`searchText, this`filteredCountries
      ensures searchText == value
      ensures filteredCountries == Search(countries, value, lower)
      ensures IsSubsequence(filteredCountries, countries)
    {
      searchText := value;
      if IsBlank(value) {
        filteredCountries := countries;
      } else {
        filteredCountries := Filter(countries, value, lower);
      }
      SearchIsSubsequence(countries, value, lower);
    }

    /** `handleSelectCountry(country)`: the code goes to the parent, and the
        dropdown closes with its search reset. */
    method HandleSelectCountry(country: Country) returns (code: string)
      modifies this`showCountryDropdown, this`searchText, this`filteredCountries
      ensures code == country.code
      ensures !showCountryDropdown && searchText == "" && filteredCountries == countries
    {
      code := country.code;
      showCountryDropdown := false;
      searchText := "";
      filteredCountries := countries;
    }
  }
}
