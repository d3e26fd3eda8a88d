/** The country picker of src/screens/auth/CountrySelectionScreen.tsx: a
    searchable fixed list and the selected id that carries the checkmark. */
module CountrySelection {
  import opened Strings
  import opened Seqs

  datatype Country = Country(id: string, name: string, flag: string)

  /** The fixed list, in display order, with ids "1".."9". */
  function Countries(): (r: seq<Country>)
    ensures |r| == 9
    ensures forall i :: 0 <= i < |r| ==> r[i].id == [DigitChar(i + 1)]
    ensures forall i, j :: 0 <= i < j < |r| ==> r[i].id != r[j].id
  {
    [ Country("1", "Vietnamese", "🇻🇳"),
      Country("2", "French", "🇫🇷"),
      Country("3", "English", "🇬🇧"),
      Country("4", "Japanese", "🇯🇵"),
      Country("5", "Portuguese", "🇵🇹"),
      Country("6", "China", "🇨🇳"),
      Country("7", "Korea", "🇰🇷"),
      Country("8", "Nicaragua", "🇳🇮"),
      Country("9", "Russia", "🇷🇺") ]
  }

  predicate Listed(query: string, c: Country)
  {
    MatchesIgnoringCase(c.name, query)
  }

  /** `filteredCountries`: the countries of the list whose name contains the
      query, ignoring case. The screen filters `Countries()`. */
  function FilteredCountries(cs: seq<Country>, query: string): (r: seq<Country>)
    ensures forall i :: 0 <= i < |r| ==> r[i] in cs && Listed(query, r[i])
    ensures forall i :: 0 <= i < |cs| && Listed(query, cs[i]) ==> cs[i] in r
  {
    Filter(cs, c => Listed(query, c))
  }

  lemma FilteredCountriesKeepOrder(cs: seq<Country>, query: string)
    ensures IsSubsequence(FilteredCountries(cs, query), cs)
  {
    FilterIsSubsequence(cs, c => Listed(query, c));
  }

  /** An empty query lists every country in order: all nine of the fixture. */
  lemma EmptyQueryListsAll(cs: seq<Country>)
    ensures FilteredCountries(cs, "") == cs
  {
    forall i | 0 <= i < |cs|
      ensures Listed("", cs[i])
    {
      MatchesEmpty(cs[i].name);
    }
    FilterKeepsAll(cs, c => Listed("", c));
  }

  lemma CountrySearchIgnoresCase(cs: seq<Country>, query: string)
    ensures FilteredCountries(cs, Lower(query)) == FilteredCountries(cs, query)
  {
    forall i | 0 <= i < |cs|
      ensures Listed(Lower(query), cs[i]) == Listed(query, cs[i])
    {
      MatchesLowerTerm(cs[i].name, query);
    }
    FilterCongruent(cs, c => Listed(Lower(query), c), c => Listed(query, c));
  }

  class CountrySelectionScreen {
    var searchQuery: string
    var selectedCountry: string

    constructor ()
      ensures searchQuery == "" && selectedCountry == "3"
    {
      searchQuery := "";
      selectedCountry := "3";
    }

    /** The row for `c` shows the checkmark (and the highlighted name). */
    predicate ShowsCheckmark(c: Country)
      reads this
    {
      c.id == selectedCountry
    }

    method SetSearchQuery(query: string)
      modifies this`searchQuery
      ensures searchQuery == query
    {
      searchQuery := query;
    }

    /** Pressing a row selects that country; the search is kept. */
    method PressItem(c: Country)
      modifies this`selectedCountry
      ensures selectedCountry == c.id
      ensures ShowsCheckmark(c)
    {
      selectedCountry := c.id;
    }

    /** However the list is filtered, at most one row shows the checkmark. */
    lemma AtMostOneCheckmark(query: string)
      ensures var shown := FilteredCountries(Countries(), query);
        forall i, j :: 0 <= i < |shown| && 0 <= j < |shown| && ShowsCheckmark(shown[i]) && ShowsCheckmark(shown[j]) ==>
          i == j
    {
      var shown := FilteredCountries(Countries(), query);
      assert Distinct(Countries());
      FilterDistinct(Countries(), c => Listed(query, c));
      forall i, j | 0 <= i < |shown| && 0 <= j < |shown| && ShowsCheckmark(shown[i]) && ShowsCheckmark(shown[j])
        ensures i == j
      {
        SameIdSameCountry(shown[i], shown[j]);
      }
    }
  }

  /** The fixture ids are distinct, so an id names one country. */
  lemma SameIdSameCountry(c1: Country, c2: Country)
    requires c1 in Countries() && c2 in Countries() && c1.id == c2.id
    ensures c1 == c2
  {
    var cs := Countries();
    var a :| 0 <= a < |cs| && cs[a] == c1;
    var b :| 0 <= b < |cs| && cs[b] == c2;
    assert a == b;
  }

  /** The initial selection "3" is in the list: English. */
  lemma InitialSelectionIsEnglish()
    ensures exists i :: 0 <= i < |Countries()| && Countries()[i].id == "3" && Countries()[i].name == "English"
  {
    assert Countries()[2].id == "3";
  }
}
