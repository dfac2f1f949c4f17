/** The country search box: a case-insensitive substring filter over a fixed
    list of country names, and the dropdown state (`filteredCountries`,
    `isOpen`) that the filter effect, the focus handler and a pick update. */
module Search {
  import opened Text

  /** The names the search box offers, in display order. */
  const Countries: seq<string> := [
    "United States", "Brazil", "China", "India", "Egypt", "Japan", "Kenya", "Australia",
    "France", "Germany", "Italy", "Spain", "Mexico", "Canada", "Russia", "Thailand",
    "South Korea", "Nigeria", "Argentina", "Peru", "Morocco", "Turkey", "Greece", "Norway"
  ]

  predicate Distinct(s: seq<string>) {
    forall i, j :: 0 <= i < j < |s| ==> s[i] != s[j]
  }

  /** The list has 24 different names. */
  lemma CountriesDistinct()
    ensures |Countries| == 24 && Distinct(Countries)
  {
  }

  /** No listed name is empty or blank. */
  lemma CountriesNotBlank()
    ensures forall c :: c in Countries ==> c != "" && !IsBlank(c)
  {
    forall c | c in Countries ensures !IsBlank(c) {
      assert !IsWhitespace(c[0]);
      StartsSolidNotBlank(c);
    }
  }

  /** A string that starts with a non-whitespace character is not blank. */
  lemma StartsSolidNotBlank(s: string)
    requires s != [] && !IsWhitespace(s[0])
    ensures !IsBlank(s)
  {
    TrimEmptyIff(s);
  }

  /** `country.toLowerCase().includes(query.toLowerCase())`. */
  predicate Matches(country: string, query: string) {
    Includes(Lower(country), Lower(query))
  }

  /** The match ignores ASCII case: two queries that lower-case alike match
      the same names, and lower-casing name and query beforehand changes
      nothing. */
  lemma MatchesIgnoresCase(country: string, query: string, other: string)
    requires Lower(query) == Lower(other)
    ensures Matches(country, query) == Matches(country, other)
    ensures Matches(Lower(country), Lower(query)) == Matches(country, query)
  {
    LowerIdempotent(country);
    LowerIdempotent(query);
  }

  /** "Japan" is found whatever the case of the query. */
  lemma JapanAnyCase()
    ensures Matches("Japan", "JAPAN") && Matches("Japan", "jApAn") && Matches("Japan", "japan")
  {
    assert Lower("Japan") == "japan" && Lower("JAPAN") == "japan" && Lower("jApAn") == "japan";
    IncludesSelfAndEmpty("japan");
  }

  /** `names.filter(c => Matches(c, query))`. Every entry it keeps is a
      name of the list that matches the query. */
  function Filter(names: seq<string>, query: string): (r: seq<string>)
    ensures forall x :: x in r ==> x in names && Matches(x, query)
  {
    if names == [] then []
    else (if Matches(names[0], query) then [names[0]] else []) + Filter(names[1..], query)
  }

  /** Every name of the list that matches the query is kept. */
  lemma {:induction false} FilterComplete(names: seq<string>, query: string)
    ensures forall x :: x in names && Matches(x, query) ==> x in Filter(names, query)
  {
    if names != [] {
      FilterComplete(names[1..], query);
      assert forall x :: x in names ==> x == names[0] || x in names[1..];
    }
  }

  /** `r` is `s` with some entries left out, the rest in their order. */
  predicate IsSubsequence(r: seq<string>, s: seq<string>)
    decreases |s|
  {
    r == [] ||
    (s != [] && ((r[0] == s[0] && IsSubsequence(r[1..], s[1..])) || IsSubsequence(r, s[1..])))
  }

  /** The filter keeps the list's order and adds nothing. */
  lemma {:induction false} FilterSubsequence(names: seq<string>, query: string)
    ensures IsSubsequence(Filter(names, query), names)
  {
    if names != [] {
      FilterSubsequence(names[1..], query);
      var rest := Filter(names[1..], query);
      if Matches(names[0], query) {
        assert Filter(names, query) == [names[0]] + rest;
        assert ([names[0]] + rest)[1..] == rest;
      } else {
        assert Filter(names, query) == rest;
      }
    }
  }

  /** A subsequence of a list without repeats has no repeats either. */
  lemma {:induction false} SubsequenceDistinct(r: seq<string>, s: seq<string>)
    requires IsSubsequence(r, s) && Distinct(s)
    ensures Distinct(r)
    decreases |s|
  {
    if r != [] {
      assert Distinct(s[1..]) by {
        forall i, j | 0 <= i < j < |s[1..]| ensures s[1..][i] != s[1..][j] {
          assert s[1..][i] == s[i + 1] && s[1..][j] == s[j + 1];
        }
      }
      if r[0] == s[0] && IsSubsequence(r[1..], s[1..]) {
        SubsequenceDistinct(r[1..], s[1..]);
        SubsequenceMembers(r[1..], s[1..]);
        forall j | 0 < j < |r| ensures r[0] != r[j] {
          assert r[j] == r[1..][j - 1];
          assert r[j] in s[1..];
          var k :| 0 <= k < |s[1..]| && s[1..][k] == r[j];
          assert s[k + 1] == r[j];
        }
      } else {
        SubsequenceDistinct(r, s[1..]);
      }
    }
  }

  lemma {:induction false} SubsequenceMembers(r: seq<string>, s: seq<string>)
    requires IsSubsequence(r, s)
    ensures forall x :: x in r ==> x in s
    decreases |s|
  {
    if r != [] {
      assert forall x :: x in s[1..] ==> x in s;
      if r[0] == s[0] && IsSubsequence(r[1..], s[1..]) {
        SubsequenceMembers(r[1..], s[1..]);
        assert forall x :: x in r ==> x == r[0] || x in r[1..];
      } else {
        SubsequenceMembers(r, s[1..]);
      }
    }
  }

  /** The filter lets everything through for the empty query, since every
      string includes the empty string; hence the blank-query short cut. */
  lemma {:induction false} FilterEmptyQuery(names: seq<string>)
    ensures Filter(names, "") == names
  {
    if names != [] {
      IncludesSelfAndEmpty(Lower(names[0]));
      FilterEmptyQuery(names[1..]);
    }
  }

  /** `!value.trim()`: the query is empty or whitespace only. */
  predicate IsBlank(query: string) {
    Trim(query) == []
  }

  /** The dropdown entries for a query over the list `names`, as the filter
      effect computes them: nothing for a blank query, and otherwise exactly
      the names that match the untrimmed query, in list order, and without
      repeats when the list has none. */
  function Results(names: seq<string>, query: string): (r: seq<string>)
    ensures IsBlank(query) ==> r == []
    ensures forall c :: c in r <==> c in names && !IsBlank(query) && Matches(c, query)
    ensures IsSubsequence(r, names)
    ensures Distinct(names) ==> Distinct(r)
  {
    if IsBlank(query) then []
    else
      FilterComplete(names, query);
      FilterSubsequence(names, query);
      if Distinct(names) then
        SubsequenceDistinct(Filter(names, query), names);
        Filter(names, query)
      else
        Filter(names, query)
  }

  lemma TrimKorea()
    ensures Trim("korea ") == "korea" && !IsBlank("korea")
  {
    assert !IsWhitespace('k') && !IsWhitespace('a');
    assert TrimStart("korea ") == "korea ";
    assert "korea "[..5] == "korea";
    assert TrimEnd("korea ") == TrimEnd("korea");
    TrimEmptyIff("korea");
  }

  lemma KoreaIncludes()
    ensures Includes("south korea", "korea") && !Includes("south korea", "korea ")
  {
    var s := "south korea";
    assert OccursAt(s, "korea", 6);
    IncludesIff(s, "korea");
    forall i: nat | i <= 5 ensures !OccursAt(s, "korea ", i) {
      assert s[i..i + 6][0] != 'k';
    }
    IncludesIff(s, "korea ");
  }

  lemma LowerKorea()
    ensures Lower("South Korea") == "south korea"
    ensures Lower("korea") == "korea" && Lower("korea ") == "korea "
  {
  }

  lemma KoreaMatches()
    ensures Matches("South Korea", "korea") && !Matches("South Korea", "korea ")
  {
    LowerKorea();
    KoreaIncludes();
  }

  /** The trim decides only whether to filter: the match itself uses the
      query as typed, so "korea " trims to "korea", which "South Korea"
      matches, yet "South Korea" does not match "korea " itself. */
  lemma UntrimmedQueryMatches()
    ensures Trim("korea ") == "korea" && !IsBlank("korea ")
    ensures Matches("South Korea", "korea") && !Matches("South Korea", "korea ")
  {
    TrimKorea();
    KoreaMatches();
  }

  /** A name that matches a query matches every prefix of it. */
  lemma MatchesPrefix(c: string, query: string, more: string)
    requires Matches(c, query + more)
    ensures Matches(c, query)
  {
    var l, q, m := Lower(c), Lower(query), Lower(more);
    assert Lower(query + more) == q + m;
    IncludesIff(l, q + m);
    IncludesIff(l, q);
    var i: nat :| OccursAt(l, q + m, i);
    assert l[i..i + |q|] == (q + m)[..|q|];
    assert OccursAt(l, q, i);
  }

  /** Typing more can only narrow the dropdown: once the query is not blank,
      every entry for a longer query is an entry for the shorter one. */
  lemma ResultsNarrow(names: seq<string>, query: string, more: string)
    requires !IsBlank(query)
    ensures forall c :: c in Results(names, query + more) ==> c in Results(names, query)
  {
    forall c | c in Results(names, query + more) ensures c in Results(names, query) {
      MatchesPrefix(c, query, more);
    }
  }

  /** Every listed name finds itself; after a pick writes the name back as
      the query, a re-run of the filter would list it again. */
  lemma PickedNameMatchesItself(names: seq<string>, c: string)
    requires c in names && !IsBlank(c)
    ensures c in Results(names, c)
  {
    IncludesSelfAndEmpty(Lower(c));
  }

  /** What the search box asks of its parent: `onChange(text)` and
      `onCountrySelect(country)`. */
  datatype Callback = QueryChange(text: string) | CountrySelect(country: string)

  /** The state of one search box. `value` is the query it last received from
      its parent; the filter effect runs whenever it changes. */
  class SearchBar {
    var value: string
    var isOpen: bool
    var filteredCountries: seq<string>

    /** The filter effect has run on the current query. */
    ghost predicate Filtered()
      reads this`value, this`filteredCountries
    {
      filteredCountries == Results(Countries, value)
    }

    /** The effect has run on the current query, and the dropdown is open
        only while there is something to list. */
    ghost predicate Valid()
      reads this
    {
      Filtered() && (isOpen ==> filteredCountries != [])
    }

    /** Mounting with an empty query: closed, nothing listed. */
    constructor ()
      ensures Valid()
      ensures value == "" && !isOpen && filteredCountries == []
    {
      value := "";
      isOpen := false;
      filteredCountries := [];
      assert TrimStart("") == [];
    }

    /** The filter effect. It depends on `[value]`, so it runs only when the
        parent passes a query different from the current one. */
    method ValueChanged(query: string)
      requires query != value
      modifies this
      ensures Valid()
      ensures value == query && filteredCountries == Results(Countries, query)
      ensures isOpen == (filteredCountries != [])
      ensures IsBlank(query) ==> filteredCountries == [] && !isOpen
    {
      value := query;
      if !IsBlank(query) {
        var filtered := Filter(Countries, query);
        filteredCountries := filtered;
        isOpen := |filtered| > 0;
      } else {
        filteredCountries := [];
        isOpen := false;
      }
    }

    /** A render with the query `query` from the parent: the filter effect
        runs when it differs from the current one, and otherwise nothing
        changes. So a pick of the name already typed leaves the dropdown
        closed. */
    method Receive(query: string)
      requires Valid()
      modifies this
      ensures Valid() && value == query
      ensures query == old(value) ==>
        isOpen == old(isOpen) && filteredCountries == old(filteredCountries)
      ensures query != old(value) ==> isOpen == (filteredCountries != [])
    {
      if query != value {
        ValueChanged(query);
      }
    }

    /** The input's `onChange`: the typed text goes to the parent unchanged,
        as its only request; the box itself changes nothing until the parent
        passes the text back (`Receive`). */
    method Input(text: string) returns (calls: seq<Callback>)
      ensures calls == [QueryChange(text)]
    {
      calls := [QueryChange(text)];
    }

    /** `onFocus`: reopen exactly when the last filter found something. */
    method Focus()
      requires Valid()
      modifies this`isOpen
      ensures Valid()
      ensures isOpen == (filteredCountries != [])
    {
      isOpen := |filteredCountries| > 0;
    }

    /** `handleCountrySelect(country)`: writes the name back as the query,
        reports it once, and closes the dropdown; the list is kept. */
    method HandleCountrySelect(country: string) returns (calls: seq<Callback>)
      requires Valid()
      modifies this`isOpen
      ensures Valid() && !isOpen
      ensures calls == [QueryChange(country), CountrySelect(country)]
    {
      calls := [QueryChange(country), CountrySelect(country)];
      isOpen := false;
    }

    /** The dropdown is rendered when it is open and has entries. */
    function DropdownShown(): bool
      reads this
    {
      isOpen && |filteredCountries| > 0
    }

    /** A click on the dropdown's entry at `index`; only rendered entries can
        be clicked. The reported name is always one of the listed countries
        and matches the current query. */
    method ClickEntry(index: nat) returns (calls: seq<Callback>)
      requires Valid() && DropdownShown() && index < |filteredCountries|
      modifies this`isOpen
      ensures Valid() && !isOpen
      ensures calls == [QueryChange(old(filteredCountries[index])), CountrySelect(old(filteredCountries[index]))]
      ensures calls[1].country in Countries && Matches(calls[1].country, value)
    {
      var country := filteredCountries[index];
      calls := HandleCountrySelect(country);
    }
  }

  /** The render guard `isOpen && filteredCountries.length > 0` is the same
      as `isOpen` alone in every valid state. */
  lemma DropdownGuard(bar: SearchBar)
    requires bar.Valid()
    ensures bar.DropdownShown() == bar.isOpen
  {
  }
}
