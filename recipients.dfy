/** The saved-recipients list of src/screens/RecipientsScreen.tsx: search by
    name or country, delete by id, and the two counters. */
module Recipients {
  import opened Strings
  import opened Seqs
  import opened Api

  /** A recipient is shown when its name or its country contains the term,
      ignoring case. */
  predicate Shown(term: string, r: Recipient)
  {
    MatchesIgnoringCase(r.name, term) || MatchesIgnoringCase(r.country, term)
  }

  /** `filteredRecipients` */
  function FilteredRecipients(rs: seq<Recipient>, term: string): (res: seq<Recipient>)
    ensures forall i :: 0 <= i < |res| ==> res[i] in rs && Shown(term, res[i])
    ensures forall i :: 0 <= i < |rs| && Shown(term, rs[i]) ==> rs[i] in res
  {
    Filter(rs, r => Shown(term, r))
  }

  lemma FilteredKeepsOrder(rs: seq<Recipient>, term: string)
    ensures IsSubsequence(FilteredRecipients(rs, term), rs)
  {
    FilterIsSubsequence(rs, r => Shown(term, r));
  }

  /** An empty search shows every recipient. */
  lemma EmptySearchShowsAll(rs: seq<Recipient>)
    ensures FilteredRecipients(rs, "") == rs
  {
    forall i | 0 <= i < |rs|
      ensures Shown("", rs[i])
    {
      MatchesEmpty(rs[i].name);
    }
    FilterKeepsAll(rs, r => Shown("", r));
  }

  /** The search ignores case: a term and its lower-cased form show the same list. */
  lemma SearchIgnoresCase(rs: seq<Recipient>, term: string)
    ensures FilteredRecipients(rs, Lower(term)) == FilteredRecipients(rs, term)
  {
    forall i | 0 <= i < |rs|
      ensures Shown(Lower(term), rs[i]) == Shown(term, rs[i])
    {
      MatchesLowerTerm(rs[i].name, term);
      MatchesLowerTerm(rs[i].country, term);
    }
    FilterCongruent(rs, r => Shown(Lower(term), r), r => Shown(term, r));
  }

  /** `recipients.filter((r) => r.id !== id)` */
  function WithoutId(rs: seq<Recipient>, id: int): (res: seq<Recipient>)
    ensures forall i :: 0 <= i < |res| ==> res[i].id != id && res[i] in rs
    ensures forall i :: 0 <= i < |rs| && rs[i].id != id ==> rs[i] in res
  {
    Filter(rs, (r: Recipient) => r.id != id)
  }

  /** Deleting keeps the other recipients in their order. */
  lemma DeleteKeepsOrder(rs: seq<Recipient>, id: int)
    ensures IsSubsequence(WithoutId(rs, id), rs)
  {
    FilterIsSubsequence(rs, (r: Recipient) => r.id != id);
  }

  /** Deleting an id twice is deleting it once. */
  lemma DeleteIdempotent(rs: seq<Recipient>, id: int)
    ensures WithoutId(WithoutId(rs, id), id) == WithoutId(rs, id)
  {
    FilterIdempotent(rs, (r: Recipient) => r.id != id);
  }

  /** The distinct countries, `new Set(recipients.map((r) => r.country))`. */
  function Countries(rs: seq<Recipient>): set<string>
  {
    set i | 0 <= i < |rs| :: rs[i].country
  }

  /** The Countries counter never exceeds the Total Recipients counter. */
  lemma {:induction false} CountriesAtMostRecipients(rs: seq<Recipient>)
    ensures |Countries(rs)| <= |rs|
    decreases |rs|
  {
    if rs != [] {
      CountriesAtMostRecipients(rs[1..]);
      assert Countries(rs) == {rs[0].country} + Countries(rs[1..]) by {
        forall c | c in Countries(rs)
          ensures c in {rs[0].country} + Countries(rs[1..])
        {
          var i :| 0 <= i < |rs| && rs[i].country == c;
          if i > 0 {
            assert rs[1..][i - 1].country == c;
          }
        }
        forall c | c in Countries(rs[1..])
          ensures c in Countries(rs)
        {
          var i :| 0 <= i < |rs[1..]| && rs[1..][i].country == c;
          assert rs[i + 1].country == c;
        }
      }
    } else {
      assert Countries(rs) == {};
    }
  }

  /** The fixture recipients live in three different countries. */
  lemma FixtureCountries()
    ensures Countries(GetRecipients()) == {"UK", "Canada", "Australia"}
    ensures |Countries(GetRecipients())| == 3
  {
    var rs := GetRecipients();
    assert rs[0].country == "UK" && rs[1].country == "Canada" && rs[2].country == "Australia";
  }

  class RecipientsScreen {
    var recipients: seq<Recipient>
    var searchTerm: string

    constructor ()
      ensures recipients == [] && searchTerm == ""
    {
      recipients := [];
      searchTerm := "";
    }

    /** `loadRecipients`, run when the screen mounts. */
    method LoadRecipients()
      modifies this`recipients
      ensures recipients == GetRecipients()
    {
      recipients := GetRecipients();
    }

    /** The search field's `onChangeText`. */
    method SetSearchTerm(term: string)
      modifies this`searchTerm
      ensures searchTerm == term
    {
      searchTerm := term;
    }

    /** `handleDelete(id)`: exactly the recipients with that id go. */
    method HandleDelete(id: int)
      modifies this`recipients
      ensures recipients == WithoutId(old(recipients), id)
      ensures forall i :: 0 <= i < |recipients| ==> recipients[i].id != id
    {
      recipients := WithoutId(recipients, id);
    }

    /** The list on screen and the two counters, computed from the state. */
    method Render() returns (shown: seq<Recipient>, total: nat, countries: nat)
      ensures shown == FilteredRecipients(recipients, searchTerm)
      ensures total == |recipients| && countries == |Countries(recipients)|
      ensures countries <= total
    {
      shown := FilteredRecipients(recipients, searchTerm);
      total := |recipients|;
      countries := |Countries(recipients)|;
      CountriesAtMostRecipients(recipients);
    }
  }
}
