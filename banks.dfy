/** The bank search of src/screens/ReceiveBankSelectionScreen.tsx. */
module BankSelection {
  import opened Strings
  import opened Seqs

  datatype Bank = Bank(id: string, name: string)

  /** The fixed list of banks, in display order, with ids "1".."7". */
  function Banks(): (r: seq<Bank>)
    ensures |r| == 7
    ensures forall i :: 0 <= i < |r| ==> r[i].id == [DigitChar(i + 1)]
    ensures forall i, j :: 0 <= i < j < |r| ==> r[i].id != r[j].id
  {
    [ Bank("1", "Bank Of Punjab"),
      Bank("2", "Bank Alfalah"),
      Bank("3", "JS Bank"),
      Bank("4", "United bank (UBL)"),
      Bank("5", "Allied Bank"),
      Bank("6", "Mcb Bank"),
      Bank("7", "Bank Al Habib") ]
  }

  predicate Listed(query: string, b: Bank)
  {
    MatchesIgnoringCase(b.name, query)
  }

  /** `filteredBanks`: the banks of the list whose name contains the query,
      ignoring case. The screen filters `Banks()`. */
  function FilteredBanks(bs: seq<Bank>, query: string): (r: seq<Bank>)
    ensures forall i :: 0 <= i < |r| ==> r[i] in bs && Listed(query, r[i])
    ensures forall i :: 0 <= i < |bs| && Listed(query, bs[i]) ==> bs[i] in r
  {
    Filter(bs, b => Listed(query, b))
  }

  lemma FilteredBanksKeepOrder(bs: seq<Bank>, query: string)
    ensures IsSubsequence(FilteredBanks(bs, query), bs)
  {
    FilterIsSubsequence(bs, b => Listed(query, b));
  }

  /** An empty query lists every bank in order: all seven of the fixture. */
  lemma EmptyQueryListsAll(bs: seq<Bank>)
    ensures FilteredBanks(bs, "") == bs
  {
    forall i | 0 <= i < |bs|
      ensures Listed("", bs[i])
    {
      MatchesEmpty(bs[i].name);
    }
    FilterKeepsAll(bs, b => Listed("", b));
  }

  lemma BankSearchIgnoresCase(bs: seq<Bank>, query: string)
    ensures FilteredBanks(bs, Lower(query)) == FilteredBanks(bs, query)
  {
    forall i | 0 <= i < |bs|
      ensures Listed(Lower(query), bs[i]) == Listed(query, bs[i])
    {
      MatchesLowerTerm(bs[i].name, query);
    }
    FilterCongruent(bs, b => Listed(Lower(query), b), b => Listed(query, b));
  }
}
