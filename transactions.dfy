/** The transaction history of src/screens/TransactionsScreen.tsx: the
    type/status filters, the sent and received totals, and the row labels.
    Amounts are exact reals. */
module Transactions {
  import opened Strings
  import opened Seqs
  import opened Api

  datatype TypeFilter = AllTypes | OnlyType(txType: TxType)
  datatype StatusFilter = AllStatuses | OnlyStatus(status: TxStatus)

  /** The filter callback: both the type and the status condition hold. */
  predicate Keeps(typeFilter: TypeFilter, statusFilter: StatusFilter, tx: Transaction)
  {
    && (typeFilter.AllTypes? || tx.txType == typeFilter.txType)
    && (statusFilter.AllStatuses? || tx.status == statusFilter.status)
  }

  /** `filteredTransactions` */
  function FilteredTransactions(txs: seq<Transaction>, typeFilter: TypeFilter, statusFilter: StatusFilter)
    : (r: seq<Transaction>)
    ensures forall i :: 0 <= i < |r| ==> r[i] in txs && Keeps(typeFilter, statusFilter, r[i])
    ensures forall i :: 0 <= i < |txs| && Keeps(typeFilter, statusFilter, txs[i]) ==> txs[i] in r
  {
    Filter(txs, tx => Keeps(typeFilter, statusFilter, tx))
  }

  /** The list keeps its order under any filter. */
  lemma FilteredKeepsOrder(txs: seq<Transaction>, typeFilter: TypeFilter, statusFilter: StatusFilter)
    ensures IsSubsequence(FilteredTransactions(txs, typeFilter, statusFilter), txs)
  {
    FilterIsSubsequence(txs, tx => Keeps(typeFilter, statusFilter, tx));
  }

  /** With both filters on "all" every transaction is listed. */
  lemma NoFilterListsAll(txs: seq<Transaction>)
    ensures FilteredTransactions(txs, AllTypes, AllStatuses) == txs
  {
    FilterKeepsAll(txs, tx => Keeps(AllTypes, AllStatuses, tx));
  }

  /** The `reduce((sum, t) => sum + t.amount, 0)` of a list. */
  function AmountSum(txs: seq<Transaction>): real
  {
    if txs == [] then 0.0 else txs[0].amount + AmountSum(txs[1..])
  }

  predicate IsSent(tx: Transaction) { tx.txType == Sent }
  predicate IsReceived(tx: Transaction) { tx.txType == Received }

  /** `stats.totalSent`, over all transactions whatever the filters. */
  function TotalSent(txs: seq<Transaction>): real
  {
    AmountSum(Filter(txs, IsSent))
  }

  /** `stats.totalReceived`, over all transactions whatever the filters. */
  function TotalReceived(txs: seq<Transaction>): real
  {
    AmountSum(Filter(txs, IsReceived))
  }

  /** Every transaction is sent or received, so the two totals add up to the
      sum of all amounts. */
  lemma {:induction false} TotalsCoverAll(txs: seq<Transaction>)
    ensures TotalSent(txs) + TotalReceived(txs) == AmountSum(txs)
    decreases |txs|
  {
    if txs != [] {
      var x, rest := txs[0], txs[1..];
      assert txs == [x] + rest;
      TotalsCoverAll(rest);
      FilterCons(x, rest, IsSent);
      FilterCons(x, rest, IsReceived);
      SumCons(x, Filter(rest, IsSent));
      SumCons(x, Filter(rest, IsReceived));
    }
  }

  lemma SumCons(x: Transaction, rest: seq<Transaction>)
    ensures AmountSum([x] + rest) == x.amount + AmountSum(rest)
  {
    assert ([x] + rest)[1..] == rest;
  }

  /** The totals of positive amounts are never negative. */
  lemma {:induction false} AmountSumNonNegative(txs: seq<Transaction>)
    requires forall i :: 0 <= i < |txs| ==> txs[i].amount >= 0.0
    ensures AmountSum(txs) >= 0.0
    decreases |txs|
  {
    if txs != [] {
      AmountSumNonNegative(txs[1..]);
    }
  }

  /** The fixture list sends 275 and receives 200. */
  lemma FixtureTotals()
    ensures TotalSent(GetTransactions()) == 275.0
    ensures TotalReceived(GetTransactions()) == 200.0
  {
    var t := GetTransactions();
    var s3 := [t[3]];
    var s2 := [t[2]] + s3;
    var s1 := [t[1]] + s2;
    assert t == [t[0]] + s1;
    assert s3 == [t[3]] + [];
    FilterCons(t[0], s1, IsSent);
    FilterCons(t[1], s2, IsSent);
    FilterCons(t[2], s3, IsSent);
    FilterCons(t[3], [], IsSent);
    FilterCons(t[0], s1, IsReceived);
    FilterCons(t[1], s2, IsReceived);
    FilterCons(t[2], s3, IsReceived);
    FilterCons(t[3], [], IsReceived);
    SumCons(t[3], []);
    SumCons(t[1], [t[3]]);
    SumCons(t[0], [t[1]] + [t[3]]);
    SumCons(t[2], []);
  }

  /** The badge text: the status with its first letter upper-cased. */
  function StatusLabel(s: TxStatus): (r: string)
    ensures s == Completed ==> r == "Completed"
    ensures s == Pending ==> r == "Pending"
    ensures s == Failed ==> r == "Failed"
  {
    match s
    case Completed =>
      assert UpperChar('c') == 'C' && "completed"[1..] == "ompleted";
      Capitalize("completed")
    case Pending =>
      assert UpperChar('p') == 'P' && "pending"[1..] == "ending";
      Capitalize("pending")
    case Failed =>
      assert UpperChar('f') == 'F' && "failed"[1..] == "ailed";
      Capitalize("failed")
  }

  /** The sign before the amount: '-' for money sent, '+' otherwise. */
  function AmountPrefix(t: TxType): (r: string)
    ensures |r| == 1
    ensures r[0] == '-' <==> t.Sent?
    ensures r[0] == '+' <==> t.Received?
  {
    if t.Sent? then "-" else "+"
  }
}
