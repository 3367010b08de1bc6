/**
 * The card-history dialog (TransactionsDialog.kt): the records read from
 * sector 6, newest first, each shown with its amount and its kind.
 */
module CardHistory {
  import opened Collections
  import opened CardData

  /**
   * The comparator `compareByDescending { year }.thenByDescending { month }
   * ... { minute }`: `a` may precede `b` when it is at least as recent.
   */
  predicate NewerOrSame(a: TransactionRecord, b: TransactionRecord) {
    if a.year != b.year then a.year > b.year
    else if a.month != b.month then a.month > b.month
    else if a.day != b.day then a.day > b.day
    else if a.hour != b.hour then a.hour > b.hour
    else a.minute >= b.minute
  }

  lemma NewerOrSameIsTotalPreorder()
    ensures TotalPreorder(NewerOrSame)
  {
  }

  /** `sortedWith(...)`: a permutation of the records, newest first. */
  function SortNewestFirst(records: seq<TransactionRecord>): (r: seq<TransactionRecord>)
    ensures multiset(r) == multiset(records)
    ensures forall i, j :: 0 <= i < j < |r| ==> NewerOrSame(r[i], r[j])
  {
    NewerOrSameIsTotalPreorder();
    Sort(records, NewerOrSame)
  }

  /** The first record shown is at least as recent as every record read. */
  lemma NewestShownFirst(records: seq<TransactionRecord>, t: TransactionRecord)
    requires t in records
    ensures SortNewestFirst(records) != []
    ensures NewerOrSame(SortNewestFirst(records)[0], t)
  {
    var r := SortNewestFirst(records);
    assert t in multiset(records);
    assert t in multiset(r);
    var j :| 0 <= j < |r| && r[j] == t;
    if j == 0 {
      assert NewerOrSame(t, t);
    }
  }

  /** The amount shown for a record: the balance after minus the charged value. */
  function Amount(t: TransactionRecord): (a: int)
    ensures a + t.etebar == t.remEtebar
  {
    t.remEtebar - t.etebar
  }

  /** The kind shown for a record. */
  datatype Kind = Charge | Decrease | Unknown(op: int)

  function Classify(op: int): (k: Kind)
    ensures k == Charge <==> op == 1
    ensures k == Decrease <==> op == 2
    ensures k.Unknown? <==> op != 1 && op != 2
    ensures k.Unknown? ==> k.op == op
  {
    if op == 1 then Charge else if op == 2 then Decrease else Unknown(op)
  }
}
