/**
 * The local ledger: the `transaction` table of the app's Room database
 * (the row type of Transaction.kt and the queries of TransactionDao.kt).
 * `regDate` is the millisecond timestamp the type converter stores.
 */
module Ledger {
  import opened Wrappers
  import opened Tables
  import opened Collections

  /** `operationType` codes. */
  const OperationIncrease: int := 1
  const OperationDecrease: int := 2

  datatype Transaction = Transaction(
    id: int,
    cardId: int,
    uc: int,
    deviceId: int,
    operatorId: int,
    operationId: int,
    operationType: int,
    preCredit: int,
    price: int,
    finalCredit: int,
    regDate: int,
    hasSet: bool)

  /** The primary key. */
  function TxId(t: Transaction): int {
    t.id
  }

  /**
   * A freshly built row with the data class's defaults: `id` 0 (the store
   * generates one), `operationId` 0 (only the server assigns it),
   * `operatorId` 0 unless given, and not yet synced.
   */
  function NewTransaction(cardId: int, uc: int, deviceId: int, operationType: int, preCredit: int,
                          price: int, finalCredit: int, regDate: int, operatorId: int := 0): (t: Transaction)
    ensures t.id == 0 && t.operationId == 0 && !t.hasSet
    ensures t.operatorId == operatorId
    ensures t.cardId == cardId && t.uc == uc && t.deviceId == deviceId && t.operationType == operationType
    ensures t.preCredit == preCredit && t.price == price && t.finalCredit == finalCredit && t.regDate == regDate
  {
    Transaction(0, cardId, uc, deviceId, operatorId, 0, operationType, preCredit, price, finalCredit, regDate, false)
  }

  /**
   * The table's invariant: rows in primary-key order with unique keys, no
   * row with key 0 (Room reads 0 as "generate one"), and `nextId`, the
   * AUTOINCREMENT counter, above every key ever stored.
   */
  ghost predicate LedgerInvariant(rows: seq<Transaction>, nextId: int) {
    && KeysAscending(rows, TxId)
    && 1 <= nextId
    && forall i :: 0 <= i < |rows| ==> rows[i].id != 0 && rows[i].id < nextId
  }

  /** What `insertTransaction` leaves behind: the table, the counter, and the returned row id. */
  datatype InsertOutcome = InsertOutcome(rows: seq<Transaction>, nextId: int, rowId: int)

  /**
   * `@Insert(onConflict = IGNORE)`: id 0 takes the next generated key; an
   * explicit key already present is ignored and -1 returned; any other
   * explicit key is stored as given and moves the counter past it.
   */
  function InsertRow(rows: seq<Transaction>, nextId: int, t: Transaction): (o: InsertOutcome)
    requires LedgerInvariant(rows, nextId)
    ensures LedgerInvariant(o.rows, o.nextId)
    ensures t.id != 0 && HasKey(rows, TxId, t.id) ==> o == InsertOutcome(rows, nextId, -1)
    ensures !(t.id != 0 && HasKey(rows, TxId, t.id)) ==>
      && o.rowId == (if t.id == 0 then nextId else t.id)
      && Find(o.rows, TxId, o.rowId) == Some(t.(id := o.rowId))
      && |o.rows| == |rows| + 1
  {
    if t.id == 0 then
      UpsertKeepsInvariant(rows, nextId, t.(id := nextId), nextId + 1);
      InsertOutcome(Upsert(rows, TxId, t.(id := nextId)), nextId + 1, nextId)
    else if HasKey(rows, TxId, t.id) then
      InsertOutcome(rows, nextId, -1)
    else
      var next := if t.id >= nextId then t.id + 1 else nextId;
      UpsertKeepsInvariant(rows, nextId, t, next);
      InsertOutcome(Upsert(rows, TxId, t), next, t.id)
  }

  lemma UpsertKeepsInvariant(rows: seq<Transaction>, nextId: int, t: Transaction, next: int)
    requires LedgerInvariant(rows, nextId)
    requires t.id != 0 && t.id < next && nextId <= next
    ensures LedgerInvariant(Upsert(rows, TxId, t), next)
  {
    var r := Upsert(rows, TxId, t);
    forall i | 0 <= i < |r| ensures r[i].id != 0 && r[i].id < next {
      assert r[i] in r;
    }
  }

  /** A generated key is fresh: the new row goes to the end and nothing else moves. */
  lemma GeneratedInsertAppends(rows: seq<Transaction>, nextId: int, t: Transaction)
    requires LedgerInvariant(rows, nextId)
    requires t.id == 0
    ensures InsertRow(rows, nextId, t) == InsertOutcome(rows + [t.(id := nextId)], nextId + 1, nextId)
  {
    var row := t.(id := nextId);
    forall i | 0 <= i < |rows| ensures TxId(rows[i]) < TxId(row) {
    }
    UpsertAboveAll(rows, TxId, row);
  }

  /** Whatever is inserted, every row already stored keeps its key and contents. */
  lemma InsertKeepsStoredRows(rows: seq<Transaction>, nextId: int, t: Transaction, k: int)
    requires LedgerInvariant(rows, nextId)
    requires HasKey(rows, TxId, k)
    ensures Find(InsertRow(rows, nextId, t).rows, TxId, k) == Find(rows, TxId, k)
  {
  }

  predicate IsUnsynced(t: Transaction) {
    !t.hasSet
  }

  /** `getUnsyncedTransactions`: `WHERE has_set = 0`, in table order. */
  function Unsynced(rows: seq<Transaction>): (r: seq<Transaction>)
    ensures forall t :: t in r <==> t in rows && !t.hasSet
    ensures multiset(r) <= multiset(rows)
  {
    Filter(rows, IsUnsynced)
  }

  /** `observeUnsyncedCount`: `COUNT(id) ... WHERE has_set = 0`. */
  function UnsyncedCount(rows: seq<Transaction>): (n: nat)
    ensures n == |Unsynced(rows)|
    ensures n == 0 <==> forall i :: 0 <= i < |rows| ==> rows[i].hasSet
  {
    CountIsFilterLength(rows, IsUnsynced);
    UnsyncedEmptyIff(rows);
    CountWhere(rows, IsUnsynced)
  }

  lemma UnsyncedEmptyIff(rows: seq<Transaction>)
    ensures Unsynced(rows) == [] <==> forall i :: 0 <= i < |rows| ==> rows[i].hasSet
  {
    if Unsynced(rows) != [] {
      assert Unsynced(rows)[0] in Unsynced(rows);
    }
    forall i | 0 <= i < |rows| && !rows[i].hasSet
      ensures Unsynced(rows) != []
    {
      assert rows[i] in rows;
    }
  }

  /** `markAsSynced`: `UPDATE ... SET has_set = 1 WHERE id = :id`. */
  function MarkSynced(rows: seq<Transaction>, id: int): (r: seq<Transaction>)
    ensures |r| == |rows|
    ensures forall i :: 0 <= i < |rows| ==>
      r[i] == rows[i].(hasSet := rows[i].hasSet || rows[i].id == id)
  {
    if rows == [] then []
    else [rows[0].(hasSet := rows[0].hasSet || rows[0].id == id)] + MarkSynced(rows[1..], id)
  }

  /** Marking twice is marking once. */
  lemma MarkSyncedIdempotent(rows: seq<Transaction>, id: int)
    ensures MarkSynced(MarkSynced(rows, id), id) == MarkSynced(rows, id)
  {
  }

  /** Marking keeps the table invariant: keys are untouched. */
  lemma MarkSyncedKeepsInvariant(rows: seq<Transaction>, nextId: int, id: int)
    requires LedgerInvariant(rows, nextId)
    ensures LedgerInvariant(MarkSynced(rows, id), nextId)
  {
  }

  /** No stored row has key 0, so marking id 0 changes nothing. */
  lemma MarkAbsentId(rows: seq<Transaction>, nextId: int, id: int)
    requires LedgerInvariant(rows, nextId)
    requires id == 0 || id >= nextId
    ensures MarkSynced(rows, id) == rows
  {
  }

  /**
   * Marking removes exactly one row from the unsynced count when the key
   * names an unsynced row, and none otherwise.
   */
  lemma {:induction false} MarkSyncedUnsyncedCount(rows: seq<Transaction>, id: int)
    requires KeysAscending(rows, TxId)
    ensures UnsyncedCount(MarkSynced(rows, id)) ==
            UnsyncedCount(rows) - if Find(rows, TxId, id).Some? && !Find(rows, TxId, id).value.hasSet then 1 else 0
  {
    if rows != [] {
      var m := MarkSynced(rows, id);
      assert m[1..] == MarkSynced(rows[1..], id);
      MarkSyncedUnsyncedCount(rows[1..], id);
      if rows[0].id == id {
        assert !HasKey(rows[1..], TxId, id);
        assert MarkSynced(rows[1..], id) == rows[1..];
      }
    }
  }

  /** Marks every id of `ids`, one `markAsSynced` after another. */
  function MarkAll(rows: seq<Transaction>, ids: seq<int>): (r: seq<Transaction>)
    ensures |r| == |rows|
    decreases |ids|
  {
    if ids == [] then rows else MarkSynced(MarkAll(rows, ids[..|ids| - 1]), ids[|ids| - 1])
  }

  /** After marking a list of ids, a row is synced iff it was before or its id is listed; nothing else changes. */
  lemma {:induction false} MarkAllAt(rows: seq<Transaction>, ids: seq<int>, i: int)
    requires 0 <= i < |rows|
    ensures MarkAll(rows, ids)[i] == rows[i].(hasSet := rows[i].hasSet || rows[i].id in ids)
    decreases |ids|
  {
    if ids != [] {
      var front := ids[..|ids| - 1];
      MarkAllAt(rows, front, i);
      assert ids == front + [ids[|ids| - 1]];
    }
  }

  /** A charge (operationType 1) registered in [start, end], bounds included. */
  predicate IsChargeIn(t: Transaction, start: int, end: int) {
    t.operationType == OperationIncrease && start <= t.regDate <= end
  }

  /** The rows `calculateTotalCharge` adds up: charges registered in [start, end]. */
  function ChargesIn(rows: seq<Transaction>, start: int, end: int): seq<Transaction> {
    Filter(rows, (t: Transaction) => IsChargeIn(t, start, end))
  }

  /** The sum of `price` over `rows`, with 0 for no rows. */
  function PriceSum(rows: seq<Transaction>): int {
    if rows == [] then 0 else rows[0].price + PriceSum(rows[1..])
  }

  /**
   * `calculateTotalCharge`: `SELECT SUM(price) ... WHERE operationType = 1
   * AND regDate BETWEEN :start AND :end`; SQL's SUM of no rows is null.
   */
  function TotalCharge(rows: seq<Transaction>, start: int, end: int): (r: Option<int>)
    ensures r.None? <==> forall i :: 0 <= i < |rows| ==> !IsChargeIn(rows[i], start, end)
  {
    if rows == [] then None
    else
      var rest := TotalCharge(rows[1..], start, end);
      if IsChargeIn(rows[0], start, end) then Some(rows[0].price + rest.GetOr(0))
      else
        assert forall i :: 1 <= i < |rows| ==> rows[i] == rows[1..][i - 1];
        rest
  }

  /** A non-null total is the sum of the prices of exactly the charges in range. */
  lemma {:induction false} TotalChargeIsPriceSum(rows: seq<Transaction>, start: int, end: int)
    ensures TotalCharge(rows, start, end).GetOr(0) == PriceSum(ChargesIn(rows, start, end))
  {
    if rows != [] {
      TotalChargeIsPriceSum(rows[1..], start, end);
      var rest := ChargesIn(rows[1..], start, end);
      if IsChargeIn(rows[0], start, end) {
        assert ChargesIn(rows, start, end) == [rows[0]] + rest;
        assert ([rows[0]] + rest)[1..] == rest;
      } else {
        assert ChargesIn(rows, start, end) == rest;
      }
    }
  }

  /** A row added at the end contributes its price iff it is a charge in range. */
  lemma {:induction false} TotalChargeAppend(rows: seq<Transaction>, t: Transaction, start: int, end: int)
    ensures TotalCharge(rows + [t], start, end) ==
            if IsChargeIn(t, start, end) then Some(TotalCharge(rows, start, end).GetOr(0) + t.price)
            else TotalCharge(rows, start, end)
  {
    if rows != [] {
      assert (rows + [t])[1..] == rows[1..] + [t];
      TotalChargeAppend(rows[1..], t, start, end);
    } else {
      assert ([t])[1..] == [];
    }
  }

  /** Marking rows synced never changes the reported charge total. */
  lemma {:induction false} TotalChargeIgnoresSync(rows: seq<Transaction>, id: int, start: int, end: int)
    ensures TotalCharge(MarkSynced(rows, id), start, end) == TotalCharge(rows, start, end)
  {
    if rows != [] {
      assert MarkSynced(rows, id)[1..] == MarkSynced(rows[1..], id);
      TotalChargeIgnoresSync(rows[1..], id, start, end);
    }
  }

  /** Descending by registration time. */
  predicate NewerOrSame(a: Transaction, b: Transaction) {
    a.regDate >= b.regDate
  }

  predicate RegisteredIn(t: Transaction, start: int, end: int) {
    start <= t.regDate <= end
  }

  /** `observeAll`: `SELECT * ... ORDER BY regDate DESC`. */
  function ObserveAll(rows: seq<Transaction>): (r: seq<Transaction>)
    ensures multiset(r) == multiset(rows)
    ensures forall i, j :: 0 <= i < j < |r| ==> r[i].regDate >= r[j].regDate
  {
    NewerOrSameOrders();
    Sort(rows, NewerOrSame)
  }

  /** `getDeviceReportPaged`: `WHERE regDate BETWEEN :start AND :end ORDER BY regDate DESC`. */
  function DeviceReport(rows: seq<Transaction>, start: int, end: int): (r: seq<Transaction>)
    ensures forall t :: t in r <==> t in rows && start <= t.regDate <= end
    ensures multiset(r) == multiset(Filter(rows, (t: Transaction) => RegisteredIn(t, start, end)))
    ensures forall i, j :: 0 <= i < j < |r| ==> r[i].regDate >= r[j].regDate
  {
    NewerOrSameOrders();
    var inRange := Filter(rows, (t: Transaction) => RegisteredIn(t, start, end));
    var r := Sort(inRange, NewerOrSame);
    SameMembers(r, inRange);
    r
  }

  lemma NewerOrSameOrders()
    ensures TotalPreorder(NewerOrSame)
  {
  }

  lemma SameMembers(a: seq<Transaction>, b: seq<Transaction>)
    requires multiset(a) == multiset(b)
    ensures forall t :: t in a <==> t in b
  {
    forall t ensures t in a <==> t in b {
      assert t in a <==> t in multiset(a);
      assert t in b <==> t in multiset(b);
    }
  }

  /** `findByContents`: the rows with the given regDate, cardId and operationType, in table order. */
  function FindByContents(rows: seq<Transaction>, cardId: int, operationType: int, regDate: int): (r: seq<Transaction>)
    ensures forall t :: t in r <==> t in rows && t.regDate == regDate && t.cardId == cardId && t.operationType == operationType
    ensures multiset(r) <= multiset(rows)
  {
    Filter(rows, (t: Transaction) => t.regDate == regDate && t.cardId == cardId && t.operationType == operationType)
  }

  /** A newly built row is unsynced, so storing it raises the unsynced count by one. */
  lemma NewRowRaisesUnsyncedCount(rows: seq<Transaction>, nextId: int, t: Transaction)
    requires LedgerInvariant(rows, nextId)
    requires t.id == 0 && !t.hasSet
    ensures UnsyncedCount(InsertRow(rows, nextId, t).rows) == UnsyncedCount(rows) + 1
  {
    GeneratedInsertAppends(rows, nextId, t);
    CountWhereAppend(rows, t.(id := nextId), IsUnsynced);
  }

  /** Deleting a row keeps the table invariant. */
  lemma DeleteKeepsInvariant(rows: seq<Transaction>, nextId: int, id: int)
    requires LedgerInvariant(rows, nextId)
    ensures LedgerInvariant(DeleteKey(rows, TxId, id), nextId)
  {
    var r := DeleteKey(rows, TxId, id);
    forall i | 0 <= i < |r| ensures r[i].id != 0 && r[i].id < nextId {
      assert r[i] in r;
    }
  }

  /** The local `transaction` table, mutated in place by the DAO's write operations. */
  class TransactionDao {
    var rows: seq<Transaction>
    var nextId: int

    ghost predicate Valid()
      reads this
    {
      LedgerInvariant(rows, nextId)
    }

    constructor ()
      ensures Valid() && rows == [] && nextId == 1
    {
      rows := [];
      nextId := 1;
    }

    method InsertTransaction(t: Transaction) returns (rowId: int)
      requires Valid()
      modifies this
      ensures Valid()
      ensures InsertOutcome(rows, nextId, rowId) == InsertRow(old(rows), old(nextId), t)
    {
      var o := InsertRow(rows, nextId, t);
      rows, nextId, rowId := o.rows, o.nextId, o.rowId;
    }

    method MarkAsSynced(id: int)
      requires Valid()
      modifies this
      ensures Valid()
      ensures rows == MarkSynced(old(rows), id) && nextId == old(nextId)
    {
      MarkSyncedKeepsInvariant(rows, nextId, id);
      rows := MarkSynced(rows, id);
    }

    method DeleteTransaction(t: Transaction)
      requires Valid()
      modifies this
      ensures Valid()
      ensures rows == DeleteKey(old(rows), TxId, t.id) && nextId == old(nextId)
    {
      DeleteKeepsInvariant(rows, nextId, t.id);
      rows := DeleteKey(rows, TxId, t.id);
    }

    /** `clearAllTransactions`: the AUTOINCREMENT counter survives, so keys are never reused. */
    method ClearAllTransactions()
      requires Valid()
      modifies this
      ensures Valid()
      ensures rows == [] && nextId == old(nextId)
      ensures UnsyncedCount(rows) == 0
    {
      rows := [];
    }
  }
}
