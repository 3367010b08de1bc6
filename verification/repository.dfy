/**
 * The repository between the app and its two stores
 * (SqlServerRepository.kt): the remote SQL server, whose answers are given
 * here as inputs, and the local Room tables.
 */
module Repository {
  import opened Wrappers
  import opened Text
  import opened Tables
  import opened Ledger
  import opened Credits
  import opened Users

  /**
   * What the remote service answers to a request. Every answer carries a
   * message: `saveRemoteTransaction` reads `response.message` whatever the
   * variant.
   */
  datatype SqlResponse =
    | Success(message: string)
    | Failure(message: string)
    | NoConnection(message: string)
    | NotRow(message: string)

  /** The server's message when a row with that key is already there. */
  const DuplicateKeyMarker: string := "Cannot insert duplicate key in object"

  /** Why a row could not be sent: the server's own message, or an unexpected reply. */
  datatype FailReason = ServerError(message: string) | UnexpectedResponse

  /** One entry of the failed list, "transaction <id>: <reason>". */
  datatype FailedEntry = FailedEntry(id: int, reason: FailReason)

  /** The summary message `postUnsentTransactions` returns, with the numbers it quotes. */
  datatype SyncSummary =
    | NothingToSend
    | Disconnected(successes: nat, failures: nat, remaining: int)
    | AllSent(count: nat)
    | PartlySent(successes: nat, failed: seq<FailedEntry>)
    | NoneSent(failures: nat, first: FailedEntry)

  /** The loop's running state: the success counter, the failed list, and the ids marked synced. */
  datatype Tally = Tally(successes: nat, failed: seq<FailedEntry>, marked: seq<int>)

  /** Whether an answer makes the loop mark the row synced. */
  predicate MarksSynced(r: SqlResponse) {
    r.Success? || (r.Failure? && Contains(r.message, DuplicateKeyMarker))
  }

  /** The effect of one answer that is not a disconnect. */
  function Post(t: Tally, tx: Transaction, r: SqlResponse): (u: Tally)
    requires !r.NoConnection?
    ensures u.successes == t.successes + (if r.Success? then 1 else 0)
    ensures |u.failed| == |t.failed| + (if r.Success? then 0 else 1)
    ensures u.marked == t.marked + (if MarksSynced(r) then [tx.id] else [])
  {
    match r
    case Success(_) => Tally(t.successes + 1, t.failed, t.marked + [tx.id])
    case Failure(m) =>
      Tally(t.successes, t.failed + [FailedEntry(tx.id, ServerError(m))],
            t.marked + if Contains(m, DuplicateKeyMarker) then [tx.id] else [])
    case NotRow(_) => Tally(t.successes, t.failed + [FailedEntry(tx.id, UnexpectedResponse)], t.marked)
  }

  /** No disconnect among the first `n` answers. */
  predicate ConnectedFor(rs: seq<SqlResponse>, n: int) {
    forall j :: 0 <= j < n && j < |rs| ==> !rs[j].NoConnection?
  }

  /** The tally after the first `n` rows were posted, none of them cut off. */
  function TallyUpTo(txs: seq<Transaction>, rs: seq<SqlResponse>, n: nat): Tally
    requires n <= |txs| == |rs| && ConnectedFor(rs, n)
  {
    if n == 0 then Tally(0, [], []) else Post(TallyUpTo(txs, rs, n - 1), txs[n - 1], rs[n - 1])
  }

  /** The position of the first disconnect, or the length when there is none. */
  function FirstDisconnect(rs: seq<SqlResponse>): (k: nat)
    ensures k <= |rs| && ConnectedFor(rs, k)
    ensures k < |rs| ==> rs[k].NoConnection?
  {
    if rs == [] then 0
    else if rs[0].NoConnection? then 0
    else 1 + FirstDisconnect(rs[1..])
  }

  /** The message chosen once every row has been posted. */
  function Finish(successes: nat, failed: seq<FailedEntry>): (s: SyncSummary)
    ensures s.AllSent? <==> failed == []
    ensures s.PartlySent? <==> failed != [] && successes > 0
    ensures s.NoneSent? <==> failed != [] && successes == 0
    ensures s.NoneSent? ==> s.failures == |failed| && s.first == failed[0]
  {
    if failed == [] then AllSent(successes)
    else if successes > 0 then PartlySent(successes, failed)
    else NoneSent(|failed|, failed[0])
  }

  /** What `postUnsentTransactions` returns when the server answers `rs[i]` to the i-th row. */
  function Summary(txs: seq<Transaction>, rs: seq<SqlResponse>): SyncSummary
    requires |txs| == |rs|
  {
    if txs == [] then NothingToSend
    else
      var k := FirstDisconnect(rs);
      var t := TallyUpTo(txs, rs, k);
      if k < |rs| then Disconnected(t.successes, |t.failed|, |txs| - t.successes - |t.failed|)
      else Finish(t.successes, t.failed)
  }

  /** The ids the loop marks synced, in the order it marks them. */
  function Marked(txs: seq<Transaction>, rs: seq<SqlResponse>): seq<int>
    requires |txs| == |rs|
  {
    if txs == [] then [] else TallyUpTo(txs, rs, FirstDisconnect(rs)).marked
  }

  /** Every row posted before a disconnect is either a success or one failed entry. */
  lemma {:induction false} TallyCounts(txs: seq<Transaction>, rs: seq<SqlResponse>, n: nat)
    requires n <= |txs| == |rs| && ConnectedFor(rs, n)
    ensures TallyUpTo(txs, rs, n).successes + |TallyUpTo(txs, rs, n).failed| == n
  {
    if n > 0 {
      TallyCounts(txs, rs, n - 1);
    }
  }

  /** After a disconnect the numbers quoted add up to the list's size, and at least one row is left. */
  lemma DisconnectAccounting(txs: seq<Transaction>, rs: seq<SqlResponse>)
    requires |txs| == |rs|
    requires Summary(txs, rs).Disconnected?
    ensures Summary(txs, rs).successes + Summary(txs, rs).failures + Summary(txs, rs).remaining == |txs|
    ensures Summary(txs, rs).remaining >= 1
    ensures Summary(txs, rs).remaining == |txs| - FirstDisconnect(rs)
  {
    TallyCounts(txs, rs, FirstDisconnect(rs));
  }

  /** An id is marked exactly when some row posted before the disconnect carries it and was answered by a marking reply. */
  lemma {:induction false} MarkedIff(txs: seq<Transaction>, rs: seq<SqlResponse>, n: nat, id: int)
    requires n <= |txs| == |rs| && ConnectedFor(rs, n)
    ensures id in TallyUpTo(txs, rs, n).marked <==>
            exists j :: 0 <= j < n && txs[j].id == id && MarksSynced(rs[j])
  {
    if n > 0 {
      MarkedIff(txs, rs, n - 1, id);
    }
  }

  /** With distinct ids, no row from the disconnect onwards is ever marked. */
  lemma LaterRowsNeverMarked(txs: seq<Transaction>, rs: seq<SqlResponse>, i: int)
    requires |txs| == |rs|
    requires forall a, b :: 0 <= a < b < |txs| ==> txs[a].id != txs[b].id
    requires FirstDisconnect(rs) <= i < |txs|
    ensures txs[i].id !in Marked(txs, rs)
  {
    MarkedIff(txs, rs, FirstDisconnect(rs), txs[i].id);
  }

  /** A run of answers without a failure is a run of successes. */
  lemma {:induction false} NoFailuresAllSuccess(txs: seq<Transaction>, rs: seq<SqlResponse>, n: nat)
    requires n <= |txs| == |rs| && ConnectedFor(rs, n)
    ensures TallyUpTo(txs, rs, n).failed == [] <==> forall j :: 0 <= j < n ==> rs[j].Success?
  {
    if n > 0 {
      NoFailuresAllSuccess(txs, rs, n - 1);
    }
  }

  /** The all-sent message is chosen exactly when every answer was a success, and it counts every row. */
  lemma AllSentIff(txs: seq<Transaction>, rs: seq<SqlResponse>)
    requires |txs| == |rs| && txs != []
    ensures Summary(txs, rs).AllSent? <==> forall j :: 0 <= j < |rs| ==> rs[j].Success?
    ensures Summary(txs, rs).AllSent? ==> Summary(txs, rs).count == |txs|
  {
    var k := FirstDisconnect(rs);
    NoFailuresAllSuccess(txs, rs, k);
    TallyCounts(txs, rs, k);
  }

  /** Without any success, the first failed entry is the first row's. */
  lemma {:induction false} FirstFailureIsFirstRow(txs: seq<Transaction>, rs: seq<SqlResponse>, n: nat)
    requires 0 < n <= |txs| == |rs| && ConnectedFor(rs, n)
    requires TallyUpTo(txs, rs, n).successes == 0
    ensures TallyUpTo(txs, rs, n).failed != [] && TallyUpTo(txs, rs, n).failed[0].id == txs[0].id
  {
    if n > 1 {
      FirstFailureIsFirstRow(txs, rs, n - 1);
    }
  }

  /** The none-sent message quotes the failure of the first row in the list. */
  lemma NoneSentQuotesFirstRow(txs: seq<Transaction>, rs: seq<SqlResponse>)
    requires |txs| == |rs|
    requires Summary(txs, rs).NoneSent?
    ensures Summary(txs, rs).first.id == txs[0].id
    ensures Summary(txs, rs).failures == |txs|
  {
    FirstFailureIsFirstRow(txs, rs, |txs|);
    TallyCounts(txs, rs, |txs|);
  }

  /** [Success, NoConnection, Success]: one success, no failure, two rows left, only the first marked. */
  lemma DisconnectExample(a: Transaction, b: Transaction, c: Transaction, m1: string, m2: string, m3: string)
    ensures Summary([a, b, c], [Success(m1), NoConnection(m2), Success(m3)]) == Disconnected(1, 0, 2)
    ensures Marked([a, b, c], [Success(m1), NoConnection(m2), Success(m3)]) == [a.id]
  {
    var txs, rs := [a, b, c], [Success(m1), NoConnection(m2), Success(m3)];
    assert rs[1..][0].NoConnection?;
    assert FirstDisconnect(rs) == 1;
    assert TallyUpTo(txs, rs, 0) == Tally(0, [], []);
    assert TallyUpTo(txs, rs, 1) == Tally(1, [], [a.id]);
  }

  /** A duplicate-key failure is marked synced and still reported as failed. */
  lemma DuplicateKeyFailure(a: Transaction, m: string)
    requires Contains(m, DuplicateKeyMarker)
    ensures Summary([a], [Failure(m)]) == NoneSent(1, FailedEntry(a.id, ServerError(m)))
    ensures Marked([a], [Failure(m)]) == [a.id]
  {
    var txs, rs := [a], [Failure(m)];
    assert FirstDisconnect(rs) == 1 by {
      assert rs[1..] == [];
    }
    assert TallyUpTo(txs, rs, 0) == Tally(0, [], []);
    assert TallyUpTo(txs, rs, 1) == Tally(0, [FailedEntry(a.id, ServerError(m))], [a.id]);
  }

  /** `saveRemoteTransaction` marks the row synced on success or when the message is "DONE". */
  predicate ConfirmsSave(r: SqlResponse) {
    r.Success? || r.message == "DONE"
  }

  /** The ledger after `saveRemoteTransaction(t)` answered by `r`: the insert, then the mark by the argument's id. */
  function SavedRows(rows: seq<Transaction>, nextId: int, t: Transaction, r: SqlResponse): seq<Transaction>
    requires LedgerInvariant(rows, nextId)
  {
    var inserted := InsertRow(rows, nextId, t).rows;
    if ConfirmsSave(r) then MarkSynced(inserted, t.id) else inserted
  }

  /**
   * The app saves rows built with id 0; the mark then goes to id 0, which no
   * row has, so the stored copy stays unsynced even when the server took it.
   */
  lemma FreshSaveStaysUnsynced(rows: seq<Transaction>, nextId: int, t: Transaction, r: SqlResponse)
    requires LedgerInvariant(rows, nextId)
    requires t.id == 0 && !t.hasSet
    ensures SavedRows(rows, nextId, t, r) == rows + [t.(id := nextId)]
    ensures UnsyncedCount(SavedRows(rows, nextId, t, r)) == UnsyncedCount(rows) + 1
  {
    var o := InsertRow(rows, nextId, t);
    GeneratedInsertAppends(rows, nextId, t);
    NewRowRaisesUnsyncedCount(rows, nextId, t);
    MarkAbsentId(o.rows, o.nextId, 0);
  }

  /** A row with its own new id is stored and, once confirmed, marked synced. */
  lemma ExplicitSaveConfirmed(rows: seq<Transaction>, nextId: int, t: Transaction, r: SqlResponse)
    requires LedgerInvariant(rows, nextId)
    requires t.id != 0 && !HasKey(rows, TxId, t.id)
    requires ConfirmsSave(r)
    ensures Find(SavedRows(rows, nextId, t, r), TxId, t.id) == Some(t.(hasSet := true))
  {
    var inserted := InsertRow(rows, nextId, t).rows;
    assert t.(id := t.id) == t;
    MarkedRowFound(inserted, t);
  }

  lemma {:induction false} MarkedRowFound(rows: seq<Transaction>, t: Transaction)
    requires Find(rows, TxId, t.id) == Some(t)
    ensures Find(MarkSynced(rows, t.id), TxId, t.id) == Some(t.(hasSet := true))
  {
    if rows[0].id != t.id {
      assert MarkSynced(rows, t.id)[1..] == MarkSynced(rows[1..], t.id);
      MarkedRowFound(rows[1..], t);
    }
  }

  /** The repository with the three Room DAOs it was built with. */
  class SqlServerRepository {
    const ledger: TransactionDao
    const credits: CreditDao
    const users: UserDao

    ghost predicate Valid()
      reads ledger, credits, users
    {
      ledger.Valid() && credits.Valid() && users.Valid()
    }

    constructor (ledger: TransactionDao, credits: CreditDao, users: UserDao)
      ensures this.ledger == ledger && this.credits == credits && this.users == users
    {
      this.ledger := ledger;
      this.credits := credits;
      this.users := users;
    }

    /**
     * `postUnsentTransactions`: posts the rows one at a time, in order;
     * `responses[i]` is the server's answer to `transactions[i]`.
     */
    method PostUnsentTransactions(transactions: seq<Transaction>, responses: seq<SqlResponse>)
      returns (summary: SyncSummary)
      requires Valid() && |responses| == |transactions|
      modifies ledger
      ensures Valid()
      ensures summary == Summary(transactions, responses)
      ensures ledger.rows == MarkAll(old(ledger.rows), Marked(transactions, responses))
      ensures ledger.nextId == old(ledger.nextId)
    {
      if |transactions| == 0 {
        return NothingToSend;
      }
      var successes: nat := 0;
      var failed: seq<FailedEntry> := [];
      ghost var marked: seq<int> := [];
      for i := 0 to |transactions|
        invariant ledger.Valid()
        invariant ConnectedFor(responses, i)
        invariant Tally(successes, failed, marked) == TallyUpTo(transactions, responses, i)
        invariant ledger.rows == MarkAll(old(ledger.rows), marked)
        invariant ledger.nextId == old(ledger.nextId)
      {
        var t := transactions[i];
        match responses[i]
        case Success(_) =>
          ledger.MarkAsSynced(t.id);
          successes := successes + 1;
          marked := marked + [t.id];
        case Failure(m) =>
          failed := failed + [FailedEntry(t.id, ServerError(m))];
          if Contains(m, DuplicateKeyMarker) {
            ledger.MarkAsSynced(t.id);
            marked := marked + [t.id];
          }
        case NoConnection(_) =>
          assert FirstDisconnect(responses) == i;
          return Disconnected(successes, |failed|, |transactions| - successes - |failed|);
        case NotRow(_) =>
          failed := failed + [FailedEntry(t.id, UnexpectedResponse)];
      }
      assert FirstDisconnect(responses) == |responses|;
      summary := Finish(successes, failed);
    }

    /** `saveRemoteTransaction`: insert locally, post, and mark synced when the answer confirms it. */
    method SaveRemoteTransaction(t: Transaction, response: SqlResponse) returns (r: SqlResponse)
      requires Valid()
      modifies ledger
      ensures Valid()
      ensures r == response
      ensures ledger.rows == SavedRows(old(ledger.rows), old(ledger.nextId), t, response)
      ensures ledger.nextId == InsertRow(old(ledger.rows), old(ledger.nextId), t).nextId
    {
      var _ := ledger.InsertTransaction(t);
      if response.Success? || response.message == "DONE" {
        ledger.MarkAsSynced(t.id);
      }
      r := response;
    }

    /**
     * `syncDeviceBalance`: the server answers with the increment, or null;
     * only a positive increment is added to `preBalance` and stored.
     */
    method SyncDeviceBalance(preBalance: int, increment: Option<int>) returns (r: Option<int>)
      requires Valid()
      modifies credits
      ensures Valid()
      ensures r == increment
      ensures credits.credits == old(credits.credits)
      ensures credits.balances ==
        if increment.Some? && increment.value > 0
        then Upsert(old(credits.balances), BalanceId, NewBalance(preBalance + increment.value))
        else old(credits.balances)
    {
      if increment.Some? && increment.value > 0 {
        credits.InsertBalance(NewBalance(preBalance + increment.value));
      }
      r := increment;
    }

    /** `getRemoteMembers`: the fetched list replaces the local users unless it is empty. */
    method GetRemoteMembers(fetched: seq<User>) returns (r: seq<User>)
      requires Valid()
      modifies users
      ensures Valid()
      ensures r == fetched
      ensures users.users == if fetched == [] then old(users.users) else UpsertAll([], UserId, fetched)
    {
      if fetched != [] {
        users.Sync(fetched);
      }
      r := fetched;
    }

    /** `getRemoteCredits`: the fetched list replaces the local amounts unless it is empty. */
    method GetRemoteCredits(fetched: seq<Credit>) returns (r: seq<Credit>)
      requires Valid()
      modifies credits
      ensures Valid()
      ensures r == fetched
      ensures credits.credits == if fetched == [] then old(credits.credits) else UpsertAll([], CreditId, fetched)
      ensures credits.balances == old(credits.balances)
    {
      if fetched != [] {
        credits.Sync(fetched);
      }
      r := fetched;
    }
  }
}
