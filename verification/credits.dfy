/**
 * The `default_credit` table (the predefined top-up amounts) and the
 * `balance` table (the device's float, one row under key 1), both reached
 * through CreditDao.kt.
 */
module Credits {
  import opened Wrappers
  import opened Tables

  datatype Credit = Credit(id: int, price: int)

  datatype Balance = Balance(id: int, balance: int)

  function CreditId(c: Credit): int {
    c.id
  }

  function BalanceId(b: Balance): int {
    b.id
  }

  /** `Balance(balance = v)`: the data class's default key is 1. */
  function NewBalance(v: int): (b: Balance)
    ensures b.id == 1 && b.balance == v
  {
    Balance(1, v)
  }

  /** `observeBalance`: `SELECT balance FROM balance LIMIT 1`, the first row in key order, or null. */
  function ObserveBalance(balances: seq<Balance>): (r: Option<int>)
    ensures r.None? <==> balances == []
    ensures r.Some? ==> r.value == balances[0].balance
    ensures r.Some? && KeysAscending(balances, BalanceId) ==>
      forall i :: 0 <= i < |balances| ==> balances[0].id <= balances[i].id
  {
    if balances == [] then None else Some(balances[0].balance)
  }

  /**
   * `insertBalance(Balance(balance = v))`: when no stored key is below 1
   * (the app writes key 1 only), the new row comes first in key order, so
   * `observeBalance` then reports `v`, and no other row changes.
   */
  lemma StoredBalanceIsObserved(balances: seq<Balance>, v: int)
    requires KeysAscending(balances, BalanceId)
    requires forall i :: 0 <= i < |balances| ==> balances[i].id >= 1
    ensures ObserveBalance(Upsert(balances, BalanceId, NewBalance(v))) == Some(v)
    ensures forall k :: k != 1 ==> Find(Upsert(balances, BalanceId, NewBalance(v)), BalanceId, k) == Find(balances, BalanceId, k)
  {
    if balances != [] && balances[0].id == 1 {
      assert Upsert(balances, BalanceId, NewBalance(v)) == [NewBalance(v)] + balances[1..];
    }
  }

  /** The two tables, changed in place by the DAO's write operations. */
  class CreditDao {
    var credits: seq<Credit>
    var balances: seq<Balance>

    ghost predicate Valid()
      reads this
    {
      KeysAscending(credits, CreditId) && KeysAscending(balances, BalanceId)
    }

    constructor ()
      ensures Valid() && credits == [] && balances == []
    {
      credits := [];
      balances := [];
    }

    /** `observeAll`: `SELECT * FROM default_credit`, in key order. */
    function ObserveAll(): (r: seq<Credit>)
      reads this
      requires Valid()
      ensures KeysAscending(r, CreditId)
    {
      credits
    }

    method InsertOrReplaceAll(cs: seq<Credit>)
      requires Valid()
      modifies this
      ensures Valid()
      ensures credits == UpsertAll(old(credits), CreditId, cs) && balances == old(balances)
    {
      credits := UpsertAll(credits, CreditId, cs);
    }

    method DeleteAll()
      requires Valid()
      modifies this
      ensures Valid()
      ensures credits == [] && balances == old(balances)
    {
      credits := [];
    }

    /**
     * `sync`: clear, then insert-or-replace the list, in one transaction.
     * Each key ends up holding the last listed amount with that key.
     */
    method Sync(cs: seq<Credit>)
      requires Valid()
      modifies this
      ensures Valid()
      ensures credits == UpsertAll([], CreditId, cs) && balances == old(balances)
      ensures forall k :: Find(credits, CreditId, k) == LastWithKey(cs, CreditId, k)
    {
      DeleteAll();
      InsertOrReplaceAll(cs);
      forall k ensures Find(credits, CreditId, k) == LastWithKey(cs, CreditId, k) {
        UpsertAllFind([], CreditId, cs, k);
      }
    }

    method InsertBalance(b: Balance)
      requires Valid()
      modifies this
      ensures Valid()
      ensures balances == Upsert(old(balances), BalanceId, b) && credits == old(credits)
      ensures Find(balances, BalanceId, b.id) == Some(b)
    {
      balances := Upsert(balances, BalanceId, b);
    }
  }

  /**
   * After a sync, the stored amounts are exactly the listed ones that no later
   * entry with the same key overrides.
   */
  lemma SyncedCreditsAreListed(cs: seq<Credit>)
    ensures forall c :: c in UpsertAll([], CreditId, cs) ==> LastWithKey(cs, CreditId, c.id) == Some(c)
    ensures forall k :: LastWithKey(cs, CreditId, k).Some? ==>
                        LastWithKey(cs, CreditId, k).value in UpsertAll([], CreditId, cs)
  {
    var t := UpsertAll([], CreditId, cs);
    forall c | c in t ensures LastWithKey(cs, CreditId, c.id) == Some(c) {
      FindStored(t, CreditId, c);
      UpsertAllFind([], CreditId, cs, c.id);
    }
    forall k | LastWithKey(cs, CreditId, k).Some? ensures LastWithKey(cs, CreditId, k).value in t {
      UpsertAllFind([], CreditId, cs, k);
    }
  }
}
