/** The `user` table behind UserDao.kt: operators who may log in with a password. */
module Users {
  import opened Wrappers
  import opened Text
  import opened Tables
  import opened Collections

  datatype User = User(id: int, pass: string, name: string)

  function UserId(u: User): int {
    u.id
  }

  /** `ORDER BY name ASC` under SQLite's binary collation. */
  predicate NameOrder(a: User, b: User) {
    LexLessEq(a.name, b.name)
  }

  lemma NameOrderIsTotalPreorder()
    ensures TotalPreorder(NameOrder)
  {
    forall a: User, b: User ensures NameOrder(a, b) || NameOrder(b, a) {
      LexLessEqTotal(a.name, b.name);
    }
    forall a: User, b: User, c: User | NameOrder(a, b) && NameOrder(b, c) ensures NameOrder(a, c) {
      LexLessEqTransitive(a.name, b.name, c.name);
    }
  }

  /** `observeAll`: every user, sorted by name. */
  function ObserveAll(users: seq<User>): (r: seq<User>)
    ensures multiset(r) == multiset(users)
    ensures forall i, j :: 0 <= i < j < |r| ==> LexLessEq(r[i].name, r[j].name)
  {
    NameOrderIsTotalPreorder();
    Sort(users, NameOrder)
  }

  /** Users with equal names are next to each other in the sorted list. */
  lemma EqualNamesAdjacent(users: seq<User>, i: int, j: int, k: int)
    requires 0 <= i < j < k < |ObserveAll(users)|
    requires ObserveAll(users)[i].name == ObserveAll(users)[k].name
    ensures ObserveAll(users)[j].name == ObserveAll(users)[i].name
  {
    var r := ObserveAll(users);
    LexLessEqAntisymmetric(r[i].name, r[j].name);
  }

  /** `observeByPassword`: `WHERE pass = :password LIMIT 1`, the first match in key order. */
  function ObserveByPassword(users: seq<User>, password: string): (r: Option<User>)
    ensures r.Some? ==> r.value in users && r.value.pass == password
    ensures r.None? <==> forall i :: 0 <= i < |users| ==> users[i].pass != password
    ensures r.Some? ==> exists i :: 0 <= i < |users| && users[i] == r.value &&
                                    forall j :: 0 <= j < i ==> users[j].pass != password
  {
    if users == [] then None
    else if users[0].pass == password then
      assert users[0] == users[0];
      Some(users[0])
    else
      var rest := ObserveByPassword(users[1..], password);
      if rest.Some? then
        var i :| 0 <= i < |users[1..]| && users[1..][i] == rest.value &&
                 forall j :: 0 <= j < i ==> users[1..][j].pass != password;
        assert users[i + 1] == rest.value;
        rest
      else
        rest
  }

  /** `observeById`: `WHERE id = :id LIMIT 1`. */
  function ObserveById(users: seq<User>, id: int): (r: Option<User>)
    ensures r.Some? ==> r.value in users && r.value.id == id
    ensures r.None? ==> forall i :: 0 <= i < |users| ==> users[i].id != id
  {
    Find(users, UserId, id)
  }

  /** The `user` table, changed in place by the DAO's write operations. */
  class UserDao {
    var users: seq<User>

    ghost predicate Valid()
      reads this
    {
      KeysAscending(users, UserId)
    }

    constructor ()
      ensures Valid() && users == []
    {
      users := [];
    }

    /** `insertUser` with `IGNORE`: a user already stored under that id is kept. */
    method InsertUser(u: User)
      requires Valid()
      modifies this
      ensures Valid()
      ensures users == InsertIgnore(old(users), UserId, u)
      ensures HasKey(old(users), UserId, u.id) ==> users == old(users)
      ensures !HasKey(old(users), UserId, u.id) ==> ObserveById(users, u.id) == Some(u)
    {
      InsertIgnoreKeepsExisting(users, UserId, u);
      users := InsertIgnore(users, UserId, u);
    }

    method InsertOrReplaceAll(us: seq<User>)
      requires Valid()
      modifies this
      ensures Valid()
      ensures users == UpsertAll(old(users), UserId, us)
    {
      users := UpsertAll(users, UserId, us);
    }

    /** `updateUser`: replaces the stored user with the same id; without one nothing changes. */
    method UpdateUser(u: User)
      requires Valid()
      modifies this
      ensures Valid()
      ensures users == Update(old(users), UserId, u)
    {
      users := Update(users, UserId, u);
    }

    method DeleteUser(u: User)
      requires Valid()
      modifies this
      ensures Valid()
      ensures users == DeleteKey(old(users), UserId, u.id)
      ensures ObserveById(users, u.id) == None
    {
      users := DeleteKey(users, UserId, u.id);
    }

    method DeleteAllUsers()
      requires Valid()
      modifies this
      ensures Valid() && users == []
    {
      users := [];
    }

    /** `sync`: clear, then insert-or-replace the list, in one transaction. */
    method Sync(us: seq<User>)
      requires Valid()
      modifies this
      ensures Valid()
      ensures users == UpsertAll([], UserId, us)
      ensures forall k :: ObserveById(users, k) == LastWithKey(us, UserId, k)
    {
      DeleteAllUsers();
      InsertOrReplaceAll(us);
      forall k ensures ObserveById(users, k) == LastWithKey(us, UserId, k) {
        UpsertAllFind([], UserId, us, k);
      }
    }
  }

  /**
   * After a sync, a password logs in iff some listed user that no later entry
   * with the same id overrides carries it.
   */
  lemma SyncedLogin(us: seq<User>, password: string)
    ensures ObserveByPassword(UpsertAll([], UserId, us), password).Some? <==>
            exists k :: LastWithKey(us, UserId, k).Some? && LastWithKey(us, UserId, k).value.pass == password
  {
    var t := UpsertAll([], UserId, us);
    var r := ObserveByPassword(t, password);
    if r.Some? {
      FindStored(t, UserId, r.value);
      UpsertAllFind([], UserId, us, r.value.id);
      assert LastWithKey(us, UserId, r.value.id) == r;
    }
    forall k | LastWithKey(us, UserId, k).Some? && LastWithKey(us, UserId, k).value.pass == password
      ensures r.Some?
    {
      UpsertAllFind([], UserId, us, k);
      var u := LastWithKey(us, UserId, k).value;
      assert Find(t, UserId, k) == Some(u);
      var i :| 0 <= i < |t| && t[i] == u;
    }
  }
}
