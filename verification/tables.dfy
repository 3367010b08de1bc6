/**
 * A Room table with an integer primary key, as the rows SQLite keeps in
 * primary-key order. `key` projects a row onto its primary key.
 * The conflict strategies of Room's `@Insert` are `Upsert`
 * (`OnConflictStrategy.REPLACE`) and `InsertIgnore` (`IGNORE`);
 * `@Update` and `@Delete` match a row by its primary key.
 */
module Tables {
  import opened Wrappers

  /** Primary keys are unique and the rows are in key order. */
  predicate KeysAscending<T>(rows: seq<T>, key: T -> int) {
    forall i, j :: 0 <= i < j < |rows| ==> key(rows[i]) < key(rows[j])
  }

  /** The row whose primary key is `k` (`SELECT ... WHERE id = :k LIMIT 1`). */
  function Find<T>(rows: seq<T>, key: T -> int, k: int): (r: Option<T>)
    ensures r.Some? ==> r.value in rows && key(r.value) == k
    ensures r.None? ==> forall i :: 0 <= i < |rows| ==> key(rows[i]) != k
  {
    if rows == [] then None
    else if key(rows[0]) == k then Some(rows[0])
    else Find(rows[1..], key, k)
  }

  predicate HasKey<T>(rows: seq<T>, key: T -> int, k: int) {
    Find(rows, key, k).Some?
  }

  /** In a table with ascending keys, a stored row is what its own key finds. */
  lemma {:induction false} FindStored<T>(rows: seq<T>, key: T -> int, x: T)
    requires KeysAscending(rows, key) && x in rows
    ensures Find(rows, key, key(x)) == Some(x)
  {
    var i :| 0 <= i < |rows| && rows[i] == x;
    if i > 0 {
      assert key(rows[0]) < key(x);
      assert rows[1..][i - 1] == x;
      assert KeysAscending(rows[1..], key) by {
        forall a, b | 0 <= a < b < |rows[1..]| ensures key(rows[1..][a]) < key(rows[1..][b]) {
          assert rows[1..][a] == rows[a + 1] && rows[1..][b] == rows[b + 1];
        }
      }
      FindStored(rows[1..], key, x);
    }
  }

  /** Dropping the first row changes only what is found under that row's key. */
  lemma FindTail<T>(rows: seq<T>, key: T -> int, k: int)
    requires rows != [] && key(rows[0]) != k
    ensures Find(rows[1..], key, k) == Find(rows, key, k)
  {
  }

  /** Looking up a key in a table with `x` in front of `rest`. */
  lemma FindCons<T>(x: T, rest: seq<T>, key: T -> int, k: int)
    ensures Find([x] + rest, key, k) == if key(x) == k then Some(x) else Find(rest, key, k)
  {
    assert ([x] + rest)[1..] == rest;
  }

  /** A row whose key is below every key of an ordered table may go in front of it. */
  lemma KeysAscendingCons<T>(x: T, rest: seq<T>, key: T -> int)
    requires KeysAscending(rest, key)
    requires forall y :: y in rest ==> key(x) < key(y)
    ensures KeysAscending([x] + rest, key)
  {
    var r := [x] + rest;
    forall i, j | 0 <= i < j < |r| ensures key(r[i]) < key(r[j]) {
      assert r[j] == rest[j - 1];
      if i > 0 {
        assert r[i] == rest[i - 1];
      } else {
        assert rest[j - 1] in rest;
      }
    }
  }

  /** INSERT OR REPLACE: `row` takes the place of the row with its key, or joins in key order. */
  function Upsert<T(!new)>(rows: seq<T>, key: T -> int, row: T): (r: seq<T>)
    requires KeysAscending(rows, key)
    ensures KeysAscending(r, key)
    ensures Find(r, key, key(row)) == Some(row)
    ensures forall k :: k != key(row) ==> Find(r, key, k) == Find(rows, key, k)
    ensures forall x :: x in r ==> x == row || x in rows
    ensures |r| == if HasKey(rows, key, key(row)) then |rows| else |rows| + 1
  {
    if rows == [] then [row]
    else if key(row) < key(rows[0]) then
      UpsertInFront(rows, key, row);
      [row] + rows
    else if key(row) == key(rows[0]) then
      UpsertReplacesHead(rows, key, row);
      [row] + rows[1..]
    else
      var tail := Upsert(rows[1..], key, row);
      UpsertBehindHead(rows, key, row, tail);
      [rows[0]] + tail
  }

  lemma UpsertInFront<T>(rows: seq<T>, key: T -> int, row: T)
    requires KeysAscending(rows, key) && rows != [] && key(row) < key(rows[0])
    ensures KeysAscending([row] + rows, key)
    ensures Find([row] + rows, key, key(row)) == Some(row)
    ensures forall k :: k != key(row) ==> Find([row] + rows, key, k) == Find(rows, key, k)
    ensures !HasKey(rows, key, key(row))
  {
    forall y | y in rows ensures key(row) < key(y) {
      var i :| 0 <= i < |rows| && rows[i] == y;
      assert i == 0 || key(rows[0]) < key(rows[i]);
    }
    KeysAscendingCons(row, rows, key);
    forall k ensures Find([row] + rows, key, k) == if key(row) == k then Some(row) else Find(rows, key, k) {
      FindCons(row, rows, key, k);
    }
  }

  lemma UpsertReplacesHead<T>(rows: seq<T>, key: T -> int, row: T)
    requires KeysAscending(rows, key) && rows != [] && key(row) == key(rows[0])
    ensures KeysAscending([row] + rows[1..], key)
    ensures Find([row] + rows[1..], key, key(row)) == Some(row)
    ensures forall k :: k != key(row) ==> Find([row] + rows[1..], key, k) == Find(rows, key, k)
    ensures HasKey(rows, key, key(row))
  {
    var rest := rows[1..];
    forall y | y in rest ensures key(row) < key(y) {
      var i :| 0 <= i < |rest| && rest[i] == y;
      assert rows[i + 1] == y;
    }
    KeysAscendingCons(row, rest, key);
    forall k ensures Find([row] + rest, key, k) == if key(row) == k then Some(row) else Find(rest, key, k) {
      FindCons(row, rest, key, k);
    }
    forall k | k != key(row) ensures Find(rest, key, k) == Find(rows, key, k) {
      FindTail(rows, key, k);
    }
  }

  lemma UpsertBehindHead<T>(rows: seq<T>, key: T -> int, row: T, tail: seq<T>)
    requires KeysAscending(rows, key) && rows != [] && key(rows[0]) < key(row)
    requires KeysAscending(tail, key)
    requires forall x :: x in tail ==> x == row || x in rows[1..]
    ensures KeysAscending([rows[0]] + tail, key)
    ensures forall k :: k != key(rows[0]) ==> Find([rows[0]] + tail, key, k) == Find(tail, key, k)
    ensures Find([rows[0]] + tail, key, key(rows[0])) == Some(rows[0])
  {
    forall x | x in tail ensures key(rows[0]) < key(x) {
      if x != row {
        var i :| 0 <= i < |rows[1..]| && rows[1..][i] == x;
        assert rows[i + 1] == x;
      }
    }
    KeysAscendingCons(rows[0], tail, key);
    forall k ensures Find([rows[0]] + tail, key, k) == if key(rows[0]) == k then Some(rows[0]) else Find(tail, key, k) {
      FindCons(rows[0], tail, key, k);
    }
  }

  /** Dropping the first row keeps the order and every bound on the keys. */
  lemma AscendingTail<T>(rows: seq<T>, key: T -> int, bound: int)
    requires KeysAscending(rows, key) && rows != []
    requires forall i :: 0 <= i < |rows| ==> key(rows[i]) < bound
    ensures KeysAscending(rows[1..], key)
    ensures forall i :: 0 <= i < |rows[1..]| ==> key(rows[1..][i]) < bound
  {
    var rest := rows[1..];
    forall i, j | 0 <= i < j < |rest| ensures key(rest[i]) < key(rest[j]) {
      assert rest[i] == rows[i + 1] && rest[j] == rows[j + 1];
    }
    forall i | 0 <= i < |rest| ensures key(rest[i]) < bound {
      assert rest[i] == rows[i + 1];
    }
  }

  /** Upserting a key above the first row's leaves the first row in front. */
  lemma UpsertKeepsHead<T(!new)>(rows: seq<T>, key: T -> int, row: T)
    requires KeysAscending(rows, key) && rows != [] && key(rows[0]) < key(row)
    ensures Upsert(rows, key, row) == [rows[0]] + Upsert(rows[1..], key, row)
  {
  }

  /** A row whose key exceeds every stored key is appended at the end. */
  lemma {:induction false} UpsertAboveAll<T(!new)>(rows: seq<T>, key: T -> int, row: T)
    requires KeysAscending(rows, key)
    requires forall i :: 0 <= i < |rows| ==> key(rows[i]) < key(row)
    ensures Upsert(rows, key, row) == rows + [row]
  {
    if rows != [] {
      AscendingTail(rows, key, key(row));
      UpsertAboveAll(rows[1..], key, row);
      UpsertKeepsHead(rows, key, row);
      ConsTailAppend(rows, row);
    }
  }

  lemma ConsTailAppend<T>(s: seq<T>, x: T)
    requires s != []
    ensures [s[0]] + (s[1..] + [x]) == s + [x]
  {
    assert s == [s[0]] + s[1..];
  }

  /** INSERT OR IGNORE: an existing row with the same key wins. */
  function InsertIgnore<T(!new)>(rows: seq<T>, key: T -> int, row: T): (r: seq<T>)
    requires KeysAscending(rows, key)
    ensures KeysAscending(r, key)
  {
    if HasKey(rows, key, key(row)) then rows else Upsert(rows, key, row)
  }

  /** An ignored insert never alters the row already stored under that key. */
  lemma InsertIgnoreKeepsExisting<T(!new)>(rows: seq<T>, key: T -> int, row: T)
    requires KeysAscending(rows, key)
    ensures HasKey(rows, key, key(row)) ==> InsertIgnore(rows, key, row) == rows
    ensures !HasKey(rows, key, key(row)) ==> Find(InsertIgnore(rows, key, row), key, key(row)) == Some(row)
    ensures forall k :: Find(rows, key, k).Some? ==> Find(InsertIgnore(rows, key, row), key, k) == Find(rows, key, k)
  {
  }

  /** `@Insert(onConflict = REPLACE)` of a list: one upsert after another, in list order. */
  function UpsertAll<T(!new)>(rows: seq<T>, key: T -> int, rs: seq<T>): (r: seq<T>)
    requires KeysAscending(rows, key)
    ensures KeysAscending(r, key)
    ensures forall x :: x in r ==> x in rows || x in rs
    decreases |rs|
  {
    if rs == [] then rows
    else UpsertAll(Upsert(rows, key, rs[0]), key, rs[1..])
  }

  /** The last element of `rs` whose key is `k`. */
  function LastWithKey<T>(rs: seq<T>, key: T -> int, k: int): (r: Option<T>)
    ensures r.Some? ==> r.value in rs && key(r.value) == k
    ensures r.None? ==> forall i :: 0 <= i < |rs| ==> key(rs[i]) != k
  {
    if rs == [] then None
    else
      var later := LastWithKey(rs[1..], key, k);
      if later.Some? then later
      else if key(rs[0]) == k then Some(rs[0])
      else None
  }

  /** `LastWithKey` picks an element with key `k` that no later element with key `k` follows. */
  lemma {:induction false} LastWithKeyIsLast<T>(rs: seq<T>, key: T -> int, k: int)
    requires LastWithKey(rs, key, k).Some?
    ensures exists i :: 0 <= i < |rs| && rs[i] == LastWithKey(rs, key, k).value &&
                        forall j :: i < j < |rs| ==> key(rs[j]) != k
  {
    var later := LastWithKey(rs[1..], key, k);
    if later.Some? {
      LastWithKeyIsLast(rs[1..], key, k);
      var i :| 0 <= i < |rs[1..]| && rs[1..][i] == later.value &&
               forall j :: i < j < |rs[1..]| ==> key(rs[1..][j]) != k;
      assert rs[i + 1] == later.value;
      forall j | i + 1 < j < |rs| ensures key(rs[j]) != k {
        assert rs[j] == rs[1..][j - 1];
      }
    } else {
      forall j | 0 < j < |rs| ensures key(rs[j]) != k {
        assert rs[j] == rs[1..][j - 1];
      }
    }
  }

  /** After a replace-all, each key holds the last listed row with that key, or what it held before. */
  lemma {:induction false} UpsertAllFind<T(!new)>(rows: seq<T>, key: T -> int, rs: seq<T>, k: int)
    requires KeysAscending(rows, key)
    ensures Find(UpsertAll(rows, key, rs), key, k) ==
            if LastWithKey(rs, key, k).Some? then LastWithKey(rs, key, k) else Find(rows, key, k)
    decreases |rs|
  {
    if rs != [] {
      UpsertAllFind(Upsert(rows, key, rs[0]), key, rs[1..], k);
    }
  }

  /** `@Delete`: removes the row whose primary key is `k`, if any. */
  function DeleteKey<T(!new)>(rows: seq<T>, key: T -> int, k: int): (r: seq<T>)
    requires KeysAscending(rows, key)
    ensures KeysAscending(r, key)
    ensures Find(r, key, k) == None
    ensures forall k' :: k' != k ==> Find(r, key, k') == Find(rows, key, k')
    ensures forall x :: x in r ==> x in rows
  {
    if rows == [] then []
    else if key(rows[0]) == k then
      assert !HasKey(rows[1..], key, k);
      rows[1..]
    else
      var tail := DeleteKey(rows[1..], key, k);
      assert ([rows[0]] + tail)[1..] == tail;
      assert forall x :: x in tail ==> key(rows[0]) < key(x) by {
        forall x | x in tail ensures key(rows[0]) < key(x) {
          var i :| 0 <= i < |rows[1..]| && rows[1..][i] == x;
          assert rows[i + 1] == x;
        }
      }
      [rows[0]] + tail
  }

  /** `@Update`: replaces the row with the same primary key; without one nothing changes. */
  function Update<T(!new)>(rows: seq<T>, key: T -> int, row: T): (r: seq<T>)
    requires KeysAscending(rows, key)
    ensures KeysAscending(r, key)
    ensures HasKey(rows, key, key(row)) ==> Find(r, key, key(row)) == Some(row)
    ensures !HasKey(rows, key, key(row)) ==> r == rows
    ensures forall k :: k != key(row) ==> Find(r, key, k) == Find(rows, key, k)
  {
    if HasKey(rows, key, key(row)) then Upsert(rows, key, row) else rows
  }
}
