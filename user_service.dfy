/**
 * `userService.findOrCreate`: look a user up by exact `wallet_address` with
 * `.eq(...).single()`, and insert one row when that yields nothing. The
 * `users` table is held by the class `UsersTable`; the database fills in each
 * new row's id, modelled as a counter.
 */
module UserService {
  import opened Wrappers

  datatype UserRow = UserRow(id: nat, walletAddress: string)

  /** The table's contents: its rows in insertion order and the next id the database hands out. */
  datatype Table = Table(rows: seq<UserRow>, nextId: nat)

  /** The rows whose wallet address equals `a` exactly, in table order. */
  function Matching(rows: seq<UserRow>, a: string): (r: seq<UserRow>)
    ensures |r| <= |rows|
    ensures forall u :: u in r <==> u in rows && u.walletAddress == a
    ensures r == [] <==> forall u :: u in rows ==> u.walletAddress != a
    decreases |rows|
  {
    if rows == [] then []
    else
      var rest := Matching(rows[1..], a);
      assert rows == [rows[0]] + rows[1..];
      if rows[0].walletAddress == a then [rows[0]] + rest else rest
  }

  /**
   * Each row with the address is selected as often as it occurs in the table,
   * and no other row is; so a single match means exactly one row has the address.
   */
  lemma {:induction false} MatchingCounts(rows: seq<UserRow>, a: string)
    ensures forall u :: multiset(Matching(rows, a))[u] == if u.walletAddress == a then multiset(rows)[u] else 0
    ensures |Matching(rows, a)| == 1 ==>
      forall u: UserRow :: u.walletAddress == a ==> multiset(rows)[u] == if u == Matching(rows, a)[0] then 1 else 0
    decreases |rows|
  {
    if rows != [] {
      MatchingCounts(rows[1..], a);
      assert rows == [rows[0]] + rows[1..];
    }
    var m := Matching(rows, a);
    if |m| == 1 {
      assert m == [m[0]];
    }
  }

  lemma {:induction false} MatchingAppend(rows: seq<UserRow>, x: UserRow, a: string)
    ensures Matching(rows + [x], a) == Matching(rows, a) + (if x.walletAddress == a then [x] else [])
    decreases |rows|
  {
    if rows == [] {
      assert [x][1..] == [];
    } else {
      assert (rows + [x])[1..] == rows[1..] + [x];
      MatchingAppend(rows[1..], x, a);
    }
  }

  /** `.single()`: the data is the row only when exactly one row matched, otherwise `null`. */
  function SelectSingle(rows: seq<UserRow>, a: string): (r: Option<UserRow>)
    ensures r.Some? <==> |Matching(rows, a)| == 1
    ensures r.Some? ==> r.value in rows && r.value.walletAddress == a
  {
    var m := Matching(rows, a);
    if |m| == 1 then Some(m[0]) else None
  }

  /** At most one row per address: what makes the lookup and insert behave as find-or-create. */
  ghost predicate Unique(rows: seq<UserRow>) {
    forall i, j :: 0 <= i < j < |rows| ==> rows[i].walletAddress != rows[j].walletAddress
  }

  /** Ids the database handed out: all below `nextId` and pairwise distinct. */
  ghost predicate IdsFresh(t: Table) {
    && (forall i :: 0 <= i < |t.rows| ==> t.rows[i].id < t.nextId)
    && (forall i, j :: 0 <= i < j < |t.rows| ==> t.rows[i].id != t.rows[j].id)
  }

  /**
   * The lookup's `data`: the lookup's own error is ignored, so a lookup that
   * fails (`lookupFailed`) reads as no user at all.
   */
  function LookedUp(t: Table, a: string, lookupFailed: bool): (r: Option<UserRow>)
    ensures lookupFailed ==> r.None?
    ensures !lookupFailed ==> (r.Some? <==> |Matching(t.rows, a)| == 1)
    ensures r.Some? ==> r.value in t.rows && r.value.walletAddress == a
  {
    if lookupFailed then None else SelectSingle(t.rows, a)
  }

  /**
   * One `findOrCreate(a)` call: the result (a row, or the insert error it
   * rethrows) and the table afterwards. The table only ever grows at its end.
   */
  function Provision(t: Table, a: string, lookupFailed: bool, insertError: Option<string>): (r: (Result<UserRow, string>, Table))
    ensures t.rows <= r.1.rows && |r.1.rows| <= |t.rows| + 1
    ensures r.0.Ok? ==> r.0.value in r.1.rows && r.0.value.walletAddress == a
  {
    match LookedUp(t, a, lookupFailed)
    case Some(user) => (Ok(user), t)
    case None =>
      match insertError
      case Some(e) => (Err(e), t)
      case None =>
        var created := UserRow(t.nextId, a);
        (Ok(created), Table(t.rows + [created], t.nextId + 1))
  }

  /** A row that matches exactly is returned unchanged and nothing is inserted. */
  lemma ExistingReturned(t: Table, a: string, insertError: Option<string>, u: UserRow)
    requires SelectSingle(t.rows, a) == Some(u)
    ensures Provision(t, a, false, insertError) == (Ok(u), t)
  {
  }

  /** With no single match and a successful insert, exactly one row for `a` is added and returned. */
  lemma InsertsOneRow(t: Table, a: string, lookupFailed: bool)
    requires LookedUp(t, a, lookupFailed).None?
    ensures var (r, t') := Provision(t, a, lookupFailed, None);
      && t'.rows == t.rows + [UserRow(t.nextId, a)]
      && r == Ok(UserRow(t.nextId, a))
  {
  }

  /** An insert error is rethrown as is; there is no retry and no second lookup. */
  lemma InsertErrorRethrown(t: Table, a: string, lookupFailed: bool, e: string)
    requires LookedUp(t, a, lookupFailed).None?
    ensures Provision(t, a, lookupFailed, Some(e)) == (Err(e), t)
  {
  }

  /**
   * Idempotence: when at most one row matched beforehand and both lookups
   * reach the table, a second call with the same address returns the record
   * of the first and inserts nothing.
   */
  lemma Idempotent(t: Table, a: string, e1: Option<string>, e2: Option<string>)
    requires |Matching(t.rows, a)| <= 1
    requires Provision(t, a, false, e1).0.Ok?
    ensures var (r1, t1) := Provision(t, a, false, e1);
      Provision(t1, a, false, e2) == (r1, t1) && |t1.rows| <= |t.rows| + 1
  {
    var (r1, t1) := Provision(t, a, false, e1);
    if SelectSingle(t.rows, a).None? {
      MatchingAppend(t.rows, UserRow(t.nextId, a), a);
      assert |Matching(t.rows, a)| == 0;
      assert Matching(t1.rows, a) == [UserRow(t.nextId, a)];
    }
  }

  /**
   * Without that premise idempotence fails: with two rows for the address the
   * lookup yields nothing, and every call inserts yet another row.
   */
  lemma DuplicatesDefeatLookup(a: string)
    ensures var t := Table([UserRow(0, a), UserRow(1, a)], 2);
      Provision(t, a, false, None).1.rows == t.rows + [UserRow(2, a)]
  {
    var t := Table([UserRow(0, a), UserRow(1, a)], 2);
    assert Matching(t.rows, a) == [UserRow(0, a), UserRow(1, a)] by {
      assert t.rows[1..] == [UserRow(1, a)];
      assert t.rows[1..][1..] == [];
    }
  }

  /** Matching is exact: an address that differs only in letter case is another key. */
  lemma CaseSensitiveKeys()
    ensures Provision(Table([UserRow(0, "0xAB")], 1), "0xab", false, None)
         == (Ok(UserRow(1, "0xab")), Table([UserRow(0, "0xAB"), UserRow(1, "0xab")], 2))
  {
    assert "0xAB" != "0xab" by { assert "0xAB"[2] != "0xab"[2]; }
    var row := UserRow(0, "0xAB");
    assert Matching([row], "0xab") == [] by {
      assert [row][1..] == [];
    }
    assert SelectSingle([row], "0xab") == None;
    assert [row] + [UserRow(1, "0xab")] == [row, UserRow(1, "0xab")];
  }

  /** Rows for every other address are untouched by the call. */
  lemma OthersUntouched(t: Table, a: string, b: string, lookupFailed: bool, insertError: Option<string>)
    requires b != a
    ensures Matching(Provision(t, a, lookupFailed, insertError).1.rows, b) == Matching(t.rows, b)
  {
    if LookedUp(t, a, lookupFailed).None? && insertError.None? {
      MatchingAppend(t.rows, UserRow(t.nextId, a), b);
    }
  }

  /** A table with at most one row per address keeps that property. */
  lemma {:induction false} UniquePreserved(t: Table, a: string, insertError: Option<string>)
    requires Unique(t.rows)
    ensures Unique(Provision(t, a, false, insertError).1.rows)
  {
    if SelectSingle(t.rows, a).None? && insertError.None? {
      var rows' := Provision(t, a, false, insertError).1.rows;
      NoMatchWhenUnique(t.rows, a);
      forall i, j | 0 <= i < j < |rows'| ensures rows'[i].walletAddress != rows'[j].walletAddress {
        if j == |t.rows| {
          assert rows'[i] in t.rows;
          assert rows'[i] !in Matching(t.rows, a);
        }
      }
    }
  }

  /**
   * A lookup that fails while the address already has its row leads to a
   * second row for the same address: nothing but the lookup guards uniqueness.
   */
  lemma FailedLookupDuplicates(t: Table, u: UserRow)
    requires u in t.rows
    ensures var rows' := Provision(t, u.walletAddress, true, None).1.rows;
      |Matching(rows', u.walletAddress)| >= 2 && !Unique(rows')
  {
    var a := u.walletAddress;
    var rows' := Provision(t, a, true, None).1.rows;
    MatchingAppend(t.rows, UserRow(t.nextId, a), a);
    assert u in Matching(t.rows, a);
    var i :| 0 <= i < |t.rows| && t.rows[i] == u;
    assert rows'[i] == u && rows'[|t.rows|].walletAddress == a;
  }

  /** In a table with at most one row per address, a failed single lookup means no row at all. */
  lemma {:induction false} NoMatchWhenUnique(rows: seq<UserRow>, a: string)
    requires Unique(rows)
    ensures |Matching(rows, a)| <= 1
    decreases |rows|
  {
    if rows != [] {
      NoMatchWhenUnique(rows[1..], a);
      if rows[0].walletAddress == a {
        forall x | x in rows[1..] ensures x.walletAddress != a {
          var k :| 0 <= k < |rows[1..]| && rows[1..][k] == x;
          assert rows[k + 1] == x;
        }
        assert Matching(rows[1..], a) == [];
      }
    }
  }

  /** The `users` table, updated in place by `findOrCreate`. */
  class UsersTable {
    var rows: seq<UserRow>
    var nextId: nat

    function Snapshot(): Table
      reads this
    {
      Table(rows, nextId)
    }

    ghost predicate Valid()
      reads this
    {
      IdsFresh(Snapshot())
    }

    constructor ()
      ensures Valid() && rows == [] && nextId == 0
    {
      rows := [];
      nextId := 0;
    }

    /**
     * `findOrCreate(walletAddress)`; `lookupFailed` and `insertError` are what
     * the database answers to the lookup and to the insert.
     */
    method FindOrCreate(walletAddress: string, lookupFailed: bool, insertError: Option<string>)
      returns (r: Result<UserRow, string>)
      requires Valid()
      modifies this
      ensures Valid()
      ensures (r, Snapshot()) == Provision(old(Snapshot()), walletAddress, lookupFailed, insertError)
    {
      var user := if lookupFailed then None else SelectSingle(rows, walletAddress);
      if user.Some? {
        return Ok(user.value);
      }
      if insertError.Some? {
        return Err(insertError.value);
      }
      var newUser := UserRow(nextId, walletAddress);
      rows := rows + [newUser];
      nextId := nextId + 1;
      r := Ok(newUser);
    }
  }
}
