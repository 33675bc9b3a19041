/**
 * The device table: the Client record of backend/src/models/client.js,
 * the table that holds it, the instance methods that change one row and
 * save it, and the finders that query the table.
 *
 * The table is kept as a sequence in insertion (primary-key) order; rows are
 * never removed. Every stored client_id is unique and a version-4 UUID:
 * the unique constraint and the isUUID validator refuse anything else.
 */
module ClientModel {
  import opened Wrappers
  import Uuid
  import Like
  import Query

  /** One row of the clients table. Nullable columns are Options; times are milliseconds. */
  datatype Client = Client(
    client_id: string,
    custom_name: Option<string>,
    hostname: Option<string>,
    os: Option<string>,
    platform: Option<string>,
    first_seen: int,
    last_seen: int,
    is_active: bool)

  /** No two rows share a client_id. */
  predicate UniqueIds(rows: seq<Client>) {
    forall i, j :: 0 <= i < j < |rows| ==> rows[i].client_id != rows[j].client_id
  }

  function Ids(rows: seq<Client>): set<string> {
    set i | 0 <= i < |rows| :: rows[i].client_id
  }

  /** Position of the first row with the given client_id, or -1. */
  function IndexOf(rows: seq<Client>, id: string): (k: int)
    ensures -1 <= k < |rows|
    ensures k >= 0 ==> rows[k].client_id == id
    ensures k == -1 <==> id !in Ids(rows)
  {
    if rows == [] then -1
    else if rows[0].client_id == id then 0
    else
      var k := IndexOf(rows[1..], id);
      assert Ids(rows) == {rows[0].client_id} + Ids(rows[1..]) by {
        forall x | x in Ids(rows) ensures x in {rows[0].client_id} + Ids(rows[1..]) {
          var i :| 0 <= i < |rows| && rows[i].client_id == x;
          if i > 0 { assert rows[1..][i - 1].client_id == x; }
        }
        forall x | x in Ids(rows[1..]) ensures x in Ids(rows) {
          var i :| 0 <= i < |rows[1..]| && rows[1..][i].client_id == x;
          assert rows[i + 1].client_id == x;
        }
      }
      if k == -1 then -1 else k + 1
  }

  /** Client.findByClientId: the row with that client_id, if any. */
  function FindByClientId(rows: seq<Client>, id: string): (r: Option<Client>)
    ensures r.Some? <==> id in Ids(rows)
    ensures r.Some? ==> r.value in rows && r.value.client_id == id
  {
    var k := IndexOf(rows, id);
    if k < 0 then None else Some(rows[k])
  }

  /** With unique identifiers the finder returns the one row that carries the identifier. */
  lemma FindUnique(rows: seq<Client>, c: Client)
    requires UniqueIds(rows)
    requires c in rows
    ensures FindByClientId(rows, c.client_id) == Some(c)
  {
    var j :| 0 <= j < |rows| && rows[j] == c;
    assert c.client_id in Ids(rows);
    var k := IndexOf(rows, c.client_id);
    assert k == j;
  }

  /** The rows after saving instance c: the row with c's client_id becomes c. */
  function Replaced(rows: seq<Client>, c: Client): (r: seq<Client>)
    ensures |r| == |rows|
    ensures forall i :: 0 <= i < |rows| ==> r[i] == if rows[i].client_id == c.client_id then c else rows[i]
  {
    seq(|rows|, i requires 0 <= i < |rows| => if rows[i].client_id == c.client_id then c else rows[i])
  }

  /**
   * Saving an instance writes exactly its own row: identifiers stay where
   * they are and unique, the finder now returns c for c's identifier and
   * what it returned before for every other identifier.
   */
  lemma SaveWritesOneRow(rows: seq<Client>, c: Client)
    requires UniqueIds(rows) && c.client_id in Ids(rows)
    ensures UniqueIds(Replaced(rows, c)) && Ids(Replaced(rows, c)) == Ids(rows)
    ensures FindByClientId(Replaced(rows, c), c.client_id) == Some(c)
    ensures forall id :: id != c.client_id ==> FindByClientId(Replaced(rows, c), id) == FindByClientId(rows, id)
  {
    var r := Replaced(rows, c);
    assert Ids(r) == Ids(rows) by {
      forall x | x in Ids(r) ensures x in Ids(rows) {
        var i :| 0 <= i < |r| && r[i].client_id == x;
      }
      forall x | x in Ids(rows) ensures x in Ids(r) {
        var i :| 0 <= i < |rows| && rows[i].client_id == x;
        assert r[i].client_id == x;
      }
    }
    var k := IndexOf(rows, c.client_id);
    assert r[k] == c;
    FindUnique(r, c);
    forall id | id != c.client_id
      ensures FindByClientId(r, id) == FindByClientId(rows, id)
    {
      var m := IndexOf(rows, id);
      if m >= 0 {
        assert r[m] == rows[m];
        FindUnique(r, rows[m]);
        FindUnique(rows, rows[m]);
      }
    }
  }

  /** Saving an instance that equals its stored row changes nothing. */
  lemma SaveUnchanged(rows: seq<Client>, c: Client)
    requires UniqueIds(rows) && c in rows
    ensures Replaced(rows, c) == rows
  {
    var j :| 0 <= j < |rows| && rows[j] == c;
    var r := Replaced(rows, c);
    forall i | 0 <= i < |rows| ensures r[i] == rows[i] {
      if i != j { assert rows[i].client_id != c.client_id; }
    }
  }

  /** A findAll WHERE clause over the table: each present part must hold. */
  datatype Where = Where(is_active: Option<bool>, os: Option<string>, search: Option<string>)

  /** custom_name ILIKE '%q%' OR hostname ILIKE '%q%'; a NULL column never matches. */
  predicate SearchHit(c: Client, q: string) {
    var p := "%" + q + "%";
    (c.custom_name.Some? && Like.ILike(c.custom_name.value, p)) || (c.hostname.Some? && Like.ILike(c.hostname.value, p))
  }

  predicate Accepts(w: Where, c: Client) {
    && (w.is_active.Some? ==> c.is_active == w.is_active.value)
    && (w.os.Some? ==> c.os == w.os)
    && (w.search.Some? ==> SearchHit(c, w.search.value))
  }

  /** For a search term without wildcard characters the search is a case-insensitive substring test. */
  lemma SearchIsSubstring(c: Client, q: string)
    requires Like.Literal(q)
    ensures SearchHit(c, q) <==>
      (c.custom_name.Some? && Like.Contains(Like.LowerStr(c.custom_name.value), Like.LowerStr(q))) ||
      (c.hostname.Some? && Like.Contains(Like.LowerStr(c.hostname.value), Like.LowerStr(q)))
  {
    if c.custom_name.Some? { Like.SubstringPatternIgnoringCase(c.custom_name.value, q); }
    if c.hostname.Some? { Like.SubstringPatternIgnoringCase(c.hostname.value, q); }
  }

  /** ORDER BY last_seen DESC is ascending order of the negated time. */
  function LastSeenDesc(c: Client): int {
    -c.last_seen
  }

  /** Client.findAll({where: w, order: [['last_seen', 'DESC']]}). */
  function FindAll(rows: seq<Client>, w: Where): (r: seq<Client>)
    ensures forall c :: multiset(r)[c] == if Accepts(w, c) then multiset(rows)[c] else 0
    ensures forall i, j :: 0 <= i < j < |r| ==> r[i].last_seen >= r[j].last_seen
  {
    var r := Query.SortBy(Query.Filter(rows, c => Accepts(w, c)), LastSeenDesc);
    assert forall i, j :: 0 <= i < j < |r| ==> LastSeenDesc(r[i]) <= LastSeenDesc(r[j]);
    r
  }

  /** Client.findActive: exactly the active rows, most recently seen first. */
  function FindActive(rows: seq<Client>): (r: seq<Client>)
    ensures forall c :: multiset(r)[c] == if c.is_active then multiset(rows)[c] else 0
    ensures forall i, j :: 0 <= i < j < |r| ==> r[i].last_seen >= r[j].last_seen
  {
    FindAll(rows, Where(Some(true), None, None))
  }

  /** Client.findInactive: exactly the inactive rows, most recently seen first. */
  function FindInactive(rows: seq<Client>): (r: seq<Client>)
    ensures forall c :: multiset(r)[c] == if !c.is_active then multiset(rows)[c] else 0
    ensures forall i, j :: 0 <= i < j < |r| ==> r[i].last_seen >= r[j].last_seen
  {
    FindAll(rows, Where(Some(false), None, None))
  }

  /** The active and the inactive finders together return every row exactly once. */
  lemma ActiveInactivePartition(rows: seq<Client>)
    ensures multiset(FindActive(rows)) + multiset(FindInactive(rows)) == multiset(rows)
    ensures multiset(FindActive(rows)) * multiset(FindInactive(rows)) == multiset{}
  {
    var a, b := multiset(FindActive(rows)), multiset(FindInactive(rows));
    forall c ensures (a + b)[c] == multiset(rows)[c] && (a * b)[c] == 0 {
      assert a[c] == if c.is_active then multiset(rows)[c] else 0;
      assert b[c] == if !c.is_active then multiset(rows)[c] else 0;
    }
    assert a + b == multiset(rows);
    assert a * b == multiset{};
  }

  /**
   * The clients table. Instance methods of the source (rename, deactivate,
   * activate, updateLastSeen) take the fetched instance, change one field
   * and save it; they return the changed instance.
   */
  class ClientTable {
    var rows: seq<Client>

    ghost predicate Valid()
      reads this
    {
      && UniqueIds(rows)
      && forall i :: 0 <= i < |rows| ==> Uuid.IsUuidV4(rows[i].client_id)
    }

    constructor ()
      ensures Valid() && rows == []
    {
      rows := [];
    }

    /**
     * Client.create: the isUUID(4) validator and the unique constraint on
     * client_id decide whether the row is inserted.
     */
    method Create(c: Client) returns (ok: bool)
      requires Valid()
      modifies this
      ensures Valid()
      ensures ok <==> Uuid.IsUuidV4(c.client_id) && c.client_id !in Ids(old(rows))
      ensures rows == if ok then old(rows) + [c] else old(rows)
      ensures Ids(rows) == if ok then Ids(old(rows)) + {c.client_id} else Ids(old(rows))
    {
      ok := Uuid.IsUuidV4(c.client_id) && IndexOf(rows, c.client_id) == -1;
      if ok {
        ghost var before := rows;
        rows := rows + [c];
        assert Ids(rows) == Ids(before) + {c.client_id} by {
          forall x | x in Ids(rows) ensures x in Ids(before) + {c.client_id} {
            var i :| 0 <= i < |rows| && rows[i].client_id == x;
            if i < |before| { assert before[i].client_id == x; }
          }
          forall x | x in Ids(before) ensures x in Ids(rows) {
            var i :| 0 <= i < |before| && before[i].client_id == x;
            assert rows[i].client_id == x;
          }
          assert rows[|before|].client_id == c.client_id;
        }
        forall i | 0 <= i < |before| ensures before[i].client_id != c.client_id {
          assert before[i].client_id in Ids(before);
        }
      }
    }

    /** instance.save(): writes the instance back to the row with its client_id. */
    method Save(c: Client)
      requires Valid() && c.client_id in Ids(rows)
      modifies this
      ensures Valid()
      ensures rows == Replaced(old(rows), c)
      ensures Ids(rows) == Ids(old(rows))
    {
      SaveWritesOneRow(rows, c);
      rows := Replaced(rows, c);
    }

    /** rename(newName): sets custom_name, nothing else, and saves. */
    method Rename(c: Client, newName: Option<string>) returns (renamed: Client)
      requires Valid() && c in rows
      modifies this
      ensures Valid() && Ids(rows) == Ids(old(rows))
      ensures renamed == c.(custom_name := newName)
      ensures rows == Replaced(old(rows), renamed)
    {
      renamed := c.(custom_name := newName);
      Save(renamed);
    }

    /** deactivate(): sets is_active to false and saves; on an inactive row it changes nothing. */
    method Deactivate(c: Client) returns (deactivated: Client)
      requires Valid() && c in rows
      modifies this
      ensures Valid() && Ids(rows) == Ids(old(rows))
      ensures deactivated == c.(is_active := false)
      ensures rows == Replaced(old(rows), deactivated)
      ensures !c.is_active ==> rows == old(rows)
    {
      deactivated := c.(is_active := false);
      if !c.is_active {
        SaveUnchanged(rows, c);
      }
      Save(deactivated);
    }

    /** activate(): sets is_active to true and saves; on an active row it changes nothing. */
    method Activate(c: Client) returns (activated: Client)
      requires Valid() && c in rows
      modifies this
      ensures Valid() && Ids(rows) == Ids(old(rows))
      ensures activated == c.(is_active := true)
      ensures rows == Replaced(old(rows), activated)
      ensures c.is_active ==> rows == old(rows)
    {
      activated := c.(is_active := true);
      if c.is_active {
        SaveUnchanged(rows, c);
      }
      Save(activated);
    }

    /** updateLastSeen(): sets last_seen to the current time and saves. */
    method UpdateLastSeen(c: Client, now: int) returns (touched: Client)
      requires Valid() && c in rows
      modifies this
      ensures Valid() && Ids(rows) == Ids(old(rows))
      ensures touched == c.(last_seen := now)
      ensures rows == Replaced(old(rows), touched)
    {
      touched := c.(last_seen := now);
      Save(touched);
    }
  }
}
