/**
 * The relational store behind the services: tables keyed by an
 * autoincremented local id, a unique nullable platform id on every row, and a
 * modification stamp the store sets on every write. The meaning of each store
 * operation is given by a function on the table's value; the class Table
 * performs the operations in place.
 */
module Store {
  import opened Wrappers
  import opened Shopify

  datatype DbError = NotFound | UniqueViolation | ForeignKeyViolation

  /** What a service call throws: a store error or a call the platform rejected. */
  datatype SyncError = Db(error: DbError) | Rejected(call: RemoteCall)

  /** A row: its platform id (absent until synced), its own columns, and its modification stamp. */
  datatype Row<F> = Row(shopifyId: Option<Gid>, fields: F, updatedAt: int)

  /** The data of a row about to be created; the store adds the stamp. */
  datatype Draft<F> = Draft(shopifyId: Option<Gid>, fields: F)

  datatype CompanyFields = CompanyFields(name: string)

  datatype CustomerFields = CustomerFields(
    firstName: Option<string>,
    lastName: Option<string>,
    email: Option<string>,
    phone: Option<string>,
    locale: Option<string>,
    state: Option<CustomerState>,
    companyId: Option<int>)

  type Company = Row<CompanyFields>
  type Customer = Row<CustomerFields>

  /** A table's value: its rows by id and the next id the autoincrement hands out. */
  datatype Snapshot<F> = Snapshot(rows: map<int, Row<F>>, nextId: int)

  function Stamp<F>(d: Draft<F>, now: int): (r: Row<F>)
  {
    Row(d.shopifyId, d.fields, now)
  }

  /** The platform ids held by some row. */
  function Ids<F>(rows: map<int, Row<F>>): set<Gid>
  {
    set k | k in rows && rows[k].shopifyId.Some? :: rows[k].shopifyId.value
  }

  /** The unique constraint on the platform-id column. */
  ghost predicate UniqueIds<F>(rows: map<int, Row<F>>)
  {
    forall j, k :: j in rows && k in rows && rows[j].shopifyId.Some? && rows[j].shopifyId == rows[k].shopifyId ==> j == k
  }

  /** Every key is an id the autoincrement has already handed out. */
  ghost predicate KeysBelow<F>(rows: map<int, Row<F>>, nextId: int)
  {
    0 < nextId && forall k :: k in rows ==> 0 < k < nextId
  }

  /** The platform ids of a batch of drafts. */
  function DraftIds<F>(news: seq<Draft<F>>): set<Gid>
  {
    set i | 0 <= i < |news| && news[i].shopifyId.Some? :: news[i].shopifyId.value
  }

  /** A bulk insert of these drafts keeps the unique constraint. */
  predicate CanInsert<F>(rows: map<int, Row<F>>, news: seq<Draft<F>>)
  {
    && (forall i, j :: 0 <= i < j < |news| && news[i].shopifyId.Some? ==> news[i].shopifyId != news[j].shopifyId)
    && (forall i :: 0 <= i < |news| && news[i].shopifyId.Some? ==> news[i].shopifyId.value !in Ids(rows))
  }

  /** The table after a bulk insert that hands out consecutive ids from nextId. */
  function InsertAll<F>(rows: map<int, Row<F>>, nextId: int, news: seq<Draft<F>>, now: int): map<int, Row<F>>
    decreases |news|
  {
    if news == [] then rows
    else InsertAll(rows[nextId := Stamp(news[0], now)], nextId + 1, news[1..], now)
  }

  /** A bulk insert adds exactly one row per draft, at consecutive fresh keys, and keeps every old row. */
  lemma {:induction false} InsertAllAt<F>(rows: map<int, Row<F>>, nextId: int, news: seq<Draft<F>>, now: int)
    requires forall k :: k in rows ==> k < nextId
    ensures var r := InsertAll(rows, nextId, news, now);
      && (forall k :: k in r <==> k in rows || nextId <= k < nextId + |news|)
      && (forall k :: k in rows ==> r[k] == rows[k])
      && (forall i :: 0 <= i < |news| ==> r[nextId + i] == Stamp(news[i], now))
    decreases |news|
  {
    if news != [] {
      var rows' := rows[nextId := Stamp(news[0], now)];
      InsertAllAt(rows', nextId + 1, news[1..], now);
      var r := InsertAll(rows, nextId, news, now);
      assert r == InsertAll(rows', nextId + 1, news[1..], now);
      forall i | 0 <= i < |news|
        ensures nextId + i in r && r[nextId + i] == Stamp(news[i], now)
      {
        if i == 0 {
          assert nextId in rows';
        } else {
          assert news[i] == news[1..][i - 1];
          assert nextId + i == (nextId + 1) + (i - 1);
        }
      }
    }
  }

  /** The platform ids after a bulk insert are the old ones and the drafts'. */
  lemma InsertAllIds<F>(rows: map<int, Row<F>>, nextId: int, news: seq<Draft<F>>, now: int)
    requires forall k :: k in rows ==> k < nextId
    ensures Ids(InsertAll(rows, nextId, news, now)) == Ids(rows) + DraftIds(news)
  {
    var r := InsertAll(rows, nextId, news, now);
    InsertAllAt(rows, nextId, news, now);
    forall g | g in Ids(r)
      ensures g in Ids(rows) + DraftIds(news)
    {
      var k :| k in r && r[k].shopifyId == Some(g);
      if k !in rows {
        assert r[nextId + (k - nextId)] == Stamp(news[k - nextId], now);
      }
    }
    forall g | g in Ids(rows) + DraftIds(news)
      ensures g in Ids(r)
    {
      if g in DraftIds(news) {
        var i :| 0 <= i < |news| && news[i].shopifyId == Some(g);
        assert r[nextId + i].shopifyId == Some(g);
      } else {
        var k :| k in rows && rows[k].shopifyId == Some(g);
        assert r[k] == rows[k];
      }
    }
  }

  /** A bulk insert the store accepts keeps the unique constraint and fresh keys. */
  lemma InsertAllValid<F>(rows: map<int, Row<F>>, nextId: int, news: seq<Draft<F>>, now: int)
    requires KeysBelow(rows, nextId) && UniqueIds(rows) && CanInsert(rows, news)
    ensures var r := InsertAll(rows, nextId, news, now);
      KeysBelow(r, nextId + |news|) && UniqueIds(r)
  {
    var r := InsertAll(rows, nextId, news, now);
    InsertAllAt(rows, nextId, news, now);
    forall j, k | j in r && k in r && r[j].shopifyId.Some? && r[j].shopifyId == r[k].shopifyId
      ensures j == k
    {
      if j !in rows {
        assert r[nextId + (j - nextId)] == Stamp(news[j - nextId], now);
      }
      if k !in rows {
        assert r[nextId + (k - nextId)] == Stamp(news[k - nextId], now);
      }
    }
  }

  /**
   * One `update where shopifyId = sid`: the row holding sid gets the update's
   * data merged into its columns and a new stamp; no other row changes.
   */
  function UpdateWhere<F, P>(rows: map<int, Row<F>>, sid: Gid, data: P, apply: (F, P) -> F, now: int): map<int, Row<F>>
  {
    map k | k in rows :: if rows[k].shopifyId == Some(sid) then Row(rows[k].shopifyId, apply(rows[k].fields, data), now) else rows[k]
  }

  /** A transaction of updates by platform id, applied in order. */
  function ApplyAll<F, P>(rows: map<int, Row<F>>, txs: seq<(Gid, P)>, apply: (F, P) -> F, now: int): map<int, Row<F>>
    decreases |txs|
  {
    if txs == [] then rows
    else ApplyAll(UpdateWhere(rows, txs[0].0, txs[0].1, apply, now), txs[1..], apply, now)
  }

  /** Updates by platform id keep every key and every platform id where it was. */
  lemma {:induction false} ApplyAllKeepsIds<F, P>(rows: map<int, Row<F>>, txs: seq<(Gid, P)>, apply: (F, P) -> F, now: int)
    ensures var r := ApplyAll(rows, txs, apply, now);
      r.Keys == rows.Keys && forall k :: k in rows ==> r[k].shopifyId == rows[k].shopifyId
    decreases |txs|
  {
    if txs != [] {
      ApplyAllKeepsIds(UpdateWhere(rows, txs[0].0, txs[0].1, apply, now), txs[1..], apply, now);
    }
  }

  /** A transaction split in two applies the first part, then the second. */
  lemma {:induction false} ApplyAllAppend<F, P>(rows: map<int, Row<F>>, a: seq<(Gid, P)>, b: seq<(Gid, P)>, apply: (F, P) -> F, now: int)
    ensures ApplyAll(rows, a + b, apply, now) == ApplyAll(ApplyAll(rows, a, apply, now), b, apply, now)
    decreases |a|
  {
    if a == [] {
      assert a + b == b;
    } else {
      assert (a + b)[0] == a[0];
      assert (a + b)[1..] == a[1..] + b;
      ApplyAllAppend(UpdateWhere(rows, a[0].0, a[0].1, apply, now), a[1..], b, apply, now);
    }
  }

  /** Some row other than `id` already holds the platform id. */
  predicate HeldByOther<F>(rows: map<int, Row<F>>, id: int, sid: Gid)
  {
    exists k :: k in rows && k != id && rows[k].shopifyId == Some(sid)
  }

  /** How many of n matching rows a findMany window that skips `skip` and takes `take` returns. */
  function WindowSize(n: nat, skip: nat, take: nat): (w: nat)
    ensures w <= take && (w + skip <= n || (w == 0 && n <= skip))
    ensures skip + take <= n ==> w == take
    ensures skip <= n ==> w == if n - skip < take then n - skip else take
  {
    if n <= skip then 0 else if n - skip < take then n - skip else take
  }

  /**
   * `found` lists, by increasing key, exactly the rows below key `id` that
   * satisfy `p`.
   */
  ghost predicate Listed<F>(rows: map<int, Row<F>>, p: Row<F> -> bool, found: seq<(int, Row<F>)>, id: int)
  {
    && (forall i :: 0 <= i < |found| ==> found[i].0 in rows && found[i].1 == rows[found[i].0] && p(found[i].1))
    && (forall i :: 0 <= i < |found| ==> found[i].0 < id)
    && (forall k :: k in rows && k < id && p(rows[k]) ==> exists i :: 0 <= i < |found| && found[i].0 == k)
    && (forall i, j :: 0 <= i < j < |found| ==> found[i].0 < found[j].0)
  }

  /** Appending the row at key `id`, when it satisfies `p`, lists the rows below `id + 1`. */
  lemma ListedAdd<F>(rows: map<int, Row<F>>, p: Row<F> -> bool, found: seq<(int, Row<F>)>, id: int)
    requires Listed(rows, p, found, id)
    requires id in rows && p(rows[id])
    ensures Listed(rows, p, found + [(id, rows[id])], id + 1)
  {
    var after := found + [(id, rows[id])];
    forall i | 0 <= i < |found|
      ensures after[i] == found[i]
    {
    }
    forall k | k in rows && k < id + 1 && p(rows[k])
      ensures exists i :: 0 <= i < |after| && after[i].0 == k
    {
      if k == id {
        assert after[|found|].0 == id;
      } else {
        var i :| 0 <= i < |found| && found[i].0 == k;
        assert after[i] == found[i];
      }
    }
  }

  /** A list of rows with increasing keys has as many entries as it has keys. */
  lemma {:induction false} KeyCount<R>(found: seq<(int, R)>, keys: set<int>)
    requires forall i, j :: 0 <= i < j < |found| ==> found[i].0 < found[j].0
    requires forall i :: 0 <= i < |found| ==> found[i].0 in keys
    requires forall k :: k in keys ==> exists i :: 0 <= i < |found| && found[i].0 == k
    ensures |found| == |keys|
    decreases |found|
  {
    if found == [] {
      assert forall k :: k in keys <==> k in {};
    } else {
      var last := found[|found| - 1];
      var rest := found[..|found| - 1];
      forall i | 0 <= i < |rest|
        ensures rest[i].0 in keys - {last.0}
      {
        assert rest[i] == found[i];
      }
      forall k | k in keys - {last.0}
        ensures exists i :: 0 <= i < |rest| && rest[i].0 == k
      {
        var i :| 0 <= i < |found| && found[i].0 == k;
        assert i < |found| - 1;
        assert rest[i] == found[i];
      }
      KeyCount(rest, keys - {last.0});
      assert keys == (keys - {last.0}) + {last.0};
    }
  }

  class Table<F> {
    var rows: map<int, Row<F>>
    var nextId: int

    ghost predicate Valid()
      reads this
    {
      KeysBelow(rows, nextId) && UniqueIds(rows)
    }

    function State(): Snapshot<F>
      reads this
    {
      Snapshot(rows, nextId)
    }

    constructor ()
      ensures Valid() && rows == map[] && nextId == 1
    {
      rows, nextId := map[], 1;
    }

    /**
     * findMany: the rows satisfying filter `p`, each once. The store promises
     * no order; this one lists them by ascending id.
     */
    method FindWhere(p: Row<F> -> bool) returns (found: seq<(int, Row<F>)>)
      requires Valid()
      ensures forall i :: 0 <= i < |found| ==> found[i].0 in rows && found[i].1 == rows[found[i].0] && p(found[i].1)
      ensures forall k :: k in rows && p(rows[k]) ==> exists i :: 0 <= i < |found| && found[i].0 == k
      ensures forall i, j :: 0 <= i < j < |found| ==> found[i].0 < found[j].0
      ensures |found| == |set k | k in rows && p(rows[k])|
    {
      found := [];
      for id := 1 to nextId
        invariant Listed(rows, p, found, id)
      {
        if id in rows && p(rows[id]) {
          ListedAdd(rows, p, found, id);
          found := found + [(id, rows[id])];
        }
      }
      KeyCount(found, set k | k in rows && p(rows[k]));
    }

    /** findMany where shopifyId in ids. */
    method FindByShopifyIds(ids: set<Gid>) returns (found: seq<(int, Row<F>)>)
      requires Valid()
      ensures forall i :: 0 <= i < |found| ==> found[i].0 in rows && found[i].1 == rows[found[i].0]
      ensures forall i :: 0 <= i < |found| ==> found[i].1.shopifyId.Some? && found[i].1.shopifyId.value in ids
      ensures forall k :: k in rows && rows[k].shopifyId.Some? && rows[k].shopifyId.value in ids ==>
                exists i :: 0 <= i < |found| && found[i].0 == k
      ensures forall i, j :: 0 <= i < j < |found| ==> found[i].0 != found[j].0
    {
      found := FindWhere((r: Row<F>) => r.shopifyId.Some? && r.shopifyId.value in ids);
    }

    /** A transaction of updates by platform id, all applied at once. */
    method UpdateWhereShopifyId<P>(txs: seq<(Gid, P)>, apply: (F, P) -> F, now: int)
      requires Valid()
      modifies this
      ensures Valid()
      ensures rows == ApplyAll(old(rows), txs, apply, now) && nextId == old(nextId)
    {
      ApplyAllKeepsIds(rows, txs, apply, now);
      rows := ApplyAll(rows, txs, apply, now);
    }

    /**
     * createMany: inserts every draft with consecutive new ids, or nothing if the
     * batch breaks the unique constraint or a foreign key.
     */
    method CreateMany(news: seq<Draft<F>>, foreignKeysHold: F -> bool, now: int) returns (o: Outcome<DbError>)
      requires Valid()
      modifies this
      ensures Valid()
      ensures o == if !CanInsert(old(rows), news) then Fail(UniqueViolation)
                   else if exists i :: 0 <= i < |news| && !foreignKeysHold(news[i].fields) then Fail(ForeignKeyViolation)
                   else Pass
      ensures o.Pass? ==> rows == InsertAll(old(rows), old(nextId), news, now) && nextId == old(nextId) + |news|
      ensures o.Fail? ==> rows == old(rows) && nextId == old(nextId)
    {
      if !CanInsert(rows, news) {
        o := Fail(UniqueViolation);
      } else if exists i :: 0 <= i < |news| && !foreignKeysHold(news[i].fields) {
        o := Fail(ForeignKeyViolation);
      } else {
        InsertAllValid(rows, nextId, news, now);
        rows, nextId := InsertAll(rows, nextId, news, now), nextId + |news|;
        o := Pass;
      }
    }

    /** create: inserts one draft under the next id and returns that id. */
    method Create(d: Draft<F>, foreignKeysHold: F -> bool, now: int) returns (r: Result<int, DbError>)
      requires Valid()
      modifies this
      ensures Valid()
      ensures r == if d.shopifyId.Some? && d.shopifyId.value in Ids(old(rows)) then Failure(UniqueViolation)
                   else if !foreignKeysHold(d.fields) then Failure(ForeignKeyViolation)
                   else Success(old(nextId))
      ensures r.Success? ==> rows == old(rows)[old(nextId) := Stamp(d, now)] && nextId == old(nextId) + 1
      ensures r.Failure? ==> rows == old(rows) && nextId == old(nextId)
    {
      if d.shopifyId.Some? && d.shopifyId.value in Ids(rows) {
        r := Failure(UniqueViolation);
      } else if !foreignKeysHold(d.fields) {
        r := Failure(ForeignKeyViolation);
      } else {
        r := Success(nextId);
        rows, nextId := rows[nextId := Stamp(d, now)], nextId + 1;
      }
    }

    /** update where id: rewrites the row's columns with `change` and returns the new row. */
    method Update(id: int, change: F -> F, foreignKeysHold: F -> bool, now: int) returns (r: Result<Row<F>, DbError>)
      requires Valid()
      modifies this
      ensures Valid() && nextId == old(nextId)
      ensures r == if id !in old(rows) then Failure(NotFound)
                   else if !foreignKeysHold(change(old(rows)[id].fields)) then Failure(ForeignKeyViolation)
                   else Success(Row(old(rows)[id].shopifyId, change(old(rows)[id].fields), now))
      ensures rows == if r.Success? then old(rows)[id := r.value] else old(rows)
    {
      if id !in rows {
        r := Failure(NotFound);
      } else if !foreignKeysHold(change(rows[id].fields)) {
        r := Failure(ForeignKeyViolation);
      } else {
        r := Success(Row(rows[id].shopifyId, change(rows[id].fields), now));
        rows := rows[id := r.value];
      }
    }

    /** update where id, data shopifyId: records the platform id of a row. */
    method SetShopifyId(id: int, sid: Gid, now: int) returns (r: Result<Row<F>, DbError>)
      requires Valid()
      modifies this
      ensures Valid() && nextId == old(nextId)
      ensures r == if id !in old(rows) then Failure(NotFound)
                   else if HeldByOther(old(rows), id, sid) then Failure(UniqueViolation)
                   else Success(Row(Some(sid), old(rows)[id].fields, now))
      ensures rows == if r.Success? then old(rows)[id := r.value] else old(rows)
    {
      if id !in rows {
        r := Failure(NotFound);
      } else if HeldByOther(rows, id, sid) {
        r := Failure(UniqueViolation);
      } else {
        r := Success(Row(Some(sid), rows[id].fields, now));
        rows := rows[id := r.value];
      }
    }

    /** delete where id: removes the row and returns it. */
    method Delete(id: int) returns (r: Result<Row<F>, DbError>)
      requires Valid()
      modifies this
      ensures Valid() && nextId == old(nextId)
      ensures r == if id in old(rows) then Success(old(rows)[id]) else Failure(NotFound)
      ensures rows == old(rows) - {id}
    {
      if id in rows {
        r := Success(rows[id]);
        rows := rows - {id};
      } else {
        r := Failure(NotFound);
      }
    }
  }
}
