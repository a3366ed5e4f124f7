/**
 * The company side of the sync between the local store and the platform:
 * the search behind the company list, the pull that reconciles pages of
 * platform companies with local rows, and the create, update and delete
 * operations that push a local change to the platform.
 */
module CompanyService {
  import opened Wrappers
  import opened Shopify
  import opened Store
  import Text

  /** Records requested per company search. */
  const PageSize: int := 50

  /** No company rows refer to other tables. */
  predicate NoForeignKeys(f: CompanyFields)
  {
    true
  }

  // ---------------------------------------------------------------------------
  // The company list
  // ---------------------------------------------------------------------------

  /** The list filter: no search text, or the name contains it. */
  predicate NameMatches(search: Option<string>, c: Company)
  {
    !Text.Truthy(search) || Text.Contains(c.fields.name, search.value)
  }

  /** findCompanies: a window of the rows whose name contains the search text. */
  method FindCompanies(companies: Table<CompanyFields>, search: Option<string>, skip: nat, take: nat)
    returns (page: seq<(int, Company)>)
    requires companies.Valid()
    ensures forall i :: 0 <= i < |page| ==>
              page[i].0 in companies.rows && page[i].1 == companies.rows[page[i].0] && NameMatches(search, page[i].1)
    ensures forall i, j :: 0 <= i < j < |page| ==> page[i].0 != page[j].0
    ensures |page| == WindowSize(|set k | k in companies.rows && NameMatches(search, companies.rows[k])|, skip, take)
    ensures !Text.Truthy(search) ==> |page| == WindowSize(|companies.rows|, skip, take)
  {
    var matches := (c: Company) => NameMatches(search, c);
    var found := companies.FindWhere(matches);
    assert (set k | k in companies.rows && matches(companies.rows[k])) == (set k | k in companies.rows && NameMatches(search, companies.rows[k])) by {
      assert forall k :: k in companies.rows && matches(companies.rows[k]) <==> k in companies.rows && NameMatches(search, companies.rows[k]);
    }
    var lo := if skip < |found| then skip else |found|;
    var hi := if skip + take < |found| then skip + take else |found|;
    page := found[lo..hi];
    if !Text.Truthy(search) {
      var all := set k | k in companies.rows && NameMatches(search, companies.rows[k]);
      assert forall k :: k in all <==> k in companies.rows.Keys;
      assert all == companies.rows.Keys;
    }
  }

  // ---------------------------------------------------------------------------
  // Reconciling a page with the rows that already exist
  // ---------------------------------------------------------------------------

  /** The ids of the records on a page. */
  function PageIds(page: seq<ShopifyCompany>): set<Gid>
  {
    set i | 0 <= i < |page| :: page[i].id
  }

  /** The first record on the page whose id is `sid`. */
  function FindRemote(page: seq<ShopifyCompany>, sid: Option<Gid>): (r: Option<ShopifyCompany>)
    ensures r.Some? <==> sid.Some? && sid.value in PageIds(page)
    ensures r.Some? ==> Some(r.value.id) == sid && r.value in page
    ensures r.Some? ==> exists i :: 0 <= i < |page| && page[i] == r.value && forall j :: 0 <= j < i ==> Some(page[j].id) != sid
    decreases |page|
  {
    if page == [] then None
    else if Some(page[0].id) == sid then Some(page[0])
    else
      assert forall g :: g in PageIds(page) <==> g == page[0].id || g in PageIds(page[1..]) by {
        forall g | g in PageIds(page) ensures g == page[0].id || g in PageIds(page[1..]) {
          var i :| 0 <= i < |page| && page[i].id == g;
          if i > 0 {
            assert page[1..][i - 1] == page[i];
          }
        }
        forall g | g in PageIds(page[1..]) ensures g in PageIds(page) {
          var i :| 0 <= i < |page[1..]| && page[1..][i].id == g;
          assert page[i + 1] == page[1..][i];
        }
      }
      FindRemote(page[1..], sid)
  }

  /** A local row is matched when the page carries a record with its platform id. */
  predicate Matched(c: Company, page: seq<ShopifyCompany>)
  {
    c.shopifyId.Some? && c.shopifyId.value in PageIds(page)
  }

  /** The local row is strictly newer than the platform record: equal stamps do not count. */
  predicate Newer(c: Company, remote: ShopifyCompany)
  {
    c.updatedAt > remote.updatedAt
  }

  /** Some matched row is strictly newer than its record. */
  ghost predicate AnyStale(rows: map<int, Company>, page: seq<ShopifyCompany>)
  {
    exists k :: k in rows && Matched(rows[k], page) && Newer(rows[k], FindRemote(page, rows[k].shopifyId).value)
  }

  /** The data an update takes from a record: the name. */
  function Rename(f: CompanyFields, name: string): CompanyFields
  {
    f.(name := name)
  }

  /** A matched row after its update: the record's name and a new stamp. */
  ghost function Pulled(c: Company, page: seq<ShopifyCompany>, now: int): Company
    requires Matched(c, page)
  {
    Row(c.shopifyId, Rename(c.fields, FindRemote(page, c.shopifyId).value.name), now)
  }

  /** The rows with the matched ones whose platform ids lie in `ids` updated. */
  ghost function ReconciledOn(rows: map<int, Company>, page: seq<ShopifyCompany>, ids: set<Gid>, now: int): map<int, Company>
  {
    map k | k in rows :: if Matched(rows[k], page) && rows[k].shopifyId.value in ids then Pulled(rows[k], page, now) else rows[k]
  }

  /** Every matched row updated from its record. */
  ghost function Reconciled(rows: map<int, Company>, page: seq<ShopifyCompany>, now: int): map<int, Company>
  {
    ReconciledOn(rows, page, PageIds(page), now)
  }

  /**
   * The table after updateExistingCompanies: the loop leaves before the
   * transaction as soon as it meets a row newer than its record, so one such
   * row leaves the whole table as it was.
   */
  ghost function UpdateExisting(rows: map<int, Company>, page: seq<ShopifyCompany>, now: int): map<int, Company>
  {
    if AnyStale(rows, page) then rows else Reconciled(rows, page, now)
  }
  /** One matched row newer than its record is enough to leave the table as it was. */
  lemma StaleLeavesRows(rows: map<int, Company>, page: seq<ShopifyCompany>, k: int, now: int)
    requires k in rows && Matched(rows[k], page) && Newer(rows[k], FindRemote(page, rows[k].shopifyId).value)
    ensures UpdateExisting(rows, page, now) == rows
  {
    assert AnyStale(rows, page);
  }


  /** Updating no platform id changes nothing. */
  lemma ReconciledOnNone(rows: map<int, Company>, page: seq<ShopifyCompany>, now: int)
    ensures ReconciledOn(rows, page, {}, now) == rows
  {
    var r := ReconciledOn(rows, page, {}, now);
    assert forall k :: k in r <==> k in rows;
    assert forall k :: k in r ==> r[k] == rows[k];
  }

  /** Two sets of platform ids that agree on the matched rows give the same update. */
  lemma ReconciledOnSame(rows: map<int, Company>, page: seq<ShopifyCompany>, s: set<Gid>, t: set<Gid>, now: int)
    requires forall k :: k in rows && Matched(rows[k], page) ==> (rows[k].shopifyId.value in s <==> rows[k].shopifyId.value in t)
    ensures ReconciledOn(rows, page, s, now) == ReconciledOn(rows, page, t, now)
  {
    var a := ReconciledOn(rows, page, s, now);
    var b := ReconciledOn(rows, page, t, now);
    assert forall k :: k in a <==> k in b;
    assert forall k :: k in a ==> a[k] == b[k];
  }

  /** One `update where shopifyId = sid` with sid's record name extends the updated ids by sid. */
  lemma RenameStep(rows: map<int, Company>, page: seq<ShopifyCompany>, ids: set<Gid>, sid: Gid, now: int)
    requires sid in PageIds(page)
    ensures UpdateWhere(ReconciledOn(rows, page, ids, now), sid, FindRemote(page, Some(sid)).value.name, Rename, now)
         == ReconciledOn(rows, page, ids + {sid}, now)
  {
    var before := ReconciledOn(rows, page, ids, now);
    var a := UpdateWhere(before, sid, FindRemote(page, Some(sid)).value.name, Rename, now);
    var b := ReconciledOn(rows, page, ids + {sid}, now);
    assert forall k :: k in a <==> k in b;
    forall k | k in a
      ensures a[k] == b[k]
    {
      assert before[k].shopifyId == rows[k].shopifyId;
    }
  }

  /**
   * updateExistingCompanies: looks up the rows matched by the page, builds one
   * update per row from its record, and runs them as one transaction, unless
   * a row newer than its record ends the loop first.
   */
  method UpdateExistingCompanies(companies: Table<CompanyFields>, page: seq<ShopifyCompany>, now: int)
    requires companies.Valid()
    modifies companies
    ensures companies.Valid() && companies.nextId == old(companies.nextId)
    ensures companies.rows == UpdateExisting(old(companies.rows), page, now)
  {
    var found := companies.FindByShopifyIds(PageIds(page));
    ghost var rows := companies.rows;
    var txs: seq<(Gid, string)> := [];
    ghost var seen: set<Gid> := {};
    ReconciledOnNone(rows, page, now);
    for i := 0 to |found|
      invariant companies.rows == rows && companies.nextId == old(companies.nextId)
      invariant forall j :: 0 <= j < i ==> !Newer(found[j].1, FindRemote(page, found[j].1.shopifyId).value)
      invariant forall j :: 0 <= j < i ==> found[j].1.shopifyId.value in seen
      invariant seen <= PageIds(page)
      invariant ApplyAll(rows, txs, Rename, now) == ReconciledOn(rows, page, seen, now)
    {
      var remote := FindRemote(page, found[i].1.shopifyId);
      if remote.None? || found[i].1.updatedAt > remote.value.updatedAt {
        StaleLeavesRows(rows, page, found[i].0, now);
        return;
      }
      forall j | 0 <= j <= i
        ensures !Newer(found[j].1, FindRemote(page, found[j].1.shopifyId).value)
      {
        if j == i {
          assert FindRemote(page, found[j].1.shopifyId) == remote;
        }
      }
      forall j | 0 <= j <= i
        ensures found[j].1.shopifyId.value in seen + {remote.value.id}
      {
        if j == i {
          assert found[j].1.shopifyId.value == remote.value.id;
        }
      }
      RenameStep(rows, page, seen, remote.value.id, now);
      ApplyAllAppend(rows, txs, [(remote.value.id, remote.value.name)], Rename, now);
      txs := txs + [(remote.value.id, remote.value.name)];
      seen := seen + {remote.value.id};
    }
    forall k | k in rows && Matched(rows[k], page)
      ensures rows[k].shopifyId.value in seen
      ensures !Newer(rows[k], FindRemote(page, rows[k].shopifyId).value)
    {
      var j :| 0 <= j < |found| && found[j].0 == k;
    }
    ReconciledOnSame(rows, page, seen, PageIds(page), now);
    companies.UpdateWhereShopifyId(txs, Rename, now);
  }

  /** The per-record alternative: each row not newer than its record is updated, whatever the others are. */
  ghost function ReconciledPerRecord(rows: map<int, Company>, page: seq<ShopifyCompany>, now: int): map<int, Company>
  {
    map k | k in rows :: if Matched(rows[k], page) && !Newer(rows[k], FindRemote(page, rows[k].shopifyId).value)
                         then Pulled(rows[k], page, now) else rows[k]
  }

  /** When no matched row is newer than its record, the two rules agree. */
  lemma PerRecordAgrees(rows: map<int, Company>, page: seq<ShopifyCompany>, now: int)
    requires !AnyStale(rows, page)
    ensures UpdateExisting(rows, page, now) == ReconciledPerRecord(rows, page, now)
  {
    var a := UpdateExisting(rows, page, now);
    var b := ReconciledPerRecord(rows, page, now);
    assert forall k :: k in a <==> k in b;
    assert forall k :: k in a ==> a[k] == b[k];
  }

  /** One row newer than its record keeps another row from taking its record's name. */
  lemma OneNewerRowBlocksPage()
    ensures var rows := map[1 := Row(Some("gid://shopify/Company/1"), CompanyFields("Acme"), 20),
                            2 := Row(Some("gid://shopify/Company/2"), CompanyFields("Old"), 5)];
            var page := [ShopifyCompany("gid://shopify/Company/1", "Acme Corp", "1", 10),
                         ShopifyCompany("gid://shopify/Company/2", "New", "2", 10)];
            && UpdateExisting(rows, page, 30) == rows
            && ReconciledPerRecord(rows, page, 30)[2] == Row(Some("gid://shopify/Company/2"), CompanyFields("New"), 30)
  {
    var rows := map[1 := Row(Some("gid://shopify/Company/1"), CompanyFields("Acme"), 20),
                     2 := Row(Some("gid://shopify/Company/2"), CompanyFields("Old"), 5)];
    var page := [ShopifyCompany("gid://shopify/Company/1", "Acme Corp", "1", 10),
                  ShopifyCompany("gid://shopify/Company/2", "New", "2", 10)];
    assert page[0].id in PageIds(page);
    assert page[1].id in PageIds(page);
    assert FindRemote(page, Some("gid://shopify/Company/1")) == Some(page[0]);
    assert "gid://shopify/Company/2" != "gid://shopify/Company/1" by {
      assert "gid://shopify/Company/2"[22] != "gid://shopify/Company/1"[22];
    }
    assert FindRemote(page, Some("gid://shopify/Company/2")) == Some(page[1]);
    assert Matched(rows[1], page) && Newer(rows[1], FindRemote(page, rows[1].shopifyId).value);
  }

  /**
   * In general: while some matched row is newer than its record, any other
   * matched row whose record carries a different name is updated by the
   * per-record rule and left alone by the source's rule.
   */
  lemma NewerRowBlocksRename(rows: map<int, Company>, page: seq<ShopifyCompany>, k: int, m: int, now: int)
    requires k in rows && Matched(rows[k], page) && Newer(rows[k], FindRemote(page, rows[k].shopifyId).value)
    requires m in rows && Matched(rows[m], page) && !Newer(rows[m], FindRemote(page, rows[m].shopifyId).value)
    requires FindRemote(page, rows[m].shopifyId).value.name != rows[m].fields.name
    ensures UpdateExisting(rows, page, now)[m] == rows[m]
    ensures ReconciledPerRecord(rows, page, now)[m].fields.name == FindRemote(page, rows[m].shopifyId).value.name
    ensures UpdateExisting(rows, page, now) != ReconciledPerRecord(rows, page, now)
  {
  }

  /** Updates keep every key and every platform id. */
  lemma UpdateExistingKeepsIds(rows: map<int, Company>, page: seq<ShopifyCompany>, now: int)
    ensures UpdateExisting(rows, page, now).Keys == rows.Keys
    ensures forall k :: k in rows ==> UpdateExisting(rows, page, now)[k].shopifyId == rows[k].shopifyId
  {
    var r := UpdateExisting(rows, page, now);
    assert forall k :: k in r <==> k in rows;
  }

  // ---------------------------------------------------------------------------
  // Importing the records no row knows yet
  // ---------------------------------------------------------------------------

  /** The row a record is imported as. */
  function DraftOf(remote: ShopifyCompany): Draft<CompanyFields>
  {
    Draft(Some(remote.id), CompanyFields(remote.name))
  }

  /** The new rows of importShopifyCompanies: the records whose id is not in `existing`, in page order. */
  function NewCompanies(existing: set<Gid>, page: seq<ShopifyCompany>): (news: seq<Draft<CompanyFields>>)
    ensures |news| <= |page|
    decreases |page|
  {
    if page == [] then []
    else (if page[0].id in existing then [] else [DraftOf(page[0])]) + NewCompanies(existing, page[1..])
  }

  /** The record of the page that the i-th new row is made from: one whose id is unknown. */
  lemma {:induction false} NewCompanySource(existing: set<Gid>, page: seq<ShopifyCompany>, i: nat) returns (m: nat)
    requires i < |NewCompanies(existing, page)|
    ensures m < |page| && page[m].id !in existing && NewCompanies(existing, page)[i] == DraftOf(page[m])
    decreases |page|
  {
    assert page != [];
    var head := if page[0].id in existing then [] else [DraftOf(page[0])];
    assert NewCompanies(existing, page) == head + NewCompanies(existing, page[1..]);
    if i < |head| {
      m := 0;
    } else {
      var n := NewCompanySource(existing, page[1..], i - |head|);
      m := n + 1;
    }
  }

  /** Where a record with an unknown id lands among the new rows. */
  lemma {:induction false} NewCompanyIndex(existing: set<Gid>, page: seq<ShopifyCompany>, m: nat) returns (i: nat)
    requires m < |page| && page[m].id !in existing
    ensures i < |NewCompanies(existing, page)| && NewCompanies(existing, page)[i] == DraftOf(page[m])
    decreases |page|
  {
    var head := if page[0].id in existing then [] else [DraftOf(page[0])];
    assert NewCompanies(existing, page) == head + NewCompanies(existing, page[1..]);
    if m == 0 {
      i := 0;
    } else {
      var n := NewCompanyIndex(existing, page[1..], m - 1);
      i := |head| + n;
    }
  }

  /** The new rows are exactly the drafts of the records with unknown ids. */
  lemma NewCompaniesSpec(existing: set<Gid>, page: seq<ShopifyCompany>)
    ensures var news := NewCompanies(existing, page);
      && (forall d :: d in news ==> exists r :: r in page && r.id !in existing && d == DraftOf(r))
      && (forall r :: r in page && r.id !in existing ==> DraftOf(r) in news)
  {
    var news := NewCompanies(existing, page);
    forall d | d in news
      ensures exists r :: r in page && r.id !in existing && d == DraftOf(r)
    {
      var i :| 0 <= i < |news| && news[i] == d;
      var m := NewCompanySource(existing, page, i);
      assert page[m] in page;
    }
    forall r | r in page && r.id !in existing
      ensures DraftOf(r) in news
    {
      var m :| 0 <= m < |page| && page[m] == r;
      var i := NewCompanyIndex(existing, page, m);
    }
  }

  /** Only how `existing` treats the page's own ids matters. */
  lemma {:induction false} NewCompaniesOnPage(e1: set<Gid>, e2: set<Gid>, page: seq<ShopifyCompany>)
    requires forall i :: 0 <= i < |page| ==> (page[i].id in e1 <==> page[i].id in e2)
    ensures NewCompanies(e1, page) == NewCompanies(e2, page)
    decreases |page|
  {
    if page != [] {
      assert forall i :: 0 <= i < |page[1..]| ==> page[1..][i] == page[i + 1];
      NewCompaniesOnPage(e1, e2, page[1..]);
    }
  }

  /** Import creates nothing exactly when every record's id is already known. */
  lemma NewCompaniesEmpty(existing: set<Gid>, page: seq<ShopifyCompany>)
    ensures NewCompanies(existing, page) == [] <==> forall r :: r in page ==> r.id in existing
  {
    var news := NewCompanies(existing, page);
    if news != [] {
      var m := NewCompanySource(existing, page, 0);
      assert page[m] in page;
    } else {
      forall r | r in page
        ensures r.id in existing
      {
        var m :| 0 <= m < |page| && page[m] == r;
        if r.id !in existing {
          var i := NewCompanyIndex(existing, page, m);
        }
      }
    }
  }

  /** On a page without repeated ids, the new rows carry pairwise different platform ids. */
  lemma {:induction false} NewCompaniesDistinct(existing: set<Gid>, page: seq<ShopifyCompany>)
    requires forall i, j :: 0 <= i < j < |page| ==> page[i].id != page[j].id
    ensures forall i, j :: 0 <= i < j < |NewCompanies(existing, page)| ==>
              NewCompanies(existing, page)[i].shopifyId != NewCompanies(existing, page)[j].shopifyId
    decreases |page|
  {
    if page != [] {
      var rest := page[1..];
      assert forall i, j :: 0 <= i < j < |rest| ==> rest[i] == page[i + 1] && rest[j] == page[j + 1];
      NewCompaniesDistinct(existing, rest);
      var tail := NewCompanies(existing, rest);
      var head := if page[0].id in existing then [] else [DraftOf(page[0])];
      var news := NewCompanies(existing, page);
      assert news == head + tail;
      forall i, j | 0 <= i < j < |news|
        ensures news[i].shopifyId != news[j].shopifyId
      {
        assert news[j] == tail[j - |head|];
        if i < |head| {
          assert news[i] == DraftOf(page[0]);
          var m := NewCompanySource(existing, rest, j - |head|);
          assert page[m + 1] == rest[m];
        } else {
          assert news[i] == tail[i - |head|];
        }
      }
    }
  }

  /** The platform ids of the new rows are the page's ids not in `existing`. */
  lemma NewCompaniesIds(existing: set<Gid>, page: seq<ShopifyCompany>)
    ensures DraftIds(NewCompanies(existing, page)) == PageIds(page) - existing
  {
    var news := NewCompanies(existing, page);
    forall g | g in DraftIds(news)
      ensures g in PageIds(page) - existing
    {
      var i :| 0 <= i < |news| && news[i].shopifyId == Some(g);
      var m := NewCompanySource(existing, page, i);
    }
    forall g | g in PageIds(page) - existing
      ensures g in DraftIds(news)
    {
      var m :| 0 <= m < |page| && page[m].id == g;
      var i := NewCompanyIndex(existing, page, m);
    }
  }

  /** The table after importShopifyCompanies, or the store's error. */
  function Import(db: Snapshot<CompanyFields>, page: seq<ShopifyCompany>, now: int): Result<Snapshot<CompanyFields>, DbError>
  {
    var news := NewCompanies(Ids(db.rows), page);
    if CanInsert(db.rows, news) then Success(Snapshot(InsertAll(db.rows, db.nextId, news, now), db.nextId + |news|))
    else Failure(UniqueViolation)
  }

  /** Inserting the new rows puts one per record with an unknown id at the new keys, and nothing else. */
  lemma NewRowsAt(rows: map<int, Company>, nextId: int, existing: set<Gid>, page: seq<ShopifyCompany>, now: int)
    requires forall k :: k in rows ==> k < nextId
    ensures var news := NewCompanies(existing, page);
      var r := InsertAll(rows, nextId, news, now);
      && (forall k :: nextId <= k < nextId + |news| ==>
            k in r && exists x :: x in page && x.id !in existing && r[k] == Row(Some(x.id), CompanyFields(x.name), now))
      && (forall x :: x in page && x.id !in existing ==>
            exists k :: nextId <= k < nextId + |news| && k in r && r[k] == Row(Some(x.id), CompanyFields(x.name), now))
  {
    var news := NewCompanies(existing, page);
    var r := InsertAll(rows, nextId, news, now);
    InsertAllAt(rows, nextId, news, now);
    forall k | nextId <= k < nextId + |news|
      ensures k in r && exists x :: x in page && x.id !in existing && r[k] == Row(Some(x.id), CompanyFields(x.name), now)
    {
      assert r[nextId + (k - nextId)] == Stamp(news[k - nextId], now);
      var m := NewCompanySource(existing, page, k - nextId);
      assert page[m] in page;
    }
    forall x | x in page && x.id !in existing
      ensures exists k :: nextId <= k < nextId + |news| && k in r && r[k] == Row(Some(x.id), CompanyFields(x.name), now)
    {
      var m :| 0 <= m < |page| && page[m] == x;
      var i := NewCompanyIndex(existing, page, m);
      assert r[nextId + i] == Stamp(news[i], now);
    }
  }

  /**
   * A successful import keeps every row and adds, under consecutive new ids,
   * one row per record whose id no row held, carrying that id and its name.
   */
  lemma ImportAdds(db: Snapshot<CompanyFields>, page: seq<ShopifyCompany>, now: int)
    requires KeysBelow(db.rows, db.nextId)
    requires Import(db, page, now).Success?
    ensures var after := Import(db, page, now).value;
      && (forall k :: k in after.rows <==> k in db.rows || db.nextId <= k < after.nextId)
      && (forall k :: k in db.rows ==> after.rows[k] == db.rows[k])
      && (forall k :: db.nextId <= k < after.nextId ==>
            exists x :: x in page && x.id !in Ids(db.rows) && after.rows[k] == Row(Some(x.id), CompanyFields(x.name), now))
      && (forall x :: x in page && x.id !in Ids(db.rows) ==>
            exists k :: db.nextId <= k < after.nextId && after.rows[k] == Row(Some(x.id), CompanyFields(x.name), now))
  {
    var news := NewCompanies(Ids(db.rows), page);
    var after := Import(db, page, now).value;
    assert after == Snapshot(InsertAll(db.rows, db.nextId, news, now), db.nextId + |news|);
    InsertAllAt(db.rows, db.nextId, news, now);
    NewRowsAt(db.rows, db.nextId, Ids(db.rows), page, now);
  }

  /** Importing a page whose records all have different ids never breaks the unique constraint. */
  lemma DistinctPageImports(db: Snapshot<CompanyFields>, page: seq<ShopifyCompany>, now: int)
    requires forall i, j :: 0 <= i < j < |page| ==> page[i].id != page[j].id
    ensures Import(db, page, now).Success?
  {
    var news := NewCompanies(Ids(db.rows), page);
    NewCompaniesDistinct(Ids(db.rows), page);
    forall i | 0 <= i < |news| && news[i].shopifyId.Some?
      ensures news[i].shopifyId.value !in Ids(db.rows)
    {
      var m := NewCompanySource(Ids(db.rows), page, i);
    }
    forall i, j | 0 <= i < j < |news| && news[i].shopifyId.Some?
      ensures news[i].shopifyId != news[j].shopifyId
    {
      var m := NewCompanySource(Ids(db.rows), page, i);
      var n := NewCompanySource(Ids(db.rows), page, j);
      assert m != n;
    }
  }

  /** Importing the same page again adds nothing. */
  lemma ImportTwice(db: Snapshot<CompanyFields>, page: seq<ShopifyCompany>, now: int, later: int)
    requires KeysBelow(db.rows, db.nextId)
    requires Import(db, page, now).Success?
    ensures Import(Import(db, page, now).value, page, later) == Import(db, page, now)
  {
    var news := NewCompanies(Ids(db.rows), page);
    var after := Import(db, page, now).value;
    InsertAllIds(db.rows, db.nextId, news, now);
    NewCompaniesIds(Ids(db.rows), page);
    forall r | r in page
      ensures r.id in Ids(after.rows)
    {
      var m :| 0 <= m < |page| && page[m] == r;
      assert r.id in PageIds(page);
    }
    NewCompaniesEmpty(Ids(after.rows), page);
  }

  /** Import keeps the unique constraint and fresh keys. */
  lemma ImportValid(db: Snapshot<CompanyFields>, page: seq<ShopifyCompany>, now: int)
    requires KeysBelow(db.rows, db.nextId) && UniqueIds(db.rows)
    requires Import(db, page, now).Success?
    ensures KeysBelow(Import(db, page, now).value.rows, Import(db, page, now).value.nextId)
    ensures UniqueIds(Import(db, page, now).value.rows)
  {
    InsertAllValid(db.rows, db.nextId, NewCompanies(Ids(db.rows), page), now);
  }

  /** importShopifyCompanies: creates a row for each record whose id no row holds, all in one batch. */
  method ImportShopifyCompanies(companies: Table<CompanyFields>, page: seq<ShopifyCompany>, now: int)
    returns (o: Outcome<DbError>)
    requires companies.Valid()
    modifies companies
    ensures companies.Valid()
    ensures match Import(old(companies.State()), page, now)
      case Success(db) => o == Pass && companies.State() == db
      case Failure(e) => o == Fail(e) && companies.State() == old(companies.State())
  {
    var found := companies.FindByShopifyIds(PageIds(page));
    var existing := set i | 0 <= i < |found| && found[i].1.shopifyId.Some? :: found[i].1.shopifyId.value;
    forall i | 0 <= i < |page|
      ensures page[i].id in existing <==> page[i].id in Ids(companies.rows)
    {
      if page[i].id in Ids(companies.rows) {
        var k :| k in companies.rows && companies.rows[k].shopifyId == Some(page[i].id);
        assert page[i].id in PageIds(page);
        var j :| 0 <= j < |found| && found[j].0 == k;
      }
    }
    NewCompaniesOnPage(existing, Ids(companies.rows), page);
    var news := NewCompanies(existing, page);
    if |news| > 0 {
      o := companies.CreateMany(news, NoForeignKeys, now);
    } else {
      o := Pass;
    }
  }

  // ---------------------------------------------------------------------------
  // Pulling every page changed since a date
  // ---------------------------------------------------------------------------

  /** What a pull did: the table it left, the calls it sent in order, and how it ended. */
  datatype CompanyPull = CompanyPull(db: Snapshot<CompanyFields>, calls: seq<RemoteCall>, outcome: Outcome<SyncError>)

  /**
   * pullCompanyFromShopifySince over the platform's answers to successive
   * searches: each page is reconciled, then imported, and the next search
   * starts at the page's end cursor while another page follows.
   */
  ghost function Pull(db: Snapshot<CompanyFields>, rejected: set<RemoteCall>, query: string, cursor: Option<string>,
                      answers: seq<Option<CompanyConnection>>, now: int): CompanyPull
    decreases |answers|
  {
    var call := RemoteCall.SearchCompanies(query, PageSize, cursor);
    if call in rejected then CompanyPull(db, [call], Fail(Rejected(call)))
    else if answers == [] || answers[0].None? then CompanyPull(db, [call], Pass)
    else
      var conn := answers[0].value;
      var (next, o) := SyncPage(db, conn.nodes, now);
      if o.Pass? && conn.pageInfo.hasNextPage then
        var rest := Pull(next, rejected, query, Some(conn.pageInfo.endCursor), answers[1..], now);
        rest.(calls := [call] + rest.calls)
      else CompanyPull(next, [call], o)
  }

  /** One page of a pull: the reconciling update, then the import; a failed import leaves the updated table. */
  ghost function SyncPage(db: Snapshot<CompanyFields>, page: seq<ShopifyCompany>, now: int)
    : (Snapshot<CompanyFields>, Outcome<SyncError>)
  {
    var updated := db.(rows := UpdateExisting(db.rows, page, now));
    match Import(updated, page, now)
    case Success(imported) => (imported, Pass)
    case Failure(e) => (updated, Fail(Db(e)))
  }

  /** A refused search ends the pull with that refusal, the table untouched. */
  lemma PullStopsOnRefusedSearch(db: Snapshot<CompanyFields>, rejected: set<RemoteCall>, query: string,
                                 cursor: Option<string>, answers: seq<Option<CompanyConnection>>, now: int)
    requires RemoteCall.SearchCompanies(query, PageSize, cursor) in rejected
    ensures Pull(db, rejected, query, cursor, answers, now) == CompanyPull(db, [RemoteCall.SearchCompanies(query, PageSize, cursor)], Fail(Rejected(RemoteCall.SearchCompanies(query, PageSize, cursor))))
  {
  }

  /** An answered search without a payload ends the pull after that one search, with the table untouched. */
  lemma PullStopsWithoutPayload(db: Snapshot<CompanyFields>, rejected: set<RemoteCall>, query: string,
                                cursor: Option<string>, answers: seq<Option<CompanyConnection>>, now: int)
    requires RemoteCall.SearchCompanies(query, PageSize, cursor) !in rejected
    requires answers == [] || answers[0].None?
    ensures Pull(db, rejected, query, cursor, answers, now) == CompanyPull(db, [RemoteCall.SearchCompanies(query, PageSize, cursor)], Pass)
  {
  }

  /**
   * A search refused after a page went through fails the pull, but leaves
   * that page's update and import in the table: the pull is not atomic.
   */
  lemma PullKeepsEarlierPages(db: Snapshot<CompanyFields>, rejected: set<RemoteCall>, query: string,
                              cursor: Option<string>, answers: seq<Option<CompanyConnection>>, now: int)
    requires RemoteCall.SearchCompanies(query, PageSize, cursor) !in rejected
    requires answers != [] && answers[0].Some? && answers[0].value.pageInfo.hasNextPage
    requires SyncPage(db, answers[0].value.nodes, now).1 == Pass
    requires RemoteCall.SearchCompanies(query, PageSize, Some(answers[0].value.pageInfo.endCursor)) in rejected
    ensures Pull(db, rejected, query, cursor, answers, now)
         == CompanyPull(SyncPage(db, answers[0].value.nodes, now).0,
                [RemoteCall.SearchCompanies(query, PageSize, cursor), RemoteCall.SearchCompanies(query, PageSize, Some(answers[0].value.pageInfo.endCursor))],
                Fail(Rejected(RemoteCall.SearchCompanies(query, PageSize, Some(answers[0].value.pageInfo.endCursor)))))
  {
    var next := SyncPage(db, answers[0].value.nodes, now).0;
    PullStopsOnRefusedSearch(next, rejected, query, Some(answers[0].value.pageInfo.endCursor), answers[1..], now);
  }

  /** Every answer carries a page, and only the last says no page follows. */
  predicate Chained(answers: seq<Option<CompanyConnection>>)
  {
    && |answers| >= 1
    && (forall k :: 0 <= k < |answers| ==> answers[k].Some?)
    && (forall k :: 0 <= k < |answers| - 1 ==> answers[k].value.pageInfo.hasNextPage)
    && !answers[|answers| - 1].value.pageInfo.hasNextPage
  }

  /** No page repeats a record id. */
  predicate DistinctPages(answers: seq<Option<CompanyConnection>>)
  {
    forall k, i, j :: 0 <= k < |answers| && answers[k].Some? && 0 <= i < j < |answers[k].value.nodes| ==>
      answers[k].value.nodes[i].id != answers[k].value.nodes[j].id
  }

  /**
   * Over pages p1..pn where only pn has no next page, and with no search
   * refused, the pull sends exactly n searches of PageSize records: the
   * first at the given cursor, search k+1 at page k's end cursor.
   */
  lemma {:induction false} PullFollowsCursors(db: Snapshot<CompanyFields>, rejected: set<RemoteCall>, query: string,
                                              cursor: Option<string>, answers: seq<Option<CompanyConnection>>, now: int)
    requires Chained(answers) && DistinctPages(answers)
    requires forall c :: c in rejected ==> !c.SearchCompanies?
    ensures Pull(db, rejected, query, cursor, answers, now).outcome == Pass
    ensures |Pull(db, rejected, query, cursor, answers, now).calls| == |answers|
    ensures Pull(db, rejected, query, cursor, answers, now).calls[0] == RemoteCall.SearchCompanies(query, PageSize, cursor)
    ensures forall k :: 0 <= k < |answers| - 1 ==>
      Pull(db, rejected, query, cursor, answers, now).calls[k + 1] == RemoteCall.SearchCompanies(query, PageSize, Some(answers[k].value.pageInfo.endCursor))
    decreases |answers|
  {
    var call := RemoteCall.SearchCompanies(query, PageSize, cursor);
    var conn := answers[0].value;
    var updated := db.(rows := UpdateExisting(db.rows, conn.nodes, now));
    DistinctPageImports(updated, conn.nodes, now);
    var step := SyncPage(db, conn.nodes, now);
    assert step.1 == Pass;
    if conn.pageInfo.hasNextPage {
      var rest := answers[1..];
      assert forall k :: 0 <= k < |rest| ==> rest[k] == answers[k + 1];
      PullFollowsCursors(step.0, rejected, query, Some(conn.pageInfo.endCursor), rest, now);
      var r := Pull(step.0, rejected, query, Some(conn.pageInfo.endCursor), rest, now);
      var whole := Pull(db, rejected, query, cursor, answers, now);
      assert whole == r.(calls := [call] + r.calls);
      var calls := whole.calls;
      assert calls == [call] + r.calls;
      forall k | 0 <= k < |answers| - 1
        ensures calls[k + 1] == RemoteCall.SearchCompanies(query, PageSize, Some(answers[k].value.pageInfo.endCursor))
      {
        assert calls[k + 1] == r.calls[k];
        if k > 0 {
          assert rest[k - 1] == answers[k];
        }
      }
    } else {
      assert Pull(db, rejected, query, cursor, answers, now) == CompanyPull(step.0, [call], Pass);
    }
  }

  /** A pull keeps the unique constraint and fresh keys, whatever the pages hold and however it ends. */
  lemma {:induction false} PullValid(db: Snapshot<CompanyFields>, rejected: set<RemoteCall>, query: string,
                                     cursor: Option<string>, answers: seq<Option<CompanyConnection>>, now: int)
    requires KeysBelow(db.rows, db.nextId) && UniqueIds(db.rows)
    ensures KeysBelow(Pull(db, rejected, query, cursor, answers, now).db.rows, Pull(db, rejected, query, cursor, answers, now).db.nextId)
    ensures UniqueIds(Pull(db, rejected, query, cursor, answers, now).db.rows)
    decreases |answers|
  {
    if RemoteCall.SearchCompanies(query, PageSize, cursor) !in rejected && answers != [] && answers[0].Some? {
      var conn := answers[0].value;
      var updated := db.(rows := UpdateExisting(db.rows, conn.nodes, now));
      UpdateExistingKeepsIds(db.rows, conn.nodes, now);
      assert UniqueIds(updated.rows);
      var step := SyncPage(db, conn.nodes, now);
      if Import(updated, conn.nodes, now).Success? {
        ImportValid(updated, conn.nodes, now);
        assert step.0 == Import(updated, conn.nodes, now).value;
        PullValid(step.0, rejected, query, Some(conn.pageInfo.endCursor), answers[1..], now);
      }
    }
  }

  /**
   * pullCompanyFromShopifySince: searches for the companies updated after
   * `date` (its ISO text), reconciles and imports the page, and continues at
   * the end cursor while the platform reports another page.
   */
  method PullCompanyFromShopifySince(companies: Table<CompanyFields>, remote: Remote, date: string, cursor: Option<string>, now: int)
    returns (o: Outcome<SyncError>)
    requires companies.Valid()
    modifies companies, remote`companySearches, remote`log
    ensures companies.Valid()
    ensures companies.State() ==
      Pull(old(companies.State()), remote.rejected, Text.UpdatedSince(date), cursor,
           old(remote.PendingCompanyPages()), now).db
    ensures o ==
      Pull(old(companies.State()), remote.rejected, Text.UpdatedSince(date), cursor,
           old(remote.PendingCompanyPages()), now).outcome
    ensures remote.log == old(remote.log) +
      Pull(old(companies.State()), remote.rejected, Text.UpdatedSince(date), cursor,
           old(remote.PendingCompanyPages()), now).calls
    ensures remote.companySearches == old(remote.companySearches) +
      |Pull(old(companies.State()), remote.rejected, Text.UpdatedSince(date), cursor,
            old(remote.PendingCompanyPages()), now).calls|
    decreases |remote.PendingCompanyPages()|
  {
    ghost var db := companies.State();
    ghost var pending := remote.PendingCompanyPages();
    var query := Text.UpdatedSince(date);
    ghost var whole := Pull(db, remote.rejected, query, cursor, pending, now);
    ghost var call := RemoteCall.SearchCompanies(query, PageSize, cursor);
    var data := remote.SearchCompanies(query, PageSize, cursor);
    if data.Failure? {
      assert whole == CompanyPull(db, [call], Fail(Rejected(call)));
      return Fail(Rejected(data.error));
    }
    if data.value.None? {
      assert whole == CompanyPull(db, [call], Pass);
      return Pass;
    }
    assert pending != [] && pending[0] == data.value;
    var conn := data.value.value;
    o := SyncCompanyPage(companies, conn.nodes, now);
    ghost var step := SyncPage(db, conn.nodes, now);
    if o.Pass? && conn.pageInfo.hasNextPage {
      ghost var log1 := remote.log;
      ghost var searches1 := remote.companySearches;
      ghost var rest := Pull(step.0, remote.rejected, query, Some(conn.pageInfo.endCursor), pending[1..], now);
      assert whole == rest.(calls := [call] + rest.calls);
      o := PullCompanyFromShopifySince(companies, remote, date, Some(conn.pageInfo.endCursor), now);
      assert remote.log == log1 + rest.calls;
      assert remote.companySearches == searches1 + |rest.calls|;
    } else {
      assert whole == CompanyPull(step.0, [call], o);
    }
  }

  /** One page of a pull: the reconciling update, then the import. */
  method SyncCompanyPage(companies: Table<CompanyFields>, page: seq<ShopifyCompany>, now: int)
    returns (o: Outcome<SyncError>)
    requires companies.Valid()
    modifies companies
    ensures companies.Valid()
    ensures (companies.State(), o) == SyncPage(old(companies.State()), page, now)
  {
    UpdateExistingCompanies(companies, page, now);
    var imported := ImportShopifyCompanies(companies, page, now);
    o := if imported.Pass? then Pass else Fail(Db(imported.error));
  }

  // ---------------------------------------------------------------------------
  // Pushing local changes
  // ---------------------------------------------------------------------------

  /**
   * createCompany: creates the row, creates the platform company with the
   * row's name and its id in decimal as external id, then stores the id the
   * platform returned.
   */
  method CreateCompany(companies: Table<CompanyFields>, remote: Remote, name: string, now: int)
    returns (r: Result<(int, Company), SyncError>)
    requires companies.Valid()
    modifies companies, remote`created, remote`log
    ensures companies.Valid() && companies.nextId == old(companies.nextId) + 1
    ensures var id := old(companies.nextId);
      var call := RemoteCall.CreateCompany(name, Text.Decimal(id));
      var gid := NewGid("Company", old(remote.created));
      var synced := Row(Some(gid), CompanyFields(name), now);
      && remote.log == old(remote.log) + [call]
      && r == (if call in remote.rejected then Failure(Rejected(call))
               else if HeldByOther(old(companies.rows), id, gid) then Failure(Db(UniqueViolation))
               else Success((id, synced)))
      && companies.rows == old(companies.rows)[id := if r.Success? then synced else Row(None, CompanyFields(name), now)]
    ensures remote.created ==
      old(remote.created) + if RemoteCall.CreateCompany(name, Text.Decimal(old(companies.nextId))) in remote.rejected then 0 else 1
  {
    var created := companies.Create(Draft(None, CompanyFields(name)), NoForeignKeys, now);
    assert created.Success?;
    var id := created.value;
    var sent := remote.Create(RemoteCall.CreateCompany(name, Text.Decimal(id)), "Company");
    if sent.Failure? {
      return Failure(Rejected(sent.error));
    }
    assert forall k :: k in companies.rows && k != id ==> k in old(companies.rows) && companies.rows[k] == old(companies.rows)[k];
    var stored := companies.SetShopifyId(id, sent.value, now);
    if stored.Failure? {
      return Failure(Db(stored.error));
    }
    r := Success((id, stored.value));
  }

  /**
   * updateCompany: rewrites the row's name, then, when the row has a platform
   * id, sends the platform the new name and the row's id as external id.
   */
  method UpdateCompany(companies: Table<CompanyFields>, remote: Remote, id: int, name: string, now: int)
    returns (r: Result<(int, Company), SyncError>)
    requires companies.Valid()
    modifies companies, remote`log
    ensures companies.Valid() && companies.nextId == old(companies.nextId)
    ensures id !in old(companies.rows) ==>
      r == Failure(Db(NotFound)) && companies.rows == old(companies.rows) && remote.log == old(remote.log)
    ensures id in old(companies.rows) ==>
      var row := Row(old(companies.rows)[id].shopifyId, CompanyFields(name), now);
      && companies.rows == old(companies.rows)[id := row]
      && (Text.Truthy(row.shopifyId) ==>
            var call := RemoteCall.UpdateCompany(row.shopifyId.value, name, Text.Decimal(id));
            remote.log == old(remote.log) + [call] && r == if call in remote.rejected then Failure(Rejected(call)) else Success((id, row)))
      && (!Text.Truthy(row.shopifyId) ==> remote.log == old(remote.log) && r == Success((id, row)))
  {
    var updated := companies.Update(id, (f: CompanyFields) => Rename(f, name), NoForeignKeys, now);
    if updated.Failure? {
      return Failure(Db(updated.error));
    }
    var row := updated.value;
    if Text.Truthy(row.shopifyId) {
      var sent := remote.Send(RemoteCall.UpdateCompany(row.shopifyId.value, row.fields.name, Text.Decimal(id)));
      if sent.Fail? {
        return Failure(Rejected(sent.error));
      }
    }
    r := Success((id, row));
  }

  /** deleteCompany: deletes the row, then the platform company when the row had a platform id. */
  method DeleteCompany(companies: Table<CompanyFields>, remote: Remote, id: int)
    returns (r: Result<(int, Company), SyncError>)
    requires companies.Valid()
    modifies companies, remote`log
    ensures companies.Valid() && companies.nextId == old(companies.nextId)
    ensures companies.rows == old(companies.rows) - {id}
    ensures id !in old(companies.rows) ==> r == Failure(Db(NotFound)) && remote.log == old(remote.log)
    ensures id in old(companies.rows) ==>
      var row := old(companies.rows)[id];
      && (Text.Truthy(row.shopifyId) ==>
            var call := RemoteCall.DeleteCompanies([row.shopifyId.value]);
            remote.log == old(remote.log) + [call] && r == if call in remote.rejected then Failure(Rejected(call)) else Success((id, row)))
      && (!Text.Truthy(row.shopifyId) ==> remote.log == old(remote.log) && r == Success((id, row)))
  {
    var deleted := companies.Delete(id);
    if deleted.Failure? {
      return Failure(Db(deleted.error));
    }
    var row := deleted.value;
    if Text.Truthy(row.shopifyId) {
      var sent := remote.Send(RemoteCall.DeleteCompanies([row.shopifyId.value]));
      if sent.Fail? {
        return Failure(Rejected(sent.error));
      }
    }
    r := Success((id, row));
  }
}
