/**
 * The customer side of the sync: the customer list, the pull that
 * reconciles pages of platform customers with local rows and links new
 * customers to local companies, and the create, update and delete
 * operations that push a local change to the platform, including the
 * customer's contact link to its company.
 */
module CustomerService {
  import opened Wrappers
  import opened Shopify
  import opened Store
  import Text

  /** Records requested per customer search. */
  const PageSize: int := 50

  /** The customer table's foreign key: a company id, when present, names a company row. */
  predicate HasCompany(companyIds: set<int>, f: CustomerFields)
  {
    f.companyId.None? || f.companyId.value in companyIds
  }

  // ---------------------------------------------------------------------------
  // The customer list
  // ---------------------------------------------------------------------------

  /** An optional column contains the search text. */
  predicate ColumnContains(column: Option<string>, search: string)
  {
    column.Some? && Text.Contains(column.value, search)
  }

  /** The list filter: no search text, or the first name, last name or email contains it. */
  predicate CustomerMatches(search: Option<string>, c: Customer)
  {
    || !Text.Truthy(search)
    || ColumnContains(c.fields.firstName, search.value)
    || ColumnContains(c.fields.lastName, search.value)
    || ColumnContains(c.fields.email, search.value)
  }

  /** findCustomers: a window of the rows whose first name, last name or email contains the search text. */
  method FindCustomers(customers: Table<CustomerFields>, search: Option<string>, skip: nat, take: nat)
    returns (page: seq<(int, Customer)>)
    requires customers.Valid()
    ensures forall i :: 0 <= i < |page| ==>
              page[i].0 in customers.rows && page[i].1 == customers.rows[page[i].0] && CustomerMatches(search, page[i].1)
    ensures forall i, j :: 0 <= i < j < |page| ==> page[i].0 != page[j].0
    ensures |page| == WindowSize(|set k | k in customers.rows && CustomerMatches(search, customers.rows[k])|, skip, take)
    ensures !Text.Truthy(search) ==> |page| == WindowSize(|customers.rows|, skip, take)
  {
    var matches := (c: Customer) => CustomerMatches(search, c);
    var found := customers.FindWhere(matches);
    assert (set k | k in customers.rows && matches(customers.rows[k])) == (set k | k in customers.rows && CustomerMatches(search, customers.rows[k])) by {
      assert forall k :: k in customers.rows && matches(customers.rows[k]) <==> k in customers.rows && CustomerMatches(search, customers.rows[k]);
    }
    var lo := if skip < |found| then skip else |found|;
    var hi := if skip + take < |found| then skip + take else |found|;
    page := found[lo..hi];
    if !Text.Truthy(search) {
      var all := set k | k in customers.rows && CustomerMatches(search, customers.rows[k]);
      assert forall k :: k in all <==> k in customers.rows.Keys;
      assert all == customers.rows.Keys;
    }
  }

  // ---------------------------------------------------------------------------
  // Reconciling a page with the rows that already exist
  // ---------------------------------------------------------------------------

  /** The ids of the records on a page. */
  function PageIds(page: seq<ShopifyCustomer>): set<Gid>
  {
    set i | 0 <= i < |page| :: page[i].id
  }

  /** The first record on the page whose id is `sid`. */
  function FindRemote(page: seq<ShopifyCustomer>, sid: Option<Gid>): (r: Option<ShopifyCustomer>)
    ensures r.Some? <==> sid.Some? && sid.value in PageIds(page)
    ensures r.Some? ==> Some(r.value.id) == sid && r.value in page
    ensures r.Some? ==> exists i :: 0 <= i < |page| && page[i] == r.value && forall j :: 0 <= j < i ==> Some(page[j].id) != sid
    decreases |page|
  {
    if page == [] then None
    else if Some(page[0].id) == sid then Some(page[0])
    else
      assert forall g :: g in PageIds(page) <==> g == page[0].id || g in PageIds(page[1..]) by {
        forall g | g in PageIds(page) ensures g == page[0].id || g in PageIds(page[1..]) {
          var i :| 0 <= i < |page| && page[i].id == g;
          if i > 0 {
            assert page[1..][i - 1] == page[i];
          }
        }
        forall g | g in PageIds(page[1..]) ensures g in PageIds(page) {
          var i :| 0 <= i < |page[1..]| && page[1..][i].id == g;
          assert page[i + 1] == page[1..][i];
        }
      }
      FindRemote(page[1..], sid)
  }

  /** A local row is matched when the page carries a record with its platform id. */
  predicate Matched(c: Customer, page: seq<ShopifyCustomer>)
  {
    c.shopifyId.Some? && c.shopifyId.value in PageIds(page)
  }

  /** The local row is strictly newer than the platform record: equal stamps do not count. */
  predicate Newer(c: Customer, remote: ShopifyCustomer)
  {
    c.updatedAt > remote.updatedAt
  }

  /** Some matched row is strictly newer than its record. */
  ghost predicate AnyStale(rows: map<int, Customer>, page: seq<ShopifyCustomer>)
  {
    exists k :: k in rows && Matched(rows[k], page) && Newer(rows[k], FindRemote(page, rows[k].shopifyId).value)
  }

  /** The data an update takes from a record: the six profile columns; the company link stays. */
  function Refresh(f: CustomerFields, remote: ShopifyCustomer): CustomerFields
  {
    f.(firstName := Some(remote.firstName), lastName := Some(remote.lastName), email := Some(remote.email),
       phone := Some(remote.phone), locale := Some(remote.locale), state := Some(remote.state))
  }

  /** A matched row after its update: the record's profile columns and a new stamp. */
  ghost function Pulled(c: Customer, page: seq<ShopifyCustomer>, now: int): Customer
    requires Matched(c, page)
  {
    Row(c.shopifyId, Refresh(c.fields, FindRemote(page, c.shopifyId).value), now)
  }

  /** The rows with the matched ones whose platform ids lie in `ids` updated. */
  ghost function ReconciledOn(rows: map<int, Customer>, page: seq<ShopifyCustomer>, ids: set<Gid>, now: int): map<int, Customer>
  {
    map k | k in rows :: if Matched(rows[k], page) && rows[k].shopifyId.value in ids then Pulled(rows[k], page, now) else rows[k]
  }

  /** Every matched row updated from its record. */
  ghost function Reconciled(rows: map<int, Customer>, page: seq<ShopifyCustomer>, now: int): map<int, Customer>
  {
    ReconciledOn(rows, page, PageIds(page), now)
  }

  /**
   * The table after updateExistingCustomers: one matched row newer than its
   * record ends the loop before the transaction and leaves every row as it was.
   */
  ghost function UpdateExisting(rows: map<int, Customer>, page: seq<ShopifyCustomer>, now: int): map<int, Customer>
  {
    if AnyStale(rows, page) then rows else Reconciled(rows, page, now)
  }
  /** One matched row newer than its record is enough to leave the table as it was. */
  lemma StaleLeavesRows(rows: map<int, Customer>, page: seq<ShopifyCustomer>, k: int, now: int)
    requires k in rows && Matched(rows[k], page) && Newer(rows[k], FindRemote(page, rows[k].shopifyId).value)
    ensures UpdateExisting(rows, page, now) == rows
  {
    assert AnyStale(rows, page);
  }


  /** Updating no platform id changes nothing. */
  lemma ReconciledOnNone(rows: map<int, Customer>, page: seq<ShopifyCustomer>, now: int)
    ensures ReconciledOn(rows, page, {}, now) == rows
  {
    var r := ReconciledOn(rows, page, {}, now);
    assert forall k :: k in r <==> k in rows;
    assert forall k :: k in r ==> r[k] == rows[k];
  }

  /** Two sets of platform ids that agree on the matched rows give the same update. */
  lemma ReconciledOnSame(rows: map<int, Customer>, page: seq<ShopifyCustomer>, s: set<Gid>, t: set<Gid>, now: int)
    requires forall k :: k in rows && Matched(rows[k], page) ==> (rows[k].shopifyId.value in s <==> rows[k].shopifyId.value in t)
    ensures ReconciledOn(rows, page, s, now) == ReconciledOn(rows, page, t, now)
  {
    var a := ReconciledOn(rows, page, s, now);
    var b := ReconciledOn(rows, page, t, now);
    assert forall k :: k in a <==> k in b;
    assert forall k :: k in a ==> a[k] == b[k];
  }

  /** One `update where shopifyId = sid` with sid's record extends the updated ids by sid. */
  lemma RefreshStep(rows: map<int, Customer>, page: seq<ShopifyCustomer>, ids: set<Gid>, sid: Gid, now: int)
    requires sid in PageIds(page)
    ensures UpdateWhere(ReconciledOn(rows, page, ids, now), sid, FindRemote(page, Some(sid)).value, Refresh, now)
         == ReconciledOn(rows, page, ids + {sid}, now)
  {
    var before := ReconciledOn(rows, page, ids, now);
    var a := UpdateWhere(before, sid, FindRemote(page, Some(sid)).value, Refresh, now);
    var b := ReconciledOn(rows, page, ids + {sid}, now);
    assert forall k :: k in a <==> k in b;
    forall k | k in a
      ensures a[k] == b[k]
    {
      assert before[k].shopifyId == rows[k].shopifyId;
      assert before[k].fields.companyId == rows[k].fields.companyId;
    }
  }

  /** Appending the update of one more matched record to the transaction extends the updated ids by its id. */
  lemma TxStep(rows: map<int, Customer>, page: seq<ShopifyCustomer>, txs: seq<(Gid, ShopifyCustomer)>, seen: set<Gid>,
               remote: ShopifyCustomer, now: int)
    requires ApplyAll(rows, txs, Refresh, now) == ReconciledOn(rows, page, seen, now)
    requires FindRemote(page, Some(remote.id)) == Some(remote)
    ensures ApplyAll(rows, txs + [(remote.id, remote)], Refresh, now) == ReconciledOn(rows, page, seen + {remote.id}, now)
  {
    RefreshStep(rows, page, seen, remote.id, now);
    ApplyAllAppend(rows, txs, [(remote.id, remote)], Refresh, now);
  }

  /**
   * updateExistingCustomers: looks up the rows matched by the page, builds
   * one update per row from its record, and runs them as one transaction,
   * unless a row newer than its record ends the loop first.
   */
  method UpdateExistingCustomers(customers: Table<CustomerFields>, page: seq<ShopifyCustomer>, now: int)
    requires customers.Valid()
    modifies customers
    ensures customers.Valid() && customers.nextId == old(customers.nextId)
    ensures customers.rows == UpdateExisting(old(customers.rows), page, now)
  {
    var found := customers.FindByShopifyIds(PageIds(page));
    ghost var rows := customers.rows;
    var txs: seq<(Gid, ShopifyCustomer)> := [];
    ghost var seen: set<Gid> := {};
    ReconciledOnNone(rows, page, now);
    for i := 0 to |found|
      invariant customers.rows == rows && customers.nextId == old(customers.nextId)
      invariant forall j :: 0 <= j < i ==> !Newer(found[j].1, FindRemote(page, found[j].1.shopifyId).value)
      invariant forall j :: 0 <= j < i ==> found[j].1.shopifyId.value in seen
      invariant seen <= PageIds(page)
      invariant ApplyAll(rows, txs, Refresh, now) == ReconciledOn(rows, page, seen, now)
    {
      var remote := FindRemote(page, found[i].1.shopifyId);
      if remote.None? || found[i].1.updatedAt > remote.value.updatedAt {
        StaleLeavesRows(rows, page, found[i].0, now);
        return;
      }
      forall j | 0 <= j <= i
        ensures !Newer(found[j].1, FindRemote(page, found[j].1.shopifyId).value)
      {
        if j == i {
          assert FindRemote(page, found[j].1.shopifyId) == remote;
        }
      }
      forall j | 0 <= j <= i
        ensures found[j].1.shopifyId.value in seen + {remote.value.id}
      {
        if j == i {
          assert found[j].1.shopifyId.value == remote.value.id;
        }
      }
      TxStep(rows, page, txs, seen, remote.value, now);
      txs := txs + [(remote.value.id, remote.value)];
      seen := seen + {remote.value.id};
    }
    forall k | k in rows && Matched(rows[k], page)
      ensures rows[k].shopifyId.value in seen
      ensures !Newer(rows[k], FindRemote(page, rows[k].shopifyId).value)
    {
      var j :| 0 <= j < |found| && found[j].0 == k;
    }
    ReconciledOnSame(rows, page, seen, PageIds(page), now);
    customers.UpdateWhereShopifyId(txs, Refresh, now);
  }

  /**
   * The update keeps every key, every platform id and every company link;
   * a matched row left as it was means some matched row is newer than its record.
   */
  lemma UpdateExistingKeeps(rows: map<int, Customer>, page: seq<ShopifyCustomer>, now: int)
    ensures UpdateExisting(rows, page, now).Keys == rows.Keys
    ensures forall k :: k in rows ==>
      && UpdateExisting(rows, page, now)[k].shopifyId == rows[k].shopifyId
      && UpdateExisting(rows, page, now)[k].fields.companyId == rows[k].fields.companyId
    ensures forall k :: k in rows && !Matched(rows[k], page) ==> UpdateExisting(rows, page, now)[k] == rows[k]
    ensures forall k :: k in rows && Matched(rows[k], page) && UpdateExisting(rows, page, now)[k].updatedAt != now ==>
      AnyStale(rows, page)
  {
    var r := UpdateExisting(rows, page, now);
    assert forall k :: k in r <==> k in rows;
  }

  // ---------------------------------------------------------------------------
  // Importing the records no row knows yet, linked to local companies
  // ---------------------------------------------------------------------------

  /** The platform id of the company of a record's first contact profile, when it has one and it is not empty. */
  function Link(c: ShopifyCustomer): Option<Gid>
  {
    if |c.companyContactProfiles| > 0 && c.companyContactProfiles[0].company.id != "" then Some(c.companyContactProfiles[0].company.id)
    else None
  }

  /** The local company a new customer is linked to: the row holding its link's platform id, if any row does. */
  ghost function ResolvedCompany(companyRows: map<int, Company>, c: ShopifyCustomer): (k: Option<int>)
    ensures k.Some? <==> Link(c).Some? && Link(c).value in Ids(companyRows)
    ensures k.Some? ==> k.value in companyRows && companyRows[k.value].shopifyId == Link(c)
  {
    if Link(c).Some? && Link(c).value in Ids(companyRows) then
      var k :| k in companyRows && companyRows[k].shopifyId.Some? && companyRows[k].shopifyId.value == Link(c).value;
      Some(k)
    else None
  }

  /** The row a record is imported as, with the company link it resolved to. */
  function DraftOf(c: ShopifyCustomer, companyId: Option<int>): Draft<CustomerFields>
  {
    Draft(Some(c.id), CustomerFields(Some(c.firstName), Some(c.lastName), Some(c.email), Some(c.phone),
                                     Some(c.locale), Some(c.state), companyId))
  }

  /** The new rows, by their reference definition: each record with an unknown id, linked to its resolved company. */
  ghost function Drafts(existing: set<Gid>, companyRows: map<int, Company>, page: seq<ShopifyCustomer>): seq<Draft<CustomerFields>>
    decreases |page|
  {
    if page == [] then []
    else (if page[0].id in existing then [] else [DraftOf(page[0], ResolvedCompany(companyRows, page[0]))])
         + Drafts(existing, companyRows, page[1..])
  }

  /** The link ids of the records with unknown ids: the list the company lookup asks for. */
  function LinkIds(existing: set<Gid>, page: seq<ShopifyCustomer>): set<Gid>
  {
    set i | 0 <= i < |page| && page[i].id !in existing && Link(page[i]).Some? :: Link(page[i]).value
  }

  /** The local id of the first looked-up company holding platform id `gid`. */
  function FindLinked(linked: seq<(int, Company)>, gid: Gid): (k: Option<int>)
    ensures k.Some? ==> exists i :: 0 <= i < |linked| && linked[i].0 == k.value && linked[i].1.shopifyId == Some(gid)
    ensures k.None? ==> forall i :: 0 <= i < |linked| ==> linked[i].1.shopifyId != Some(gid)
    decreases |linked|
  {
    if linked == [] then None
    else if linked[0].1.shopifyId == Some(gid) then Some(linked[0].0)
    else
      assert forall i :: 0 < i < |linked| ==> linked[i] == linked[1..][i - 1];
      FindLinked(linked[1..], gid)
  }

  /** The company link of one new row: the looked-up company of the first profile, if the record has a profile. */
  function CompanyOf(linked: seq<(int, Company)>, c: ShopifyCustomer): Option<int>
  {
    if |c.companyContactProfiles| > 0 then FindLinked(linked, c.companyContactProfiles[0].company.id) else None
  }

  /** The new rows of importShopifyCustomers: the records whose id is not in `existing`, in page order. */
  function NewCustomers(existing: set<Gid>, linked: seq<(int, Company)>, page: seq<ShopifyCustomer>): (news: seq<Draft<CustomerFields>>)
    ensures |news| <= |page|
    decreases |page|
  {
    if page == [] then []
    else (if page[0].id in existing then [] else [DraftOf(page[0], CompanyOf(linked, page[0]))])
         + NewCustomers(existing, linked, page[1..])
  }

  /** The looked-up companies are exactly the company rows holding one of `ids`. */
  ghost predicate LookedUp(linked: seq<(int, Company)>, companyRows: map<int, Company>, ids: set<Gid>)
  {
    && (forall i :: 0 <= i < |linked| ==>
          linked[i].0 in companyRows && linked[i].1 == companyRows[linked[i].0]
          && linked[i].1.shopifyId.Some? && linked[i].1.shopifyId.value in ids)
    && (forall k :: k in companyRows && companyRows[k].shopifyId.Some? && companyRows[k].shopifyId.value in ids ==>
          exists i :: 0 <= i < |linked| && linked[i].0 == k)
  }

  /** Looking a record's link up in the list finds the company the reference definition resolves. */
  lemma CompanyOfResolves(linked: seq<(int, Company)>, companyRows: map<int, Company>, ids: set<Gid>, c: ShopifyCustomer)
    requires LookedUp(linked, companyRows, ids) && UniqueIds(companyRows) && "" !in ids
    requires Link(c).Some? ==> Link(c).value in ids
    ensures CompanyOf(linked, c) == ResolvedCompany(companyRows, c)
  {
    var resolved := ResolvedCompany(companyRows, c);
    if |c.companyContactProfiles| > 0 {
      var gid := c.companyContactProfiles[0].company.id;
      var found := FindLinked(linked, gid);
      if found.Some? {
        var i :| 0 <= i < |linked| && linked[i].0 == found.value && linked[i].1.shopifyId == Some(gid);
        assert gid in Ids(companyRows);
        assert companyRows[resolved.value].shopifyId == companyRows[found.value].shopifyId;
      }
    }
  }

  /** With a lookup list covering the records' links, the new rows are those of the reference definition. */
  lemma {:induction false} NewCustomersAreDrafts(existing: set<Gid>, linked: seq<(int, Company)>, ids: set<Gid>,
                                                 companyRows: map<int, Company>, page: seq<ShopifyCustomer>)
    requires LookedUp(linked, companyRows, ids) && UniqueIds(companyRows) && "" !in ids
    requires LinkIds(existing, page) <= ids
    ensures NewCustomers(existing, linked, page) == Drafts(existing, companyRows, page)
    decreases |page|
  {
    if page != [] {
      var rest := page[1..];
      forall g | g in LinkIds(existing, rest)
        ensures g in LinkIds(existing, page)
      {
        var i :| 0 <= i < |rest| && rest[i].id !in existing && Link(rest[i]).Some? && Link(rest[i]).value == g;
        assert page[i + 1] == rest[i];
      }
      NewCustomersAreDrafts(existing, linked, ids, companyRows, rest);
      if page[0].id !in existing {
        if Link(page[0]).Some? {
          assert Link(page[0]).value in LinkIds(existing, page);
        }
        CompanyOfResolves(linked, companyRows, ids, page[0]);
      }
    }
  }

  /** The record of the page that the i-th new row is made from: one whose id is unknown. */
  lemma {:induction false} DraftSource(existing: set<Gid>, companyRows: map<int, Company>, page: seq<ShopifyCustomer>, i: nat)
    returns (m: nat)
    requires i < |Drafts(existing, companyRows, page)|
    ensures m < |page| && page[m].id !in existing
    ensures Drafts(existing, companyRows, page)[i] == DraftOf(page[m], ResolvedCompany(companyRows, page[m]))
    decreases |page|
  {
    assert page != [];
    var head := if page[0].id in existing then [] else [DraftOf(page[0], ResolvedCompany(companyRows, page[0]))];
    assert Drafts(existing, companyRows, page) == head + Drafts(existing, companyRows, page[1..]);
    if i < |head| {
      m := 0;
    } else {
      var n := DraftSource(existing, companyRows, page[1..], i - |head|);
      m := n + 1;
    }
  }

  /** Where a record with an unknown id lands among the new rows. */
  lemma {:induction false} DraftIndex(existing: set<Gid>, companyRows: map<int, Company>, page: seq<ShopifyCustomer>, m: nat)
    returns (i: nat)
    requires m < |page| && page[m].id !in existing
    ensures i < |Drafts(existing, companyRows, page)|
    ensures Drafts(existing, companyRows, page)[i] == DraftOf(page[m], ResolvedCompany(companyRows, page[m]))
    decreases |page|
  {
    var head := if page[0].id in existing then [] else [DraftOf(page[0], ResolvedCompany(companyRows, page[0]))];
    assert Drafts(existing, companyRows, page) == head + Drafts(existing, companyRows, page[1..]);
    if m == 0 {
      i := 0;
    } else {
      var n := DraftIndex(existing, companyRows, page[1..], m - 1);
      i := |head| + n;
    }
  }

  /** The new rows are exactly the drafts of the records with unknown ids, each with its resolved company. */
  lemma DraftsSpec(existing: set<Gid>, companyRows: map<int, Company>, page: seq<ShopifyCustomer>)
    ensures var news := Drafts(existing, companyRows, page);
      && (forall d :: d in news ==> exists r :: r in page && r.id !in existing && d == DraftOf(r, ResolvedCompany(companyRows, r)))
      && (forall r :: r in page && r.id !in existing ==> DraftOf(r, ResolvedCompany(companyRows, r)) in news)
  {
    var news := Drafts(existing, companyRows, page);
    forall d | d in news
      ensures exists r :: r in page && r.id !in existing && d == DraftOf(r, ResolvedCompany(companyRows, r))
    {
      var i :| 0 <= i < |news| && news[i] == d;
      var m := DraftSource(existing, companyRows, page, i);
      assert page[m] in page;
    }
    forall r | r in page && r.id !in existing
      ensures DraftOf(r, ResolvedCompany(companyRows, r)) in news
    {
      var m :| 0 <= m < |page| && page[m] == r;
      var i := DraftIndex(existing, companyRows, page, m);
    }
  }

  /** Only how `existing` treats the page's own ids matters. */
  lemma {:induction false} DraftsOnPage(e1: set<Gid>, e2: set<Gid>, companyRows: map<int, Company>, page: seq<ShopifyCustomer>)
    requires forall i :: 0 <= i < |page| ==> (page[i].id in e1 <==> page[i].id in e2)
    ensures Drafts(e1, companyRows, page) == Drafts(e2, companyRows, page)
    decreases |page|
  {
    if page != [] {
      assert forall i :: 0 <= i < |page[1..]| ==> page[1..][i] == page[i + 1];
      DraftsOnPage(e1, e2, companyRows, page[1..]);
    }
  }

  /** Every new row's company link names a company row: an unresolved link is left empty. */
  lemma DraftsHaveCompanies(existing: set<Gid>, companyRows: map<int, Company>, page: seq<ShopifyCustomer>)
    ensures var news := Drafts(existing, companyRows, page);
      forall i :: 0 <= i < |news| ==> HasCompany(companyRows.Keys, news[i].fields)
  {
    var news := Drafts(existing, companyRows, page);
    forall i | 0 <= i < |news|
      ensures HasCompany(companyRows.Keys, news[i].fields)
    {
      var m := DraftSource(existing, companyRows, page, i);
    }
  }

  /** On a page without repeated ids, the new rows carry pairwise different platform ids. */
  lemma {:induction false} DraftsDistinct(existing: set<Gid>, companyRows: map<int, Company>, page: seq<ShopifyCustomer>)
    requires forall i, j :: 0 <= i < j < |page| ==> page[i].id != page[j].id
    ensures forall i, j :: 0 <= i < j < |Drafts(existing, companyRows, page)| ==>
              Drafts(existing, companyRows, page)[i].shopifyId != Drafts(existing, companyRows, page)[j].shopifyId
    decreases |page|
  {
    if page != [] {
      var rest := page[1..];
      assert forall i, j :: 0 <= i < j < |rest| ==> rest[i] == page[i + 1] && rest[j] == page[j + 1];
      DraftsDistinct(existing, companyRows, rest);
      var tail := Drafts(existing, companyRows, rest);
      var head := if page[0].id in existing then [] else [DraftOf(page[0], ResolvedCompany(companyRows, page[0]))];
      var news := Drafts(existing, companyRows, page);
      assert news == head + tail;
      forall i, j | 0 <= i < j < |news|
        ensures news[i].shopifyId != news[j].shopifyId
      {
        assert news[j] == tail[j - |head|];
        if i < |head| {
          assert news[i] == DraftOf(page[0], ResolvedCompany(companyRows, page[0]));
          var m := DraftSource(existing, companyRows, rest, j - |head|);
          assert page[m + 1] == rest[m];
        } else {
          assert news[i] == tail[i - |head|];
        }
      }
    }
  }

  /** Import creates nothing exactly when every record's id is already known. */
  lemma DraftsEmpty(existing: set<Gid>, companyRows: map<int, Company>, page: seq<ShopifyCustomer>)
    ensures Drafts(existing, companyRows, page) == [] <==> forall r :: r in page ==> r.id in existing
  {
    var news := Drafts(existing, companyRows, page);
    if news != [] {
      var m := DraftSource(existing, companyRows, page, 0);
      assert page[m] in page;
    } else {
      forall r | r in page
        ensures r.id in existing
      {
        var m :| 0 <= m < |page| && page[m] == r;
        if r.id !in existing {
          var i := DraftIndex(existing, companyRows, page, m);
        }
      }
    }
  }

  /** The platform ids of the new rows are the page's ids not in `existing`. */
  lemma DraftsIds(existing: set<Gid>, companyRows: map<int, Company>, page: seq<ShopifyCustomer>)
    ensures DraftIds(Drafts(existing, companyRows, page)) == PageIds(page) - existing
  {
    var news := Drafts(existing, companyRows, page);
    forall g | g in DraftIds(news)
      ensures g in PageIds(page) - existing
    {
      var i :| 0 <= i < |news| && news[i].shopifyId == Some(g);
      var m := DraftSource(existing, companyRows, page, i);
    }
    forall g | g in PageIds(page) - existing
      ensures g in DraftIds(news)
    {
      var m :| 0 <= m < |page| && page[m].id == g;
      var i := DraftIndex(existing, companyRows, page, m);
    }
  }

  /** The customer table after importShopifyCustomers against these company rows, or the store's error. */
  ghost function Import(db: Snapshot<CustomerFields>, companyRows: map<int, Company>, page: seq<ShopifyCustomer>, now: int)
    : Result<Snapshot<CustomerFields>, DbError>
  {
    var news := Drafts(Ids(db.rows), companyRows, page);
    if !CanInsert(db.rows, news) then Failure(UniqueViolation)
    else if exists i :: 0 <= i < |news| && !HasCompany(companyRows.Keys, news[i].fields) then Failure(ForeignKeyViolation)
    else Success(Snapshot(InsertAll(db.rows, db.nextId, news, now), db.nextId + |news|))
  }

  /** Import never breaks the company foreign key; it fails only when the batch repeats a platform id. */
  lemma ImportFailsOnlyOnDuplicates(db: Snapshot<CustomerFields>, companyRows: map<int, Company>, page: seq<ShopifyCustomer>, now: int)
    ensures Import(db, companyRows, page, now).Success? <==> CanInsert(db.rows, Drafts(Ids(db.rows), companyRows, page))
    ensures Import(db, companyRows, page, now).Failure? ==> Import(db, companyRows, page, now).error == UniqueViolation
  {
    DraftsHaveCompanies(Ids(db.rows), companyRows, page);
  }

  /** The row a record is imported as, stamped, with the company its link resolves to. */
  ghost function ImportedRow(companyRows: map<int, Company>, x: ShopifyCustomer, now: int): Customer
  {
    Stamp(DraftOf(x, ResolvedCompany(companyRows, x)), now)
  }

  /** Every key a batch insert of the new rows adds holds the imported row of a record with an unknown id. */
  lemma NewRowsFromPage(rows: map<int, Customer>, nextId: int, existing: set<Gid>, companyRows: map<int, Company>,
                        page: seq<ShopifyCustomer>, now: int)
    requires forall k :: k in rows ==> k < nextId
    ensures var news := Drafts(existing, companyRows, page);
      var r := InsertAll(rows, nextId, news, now);
      forall k :: nextId <= k < nextId + |news| ==>
        k in r && exists x :: x in page && x.id !in existing && r[k] == ImportedRow(companyRows, x, now)
  {
    var news := Drafts(existing, companyRows, page);
    var r := InsertAll(rows, nextId, news, now);
    InsertAllAt(rows, nextId, news, now);
    forall k | nextId <= k < nextId + |news|
      ensures k in r && exists x :: x in page && x.id !in existing && r[k] == ImportedRow(companyRows, x, now)
    {
      assert r[nextId + (k - nextId)] == Stamp(news[k - nextId], now);
      var m := DraftSource(existing, companyRows, page, k - nextId);
      assert page[m] in page;
      assert r[k] == ImportedRow(companyRows, page[m], now);
    }
  }

  /** Every record with an unknown id has its imported row at one of the keys a batch insert adds. */
  lemma PageRowsInserted(rows: map<int, Customer>, nextId: int, existing: set<Gid>, companyRows: map<int, Company>,
                         page: seq<ShopifyCustomer>, now: int)
    requires forall k :: k in rows ==> k < nextId
    ensures var news := Drafts(existing, companyRows, page);
      var r := InsertAll(rows, nextId, news, now);
      forall x :: x in page && x.id !in existing ==>
        exists k :: nextId <= k < nextId + |news| && k in r && r[k] == ImportedRow(companyRows, x, now)
  {
    var news := Drafts(existing, companyRows, page);
    var r := InsertAll(rows, nextId, news, now);
    InsertAllAt(rows, nextId, news, now);
    forall x | x in page && x.id !in existing
      ensures exists k :: nextId <= k < nextId + |news| && k in r && r[k] == ImportedRow(companyRows, x, now)
    {
      var m :| 0 <= m < |page| && page[m] == x;
      var i := DraftIndex(existing, companyRows, page, m);
      assert r[nextId + i] == Stamp(news[i], now);
    }
  }

  /**
   * A successful import keeps every row and adds, under consecutive new ids,
   * one row per record whose id no row held, carrying that id, the record's
   * six profile columns and its resolved company.
   */
  lemma ImportAdds(db: Snapshot<CustomerFields>, companyRows: map<int, Company>, page: seq<ShopifyCustomer>, now: int)
    requires KeysBelow(db.rows, db.nextId)
    requires Import(db, companyRows, page, now).Success?
    ensures var after := Import(db, companyRows, page, now).value;
      && (forall k :: k in after.rows <==> k in db.rows || db.nextId <= k < after.nextId)
      && (forall k :: k in db.rows ==> after.rows[k] == db.rows[k])
      && (forall k :: db.nextId <= k < after.nextId ==>
            exists x :: x in page && x.id !in Ids(db.rows) && after.rows[k] == ImportedRow(companyRows, x, now))
      && (forall x :: x in page && x.id !in Ids(db.rows) ==>
            exists k :: db.nextId <= k < after.nextId && after.rows[k] == ImportedRow(companyRows, x, now))
  {
    var news := Drafts(Ids(db.rows), companyRows, page);
    var after := Import(db, companyRows, page, now).value;
    assert after == Snapshot(InsertAll(db.rows, db.nextId, news, now), db.nextId + |news|);
    InsertAllAt(db.rows, db.nextId, news, now);
    NewRowsFromPage(db.rows, db.nextId, Ids(db.rows), companyRows, page, now);
    PageRowsInserted(db.rows, db.nextId, Ids(db.rows), companyRows, page, now);
  }

  /** Importing a page whose records all have different ids succeeds, whatever their links resolve to. */
  lemma DistinctPageImports(db: Snapshot<CustomerFields>, companyRows: map<int, Company>, page: seq<ShopifyCustomer>, now: int)
    requires forall i, j :: 0 <= i < j < |page| ==> page[i].id != page[j].id
    ensures Import(db, companyRows, page, now).Success?
  {
    var news := Drafts(Ids(db.rows), companyRows, page);
    DraftsDistinct(Ids(db.rows), companyRows, page);
    DraftsHaveCompanies(Ids(db.rows), companyRows, page);
    forall i | 0 <= i < |news| && news[i].shopifyId.Some?
      ensures news[i].shopifyId.value !in Ids(db.rows)
    {
      var m := DraftSource(Ids(db.rows), companyRows, page, i);
    }
    forall i, j | 0 <= i < j < |news| && news[i].shopifyId.Some?
      ensures news[i].shopifyId != news[j].shopifyId
    {
      var m := DraftSource(Ids(db.rows), companyRows, page, i);
      var n := DraftSource(Ids(db.rows), companyRows, page, j);
      assert m != n;
    }
  }

  /** Importing the same page again adds nothing, so it never duplicates a platform id. */
  lemma ImportTwice(db: Snapshot<CustomerFields>, companyRows: map<int, Company>, page: seq<ShopifyCustomer>, now: int, later: int)
    requires KeysBelow(db.rows, db.nextId)
    requires Import(db, companyRows, page, now).Success?
    ensures Import(Import(db, companyRows, page, now).value, companyRows, page, later) == Import(db, companyRows, page, now)
  {
    var after := Import(db, companyRows, page, now).value;
    ImportHoldsPage(db, companyRows, page, now);
    DraftsEmpty(Ids(after.rows), companyRows, page);
    assert Drafts(Ids(after.rows), companyRows, page) == [];
    assert InsertAll(after.rows, after.nextId, [], later) == after.rows;
  }

  /** After an import every record of the page has a row holding its id. */
  lemma ImportHoldsPage(db: Snapshot<CustomerFields>, companyRows: map<int, Company>, page: seq<ShopifyCustomer>, now: int)
    requires KeysBelow(db.rows, db.nextId)
    requires Import(db, companyRows, page, now).Success?
    ensures forall r :: r in page ==> r.id in Ids(Import(db, companyRows, page, now).value.rows)
  {
    var news := Drafts(Ids(db.rows), companyRows, page);
    var after := Import(db, companyRows, page, now).value;
    assert after == Snapshot(InsertAll(db.rows, db.nextId, news, now), db.nextId + |news|);
    InsertAllIds(db.rows, db.nextId, news, now);
    DraftsIds(Ids(db.rows), companyRows, page);
    forall r | r in page
      ensures r.id in Ids(after.rows)
    {
      var m :| 0 <= m < |page| && page[m] == r;
      assert r.id in PageIds(page);
    }
  }

  /** Import keeps the unique constraint and fresh keys. */
  lemma ImportValid(db: Snapshot<CustomerFields>, companyRows: map<int, Company>, page: seq<ShopifyCustomer>, now: int)
    requires KeysBelow(db.rows, db.nextId) && UniqueIds(db.rows)
    requires Import(db, companyRows, page, now).Success?
    ensures KeysBelow(Import(db, companyRows, page, now).value.rows, Import(db, companyRows, page, now).value.nextId)
    ensures UniqueIds(Import(db, companyRows, page, now).value.rows)
  {
    InsertAllValid(db.rows, db.nextId, Drafts(Ids(db.rows), companyRows, page), now);
  }

  /**
   * importShopifyCustomers: looks up the companies the new records' first
   * profiles point to, then creates a row for each record whose id no row
   * holds, all in one batch.
   */
  method ImportShopifyCustomers(customers: Table<CustomerFields>, companies: Table<CompanyFields>,
                                page: seq<ShopifyCustomer>, now: int)
    returns (o: Outcome<DbError>)
    requires customers.Valid() && companies.Valid()
    modifies customers
    ensures customers.Valid()
    ensures match Import(old(customers.State()), companies.rows, page, now)
      case Success(db) => o == Pass && customers.State() == db
      case Failure(e) => o == Fail(e) && customers.State() == old(customers.State())
  {
    var found := customers.FindByShopifyIds(PageIds(page));
    var existing := set i | 0 <= i < |found| && found[i].1.shopifyId.Some? :: found[i].1.shopifyId.value;
    forall i | 0 <= i < |page|
      ensures page[i].id in existing <==> page[i].id in Ids(customers.rows)
    {
      if page[i].id in Ids(customers.rows) {
        var k :| k in customers.rows && customers.rows[k].shopifyId == Some(page[i].id);
        assert page[i].id in PageIds(page);
        var j :| 0 <= j < |found| && found[j].0 == k;
      }
    }
    var linkIds := LinkIds(existing, page);
    var linked := companies.FindByShopifyIds(linkIds);
    NewCustomersAreDrafts(existing, linked, linkIds, companies.rows, page);
    DraftsOnPage(existing, Ids(customers.rows), companies.rows, page);
    var news := NewCustomers(existing, linked, page);
    var companyIds := companies.rows.Keys;
    if |news| > 0 {
      o := customers.CreateMany(news, (f: CustomerFields) => HasCompany(companyIds, f), now);
    } else {
      o := Pass;
    }
  }

  // ---------------------------------------------------------------------------
  // Pulling every page changed since a date
  // ---------------------------------------------------------------------------

  /** What a pull did: the table it left, the calls it sent in order, and how it ended. */
  datatype CustomerPull = CustomerPull(db: Snapshot<CustomerFields>, calls: seq<RemoteCall>, outcome: Outcome<SyncError>)

  /**
   * pullCustomerFromShopifySince over the platform's answers to successive
   * searches: each page is reconciled, then imported against the company
   * rows, and the next search starts at the page's end cursor while another
   * page follows.
   */
  ghost function Pull(db: Snapshot<CustomerFields>, companyRows: map<int, Company>, rejected: set<RemoteCall>, query: string, cursor: Option<string>,
                      answers: seq<Option<CustomerConnection>>, now: int): CustomerPull
    decreases |answers|
  {
    var call := RemoteCall.SearchCustomers(query, PageSize, cursor);
    if call in rejected then CustomerPull(db, [call], Fail(Rejected(call)))
    else if answers == [] || answers[0].None? then CustomerPull(db, [call], Pass)
    else
      var conn := answers[0].value;
      var (next, o) := SyncPage(db, companyRows, conn.nodes, now);
      if o.Pass? && conn.pageInfo.hasNextPage then
        var rest := Pull(next, companyRows, rejected, query, Some(conn.pageInfo.endCursor), answers[1..], now);
        rest.(calls := [call] + rest.calls)
      else CustomerPull(next, [call], o)
  }

  /**
   * One page of a pull: the reconciling update, then the import against the
   * company rows; a failed import leaves the updated table.
   */
  ghost function SyncPage(db: Snapshot<CustomerFields>, companyRows: map<int, Company>, page: seq<ShopifyCustomer>, now: int)
    : (Snapshot<CustomerFields>, Outcome<SyncError>)
  {
    var updated := db.(rows := UpdateExisting(db.rows, page, now));
    match Import(updated, companyRows, page, now)
    case Success(imported) => (imported, Pass)
    case Failure(e) => (updated, Fail(Db(e)))
  }

  /** A refused search ends the pull with that refusal, the table untouched. */
  lemma PullStopsOnRefusedSearch(db: Snapshot<CustomerFields>, companyRows: map<int, Company>, rejected: set<RemoteCall>, query: string,
                                 cursor: Option<string>, answers: seq<Option<CustomerConnection>>, now: int)
    requires RemoteCall.SearchCustomers(query, PageSize, cursor) in rejected
    ensures Pull(db, companyRows, rejected, query, cursor, answers, now) == CustomerPull(db, [RemoteCall.SearchCustomers(query, PageSize, cursor)], Fail(Rejected(RemoteCall.SearchCustomers(query, PageSize, cursor))))
  {
  }

  /** An answered search without a payload ends the pull after that one search, with the table untouched. */
  lemma PullStopsWithoutPayload(db: Snapshot<CustomerFields>, companyRows: map<int, Company>, rejected: set<RemoteCall>, query: string,
                                cursor: Option<string>, answers: seq<Option<CustomerConnection>>, now: int)
    requires RemoteCall.SearchCustomers(query, PageSize, cursor) !in rejected
    requires answers == [] || answers[0].None?
    ensures Pull(db, companyRows, rejected, query, cursor, answers, now) == CustomerPull(db, [RemoteCall.SearchCustomers(query, PageSize, cursor)], Pass)
  {
  }

  /**
   * A search refused after a page went through fails the pull, but leaves
   * that page's update and import in the table: the pull is not atomic.
   */
  lemma PullKeepsEarlierPages(db: Snapshot<CustomerFields>, companyRows: map<int, Company>, rejected: set<RemoteCall>, query: string,
                              cursor: Option<string>, answers: seq<Option<CustomerConnection>>, now: int)
    requires RemoteCall.SearchCustomers(query, PageSize, cursor) !in rejected
    requires answers != [] && answers[0].Some? && answers[0].value.pageInfo.hasNextPage
    requires SyncPage(db, companyRows, answers[0].value.nodes, now).1 == Pass
    requires RemoteCall.SearchCustomers(query, PageSize, Some(answers[0].value.pageInfo.endCursor)) in rejected
    ensures Pull(db, companyRows, rejected, query, cursor, answers, now)
         == CustomerPull(SyncPage(db, companyRows, answers[0].value.nodes, now).0,
                [RemoteCall.SearchCustomers(query, PageSize, cursor), RemoteCall.SearchCustomers(query, PageSize, Some(answers[0].value.pageInfo.endCursor))],
                Fail(Rejected(RemoteCall.SearchCustomers(query, PageSize, Some(answers[0].value.pageInfo.endCursor)))))
  {
    var next := SyncPage(db, companyRows, answers[0].value.nodes, now).0;
    PullStopsOnRefusedSearch(next, companyRows, rejected, query, Some(answers[0].value.pageInfo.endCursor), answers[1..], now);
  }

  /** Every answer carries a page, and only the last says no page follows. */
  predicate Chained(answers: seq<Option<CustomerConnection>>)
  {
    && |answers| >= 1
    && (forall k :: 0 <= k < |answers| ==> answers[k].Some?)
    && (forall k :: 0 <= k < |answers| - 1 ==> answers[k].value.pageInfo.hasNextPage)
    && !answers[|answers| - 1].value.pageInfo.hasNextPage
  }

  /** No page repeats a record id. */
  predicate DistinctPages(answers: seq<Option<CustomerConnection>>)
  {
    forall k, i, j :: 0 <= k < |answers| && answers[k].Some? && 0 <= i < j < |answers[k].value.nodes| ==>
      answers[k].value.nodes[i].id != answers[k].value.nodes[j].id
  }

  /**
   * Over pages p1..pn where only pn has no next page, and with no search
   * refused, the pull sends exactly n searches of PageSize records: the
   * first at the given cursor, search k+1 at page k's end cursor.
   */
  lemma {:induction false} PullFollowsCursors(db: Snapshot<CustomerFields>, companyRows: map<int, Company>, rejected: set<RemoteCall>, query: string,
                                              cursor: Option<string>, answers: seq<Option<CustomerConnection>>, now: int)
    requires Chained(answers) && DistinctPages(answers)
    requires forall c :: c in rejected ==> !c.SearchCustomers?
    ensures Pull(db, companyRows, rejected, query, cursor, answers, now).outcome == Pass
    ensures |Pull(db, companyRows, rejected, query, cursor, answers, now).calls| == |answers|
    ensures Pull(db, companyRows, rejected, query, cursor, answers, now).calls[0] == RemoteCall.SearchCustomers(query, PageSize, cursor)
    ensures forall k :: 0 <= k < |answers| - 1 ==>
      Pull(db, companyRows, rejected, query, cursor, answers, now).calls[k + 1] == RemoteCall.SearchCustomers(query, PageSize, Some(answers[k].value.pageInfo.endCursor))
    decreases |answers|
  {
    var call := RemoteCall.SearchCustomers(query, PageSize, cursor);
    var conn := answers[0].value;
    var updated := db.(rows := UpdateExisting(db.rows, conn.nodes, now));
    DistinctPageImports(updated, companyRows, conn.nodes, now);
    var step := SyncPage(db, companyRows, conn.nodes, now);
    assert step.1 == Pass;
    if conn.pageInfo.hasNextPage {
      var rest := answers[1..];
      assert forall k :: 0 <= k < |rest| ==> rest[k] == answers[k + 1];
      PullFollowsCursors(step.0, companyRows, rejected, query, Some(conn.pageInfo.endCursor), rest, now);
      var r := Pull(step.0, companyRows, rejected, query, Some(conn.pageInfo.endCursor), rest, now);
      var whole := Pull(db, companyRows, rejected, query, cursor, answers, now);
      assert whole == r.(calls := [call] + r.calls);
      var calls := whole.calls;
      assert calls == [call] + r.calls;
      forall k | 0 <= k < |answers| - 1
        ensures calls[k + 1] == RemoteCall.SearchCustomers(query, PageSize, Some(answers[k].value.pageInfo.endCursor))
      {
        assert calls[k + 1] == r.calls[k];
        if k > 0 {
          assert rest[k - 1] == answers[k];
        }
      }
    } else {
      assert Pull(db, companyRows, rejected, query, cursor, answers, now) == CustomerPull(step.0, [call], Pass);
    }
  }

  /** A pull keeps the unique constraint and fresh keys, whatever the pages hold and however it ends. */
  lemma {:induction false} PullValid(db: Snapshot<CustomerFields>, companyRows: map<int, Company>, rejected: set<RemoteCall>, query: string,
                                     cursor: Option<string>, answers: seq<Option<CustomerConnection>>, now: int)
    requires KeysBelow(db.rows, db.nextId) && UniqueIds(db.rows)
    ensures KeysBelow(Pull(db, companyRows, rejected, query, cursor, answers, now).db.rows, Pull(db, companyRows, rejected, query, cursor, answers, now).db.nextId)
    ensures UniqueIds(Pull(db, companyRows, rejected, query, cursor, answers, now).db.rows)
    decreases |answers|
  {
    if RemoteCall.SearchCustomers(query, PageSize, cursor) !in rejected && answers != [] && answers[0].Some? {
      var conn := answers[0].value;
      var updated := db.(rows := UpdateExisting(db.rows, conn.nodes, now));
      UpdateExistingKeeps(db.rows, conn.nodes, now);
      assert UniqueIds(updated.rows);
      var step := SyncPage(db, companyRows, conn.nodes, now);
      if Import(updated, companyRows, conn.nodes, now).Success? {
        ImportValid(updated, companyRows, conn.nodes, now);
        assert step.0 == Import(updated, companyRows, conn.nodes, now).value;
        PullValid(step.0, companyRows, rejected, query, Some(conn.pageInfo.endCursor), answers[1..], now);
      }
    }
  }

  /**
   * pullCustomerFromShopifySince: searches for the customers updated after
   * `date` (its ISO text), reconciles and imports the page, and continues at
   * the end cursor while the platform reports another page.
   */
  method PullCustomerFromShopifySince(customers: Table<CustomerFields>, companies: Table<CompanyFields>,
                                      remote: Remote, date: string, cursor: Option<string>, now: int)
    returns (o: Outcome<SyncError>)
    requires customers.Valid() && companies.Valid()
    modifies customers, remote`customerSearches, remote`log
    ensures customers.Valid()
    ensures customers.State() ==
      Pull(old(customers.State()), companies.rows, remote.rejected, Text.UpdatedSince(date), cursor,
           old(remote.PendingCustomerPages()), now).db
    ensures o ==
      Pull(old(customers.State()), companies.rows, remote.rejected, Text.UpdatedSince(date), cursor,
           old(remote.PendingCustomerPages()), now).outcome
    ensures remote.log == old(remote.log) +
      Pull(old(customers.State()), companies.rows, remote.rejected, Text.UpdatedSince(date), cursor,
           old(remote.PendingCustomerPages()), now).calls
    ensures remote.customerSearches == old(remote.customerSearches) +
      |Pull(old(customers.State()), companies.rows, remote.rejected, Text.UpdatedSince(date), cursor,
            old(remote.PendingCustomerPages()), now).calls|
    decreases |remote.PendingCustomerPages()|
  {
    ghost var db := customers.State();
    ghost var pending := remote.PendingCustomerPages();
    var query := Text.UpdatedSince(date);
    ghost var whole := Pull(db, companies.rows, remote.rejected, query, cursor, pending, now);
    ghost var call := RemoteCall.SearchCustomers(query, PageSize, cursor);
    var data := remote.SearchCustomers(query, PageSize, cursor);
    if data.Failure? {
      assert whole == CustomerPull(db, [call], Fail(Rejected(call)));
      return Fail(Rejected(data.error));
    }
    if data.value.None? {
      assert whole == CustomerPull(db, [call], Pass);
      return Pass;
    }
    assert pending != [] && pending[0] == data.value;
    var conn := data.value.value;
    o := SyncCustomerPage(customers, companies, conn.nodes, now);
    ghost var step := SyncPage(db, companies.rows, conn.nodes, now);
    if o.Pass? && conn.pageInfo.hasNextPage {
      ghost var log1 := remote.log;
      ghost var searches1 := remote.customerSearches;
      ghost var rest := Pull(step.0, companies.rows, remote.rejected, query, Some(conn.pageInfo.endCursor), pending[1..], now);
      assert whole == rest.(calls := [call] + rest.calls);
      o := PullCustomerFromShopifySince(customers, companies, remote, date, Some(conn.pageInfo.endCursor), now);
      assert remote.log == log1 + rest.calls;
      assert remote.customerSearches == searches1 + |rest.calls|;
    } else {
      assert whole == CustomerPull(step.0, [call], o);
    }
  }

  /** One page of a pull: the reconciling update, then the import against the company rows. */
  method SyncCustomerPage(customers: Table<CustomerFields>, companies: Table<CompanyFields>,
                          page: seq<ShopifyCustomer>, now: int)
    returns (o: Outcome<SyncError>)
    requires customers.Valid() && companies.Valid()
    modifies customers
    ensures customers.Valid()
    ensures (customers.State(), o) == SyncPage(old(customers.State()), companies.rows, page, now)
  {
    UpdateExistingCustomers(customers, page, now);
    var imported := ImportShopifyCustomers(customers, companies, page, now);
    o := if imported.Pass? then Pass else Fail(Db(imported.error));
  }

  // ---------------------------------------------------------------------------
  // Pushing local changes
  // ---------------------------------------------------------------------------

  /** The input of createCustomer; an absent and a null column are both left empty. */
  datatype CustomerData = CustomerData(
    firstName: Option<string>,
    lastName: Option<string>,
    email: Option<string>,
    phone: Option<string>,
    companyId: Option<int>)

  /** One column of an update's data: left as it is, or set to a value (which may be null). */
  datatype Patch<T> = Keep | Put(value: T)

  /** The data of updateCustomer. */
  datatype CustomerPatch = CustomerPatch(
    firstName: Patch<Option<string>>,
    lastName: Patch<Option<string>>,
    email: Patch<Option<string>>,
    phone: Patch<Option<string>>,
    companyId: Patch<Option<int>>)

  function Patched<T>(current: T, p: Patch<T>): T
  {
    if p.Put? then p.value else current
  }

  /** The columns of a new row; locale and state stay empty until a pull fills them. */
  function NewFields(data: CustomerData): CustomerFields
  {
    CustomerFields(data.firstName, data.lastName, data.email, data.phone, None, None, data.companyId)
  }

  function ApplyPatch(f: CustomerFields, p: CustomerPatch): CustomerFields
  {
    f.(firstName := Patched(f.firstName, p.firstName), lastName := Patched(f.lastName, p.lastName),
       email := Patched(f.email, p.email), phone := Patched(f.phone, p.phone),
       companyId := Patched(f.companyId, p.companyId))
  }

  /** The customer body sent to the platform: the four columns the two sides share. */
  function InputOf(f: CustomerFields): CustomerInput
  {
    CustomerInput(f.firstName, f.lastName, f.phone, f.email)
  }

  /** The platform id of the row's company, when the row has a company and that company has a platform id. */
  function ContactCompany(companyRows: map<int, Company>, f: CustomerFields): (cs: Option<Gid>)
    ensures cs.Some? <==> f.companyId.Some? && f.companyId.value in companyRows && Text.Truthy(companyRows[f.companyId.value].shopifyId)
    ensures cs.Some? ==> companyRows[f.companyId.value].shopifyId == cs && cs.value != ""
  {
    if f.companyId.Some? && f.companyId.value in companyRows && Text.Truthy(companyRows[f.companyId.value].shopifyId)
    then companyRows[f.companyId.value].shopifyId
    else None
  }

  /** JavaScript truthiness of the update's company id: given, not null and not 0. */
  predicate MovesCompany(p: CustomerPatch)
  {
    p.companyId.Put? && p.companyId.value.Some? && p.companyId.value.value != 0
  }

  /** The calls of createCustomer once the row exists: the create, then the contact assignment if the company has a platform id. */
  function CreatePlan(f: CustomerFields, companyRows: map<int, Company>, gid: Gid): (plan: seq<RemoteCall>)
    ensures 1 <= |plan| <= 2
    ensures plan[0] == RemoteCall.CreateCustomer(InputOf(f))
    ensures |plan| == 2 <==> ContactCompany(companyRows, f).Some?
    ensures |plan| == 2 ==> plan[1] == AssignCustomerAsContact(ContactCompany(companyRows, f).value, gid)
  {
    [RemoteCall.CreateCustomer(InputOf(f))]
    + (if ContactCompany(companyRows, f).Some? then [AssignCustomerAsContact(ContactCompany(companyRows, f).value, gid)] else [])
  }

  /**
   * Moving a platform customer to a company: look the customer up, delete
   * its first contact profile if it has one, and assign it as a contact of
   * the company.
   */
  function ReassignPlan(sid: Gid, company: Gid, profilesOf: map<Gid, seq<ContactProfile>>): (plan: seq<RemoteCall>)
    ensures 2 <= |plan| <= 3
    ensures plan[0] == GetCustomer(sid) && plan[|plan| - 1] == AssignCustomerAsContact(company, sid)
    ensures |plan| == 3 <==> sid in profilesOf && |profilesOf[sid]| > 0
    ensures |plan| == 3 ==> plan[1] == DeleteCompanyContacts([profilesOf[sid][0].id])
  {
    [GetCustomer(sid)]
    + (if sid in profilesOf && |profilesOf[sid]| > 0 then [DeleteCompanyContacts([profilesOf[sid][0].id])] else [])
    + [AssignCustomerAsContact(company, sid)]
  }

  /**
   * The calls of updateCustomer once the row is written, for the row it
   * wrote: the platform update when the row has a platform id; then, when
   * the data moves the customer to a company and both the customer and that
   * company have platform ids, the reassignment of its contact profile.
   */
  function UpdatePlan(row: Customer, p: CustomerPatch, companyRows: map<int, Company>,
                      profilesOf: map<Gid, seq<ContactProfile>>): (plan: seq<RemoteCall>)
    ensures Text.Truthy(row.shopifyId) <==> |plan| > 0
    ensures |plan| > 0 ==> plan[0] == RemoteCall.UpdateCustomer(row.shopifyId.value, InputOf(row.fields))
    ensures |plan| > 1 <==> MovesCompany(p) && Text.Truthy(row.shopifyId) && ContactCompany(companyRows, row.fields).Some?
    ensures |plan| > 1 ==>
      plan[1..] == ReassignPlan(row.shopifyId.value, ContactCompany(companyRows, row.fields).value, profilesOf)
  {
    var sid := row.shopifyId;
    if !Text.Truthy(sid) then []
    else
      [RemoteCall.UpdateCustomer(sid.value, InputOf(row.fields))]
      + (if MovesCompany(p) && ContactCompany(companyRows, row.fields).Some?
         then ReassignPlan(sid.value, ContactCompany(companyRows, row.fields).value, profilesOf)
         else [])
  }

  /**
   * createCustomer: creates the row with its company link, creates the
   * platform customer, assigns it as a contact of the company when the
   * company has a platform id, and finally stores the platform id.
   */
  method CreateCustomer(customers: Table<CustomerFields>, companies: Table<CompanyFields>, remote: Remote,
                        data: CustomerData, now: int)
    returns (r: Result<(int, Customer), SyncError>)
    requires customers.Valid() && companies.Valid()
    modifies customers, remote`created, remote`log
    ensures customers.Valid()
    ensures !HasCompany(companies.rows.Keys, NewFields(data)) ==>
      && r == Failure(Db(ForeignKeyViolation))
      && customers.State() == old(customers.State()) && remote.log == old(remote.log)
      && remote.created == old(remote.created)
    ensures HasCompany(companies.rows.Keys, NewFields(data)) ==>
      remote.created == old(remote.created) + if RemoteCall.CreateCustomer(InputOf(NewFields(data))) in remote.rejected then 0 else 1
    ensures HasCompany(companies.rows.Keys, NewFields(data)) ==>
      var id := old(customers.nextId);
      var gid := NewGid("Customer", old(remote.created));
      var a := Attempt(CreatePlan(NewFields(data), companies.rows, gid), remote.rejected, remote.profilesOf);
      var synced := Row(Some(gid), NewFields(data), now);
      && customers.nextId == id + 1
      && remote.log == old(remote.log) + a.sent
      && r == (if a.refused.Some? then Failure(Rejected(a.refused.value))
               else if HeldByOther(old(customers.rows), id, gid) then Failure(Db(UniqueViolation))
               else Success((id, synced)))
      && customers.rows == old(customers.rows)[id := if r.Success? then synced else Row(None, NewFields(data), now)]
  {
    var fields := NewFields(data);
    var companyIds := companies.rows.Keys;
    var created := customers.Create(Draft(None, fields), (f: CustomerFields) => HasCompany(companyIds, f), now);
    if created.Failure? {
      return Failure(Db(created.error));
    }
    var id := created.value;
    var made := PushCreate(remote, fields, companies.rows);
    if made.Failure? {
      return Failure(Rejected(made.error));
    }
    assert forall k :: k in customers.rows && k != id ==> k in old(customers.rows) && customers.rows[k] == old(customers.rows)[k];
    var stored := customers.SetShopifyId(id, made.value, now);
    if stored.Failure? {
      return Failure(Db(stored.error));
    }
    r := Success((id, stored.value));
  }

  /** The platform side of createCustomer, sent until the first refused call; it yields the new platform id. */
  method PushCreate(remote: Remote, fields: CustomerFields, companyRows: map<int, Company>)
    returns (r: Result<Gid, RemoteCall>)
    modifies remote`created, remote`log
    ensures var gid := NewGid("Customer", old(remote.created));
      var a := Attempt(CreatePlan(fields, companyRows, gid), remote.rejected, remote.profilesOf);
      && remote.log == old(remote.log) + a.sent
      && r == if a.refused.Some? then Failure(a.refused.value) else Success(gid)
    ensures remote.created == old(remote.created) + if RemoteCall.CreateCustomer(InputOf(fields)) in remote.rejected then 0 else 1
  {
    ghost var plan := CreatePlan(fields, companyRows, NewGid("Customer", remote.created));
    var create := RemoteCall.CreateCustomer(InputOf(fields));
    var made := remote.Create(create, "Customer");
    if made.Failure? {
      AttemptStopsAt([], create, plan[1..], remote.rejected, remote.profilesOf);
      assert plan == [] + [create] + plan[1..];
      return Failure(create);
    }
    var contact := ContactCompany(companyRows, fields);
    if contact.Some? {
      var assign := AssignCustomerAsContact(contact.value, made.value);
      assert plan == [create] + [assign] + [];
      var sent := remote.Send(assign);
      if sent.Fail? {
        AttemptStopsAt([create], assign, [], remote.rejected, remote.profilesOf);
        return Failure(assign);
      }
      AttemptSendsAll([create, assign], remote.rejected, remote.profilesOf);
    } else {
      assert plan == [create];
      AttemptSendsAll([create], remote.rejected, remote.profilesOf);
    }
    r := made;
  }

  /** The reassignment step of updateCustomer, sent until the first refused call. */
  method ReassignContact(remote: Remote, sid: Gid, company: Gid) returns (o: Outcome<RemoteCall>)
    modifies remote`log
    ensures var a := Attempt(ReassignPlan(sid, company, remote.profilesOf), remote.rejected, remote.profilesOf);
      && remote.log == old(remote.log) + a.sent
      && o == if a.refused.Some? then Fail(a.refused.value) else Pass
  {
    ghost var plan := ReassignPlan(sid, company, remote.profilesOf);
    var assign := AssignCustomerAsContact(company, sid);
    var looked := remote.GetCustomerProfiles(sid);
    if looked.Failure? {
      AttemptStopsAt([], GetCustomer(sid), plan[1..], remote.rejected, remote.profilesOf);
      assert plan == [] + [GetCustomer(sid)] + plan[1..];
      return Fail(looked.error);
    }
    ghost var done := [GetCustomer(sid)];
    if |looked.value| > 0 {
      var unlink := DeleteCompanyContacts([looked.value[0].id]);
      assert plan == done + [unlink] + [assign];
      var sent := remote.Send(unlink);
      if sent.Fail? {
        AttemptStopsAt(done, unlink, [assign], remote.rejected, remote.profilesOf);
        return Fail(unlink);
      }
      done := done + [unlink];
    }
    assert plan == done + [assign] + [];
    var sent := remote.Send(assign);
    if sent.Fail? {
      AttemptStopsAt(done, assign, [], remote.rejected, remote.profilesOf);
      return Fail(assign);
    }
    AttemptSendsAll(done + [assign], remote.rejected, remote.profilesOf);
    assert plan == done + [assign] + [];
    o := Pass;
  }

  /** The platform side of updateCustomer for the row it wrote, sent until the first refused call. */
  method PushUpdate(remote: Remote, row: Customer, data: CustomerPatch, companyRows: map<int, Company>)
    returns (o: Outcome<RemoteCall>)
    modifies remote`log
    ensures var a := Attempt(UpdatePlan(row, data, companyRows, remote.profilesOf), remote.rejected, remote.profilesOf);
      && remote.log == old(remote.log) + a.sent
      && o == if a.refused.Some? then Fail(a.refused.value) else Pass
  {
    ghost var plan := UpdatePlan(row, data, companyRows, remote.profilesOf);
    if !Text.Truthy(row.shopifyId) {
      assert plan == [];
      return Pass;
    }
    var sid := row.shopifyId.value;
    var push := RemoteCall.UpdateCustomer(sid, InputOf(row.fields));
    var sent := remote.Send(push);
    if sent.Fail? {
      AttemptStopsAt([], push, plan[1..], remote.rejected, remote.profilesOf);
      assert plan == [] + [push] + plan[1..];
      return Fail(push);
    }
    var contact := ContactCompany(companyRows, row.fields);
    if MovesCompany(data) && contact.Some? {
      o := ReassignContact(remote, sid, contact.value);
      AttemptAppend([push], plan[1..], remote.rejected, remote.profilesOf);
      assert plan == [push] + plan[1..];
    } else {
      assert plan == [push];
      AttemptSendsAll(plan, remote.rejected, remote.profilesOf);
      o := Pass;
    }
  }

  /**
   * updateCustomer: writes the data to the row; when the row has a platform
   * id, sends the platform the new columns; and when the data moves the
   * customer to a company and both have platform ids, replaces the
   * customer's first contact profile by an assignment to the new company.
   */
  method UpdateCustomer(customers: Table<CustomerFields>, companies: Table<CompanyFields>, remote: Remote,
                        id: int, data: CustomerPatch, now: int)
    returns (r: Result<(int, Customer), SyncError>)
    requires customers.Valid() && companies.Valid()
    modifies customers, remote`log
    ensures customers.Valid() && customers.nextId == old(customers.nextId)
    ensures id !in old(customers.rows) ==>
      r == Failure(Db(NotFound)) && customers.rows == old(customers.rows) && remote.log == old(remote.log)
    ensures id in old(customers.rows) && !HasCompany(companies.rows.Keys, ApplyPatch(old(customers.rows)[id].fields, data)) ==>
      r == Failure(Db(ForeignKeyViolation)) && customers.rows == old(customers.rows) && remote.log == old(remote.log)
    ensures id in old(customers.rows) && HasCompany(companies.rows.Keys, ApplyPatch(old(customers.rows)[id].fields, data)) ==>
      var row := Row(old(customers.rows)[id].shopifyId, ApplyPatch(old(customers.rows)[id].fields, data), now);
      var a := Attempt(UpdatePlan(row, data, companies.rows, remote.profilesOf), remote.rejected, remote.profilesOf);
      && customers.rows == old(customers.rows)[id := row]
      && remote.log == old(remote.log) + a.sent
      && r == if a.refused.Some? then Failure(Rejected(a.refused.value)) else Success((id, row))
  {
    var companyIds := companies.rows.Keys;
    var updated := customers.Update(id, (f: CustomerFields) => ApplyPatch(f, data), (f: CustomerFields) => HasCompany(companyIds, f), now);
    if updated.Failure? {
      return Failure(Db(updated.error));
    }
    var row := updated.value;
    var pushed := PushUpdate(remote, row, data, companies.rows);
    r := if pushed.Fail? then Failure(Rejected(pushed.error)) else Success((id, row));
  }

  /** deleteCustomer: deletes the row, then the platform customer when the row had a platform id. */
  method DeleteCustomer(customers: Table<CustomerFields>, remote: Remote, id: int)
    returns (r: Result<(int, Customer), SyncError>)
    requires customers.Valid()
    modifies customers, remote`log
    ensures customers.Valid() && customers.nextId == old(customers.nextId)
    ensures customers.rows == old(customers.rows) - {id}
    ensures id !in old(customers.rows) ==> r == Failure(Db(NotFound)) && remote.log == old(remote.log)
    ensures id in old(customers.rows) ==>
      var row := old(customers.rows)[id];
      && (Text.Truthy(row.shopifyId) ==>
            var call := RemoteCall.DeleteCustomer(row.shopifyId.value);
            remote.log == old(remote.log) + [call] && r == if call in remote.rejected then Failure(Rejected(call)) else Success((id, row)))
      && (!Text.Truthy(row.shopifyId) ==> remote.log == old(remote.log) && r == Success((id, row)))
  {
    var deleted := customers.Delete(id);
    if deleted.Failure? {
      return Failure(Db(deleted.error));
    }
    var row := deleted.value;
    if Text.Truthy(row.shopifyId) {
      var sent := remote.Send(RemoteCall.DeleteCustomer(row.shopifyId.value));
      if sent.Fail? {
        return Failure(Rejected(sent.error));
      }
    }
    r := Success((id, row));
  }
}
