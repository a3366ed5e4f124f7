# Company / customer sync with an e-commerce platform, in Dafny

This project models the backend services of a small B2B admin app. The app keeps
**companies** and **customers** in a local database and mirrors them to an
e-commerce platform's admin API. It also keeps a **user** table for sign-up and
log-in. The model covers three paths:

* **Pull.** The services page through the platform's search: 50 records at a
  time, filtered by `updated_at:>"<date>"`, following `endCursor`. On each page:
  * `updateExisting…` copies remote values onto local rows with the same
    `shopifyId`. It applies the whole page in one transaction, and abandons the
    page if any local row is newer than its remote record.
  * `import…` inserts the remote records that no row holds yet. Customers are
    linked to the local company of their first contact profile.
* **Push.** `create…`, `update…` and `delete…` write the local row first. They
  then send the platform the matching mutation when the row has a platform id.
  Creating a customer then assigns it as a contact of its company, when that
  company has a platform id. An update whose data carries a company id, on a
  customer and a company that both have platform ids, deletes the customer's
  first contact profile, if it has one, and assigns it to that company again.
  This happens even if the company is the one the customer already had.
* **Auth.** `register` refuses an email that is already taken and otherwise
  stores the email with the password's hash. `login` tells an unknown email
  apart from a wrong password.

Modules:

| file | module | contents |
|---|---|---|
| `wrappers.dfy` | `Wrappers` | `Option`, `Result`, `Outcome` |
| `text.dfy` | `Text` | JavaScript's `String(n)` for integers; the search filter text; JavaScript truthiness of an optional string; substring search |
| `shopify.dfy` | `Shopify` | Platform records and pages. `RemoteCall`, one constructor per mutation or query the services send. `Attempt`: a call plan that stops at the first refused call. Class `Remote`: an abstract platform that serves a fixed sequence of search answers, hands out fresh ids, refuses a fixed set of calls, and records every call in a ghost `log` |
| `store.dfy` | `Store` | Class `Table<F>`: one database table as rows keyed by autoincrement id, with a unique `shopifyId`. It has the operations the services use (find, create, createMany, update, update-by-`shopifyId`, delete), each with its error cases. `Snapshot` is the table's value. `InsertAll`/`ApplyAll` describe what createMany and a transaction of updates produce |
| `company_service.dfy` | `CompanyService` | `findCompanies` and the company pull and push paths |
| `customer_service.dfy` | `CustomerService` | `findCustomers`, the customer pull with company-link resolution, and the customer push path with its call plans |
| `auth_service.dfy` | `AuthService` | Class `UserTable` with unique emails; `findExistingUser`, `register`, `login` |

Each imperative operation is a method proved against a specification function on
values. Examples:
* `UpdateExistingCompanies` ends in `UpdateExisting(old rows, page, now)`.
* `ImportShopifyCompanies` ends in `Import(old snapshot, page, now)`.
* The recursive pull ends in `Pull(…, the pending search answers, …)`.
* The push methods send exactly `Attempt(plan).sent`.

Lemmas then state the promised properties of those functions: what is inserted,
idempotence, the cursor chain, preserved table invariants, how the page is
abandoned, and how the implementation's company lookup agrees with a reference
definition.

Shared conventions:
* The clock is a parameter `now`. A database write stamps `updatedAt := now`.
* Remote `updatedAt` values are integers on the same scale.
* The ISO text of the pull's start date is a parameter `date`.
* Bcrypt is a pair of function parameters: `hash(password, rounds)` and
  `compare(password, stored)`.
* The database schema is not part of this model. The unique `shopifyId`
  columns, the unique user email and the customer→company foreign key are taken
  from how the services use them.

## Model

| member | source | states |
|---|---|---|
| Text.Numeral | apps/backend/src/services/companyService.ts:104 | the decimal numeral of a natural number is non-empty and made only of digits |
| Text.Decimal | apps/backend/src/services/companyService.ts:104 | JavaScript's `String(n)` of an integer: a '-' before the numeral of -n for negative n, otherwise the numeral of n; never empty |
| Text.NumeralRoundTrip | apps/backend/src/services/companyService.ts:104 | parsing the numeral of n gives back n, so the external id the platform gets determines the local id |
| Text.DecimalInjective | apps/backend/src/services/companyService.ts:104 | two ids with the same `String(id)` text are the same id |
| Text.NumeralInjective | apps/backend/src/services/companyService.ts:104 | distinct naturals have distinct numerals |
| Text.SignOfDecimal | apps/backend/src/services/companyService.ts:104 | `String(n)` starts with '-' exactly for negative n, followed by the numeral of -n; otherwise it is the numeral of n |
| Text.UpdatedSince | apps/backend/src/services/companyService.ts:79 | the search filter is `updated_at:>"`, then the date text unchanged, then a closing `"` (length grows by 14) |
| Text.Truthy | apps/backend/src/services/companyService.ts:121 | the JavaScript truthiness of an optional platform id: present and not the empty string. The same test guards companyService.ts:133 and customerService.ts:159, 181, 193-195 and 213 |
| Text.Contains | apps/backend/src/services/companyService.ts:13 | the `contains` filter: the search text occurs in the column as a contiguous piece, matched exactly. The same filter serves customerService.ts:19-21 |
| Shopify.Attempt | apps/backend/src/services/customerService.ts:152-164 | sending a plan where a refused call throws: the calls sent are a prefix of the plan |
| Shopify.AttemptSendsAll | apps/backend/src/services/customerService.ts:152-164 | a plan none of whose calls is refused is sent whole, with no refusal |
| Shopify.AttemptStopsAt | apps/backend/src/services/customerService.ts:181-206 | a plan whose first calls go through and whose next call is refused sends exactly those calls and that one |
| Shopify.AttemptAppend | apps/backend/src/services/customerService.ts:181-206 | after calls that all go through, a plan behaves as its remainder does |
| Shopify.Remote.SearchCompanies | apps/backend/src/services/shopifyService.ts:251-272 | a search is logged with its query, page size and cursor and uses up one pending answer. A rejected search (a reply with `errors`) fails with that call; otherwise it returns the pending answer, or no payload once they run out |
| Shopify.Remote.SearchCustomers | apps/backend/src/services/shopifyService.ts:96-117 | the same for customer searches: a rejected one fails with that call |
| Shopify.Remote.Send | apps/backend/src/services/shopifyService.ts:321-335 | a mutation is logged and fails exactly when the platform rejects it |
| Shopify.Remote.Create | apps/backend/src/services/shopifyService.ts:291-302 | a create is logged; a rejected one fails; otherwise it returns the next fresh platform id |
| Shopify.Remote.GetCustomerProfiles | apps/backend/src/services/customerService.ts:197-198 | a lookup is logged and returns the customer's contact profiles. It fails when rejected, as the `errors` throw of shopifyService.ts:59-60 does. It also fails when the platform has no such customer: the caller then reads `companyContactProfiles` of a null customer, which throws |
| Store.InsertAllAt | apps/backend/src/services/companyService.ts:71-75 | createMany gives the new rows the next consecutive ids in input order, each stamped `now`, and keeps every old row |
| Store.InsertAllIds | apps/backend/src/services/companyService.ts:71-75 | after createMany the table's platform ids are the old ones plus the inserted ones |
| Store.InsertAllValid | apps/backend/src/services/companyService.ts:71-75 | an allowed createMany keeps ids below the sequence and platform ids unique |
| Store.ApplyAllKeepsIds | apps/backend/src/services/companyService.ts:40-50 | a transaction of updates by platform id keeps the row keys and every row's platform id |
| Store.ApplyAllAppend | apps/backend/src/services/companyService.ts:48-50 | applying a list of updates pushed in two parts is applying the parts in order |
| Store.KeyCount | apps/backend/src/services/companyService.ts:12-16 | a strictly increasing list of keys that covers a key set has that set's size |
| Store.Table.FindWhere | apps/backend/src/services/companyService.ts:12-16 | findMany returns exactly the rows satisfying the filter, each once, by ascending id |
| Store.ListedAdd | apps/backend/src/services/companyService.ts:12-16 | adding the next row that satisfies the filter keeps the listing exact, in increasing key order |
| Store.Table.FindByShopifyIds | apps/backend/src/services/companyService.ts:22-28 | findMany with `shopifyId in ids` returns exactly the rows whose platform id is in the list, each once |
| Store.Table.UpdateWhereShopifyId | apps/backend/src/services/companyService.ts:40-50 | the transaction leaves the rows as `ApplyAll` of the pushed updates and keeps the table valid |
| Store.Table.CreateMany | apps/backend/src/services/companyService.ts:71-75 | a duplicate platform id fails first, then a broken foreign key; both leave the table unchanged. Otherwise the rows are `InsertAll` |
| Store.Table.Create | apps/backend/src/services/companyService.ts:101 | a taken platform id or a broken foreign key fails and changes nothing; otherwise one row is stored at the next id |
| Store.Table.Update | apps/backend/src/services/companyService.ts:117-120 | an unknown id is NotFound and a broken foreign key fails; otherwise the row gets the changed columns, keeps its platform id and is stamped `now` |
| Store.Table.SetShopifyId | apps/backend/src/services/companyService.ts:107-110 | an unknown id is NotFound and an id held by another row is a unique violation; otherwise the row gets the id |
| Store.Table.Delete | apps/backend/src/services/companyService.ts:132 | the row is removed and returned, or NotFound |
| Store.WindowSize | apps/backend/src/services/companyService.ts:14-15 | `skip`/`take` keep at most `take` rows: exactly `take` when enough rows remain past `skip`, the rest otherwise, none past the end |
| CompanyService.FindCompanies | apps/backend/src/services/companyService.ts:11-17 | every listed row exists and its name contains the search. No row is listed twice. The count is the window of the matching rows. With no or an empty search the window is taken over all rows |
| CompanyService.FindRemote | apps/backend/src/services/companyService.ts:32-34 | a remote record is found exactly when the row's platform id is on the page. It is the first page record with that id |
| CompanyService.ReconciledOnNone | apps/backend/src/services/companyService.ts:29 | an empty transaction list changes nothing |
| CompanyService.ReconciledOnSame | apps/backend/src/services/companyService.ts:40-48 | the renamed rows depend only on which matched platform ids were handled |
| CompanyService.RenameStep | apps/backend/src/services/companyService.ts:40-48 | pushing the update for one more platform id renames those rows to the remote name |
| CompanyService.Rename | apps/backend/src/services/companyService.ts:44-46 | the data of one reconciling update: the record's name replaces the row's name, and nothing else of the row changes |
| CompanyService.UpdateExistingCompanies | apps/backend/src/services/companyService.ts:19-51 | the table ends as `UpdateExisting`: unchanged if any matched row is strictly newer than its remote record, otherwise every matched row renamed to the remote name and stamped |
| CompanyService.StaleLeavesRows | apps/backend/src/services/companyService.ts:35-39 | one matched row strictly newer than its remote record leaves the whole table as it was |
| CompanyService.PerRecordAgrees | apps/backend/src/services/companyService.ts:31-50 | when no matched row is newer, the page result is the per-record reconciliation (equal timestamps update) |
| CompanyService.OneNewerRowBlocksPage | apps/backend/src/services/companyService.ts:35-39 | a concrete page on which one newer row makes the whole page unchanged, although another row's remote record is newer |
| CompanyService.NewerRowBlocksRename | apps/backend/src/services/companyService.ts:35-49 | for all tables and pages: while one matched row is newer than its record, another matched row that is not newer keeps its name, although the per-record rule gives it its record's different name. So the two rules differ |
| CompanyService.UpdateExistingKeepsIds | apps/backend/src/services/companyService.ts:40-47 | the update never adds or removes rows and never changes a platform id |
| CompanyService.NewCompanies | apps/backend/src/services/companyService.ts:64-69 | at most one new row per page record |
| CompanyService.NewCompaniesSpec | apps/backend/src/services/companyService.ts:63-69 | the new rows are exactly the page records whose id no row holds, with `shopifyId = id` and `name = name` (both directions) |
| CompanyService.NewCompanySource | apps/backend/src/services/companyService.ts:63-69 | each new row is the row of some page record whose id no row holds |
| CompanyService.NewCompanyIndex | apps/backend/src/services/companyService.ts:63-69 | each page record whose id no row holds has its row among the new rows |
| CompanyService.NewCompaniesOnPage | apps/backend/src/services/companyService.ts:56-63 | only the known ids that occur on the page matter, so looking up only the page's ids is enough |
| CompanyService.NewCompaniesEmpty | apps/backend/src/services/companyService.ts:71 | nothing is created exactly when every page id is already known |
| CompanyService.NewCompaniesDistinct | apps/backend/src/services/companyService.ts:64-69 | a page without repeated ids yields new rows with distinct platform ids |
| CompanyService.NewCompaniesIds | apps/backend/src/services/companyService.ts:63-69 | the new rows' platform ids are the page ids minus the known ones |
| CompanyService.NewRowsAt | apps/backend/src/services/companyService.ts:64-75 | every inserted row comes from an unknown page record, and every unknown page record gets an inserted row |
| CompanyService.ImportAdds | apps/backend/src/services/companyService.ts:53-76 | import keeps every existing row unchanged. The new keys are exactly the fresh ids. Each new row is an unknown page record, and each unknown page record is a new row |
| CompanyService.DistinctPageImports | apps/backend/src/services/companyService.ts:71-75 | a page without repeated ids always imports |
| CompanyService.ImportTwice | apps/backend/src/services/companyService.ts:63-75 | importing the same page again adds nothing |
| CompanyService.ImportValid | apps/backend/src/services/companyService.ts:71-75 | import keeps ids below the sequence and platform ids unique |
| CompanyService.ImportShopifyCompanies | apps/backend/src/services/companyService.ts:53-76 | the table ends as `Import`, or unchanged with its error |
| CompanyService.PullStopsOnRefusedSearch | apps/backend/src/services/companyService.ts:80 | a refused search ends the pull with that refusal after that one search, table untouched |
| CompanyService.PullStopsWithoutPayload | apps/backend/src/services/companyService.ts:80-81 | an answered search without payload ends the pull after that one search, table untouched |
| CompanyService.PullKeepsEarlierPages | apps/backend/src/services/companyService.ts:80-89 | when the second search is refused, the first page's update and import stay in the table, both searches were sent, and the pull fails with the refusal |
| CompanyService.SyncCompanyPage | apps/backend/src/services/companyService.ts:82-83 | one page updates the matched rows, then imports; the table and outcome are `SyncPage` of the old table |
| CompanyService.PullFollowsCursors | apps/backend/src/services/companyService.ts:78-89 | when no search is refused, over pages where only the last has no next page, the pull makes one search per page with page size 50. The first search uses the given cursor, and search k+1 uses page k's end cursor |
| CompanyService.PullValid | apps/backend/src/services/companyService.ts:78-90 | the pull keeps the table's invariants |
| CompanyService.PullCompanyFromShopifySince | apps/backend/src/services/companyService.ts:78-90 | the table, outcome and sent searches are those of `Pull` over the pending answers: update then import per page, recursion on the end cursor, a refused search ends the pull with its refusal. The search counter advances once per sent search |
| CompanyService.CreateCompany | apps/backend/src/services/companyService.ts:100-111 | creates the row at the next id, then sends one create whose external id is `String(id)`. On success the row holds the returned platform id. A rejected create or a taken id leaves the row without one. The platform's create counter advances exactly when the create is not rejected |
| CompanyService.UpdateCompany | apps/backend/src/services/companyService.ts:113-129 | an unknown id fails with nothing sent. Otherwise the row is renamed first, and exactly one platform update (name, `String(id)`) is sent iff the row has a platform id |
| CompanyService.DeleteCompany | apps/backend/src/services/companyService.ts:131-137 | the row is deleted first. Then one delete with the one-element list `[shopifyId]` is sent iff it had a platform id |
| CustomerService.FindCustomers | apps/backend/src/services/customerService.ts:14-28 | every listed row's first name, last name or email contains the search. No row is listed twice. The count is the window of the matching rows, or of all rows without a search |
| CustomerService.FindRemote | apps/backend/src/services/customerService.ts:43-45 | found exactly when the row's platform id is on the page. It is the first page record with that id |
| CustomerService.ReconciledOnNone | apps/backend/src/services/customerService.ts:40 | an empty transaction list changes nothing |
| CustomerService.ReconciledOnSame | apps/backend/src/services/customerService.ts:51-63 | the refreshed rows depend only on which matched platform ids were handled |
| CustomerService.RefreshStep | apps/backend/src/services/customerService.ts:51-63 | pushing the update for one more id refreshes those rows' six columns |
| CustomerService.Refresh | apps/backend/src/services/customerService.ts:55-62 | the data of one reconciling update: firstName, lastName, email, phone, locale and state are taken from the record, and the company link stays |
| CustomerService.TxStep | apps/backend/src/services/customerService.ts:51-64 | one more pushed update extends the transaction's result by that platform id |
| CustomerService.UpdateExistingCustomers | apps/backend/src/services/customerService.ts:30-67 | the table ends as `UpdateExisting`: unchanged if any matched row is newer than its record, otherwise first name, last name, email, phone, locale and state copied onto every matched row |
| CustomerService.StaleLeavesRows | apps/backend/src/services/customerService.ts:46-50 | one matched row strictly newer than its record leaves the whole table as it was |
| CustomerService.UpdateExistingKeeps | apps/backend/src/services/customerService.ts:51-63 | keys, platform ids and company links never change. Unmatched rows stay as they were. A matched row left unstamped means the page was abandoned |
| CustomerService.ResolvedCompany | apps/backend/src/services/customerService.ts:96-102 | a new customer's company is the local company holding its first profile's company id, when there is one |
| CustomerService.Link | apps/backend/src/services/customerService.ts:83-85 | the platform company id a new record links to: that of its first contact profile. No profile, or an empty company id, gives no link, as `.filter(Boolean)` drops both |
| CustomerService.CompanyOf | apps/backend/src/services/customerService.ts:96-102 | a new row's company: the looked-up company holding the first profile's company id, or none when the record has no profile or no such company was found |
| CustomerService.FindLinked | apps/backend/src/services/customerService.ts:98-101 | the lookup finds a looked-up company exactly when one has that platform id |
| CustomerService.NewCustomers | apps/backend/src/services/customerService.ts:89-113 | at most one new row per page record |
| CustomerService.CompanyOfResolves | apps/backend/src/services/customerService.ts:83-102 | finding the company in the rows looked up for the link ids agrees with the reference resolution |
| CustomerService.NewCustomersAreDrafts | apps/backend/src/services/customerService.ts:83-113 | the implementation's new rows equal the reference `Drafts`, whenever the looked-up companies cover the link ids |
| CustomerService.DraftsSpec | apps/backend/src/services/customerService.ts:89-113 | the new rows are exactly the unknown page records, each with its six columns and resolved company (both directions) |
| CustomerService.DraftSource | apps/backend/src/services/customerService.ts:89-113 | each new row is the row of some page record whose id no row holds, with its resolved company |
| CustomerService.DraftIndex | apps/backend/src/services/customerService.ts:89-113 | each page record whose id no row holds has its row among the new rows |
| CustomerService.DraftsOnPage | apps/backend/src/services/customerService.ts:72-82 | only the known ids that occur on the page matter |
| CustomerService.DraftsHaveCompanies | apps/backend/src/services/customerService.ts:111 | every new row's company link names an existing company or is empty |
| CustomerService.DraftsDistinct | apps/backend/src/services/customerService.ts:89-113 | a page without repeated ids yields distinct platform ids |
| CustomerService.DraftsEmpty | apps/backend/src/services/customerService.ts:115 | nothing is created exactly when every page id is known |
| CustomerService.DraftsIds | apps/backend/src/services/customerService.ts:79-90 | the new platform ids are the page ids minus the known ones |
| CustomerService.ImportFailsOnlyOnDuplicates | apps/backend/src/services/customerService.ts:115-119 | the import fails only on a duplicate platform id; resolved company links never break the foreign key |
| CustomerService.NewRowsFromPage | apps/backend/src/services/customerService.ts:89-119 | every inserted row is an unknown page record with its resolved company |
| CustomerService.PageRowsInserted | apps/backend/src/services/customerService.ts:89-119 | every unknown page record gets an inserted row |
| CustomerService.ImportAdds | apps/backend/src/services/customerService.ts:69-120 | existing rows are unchanged. The new keys are exactly the fresh ids, and the new rows are exactly the unknown page records (both directions) |
| CustomerService.DistinctPageImports | apps/backend/src/services/customerService.ts:115-119 | a page without repeated ids always imports |
| CustomerService.ImportTwice | apps/backend/src/services/customerService.ts:79-119 | importing the same page again adds nothing |
| CustomerService.ImportHoldsPage | apps/backend/src/services/customerService.ts:79-119 | after an import every record of the page has a row holding its id |
| CustomerService.ImportValid | apps/backend/src/services/customerService.ts:115-119 | import keeps the table's invariants |
| CustomerService.ImportShopifyCustomers | apps/backend/src/services/customerService.ts:69-120 | the table ends as `Import`, or unchanged with its error |
| CustomerService.PullStopsOnRefusedSearch | apps/backend/src/services/customerService.ts:127 | a refused search ends the pull with that refusal after that one search, table untouched |
| CustomerService.PullStopsWithoutPayload | apps/backend/src/services/customerService.ts:127-128 | an answered search without payload ends the pull after that one search |
| CustomerService.PullKeepsEarlierPages | apps/backend/src/services/customerService.ts:127-136 | when the second search is refused, the first page's update and import stay in the table, both searches were sent, and the pull fails with the refusal |
| CustomerService.SyncCustomerPage | apps/backend/src/services/customerService.ts:129-130 | one page updates the matched rows, then imports against the company rows; the table and outcome are `SyncPage` of the old table |
| CustomerService.PullFollowsCursors | apps/backend/src/services/customerService.ts:122-136 | when no search is refused, one search per page with page size 50, following the end cursors |
| CustomerService.PullValid | apps/backend/src/services/customerService.ts:122-137 | the pull keeps the table's invariants |
| CustomerService.PullCustomerFromShopifySince | apps/backend/src/services/customerService.ts:122-137 | the table, outcome and sent searches are those of `Pull`, where a refused search ends the pull with its refusal. The search counter advances once per sent search |
| CustomerService.ContactCompany | apps/backend/src/services/customerService.ts:159 | the company to assign the customer to exists exactly when the row names a company that has a platform id |
| CustomerService.NewFields | apps/backend/src/services/customerService.ts:148-151 | the columns a created row holds: the given names, email, phone and company id, with locale and state empty |
| CustomerService.ApplyPatch | apps/backend/src/services/customerService.ts:176-180 | the columns after an update: a column the data gives (null included) takes that value, and a column it leaves out keeps its old value; locale and state are never written |
| CustomerService.InputOf | apps/backend/src/services/customerService.ts:152-157 | the customer body sent on create and update (also customerService.ts:182-187): the row's firstName, lastName, phone and email |
| CustomerService.MovesCompany | apps/backend/src/services/customerService.ts:192 | the truthiness of the update's `companyId`: the data gives it, and it is neither null nor 0 |
| CustomerService.CreatePlan | apps/backend/src/services/customerService.ts:152-164 | the create is sent first. It is followed by the contact assignment exactly when the company has a platform id |
| CustomerService.ReassignPlan | apps/backend/src/services/customerService.ts:197-206 | look the customer up first and assign last, with the deletion of its first profile in between exactly when it has one |
| CustomerService.UpdatePlan | apps/backend/src/services/customerService.ts:181-207 | nothing is sent without a platform id, and the update is sent first. The reassignment follows exactly when the data names a company (truthy id) that has a platform id |
| CustomerService.CreateCustomer | apps/backend/src/services/customerService.ts:147-170 | a missing company fails with nothing sent. Otherwise the row is created first and the calls sent are `Attempt(CreatePlan)`. On success the row holds the new platform id. The platform's create counter advances exactly when a create was sent and not rejected |
| CustomerService.PushCreate | apps/backend/src/services/customerService.ts:152-164 | the calls sent are `Attempt(CreatePlan)`; the result is the new platform id, or the refused call. The create counter advances exactly when the create is not rejected |
| CustomerService.ReassignContact | apps/backend/src/services/customerService.ts:197-206 | the calls sent are `Attempt(ReassignPlan)` |
| CustomerService.PushUpdate | apps/backend/src/services/customerService.ts:181-207 | the calls sent are `Attempt(UpdatePlan)` |
| CustomerService.UpdateCustomer | apps/backend/src/services/customerService.ts:172-210 | an unknown id or a missing company fails with nothing sent. Otherwise the row is written first (platform id kept), then `Attempt(UpdatePlan)` is sent |
| CustomerService.DeleteCustomer | apps/backend/src/services/customerService.ts:211-217 | the row is deleted first. Then one platform delete is sent iff it had a platform id |
| AuthService.Holder | apps/backend/src/services/authService.ts:10-12 | with unique emails, the user holding an email is determined, or there is none |
| AuthService.LoginResult | apps/backend/src/services/authService.ts:32-51 | NotFound exactly for an unknown email, Unauthorized exactly when the password does not compare equal to the stored hash, otherwise that user's id and email |
| AuthService.FindExistingUser | apps/backend/src/services/authService.ts:10-12 | returns the user with that email, or none when no user has it |
| AuthService.Register | apps/backend/src/services/authService.ts:14-30 | a taken email is a Conflict with the table unchanged. Otherwise exactly one user is added at the next id, storing the hash of the password (never the password itself). Only id and email are returned |
| AuthService.Login | apps/backend/src/services/authService.ts:32-51 | answers `LoginResult` and only reads the table |
| AuthService.RegisterThenLogin | apps/backend/src/services/authService.ts:19-50 | if a password compares equal to its own hash, registering a fresh email and then logging in with the same password returns the new account |
| AuthService.RegisterTwiceConflicts | apps/backend/src/services/authService.ts:15-18 | after registering an email, the email is held by the new user, so a second registration conflicts |

## Left out

- Case-insensitive `contains`: the model matches exactly (`Text.Contains`), because case folding depends on the database collation.
- `findMany` has no specified order. `Table.FindWhere` lists rows by ascending id, so `skip`/`take` window that order.
- The router bounds (`skip ≥ 0`, `take > 0`, password length ≥ 8, email format) are checked before the services run. The model takes `skip` and `take` as `nat` and puts no requirement on passwords, because the services themselves accept any value.
- Network, GraphQL query text, response shapes and error payloads. A call in the platform's `rejected` set is one whose request throws: the reply carries `errors`, or a create returns no record. The model reports it as `Rejected(call)`. User errors on a mutation are not read by the services, so a call answered with them counts as sent and is not modelled as refused.
- A refused search still uses up one pending answer of the abstract platform, so the answers stay aligned with the searches sent.
- The abstract platform does not reflect earlier mutations. Its search answers, contact profiles and refusals are fixed when it is built.
- Prisma's `@updatedAt` and transaction machinery: every write of one call is stamped with the same `now`, and `$transaction` applies the pushed updates in order, all at once.
- Dates: remote `updatedAt` is an integer and the pull's start date is its ISO text, passed in. `new Date(...)`/`toISOString` are not modelled.
- Bcrypt: `hash` and `compare` are parameters. Salting is not modelled beyond passing `SaltRounds = 10`, and the hash has no randomness: two registrations with the same password store the same `hash(password, 10)`.
- The `!shopifyCompany` branch of `updateExisting…`: the rows come from `findMany` by the page's ids, so each always finds its record. That branch is unreachable and has no separate case.
- A duplicate company or customer id on a page, or an id that a row got between the lookup and the insert, makes `createMany` fail with a unique violation. The model returns the error instead of throwing it.
- Ids consumed by a failed create: the model advances the sequence only on success.
- The referential action on deleting a company whose customers link to it is not modelled. The database schema is not part of this model.
- The `include: { company: true }` of the customer create and update is a read of the companies table given to the method.
- `getCompanyById`, `getCompanyByShopifyId`, `getCustomerById`, `getCustomerByShopifyId` and `createCompanyContact` are not part of this model. They are single-row reads or calls the modelled operations do not use.
- Routers, sessions, the auth middleware, the frontend and concurrent requests.
