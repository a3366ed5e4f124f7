/**
 * The e-commerce platform's admin API as the services see it: the records it
 * returns, the calls the services send, and an abstract platform that answers
 * them. The platform answers searches from a fixed sequence of pages, hands
 * out fresh ids on create, rejects the calls in a fixed set, and records
 * every call it receives in a ghost log.
 */
module Shopify {
  import opened Wrappers
  import Text

  /** A platform-assigned global id ("gid://shopify/…"). */
  type Gid = string

  datatype PageInfo = PageInfo(hasNextPage: bool, endCursor: string)

  /** A company node. `updatedAt` is the record's modification instant as a number. */
  datatype ShopifyCompany = ShopifyCompany(id: Gid, name: string, externalId: string, updatedAt: int)

  datatype CompanyRef = CompanyRef(id: Gid, name: string)

  /** A customer's link to a company on the platform side. */
  datatype ContactProfile = ContactProfile(id: Gid, company: CompanyRef)

  datatype CustomerState = Declined | Disabled | Enabled | Invited

  datatype ShopifyCustomer = ShopifyCustomer(
    id: Gid,
    firstName: string,
    lastName: string,
    email: string,
    phone: string,
    locale: string,
    state: CustomerState,
    updatedAt: int,
    companyContactProfiles: seq<ContactProfile>)

  /** One page of a company search: the `companies` payload. */
  datatype CompanyConnection = CompanyConnection(nodes: seq<ShopifyCompany>, pageInfo: PageInfo)

  /** One page of a customer search: the `customers` payload. */
  datatype CustomerConnection = CustomerConnection(nodes: seq<ShopifyCustomer>, pageInfo: PageInfo)

  /** The body sent to create or update a customer. */
  datatype CustomerInput = CustomerInput(
    firstName: Option<string>,
    lastName: Option<string>,
    phone: Option<string>,
    email: Option<string>)

  /** A request sent to the platform. */
  datatype RemoteCall =
    | SearchCompanies(query: string, first: int, cursor: Option<string>)
    | CreateCompany(name: string, externalId: string)
    | UpdateCompany(companyId: Gid, name: string, externalId: string)
    | DeleteCompanies(companyIds: seq<Gid>)
    | SearchCustomers(query: string, first: int, cursor: Option<string>)
    | GetCustomer(customerId: Gid)
    | CreateCustomer(input: CustomerInput)
    | UpdateCustomer(customerId: Gid, input: CustomerInput)
    | DeleteCustomer(customerId: Gid)
    | DeleteCompanyContacts(contactIds: seq<Gid>)
    | AssignCustomerAsContact(companyId: Gid, customerId: Gid)

  /** The id the platform gives to the n-th record it creates. */
  function NewGid(kind: string, n: nat): Gid
  {
    "gid://shopify/" + kind + "/" + Text.Decimal(n)
  }

  /**
   * The platform refuses a call when it is rejected, or when it looks up a
   * customer the platform does not know.
   */
  predicate Refuses(call: RemoteCall, rejected: set<RemoteCall>, profilesOf: map<Gid, seq<ContactProfile>>)
  {
    call in rejected || (call.GetCustomer? && call.customerId !in profilesOf)
  }

  /** The calls of a plan that were sent, and the call that was refused, if any. */
  datatype Attempted = Attempted(sent: seq<RemoteCall>, refused: Option<RemoteCall>)

  /**
   * Sending a plan of calls one after another, where a refused call throws
   * and so ends the plan: the sent calls are the plan up to and including
   * the first refused one.
   */
  function Attempt(plan: seq<RemoteCall>, rejected: set<RemoteCall>, profilesOf: map<Gid, seq<ContactProfile>>): (a: Attempted)
    ensures a.sent <= plan
    decreases |plan|
  {
    if plan == [] then Attempted([], None)
    else if Refuses(plan[0], rejected, profilesOf) then Attempted([plan[0]], Some(plan[0]))
    else
      var rest := Attempt(plan[1..], rejected, profilesOf);
      Attempted([plan[0]] + rest.sent, rest.refused)
  }

  /** A plan none of whose calls is refused is sent whole. */
  lemma {:induction false} AttemptSendsAll(plan: seq<RemoteCall>, rejected: set<RemoteCall>, profilesOf: map<Gid, seq<ContactProfile>>)
    requires forall i :: 0 <= i < |plan| ==> !Refuses(plan[i], rejected, profilesOf)
    ensures Attempt(plan, rejected, profilesOf) == Attempted(plan, None)
    decreases |plan|
  {
    if plan != [] {
      assert forall i :: 0 <= i < |plan| - 1 ==> plan[1..][i] == plan[i + 1];
      AttemptSendsAll(plan[1..], rejected, profilesOf);
      assert plan == [plan[0]] + plan[1..];
    }
  }

  /** A plan whose first calls went through and whose next call is refused stops there. */
  lemma {:induction false} AttemptStopsAt(done: seq<RemoteCall>, call: RemoteCall, rest: seq<RemoteCall>,
                                          rejected: set<RemoteCall>, profilesOf: map<Gid, seq<ContactProfile>>)
    requires forall i :: 0 <= i < |done| ==> !Refuses(done[i], rejected, profilesOf)
    requires Refuses(call, rejected, profilesOf)
    ensures Attempt(done + [call] + rest, rejected, profilesOf) == Attempted(done + [call], Some(call))
    decreases |done|
  {
    if done == [] {
      assert done + [call] + rest == [call] + rest;
    } else {
      assert (done + [call] + rest)[1..] == done[1..] + [call] + rest;
      assert (done + [call] + rest)[0] == done[0];
      AttemptStopsAt(done[1..], call, rest, rejected, profilesOf);
      assert [done[0]] + (done[1..] + [call]) == done + [call];
    }
  }

  /** A plan whose first calls all go through behaves, after them, as its remainder does. */
  lemma {:induction false} AttemptAppend(done: seq<RemoteCall>, rest: seq<RemoteCall>,
                                         rejected: set<RemoteCall>, profilesOf: map<Gid, seq<ContactProfile>>)
    requires forall i :: 0 <= i < |done| ==> !Refuses(done[i], rejected, profilesOf)
    ensures var a := Attempt(rest, rejected, profilesOf);
      Attempt(done + rest, rejected, profilesOf) == Attempted(done + a.sent, a.refused)
    decreases |done|
  {
    var a := Attempt(rest, rejected, profilesOf);
    if done == [] {
      assert done + rest == rest;
      assert done + a.sent == a.sent;
    } else {
      var tail := done[1..] + rest;
      assert (done + rest)[1..] == tail;
      assert (done + rest)[0] == done[0];
      assert !Refuses(done[0], rejected, profilesOf);
      AttemptAppend(done[1..], rest, rejected, profilesOf);
      var t := Attempt(tail, rejected, profilesOf);
      assert t == Attempted(done[1..] + a.sent, a.refused);
      assert Attempt(done + rest, rejected, profilesOf) == Attempted([done[0]] + t.sent, t.refused);
      assert [done[0]] + (done[1..] + a.sent) == done + a.sent;
    }
  }

  class Remote {
    /** Answers to successive company searches; None is a reply without a `companies` payload. */
    const companyPages: seq<Option<CompanyConnection>>
    /** Answers to successive customer searches; None is a reply without a `customers` payload. */
    const customerPages: seq<Option<CustomerConnection>>
    /** The contact profiles of each customer the platform knows, as a lookup by id returns them. */
    const profilesOf: map<Gid, seq<ContactProfile>>
    /** Calls the platform rejects with errors. */
    const rejected: set<RemoteCall>

    var companySearches: nat
    var customerSearches: nat
    var created: nat
    ghost var log: seq<RemoteCall>

    constructor (companyPages: seq<Option<CompanyConnection>>, customerPages: seq<Option<CustomerConnection>>,
                 profilesOf: map<Gid, seq<ContactProfile>>, rejected: set<RemoteCall>)
      ensures this.companyPages == companyPages && this.customerPages == customerPages
      ensures this.profilesOf == profilesOf && this.rejected == rejected
      ensures companySearches == 0 && customerSearches == 0 && created == 0 && log == []
    {
      this.companyPages := companyPages;
      this.customerPages := customerPages;
      this.profilesOf := profilesOf;
      this.rejected := rejected;
      companySearches, customerSearches, created := 0, 0, 0;
      log := [];
    }

    /** The company-search answers not yet served; every later search finds no payload. */
    function PendingCompanyPages(): seq<Option<CompanyConnection>>
      reads this
    {
      if companySearches < |companyPages| then companyPages[companySearches..] else []
    }

    function PendingCustomerPages(): seq<Option<CustomerConnection>>
      reads this
    {
      if customerSearches < |customerPages| then customerPages[customerSearches..] else []
    }

    /**
     * Sends a company search. A rejected search fails (the reply carries
     * errors); either way it uses up one of the answers.
     */
    method SearchCompanies(query: string, first: int, cursor: Option<string>) returns (r: Result<Option<CompanyConnection>, RemoteCall>)
      modifies this`companySearches, this`log
      ensures var pending := old(PendingCompanyPages());
        r == if RemoteCall.SearchCompanies(query, first, cursor) in rejected then Failure(RemoteCall.SearchCompanies(query, first, cursor))
             else Success(if pending == [] then None else pending[0])
      ensures PendingCompanyPages() == (if old(PendingCompanyPages()) == [] then [] else old(PendingCompanyPages())[1..])
      ensures companySearches == old(companySearches) + 1
      ensures log == old(log) + [RemoteCall.SearchCompanies(query, first, cursor)]
    {
      var call := RemoteCall.SearchCompanies(query, first, cursor);
      log := log + [call];
      if call in rejected {
        r := Failure(call);
      } else {
        r := Success(if companySearches < |companyPages| then companyPages[companySearches] else None);
      }
      companySearches := companySearches + 1;
    }

    /** Sends a customer search, failing as SearchCompanies does. */
    method SearchCustomers(query: string, first: int, cursor: Option<string>) returns (r: Result<Option<CustomerConnection>, RemoteCall>)
      modifies this`customerSearches, this`log
      ensures var pending := old(PendingCustomerPages());
        r == if RemoteCall.SearchCustomers(query, first, cursor) in rejected then Failure(RemoteCall.SearchCustomers(query, first, cursor))
             else Success(if pending == [] then None else pending[0])
      ensures PendingCustomerPages() == (if old(PendingCustomerPages()) == [] then [] else old(PendingCustomerPages())[1..])
      ensures customerSearches == old(customerSearches) + 1
      ensures log == old(log) + [RemoteCall.SearchCustomers(query, first, cursor)]
    {
      var call := RemoteCall.SearchCustomers(query, first, cursor);
      log := log + [call];
      if call in rejected {
        r := Failure(call);
      } else {
        r := Success(if customerSearches < |customerPages| then customerPages[customerSearches] else None);
      }
      customerSearches := customerSearches + 1;
    }

    /** Sends a mutation that returns no value the services use. */
    method Send(call: RemoteCall) returns (o: Outcome<RemoteCall>)
      modifies this`log
      ensures log == old(log) + [call]
      ensures o == if call in rejected then Fail(call) else Pass
    {
      log := log + [call];
      o := if call in rejected then Fail(call) else Pass;
    }

    /** Sends a create and returns the id of the new record. */
    method Create(call: RemoteCall, kind: string) returns (r: Result<Gid, RemoteCall>)
      requires call.CreateCompany? || call.CreateCustomer?
      modifies this`created, this`log
      ensures log == old(log) + [call]
      ensures r == if call in rejected then Failure(call) else Success(NewGid(kind, old(created)))
      ensures created == if call in rejected then old(created) else old(created) + 1
    {
      log := log + [call];
      if call in rejected {
        r := Failure(call);
      } else {
        r := Success(NewGid(kind, created));
        created := created + 1;
      }
    }

    /**
     * Looks a customer up and returns its contact profiles. A rejected call
     * fails, and so does an id the platform does not know (the lookup
     * then has no customer to read the profiles of).
     */
    method GetCustomerProfiles(id: Gid) returns (r: Result<seq<ContactProfile>, RemoteCall>)
      modifies this`log
      ensures log == old(log) + [GetCustomer(id)]
      ensures r == if GetCustomer(id) in rejected || id !in profilesOf then Failure(GetCustomer(id))
                   else Success(profilesOf[id])
    {
      log := log + [GetCustomer(id)];
      if GetCustomer(id) in rejected || id !in profilesOf {
        r := Failure(GetCustomer(id));
      } else {
        r := Success(profilesOf[id]);
      }
    }
  }
}
