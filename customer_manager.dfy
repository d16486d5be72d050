/**
 * The customer list cache of static/js/customer-manager.js and the text of
 * the booking form's customer dropdown. The cache is the module's closure
 * variable; the API reply is a parameter. A field the reply leaves out is
 * `None` (JavaScript `undefined`), which a template literal renders as
 * "undefined".
 */
module CustomerManager {
  import opened Wrappers
  import opened Strings

  /** A customer's `status`: a string, a boolean, or absent. */
  datatype Status = Text(text: string) | Flag(flag: bool) | NoStatus

  /** A customer record; `email` and `phone` are "" when empty or absent (both falsy). */
  datatype Customer = Customer(id: string, firstName: Option<string>, lastName: Option<string>,
                               email: string, phone: string, status: Status)

  /** What `api.getCustomers` gives: a thrown error, or a reply whose data may be absent. */
  datatype CustomersReply = Thrown | Replied(success: bool, data: Option<seq<Customer>>)

  /** `${value}` for a possibly undefined string. */
  function Shown(v: Option<string>): string
  {
    if v.None? then "undefined" else v.value
  }

  /** Whether the dropdown disables the customer: status "disabled" or `false`. */
  predicate IsDisabled(c: Customer)
  {
    c.status == Text("disabled") || c.status == Flag(false)
  }

  /** The contact details listed after the name, email first. */
  function Contacts(c: Customer): (r: seq<string>)
    ensures |r| <= 2 && forall x :: x in r ==> x != ""
    ensures c.email != "" <==> c.email in r && r[0] == c.email
    ensures c.phone != "" <==> c.phone in r && r[|r| - 1] == c.phone
  {
    (if c.email != "" then [c.email] else []) + (if c.phone != "" then [c.phone] else [])
  }

  /** Parts joined with a separator string. */
  function JoinWith(parts: seq<string>, sep: string): string
  {
    if parts == [] then "" else if |parts| == 1 then parts[0] else parts[0] + sep + JoinWith(parts[1..], sep)
  }

  function FullName(c: Customer): string
  {
    Shown(c.firstName) + " " + Shown(c.lastName)
  }

  /** The name with the contact details, when there are any, in parentheses. */
  function NameAndContacts(c: Customer): (r: string)
    ensures StartsWith(r, FullName(c))
    ensures c.email == "" && c.phone == "" ==> r == FullName(c)
    ensures c.email != "" && c.phone != "" ==> r == FullName(c) + " (" + c.email + ", " + c.phone + ")"
    ensures c.email != "" && c.phone == "" ==> r == FullName(c) + " (" + c.email + ")"
    ensures c.email == "" && c.phone != "" ==> r == FullName(c) + " (" + c.phone + ")"
  {
    var contacts := Contacts(c);
    var r := if contacts != [] then FullName(c) + " (" + JoinWith(contacts, ", ") + ")" else FullName(c);
    assert r[..|FullName(c)|] == FullName(c);
    assert c.email != "" && c.phone != "" ==> (contacts == [c.email, c.phone] && contacts[1..] == [c.phone] &&
      JoinWith(contacts, ", ") == c.email + ", " + c.phone);
    r
  }

  /** The option text of `renderBookingDropdown`: the disabled marker follows the name and contacts. */
  function DropdownText(c: Customer): (r: string)
    ensures StartsWith(r, NameAndContacts(c))
    ensures IsDisabled(c) ==> r == NameAndContacts(c) + " [Disabled]"
    ensures !IsDisabled(c) ==> r == NameAndContacts(c)
  {
    var base := NameAndContacts(c);
    var r := if IsDisabled(c) then base + " [Disabled]" else base;
    assert r[..|base|] == base;
    r
  }

  /** What `getCustomerById` settles on; `Fails` is the TypeError when the list itself is undefined. */
  datatype Lookup = Found(customer: Customer) | NotFound | Fails

  /** `customers.find(c => c.id === id) || null`. */
  function FindById(customers: Option<seq<Customer>>, id: string): (r: Lookup)
    ensures customers.None? <==> r.Fails?
    ensures r.Found? ==> r.customer in customers.value && r.customer.id == id
    ensures r.NotFound? ==> forall c :: c in customers.value ==> c.id != id
    ensures r.Found? ==> exists i :: (0 <= i < |customers.value| && customers.value[i] == r.customer &&
      forall j :: 0 <= j < i ==> customers.value[j].id != id)
    decreases if customers.Some? then |customers.value| else 0
  {
    if customers.None? then Fails
    else if customers.value == [] then NotFound
    else if customers.value[0].id == id then Found(customers.value[0])
    else
      var r := FindById(Some(customers.value[1..]), id);
      assert forall k :: 1 <= k < |customers.value| ==> customers.value[k] == customers.value[1..][k - 1];
      if r.Found? then
        var i :| 0 <= i < |customers.value[1..]| && customers.value[1..][i] == r.customer &&
          forall j :: 0 <= j < i ==> customers.value[1..][j].id != id;
        assert customers.value[i + 1] == r.customer;
        r
      else r
  }

  /** The cache held by the module: `None` for null (or for an undefined list the API left it). */
  class Cache {
    var customers: Option<seq<Customer>>

    constructor ()
      ensures customers.None?
    {
      customers := None;
    }

    /**
     * `fetchCustomers`: the cached list, even an empty one, unless a refresh
     * is forced; otherwise the API is called, a failed reply caches and
     * returns [], and a thrown error returns [] and keeps the cache.
     */
    method FetchCustomers(forceRefresh: bool, reply: CustomersReply) returns (result: Option<seq<Customer>>, called: bool)
      modifies this
      ensures called <==> old(customers).None? || forceRefresh
      ensures !called ==> result == old(customers) && customers == old(customers)
      ensures called && reply.Thrown? ==> result == Some([]) && customers == old(customers)
      ensures called && reply.Replied? ==>
        result == (if reply.success then reply.data else Some([])) && customers == result
    {
      if customers.Some? && !forceRefresh {
        return customers, false;
      }
      called := true;
      if reply.Thrown? {
        return Some([]), true;
      }
      result := if reply.success then reply.data else Some([]);
      customers := result;
    }

    /**
     * `getCustomerById`: a fetch without refresh, then the first customer
     * with the id, searched in the cached list or else in what the API
     * replied, which the cache then holds.
     */
    method GetCustomerById(id: string, reply: CustomersReply) returns (r: Lookup)
      modifies this
      ensures old(customers).Some? ==> r == FindById(old(customers), id) && customers == old(customers)
      ensures old(customers).None? && reply.Thrown? ==> r == NotFound && customers.None?
      ensures old(customers).None? && reply.Replied? ==>
        var fetched := if reply.success then reply.data else Some([]);
        r == FindById(fetched, id) && customers == fetched
    {
      var list, _ := FetchCustomers(false, reply);
      r := FindById(list, id);
    }

    /** `clearCache`: the next fetch goes to the API. */
    method ClearCache()
      modifies this
      ensures customers.None?
    {
      customers := None;
    }
  }
}
