/**
 * The customers page (src/Pages/Customers.jsx): the search filter over the
 * fetched customers, and the editor dialog's handlers.
 */
module Customers {
  import opened Wrappers
  import opened Js
  import opened Seqs
  import opened Search

  /** A customer as the backend lists it. */
  datatype Customer = Customer(
    customerID: int, name: string, email: string, phone: string,
    gender: Option<string>, createdAt: Option<string>)

  /** `Object.values(customer)`. */
  function Values(c: Customer): seq<JsValue> {
    [JsNumber(c.customerID), JsString(c.name), JsString(c.email), JsString(c.phone),
     OptionalText(c.gender), OptionalText(c.createdAt)]
  }

  predicate SearchMatches(c: Customer, search: string) {
    SomeValueIncludes(Values(c), search)
  }

  function SearchFilter(search: string): Customer -> bool {
    c => SearchMatches(c, search)
  }

  /** The search effect; unlike the other pages it filters even when the search is empty. */
  function FilterCustomers(customers: seq<Customer>, search: string): (r: seq<Customer>)
    ensures |r| <= |customers|
    ensures forall c :: c in r <==> c in customers && SearchMatches(c, search)
  {
    Filter(customers, SearchFilter(search))
  }

  /**
   * The filtered list is an order-preserving subsequence of the customers
   * whose members are exactly those with some field containing the search
   * text; an empty search keeps every customer.
   */
  lemma FilterCustomersSpec(customers: seq<Customer>, search: string)
    ensures var r := FilterCustomers(customers, search);
      && IsSubsequence(r, customers)
      && (forall c :: c in r <==> c in customers && SearchMatches(c, search))
      && (search == "" ==> r == customers)
  {
    FilterIsSubsequence(customers, SearchFilter(search));
    if search == "" {
      forall c | c in customers
        ensures SearchFilter(search)(c)
      {
        EmptySearchMatches(Values(c));
      }
      FilterKeepsAll(customers, SearchFilter(search));
    }
  }

  /** The editor form. */
  datatype CustomerForm = CustomerForm(name: string, email: string, phone: string)

  const EmptyForm := CustomerForm("", "", "")

  /** The form filled from a customer's name, email and phone. */
  function FormOf(c: Customer): CustomerForm {
    CustomerForm(c.name, c.email, c.phone)
  }

  /** A call into the customer service. */
  datatype CustomerCall = CreateCustomer(data: CustomerForm) | UpdateCustomer(id: int, data: CustomerForm) | DeleteCustomer(id: int)

  /** The call `handleSave` makes: update the customer being edited, else create. */
  function SaveCall(editing: Option<Customer>, form: CustomerForm): (r: CustomerCall)
    ensures r.UpdateCustomer? <==> editing.Some?
    ensures !r.DeleteCustomer? && r.data == form
    ensures r.UpdateCustomer? ==> r.id == editing.value.customerID
  {
    if editing.Some? then UpdateCustomer(editing.value.customerID, form) else CreateCustomer(form)
  }

  /** The page state. */
  class CustomersPage {
    var customers: seq<Customer>
    var filteredCustomers: seq<Customer>
    var loading: bool
    var search: string
    var open: bool
    var editingCustomer: Option<Customer>
    var formData: CustomerForm

    /** The shown list is the search filter of the fetched list. */
    ghost predicate Valid()
      reads this
    {
      filteredCustomers == FilterCustomers(customers, search)
    }

    constructor ()
      ensures Valid()
      ensures customers == [] && loading && search == ""
      ensures !open && editingCustomer == None && formData == EmptyForm
    {
      customers := [];
      filteredCustomers := [];
      loading := true;
      search := "";
      open := false;
      editingCustomer := None;
      formData := EmptyForm;
    }

    /** The search effect, run whenever the list or the search changes. */
    method ApplyFilter()
      modifies this`filteredCustomers
      ensures Valid()
    {
      filteredCustomers := FilterCustomers(customers, search);
    }

    method SetSearch(text: string)
      modifies this`search, this`filteredCustomers
      ensures search == text && Valid()
    {
      search := text;
      ApplyFilter();
    }

    /**
     * `fetchCustomers`: the list is replaced only when the request resolves;
     * `loading` is false afterwards.
     */
    method FetchCustomers(outcome: Outcome<seq<Customer>>)
      requires Valid()
      modifies this`customers, this`filteredCustomers, this`loading
      ensures Valid() && !loading
      ensures customers == (if outcome.Resolved? then outcome.value else old(customers))
      ensures outcome.Rejected? ==> filteredCustomers == old(filteredCustomers)
    {
      loading := true;
      if outcome.Resolved? {
        customers := outcome.value;
        filteredCustomers := outcome.value;
        ApplyFilter();
      }
      loading := false;
    }

    /** `handleOpen(customer)` copies name/email/phone; `handleOpen()` starts an empty form. */
    method HandleOpen(customer: Option<Customer>)
      modifies this`editingCustomer, this`formData, this`open
      ensures editingCustomer == customer && open
      ensures formData == (if customer.Some? then FormOf(customer.value) else EmptyForm)
    {
      if customer.Some? {
        editingCustomer := customer;
        formData := FormOf(customer.value);
      } else {
        editingCustomer := None;
        formData := EmptyForm;
      }
      open := true;
    }

    method SetName(text: string)
      modifies this`formData
      ensures formData == old(formData).(name := text)
    {
      formData := formData.(name := text);
    }

    method SetEmail(text: string)
      modifies this`formData
      ensures formData == old(formData).(email := text)
    {
      formData := formData.(email := text);
    }

    method SetPhone(text: string)
      modifies this`formData
      ensures formData == old(formData).(phone := text)
    {
      formData := formData.(phone := text);
    }

    /** Cancel, or closing the dialog. */
    method Close()
      modifies this`open
      ensures !open
    {
      open := false;
    }

    /**
     * `handleSave`: updates the customer being edited or creates one; only
     * when that call resolves does the dialog close and the list refetch.
     */
    method HandleSave(outcome: Outcome<()>, refetch: Outcome<seq<Customer>>) returns (call: CustomerCall)
      requires Valid()
      modifies this
      ensures Valid()
      ensures call == SaveCall(old(editingCustomer), old(formData))
      ensures outcome.Resolved? ==>
        && !open && !loading
        && customers == (if refetch.Resolved? then refetch.value else old(customers))
      ensures outcome.Rejected? ==> unchanged(this)
      ensures editingCustomer == old(editingCustomer) && formData == old(formData) && search == old(search)
    {
      call := SaveCall(editingCustomer, formData);
      if outcome.Resolved? {
        open := false;
        FetchCustomers(refetch);
      }
    }

    /** `handleDelete`: nothing at all happens unless confirmed. */
    method HandleDelete(id: int, confirmed: bool, outcome: Outcome<()>, refetch: Outcome<seq<Customer>>)
      returns (call: Option<CustomerCall>)
      requires Valid()
      modifies this`customers, this`filteredCustomers, this`loading
      ensures Valid()
      ensures call == (if confirmed then Some(DeleteCustomer(id)) else None)
      ensures !confirmed || outcome.Rejected? ==> unchanged(this)
      ensures confirmed && outcome.Resolved? ==>
        !loading && customers == (if refetch.Resolved? then refetch.value else old(customers))
    {
      if !confirmed {
        return None;
      }
      call := Some(DeleteCustomer(id));
      if outcome.Resolved? {
        FetchCustomers(refetch);
      }
    }
  }
}
