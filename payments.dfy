/**
 * The payments page (src/Pages/Payments.jsx): the branch/search filter chain
 * over the fetched payments, and the editor dialog's handlers.
 */
module Payments {
  import opened Wrappers
  import opened Js
  import opened Seqs
  import opened Search
  import opened Text

  /** A payment as the backend lists it; `paymentDate` is an ISO date-time text. */
  datatype Payment = Payment(
    paymentID: int, loanID: int, amount: Option<int>, paymentDate: string, branch: Option<string>)

  /** `Object.values(payment)`. */
  function Values(p: Payment): seq<JsValue> {
    [JsNumber(p.paymentID), JsNumber(p.loanID), OptionalNumber(p.amount), JsString(p.paymentDate),
     OptionalText(p.branch)]
  }

  /** The select value that switches the branch filter off. */
  const AllFilter := "All"

  predicate BranchMatches(p: Payment, branch: string) {
    FieldIncludes(p.branch, branch)
  }

  predicate SearchMatches(p: Payment, search: string) {
    SomeValueIncludes(Values(p), search)
  }

  function BranchFilter(branch: string): Payment -> bool {
    p => BranchMatches(p, branch)
  }

  function SearchFilter(search: string): Payment -> bool {
    p => SearchMatches(p, search)
  }

  /** The filter effect: the branch filter unless it is "All", then the search unless it is empty. */
  function FilterPayments(payments: seq<Payment>, branch: string, search: string): (r: seq<Payment>)
    ensures |r| <= |payments|
    ensures forall p :: p in r <==> p in payments && Kept(p, branch, search)
  {
    var byBranch := if branch != AllFilter then Filter(payments, BranchFilter(branch)) else payments;
    if search != "" then Filter(byBranch, SearchFilter(search)) else byBranch
  }

  /** A payment passes both active filters. */
  predicate Kept(p: Payment, branch: string, search: string) {
    && (branch == AllFilter || BranchMatches(p, branch))
    && (search == "" || SearchMatches(p, search))
  }

  function KeptFilter(branch: string, search: string): Payment -> bool {
    p => Kept(p, branch, search)
  }

  /** The chain of filters is one filter by the conjunction of the active ones. */
  lemma FilterPaymentsIsOneFilter(payments: seq<Payment>, branch: string, search: string)
    ensures FilterPayments(payments, branch, search) == Filter(payments, KeptFilter(branch, search))
  {
    var p1: Payment -> bool := p => branch == AllFilter || BranchMatches(p, branch);
    var byBranch := if branch != AllFilter then Filter(payments, BranchFilter(branch)) else payments;
    if branch == AllFilter {
      FilterKeepsAll(payments, p1);
    } else {
      FilterSamePredicate(payments, BranchFilter(branch), p1);
    }
    assert byBranch == Filter(payments, p1);
    if search == "" {
      FilterSamePredicate(payments, p1, KeptFilter(branch, search));
    } else {
      FilterTwice(payments, p1, SearchFilter(search), KeptFilter(branch, search));
    }
  }

  /**
   * The filtered list is an order-preserving subsequence of the payments
   * whose members are exactly those passing both active filters; with both
   * off it is the whole list.
   */
  lemma FilterPaymentsSpec(payments: seq<Payment>, branch: string, search: string)
    ensures var r := FilterPayments(payments, branch, search);
      && IsSubsequence(r, payments)
      && (forall p :: p in r <==> p in payments && Kept(p, branch, search))
      && (branch == AllFilter && search == "" ==> r == payments)
  {
    FilterPaymentsIsOneFilter(payments, branch, search);
    FilterIsSubsequence(payments, KeptFilter(branch, search));
  }

  /** The editor form. */
  datatype PaymentForm = PaymentForm(loanID: JsValue, amount: JsValue, paymentDate: JsValue, branch: JsValue)

  const EmptyForm := PaymentForm(JsString(""), JsString(""), JsString(""), JsString(""))

  /** The form filled from a payment, its date cut before the first "T". */
  function FormOf(p: Payment): PaymentForm {
    PaymentForm(JsNumber(p.loanID), OptionalNumber(p.amount), JsString(BeforeT(p.paymentDate)),
                OptionalText(p.branch))
  }

  /**
   * Editing a payment dated `d + "T" + time` shows the day `d`; a date
   * without "T" is shown whole.
   */
  lemma FormOfDate(p: Payment, d: string, time: string)
    requires 'T' !in d
    ensures p.paymentDate == d + "T" + time ==> FormOf(p).paymentDate == JsString(d)
    ensures p.paymentDate == d ==> FormOf(p).paymentDate == JsString(d)
  {
    if p.paymentDate == d + "T" + time {
      BeforeTDateTime(d, time);
    }
    if p.paymentDate == d {
      BeforeTWhole(d);
    }
  }

  /** The form's four inputs, in `Object.keys(formData)` order. */
  datatype PaymentField = LoanIDField | AmountField | PaymentDateField | BranchField

  function FieldOf(form: PaymentForm, f: PaymentField): JsValue {
    match f
    case LoanIDField => form.loanID
    case AmountField => form.amount
    case PaymentDateField => form.paymentDate
    case BranchField => form.branch
  }

  /** `{ ...formData, [key]: value }`: the one field is replaced, every other kept. */
  function WithField(form: PaymentForm, f: PaymentField, value: JsValue): (r: PaymentForm)
    ensures FieldOf(r, f) == value
    ensures forall g :: g != f ==> FieldOf(r, g) == FieldOf(form, g)
  {
    match f
    case LoanIDField => form.(loanID := value)
    case AmountField => form.(amount := value)
    case PaymentDateField => form.(paymentDate := value)
    case BranchField => form.(branch := value)
  }

  /** A call into the payment service. */
  datatype PaymentCall = CreatePayment(data: PaymentForm) | UpdatePayment(id: int, data: PaymentForm) | DeletePayment(id: int)

  /** The call `handleSave` makes: update the payment being edited, else create. */
  function SaveCall(editing: Option<Payment>, form: PaymentForm): (r: PaymentCall)
    ensures r.UpdatePayment? <==> editing.Some?
    ensures !r.DeletePayment? && r.data == form
    ensures r.UpdatePayment? ==> r.id == editing.value.paymentID
  {
    if editing.Some? then UpdatePayment(editing.value.paymentID, form) else CreatePayment(form)
  }

  /** The page state. */
  class PaymentsPage {
    var payments: seq<Payment>
    var filteredPayments: seq<Payment>
    var loading: bool
    var search: string
    var branchFilter: string
    var open: bool
    var editingPayment: Option<Payment>
    var formData: PaymentForm

    /** The shown list is the filter of the fetched list by the current filters. */
    ghost predicate Valid()
      reads this
    {
      filteredPayments == FilterPayments(payments, branchFilter, search)
    }

    constructor ()
      ensures Valid()
      ensures payments == [] && loading && search == "" && branchFilter == AllFilter
      ensures !open && editingPayment == None && formData == EmptyForm
    {
      payments := [];
      filteredPayments := [];
      loading := true;
      search := "";
      branchFilter := AllFilter;
      open := false;
      editingPayment := None;
      formData := EmptyForm;
    }

    /** The filter effect, run whenever the list or a filter changes. */
    method ApplyFilters()
      modifies this`filteredPayments
      ensures Valid()
    {
      filteredPayments := FilterPayments(payments, branchFilter, search);
    }

    method SetSearch(text: string)
      modifies this`search, this`filteredPayments
      ensures search == text && Valid()
    {
      search := text;
      ApplyFilters();
    }

    method SetBranchFilter(branch: string)
      modifies this`branchFilter, this`filteredPayments
      ensures branchFilter == branch && Valid()
    {
      branchFilter := branch;
      ApplyFilters();
    }

    /**
     * `fetchPayments`: the list is replaced only when the request resolves;
     * `loading` is false afterwards.
     */
    method FetchPayments(outcome: Outcome<seq<Payment>>)
      requires Valid()
      modifies this`payments, this`filteredPayments, this`loading
      ensures Valid() && !loading
      ensures payments == (if outcome.Resolved? then outcome.value else old(payments))
      ensures outcome.Rejected? ==> filteredPayments == old(filteredPayments)
    {
      loading := true;
      if outcome.Resolved? {
        payments := outcome.value;
        filteredPayments := outcome.value;
        ApplyFilters();
      }
      loading := false;
    }

    /** `handleOpen(payment)` copies the payment's fields; `handleOpen()` starts an empty form. */
    method HandleOpen(payment: Option<Payment>)
      modifies this`editingPayment, this`formData, this`open
      ensures editingPayment == payment && open
      ensures formData == (if payment.Some? then FormOf(payment.value) else EmptyForm)
    {
      if payment.Some? {
        editingPayment := payment;
        formData := FormOf(payment.value);
      } else {
        editingPayment := None;
        formData := EmptyForm;
      }
      open := true;
    }

    /** Typing into one input of the dialog. */
    method EditField(f: PaymentField, text: string)
      modifies this`formData
      ensures formData == WithField(old(formData), f, JsString(text))
    {
      formData := WithField(formData, f, JsString(text));
    }

    /** Cancel, or closing the dialog. */
    method Close()
      modifies this`open
      ensures !open
    {
      open := false;
    }

    /**
     * `handleSave`: updates the payment being edited or creates one; only
     * when that call resolves does the dialog close and the list refetch.
     */
    method HandleSave(outcome: Outcome<()>, refetch: Outcome<seq<Payment>>) returns (call: PaymentCall)
      requires Valid()
      modifies this
      ensures Valid()
      ensures call == SaveCall(old(editingPayment), old(formData))
      ensures outcome.Resolved? ==>
        && !open && !loading
        && payments == (if refetch.Resolved? then refetch.value else old(payments))
      ensures outcome.Rejected? ==> unchanged(this)
      ensures editingPayment == old(editingPayment) && formData == old(formData)
      ensures search == old(search) && branchFilter == old(branchFilter)
    {
      call := SaveCall(editingPayment, formData);
      if outcome.Resolved? {
        open := false;
        FetchPayments(refetch);
      }
    }

    /** `handleDelete`: nothing at all happens unless confirmed. */
    method HandleDelete(id: int, confirmed: bool, outcome: Outcome<()>, refetch: Outcome<seq<Payment>>)
      returns (call: Option<PaymentCall>)
      requires Valid()
      modifies this`payments, this`filteredPayments, this`loading
      ensures Valid()
      ensures call == (if confirmed then Some(DeletePayment(id)) else None)
      ensures !confirmed || outcome.Rejected? ==> unchanged(this)
      ensures confirmed && outcome.Resolved? ==>
        !loading && payments == (if refetch.Resolved? then refetch.value else old(payments))
    {
      if !confirmed {
        return None;
      }
      call := Some(DeletePayment(id));
      if outcome.Resolved? {
        FetchPayments(refetch);
      }
    }
  }
}
