/**
 * The loans page (src/Pages/Loans.jsx): the branch/status/search filter
 * chain over the fetched loans, and the editor dialog's handlers.
 */
module Loans {
  import opened Wrappers
  import opened Js
  import opened Seqs
  import opened Search

  /** A loan as the backend lists it. */
  datatype Loan = Loan(
    loanID: int, customerID: int, amount: Option<int>, interestRate: int,
    durationMonths: int, status: Option<string>, branch: Option<string>, loanDate: string)

  /** `Object.values(loan)`. */
  function Values(l: Loan): seq<JsValue> {
    [JsNumber(l.loanID), JsNumber(l.customerID), OptionalNumber(l.amount), JsNumber(l.interestRate),
     JsNumber(l.durationMonths), OptionalText(l.status), OptionalText(l.branch), JsString(l.loanDate)]
  }

  /** The select value that switches a filter off. */
  const AllFilter := "All"

  predicate BranchMatches(l: Loan, branch: string) {
    FieldIncludes(l.branch, branch)
  }

  predicate StatusMatches(l: Loan, status: string) {
    FieldIncludes(l.status, status)
  }

  predicate SearchMatches(l: Loan, search: string) {
    SomeValueIncludes(Values(l), search)
  }

  function BranchFilter(branch: string): Loan -> bool {
    l => BranchMatches(l, branch)
  }

  function StatusFilter(status: string): Loan -> bool {
    l => StatusMatches(l, status)
  }

  function SearchFilter(search: string): Loan -> bool {
    l => SearchMatches(l, search)
  }

  /**
   * The filter effect: the branch filter unless it is "All", then the status
   * filter unless it is "All", then the search unless it is empty.
   */
  function FilterLoans(loans: seq<Loan>, branch: string, status: string, search: string): (r: seq<Loan>)
    ensures |r| <= |loans|
    ensures forall l :: l in r <==> l in loans && Kept(l, branch, status, search)
  {
    var byBranch := if branch != AllFilter then Filter(loans, BranchFilter(branch)) else loans;
    var byStatus := if status != AllFilter then Filter(byBranch, StatusFilter(status)) else byBranch;
    if search != "" then Filter(byStatus, SearchFilter(search)) else byStatus
  }

  /** A loan passes every active filter. */
  predicate Kept(l: Loan, branch: string, status: string, search: string) {
    && (branch == AllFilter || BranchMatches(l, branch))
    && (status == AllFilter || StatusMatches(l, status))
    && (search == "" || SearchMatches(l, search))
  }

  function KeptFilter(branch: string, status: string, search: string): Loan -> bool {
    l => Kept(l, branch, status, search)
  }

  /** The chain of filters is one filter by the conjunction of the active ones. */
  lemma FilterLoansIsOneFilter(loans: seq<Loan>, branch: string, status: string, search: string)
    ensures FilterLoans(loans, branch, status, search) == Filter(loans, KeptFilter(branch, status, search))
  {
    var p1: Loan -> bool := l => branch == AllFilter || BranchMatches(l, branch);
    var p2: Loan -> bool := l => p1(l) && (status == AllFilter || StatusMatches(l, status));
    var byBranch := if branch != AllFilter then Filter(loans, BranchFilter(branch)) else loans;
    var byStatus := if status != AllFilter then Filter(byBranch, StatusFilter(status)) else byBranch;
    if branch == AllFilter {
      FilterKeepsAll(loans, p1);
    } else {
      FilterSamePredicate(loans, BranchFilter(branch), p1);
    }
    assert byBranch == Filter(loans, p1);
    if status == AllFilter {
      FilterSamePredicate(loans, p1, p2);
    } else {
      FilterTwice(loans, p1, StatusFilter(status), p2);
    }
    assert byStatus == Filter(loans, p2);
    if search == "" {
      FilterSamePredicate(loans, p2, KeptFilter(branch, status, search));
    } else {
      FilterTwice(loans, p2, SearchFilter(search), KeptFilter(branch, status, search));
    }
  }

  /**
   * The filtered list is an order-preserving subsequence of the loans whose
   * members are exactly the loans passing every active filter; with every
   * filter off it is the whole list.
   */
  lemma FilterLoansSpec(loans: seq<Loan>, branch: string, status: string, search: string)
    ensures var r := FilterLoans(loans, branch, status, search);
      && IsSubsequence(r, loans)
      && (forall l :: l in r <==> l in loans && Kept(l, branch, status, search))
      && (branch == AllFilter && status == AllFilter && search == "" ==> r == loans)
  {
    FilterLoansIsOneFilter(loans, branch, status, search);
    FilterIsSubsequence(loans, KeptFilter(branch, status, search));
  }

  /** The editor form; its fields are text inputs, or the values copied from a loan. */
  datatype LoanForm = LoanForm(
    customerID: JsValue, amount: JsValue, interestRate: JsValue,
    durationMonths: JsValue, status: JsValue, branch: JsValue)

  const EmptyForm := LoanForm(JsString(""), JsString(""), JsString(""), JsString(""), JsString(""), JsString(""))

  /** The form filled from a loan's six editable fields. */
  function FormOf(l: Loan): LoanForm {
    LoanForm(JsNumber(l.customerID), OptionalNumber(l.amount), JsNumber(l.interestRate),
             JsNumber(l.durationMonths), OptionalText(l.status), OptionalText(l.branch))
  }

  /** The form's six inputs, in `Object.keys(formData)` order. */
  datatype LoanField = CustomerIDField | AmountField | InterestRateField | DurationMonthsField | StatusField | BranchField

  function FieldOf(form: LoanForm, f: LoanField): JsValue {
    match f
    case CustomerIDField => form.customerID
    case AmountField => form.amount
    case InterestRateField => form.interestRate
    case DurationMonthsField => form.durationMonths
    case StatusField => form.status
    case BranchField => form.branch
  }

  /** `{ ...formData, [key]: value }`: the one field is replaced, every other kept. */
  function WithField(form: LoanForm, f: LoanField, value: JsValue): (r: LoanForm)
    ensures FieldOf(r, f) == value
    ensures forall g :: g != f ==> FieldOf(r, g) == FieldOf(form, g)
  {
    match f
    case CustomerIDField => form.(customerID := value)
    case AmountField => form.(amount := value)
    case InterestRateField => form.(interestRate := value)
    case DurationMonthsField => form.(durationMonths := value)
    case StatusField => form.(status := value)
    case BranchField => form.(branch := value)
  }

  /** A call into the loan service. */
  datatype LoanCall = CreateLoan(data: LoanForm) | UpdateLoan(id: int, data: LoanForm) | DeleteLoan(id: int)

  /** The call `handleSave` makes: update the loan being edited, else create. */
  function SaveCall(editing: Option<Loan>, form: LoanForm): (r: LoanCall)
    ensures r.UpdateLoan? <==> editing.Some?
    ensures !r.DeleteLoan? && r.data == form
    ensures r.UpdateLoan? ==> r.id == editing.value.loanID
  {
    if editing.Some? then UpdateLoan(editing.value.loanID, form) else CreateLoan(form)
  }

  /** Opening the dialog on a loan and saving updates that loan with its own values. */
  lemma EditThenSave(l: Loan)
    ensures SaveCall(Some(l), FormOf(l)) == UpdateLoan(l.loanID, FormOf(l))
    ensures SaveCall(None, EmptyForm) == CreateLoan(EmptyForm)
  {
  }

  /** The page state. */
  class LoansPage {
    var loans: seq<Loan>
    var filteredLoans: seq<Loan>
    var loading: bool
    var search: string
    var branchFilter: string
    var statusFilter: string
    var open: bool
    var editingLoan: Option<Loan>
    var formData: LoanForm

    /** The shown list is the filter of the fetched list by the current filters. */
    ghost predicate Valid()
      reads this
    {
      filteredLoans == FilterLoans(loans, branchFilter, statusFilter, search)
    }

    constructor ()
      ensures Valid()
      ensures loans == [] && loading && search == "" && branchFilter == AllFilter && statusFilter == AllFilter
      ensures !open && editingLoan == None && formData == EmptyForm
    {
      loans := [];
      filteredLoans := [];
      loading := true;
      search := "";
      branchFilter := AllFilter;
      statusFilter := AllFilter;
      open := false;
      editingLoan := None;
      formData := EmptyForm;
    }

    /** The filter effect, run whenever the list or a filter changes. */
    method ApplyFilters()
      modifies this`filteredLoans
      ensures Valid()
    {
      filteredLoans := FilterLoans(loans, branchFilter, statusFilter, search);
    }

    method SetSearch(text: string)
      modifies this`search, this`filteredLoans
      ensures search == text && Valid()
    {
      search := text;
      ApplyFilters();
    }

    method SetBranchFilter(branch: string)
      modifies this`branchFilter, this`filteredLoans
      ensures branchFilter == branch && Valid()
    {
      branchFilter := branch;
      ApplyFilters();
    }

    method SetStatusFilter(status: string)
      modifies this`statusFilter, this`filteredLoans
      ensures statusFilter == status && Valid()
    {
      statusFilter := status;
      ApplyFilters();
    }

    /**
     * `fetchLoans`: the list is replaced only when the request resolves (and
     * the filter effect then re-runs); `loading` is false afterwards.
     */
    method FetchLoans(outcome: Outcome<seq<Loan>>)
      requires Valid()
      modifies this`loans, this`filteredLoans, this`loading
      ensures Valid() && !loading
      ensures loans == (if outcome.Resolved? then outcome.value else old(loans))
      ensures outcome.Rejected? ==> filteredLoans == old(filteredLoans)
    {
      loading := true;
      if outcome.Resolved? {
        loans := outcome.value;
        filteredLoans := outcome.value;
        ApplyFilters();
      }
      loading := false;
    }

    /** `handleOpen(loan)` copies the loan's fields; `handleOpen()` starts an empty form. */
    method HandleOpen(loan: Option<Loan>)
      modifies this`editingLoan, this`formData, this`open
      ensures editingLoan == loan && open
      ensures formData == (if loan.Some? then FormOf(loan.value) else EmptyForm)
    {
      if loan.Some? {
        editingLoan := loan;
        formData := FormOf(loan.value);
      } else {
        editingLoan := None;
        formData := EmptyForm;
      }
      open := true;
    }

    /** Typing into one input of the dialog. */
    method EditField(f: LoanField, text: string)
      modifies this`formData
      ensures formData == WithField(old(formData), f, JsString(text))
    {
      formData := WithField(formData, f, JsString(text));
    }

    /** Cancel, or closing the dialog: the form and editing target are kept. */
    method Close()
      modifies this`open
      ensures !open
    {
      open := false;
    }

    /**
     * `handleSave`: updates the loan being edited or creates one; only when
     * that call resolves does the dialog close and the list refetch.
     */
    method HandleSave(outcome: Outcome<()>, refetch: Outcome<seq<Loan>>) returns (call: LoanCall)
      requires Valid()
      modifies this
      ensures Valid()
      ensures call == SaveCall(old(editingLoan), old(formData))
      ensures outcome.Resolved? ==>
        && !open && !loading
        && loans == (if refetch.Resolved? then refetch.value else old(loans))
      ensures outcome.Rejected? ==> unchanged(this)
      ensures editingLoan == old(editingLoan) && formData == old(formData)
      ensures search == old(search) && branchFilter == old(branchFilter) && statusFilter == old(statusFilter)
    {
      call := SaveCall(editingLoan, formData);
      if outcome.Resolved? {
        open := false;
        FetchLoans(refetch);
      }
    }

    /** `handleDelete`: nothing at all happens unless confirmed. */
    method HandleDelete(id: int, confirmed: bool, outcome: Outcome<()>, refetch: Outcome<seq<Loan>>)
      returns (call: Option<LoanCall>)
      requires Valid()
      modifies this`loans, this`filteredLoans, this`loading
      ensures Valid()
      ensures call == (if confirmed then Some(DeleteLoan(id)) else None)
      ensures !confirmed || outcome.Rejected? ==> unchanged(this)
      ensures confirmed && outcome.Resolved? ==>
        !loading && loans == (if refetch.Resolved? then refetch.value else old(loans))
    {
      if !confirmed {
        return None;
      }
      call := Some(DeleteLoan(id));
      if outcome.Resolved? {
        FetchLoans(refetch);
      }
    }
  }
}
