/**
 * The statistics panel (src/components/DashboardStats.jsx): totals due and
 * paid, what was paid today, the collection rate and this month's counts.
 */
module DashboardStats {
  import opened Wrappers
  import opened Js
  import opened Seqs
  import Loans
  import Payments
  import Customers
  import Dashboard

  /** `new Date(p.paymentDate).toDateString() === today`, with `dayOf` standing for the date parse. */
  function PaidOn(dayOf: string -> string, today: string): Payments.Payment -> bool {
    (p: Payments.Payment) => dayOf(p.paymentDate) == today
  }

  function NotPaidOn(dayOf: string -> string, today: string): Payments.Payment -> bool {
    (p: Payments.Payment) => dayOf(p.paymentDate) != today
  }

  /** `paidToday`: the total of the payments dated today. */
  function PaidToday(payments: seq<Payments.Payment>, dayOf: string -> string, today: string): (r: int)
    ensures (forall p :: p in payments && p.amount.Some? ==> p.amount.value >= 0) ==> r >= 0
    ensures (forall p :: p in payments && dayOf(p.paymentDate) == today ==> p.amount.None?) ==> r == 0
  {
    Dashboard.TotalPayments(Filter(payments, PaidOn(dayOf, today)))
  }

  /** The payments made today and those made on other days split the total paid between them. */
  lemma {:induction false} PaidTodaySplit(payments: seq<Payments.Payment>, dayOf: string -> string, today: string)
    ensures PaidToday(payments, dayOf, today)
            + Dashboard.TotalPayments(Filter(payments, NotPaidOn(dayOf, today)))
            == Dashboard.TotalPayments(payments)
    decreases |payments|
  {
    if payments != [] {
      var p := payments[0];
      var rest := payments[1..];
      PaidTodaySplit(rest, dayOf, today);
      assert payments == [p] + rest;
      var today' := if PaidOn(dayOf, today)(p) then [p] else [];
      var other' := if NotPaidOn(dayOf, today)(p) then [p] else [];
      Dashboard.TotalPaymentsConcat(today', Filter(rest, PaidOn(dayOf, today)), p);
      Dashboard.TotalPaymentsConcat(other', Filter(rest, NotPaidOn(dayOf, today)), p);
      Dashboard.TotalPaymentsConcat([p], rest, p);
      Dashboard.TotalPaymentsConcat([], [p], p);
      assert [] + [p] == [p];
    }
  }

  /** With no negative amounts, what was paid today is between 0 and the total paid. */
  lemma PaidTodayBounds(payments: seq<Payments.Payment>, dayOf: string -> string, today: string)
    requires forall p :: p in payments && p.amount.Some? ==> p.amount.value >= 0
    ensures 0 <= PaidToday(payments, dayOf, today) <= Dashboard.TotalPayments(payments)
  {
    PaidTodaySplit(payments, dayOf, today);
    TotalNonNegative(Filter(payments, PaidOn(dayOf, today)));
    TotalNonNegative(Filter(payments, NotPaidOn(dayOf, today)));
  }

  lemma {:induction false} TotalNonNegative(payments: seq<Payments.Payment>)
    requires forall p :: p in payments && p.amount.Some? ==> p.amount.value >= 0
    ensures Dashboard.TotalPayments(payments) >= 0
    decreases |payments|
  {
    if payments != [] {
      var rest := payments[..|payments| - 1];
      var p := payments[|payments| - 1];
      assert payments == rest + [p];
      TotalNonNegative(rest);
      Dashboard.TotalPaymentsConcat(rest, [], p);
    }
  }

  /**
   * `collectionRate`: paid over due as a percentage, and 0 when nothing is
   * due (0 is falsy), so it is never a division by zero.
   */
  function CollectionRate(totalDue: int, totalPaid: int): (r: real)
    ensures totalDue == 0 ==> r == 0.0
    ensures totalDue != 0 ==> r * (totalDue as real) == (totalPaid as real) * 100.0
  {
    if totalDue != 0 then (totalPaid as real / totalDue as real) * 100.0 else 0.0
  }

  /**
   * A customer counted as new this month: `new Date(c.createdAt || new Date()).getMonth()
   * === currentMonth`, with `monthIndexOf` standing for the parse; a missing
   * or empty `createdAt` means now, which is in the current month.
   */
  function CreatedThisMonth(monthIndexOf: string -> int, currentMonth: int): Customers.Customer -> bool {
    (c: Customers.Customer) => !Truthy(c.createdAt) || monthIndexOf(c.createdAt.value) == currentMonth
  }

  /** A loan counted as disbursed this month; only the month is compared, never the year. */
  function DisbursedThisMonth(monthIndexOf: string -> int, currentMonth: int): Loans.Loan -> bool {
    (l: Loans.Loan) => monthIndexOf(l.loanDate) == currentMonth
  }

  /** The panel's figures. */
  datatype Stats = Stats(
    totalDue: int, totalPaid: int, unpaidDue: int, paidToday: int, collectionRate: real,
    newCustomers: nat, disbursedLoans: nat, totalArrears: int)

  /** The panel's figures as a function of the fetched lists and the clock. */
  function StatsOf(loans: seq<Loans.Loan>, payments: seq<Payments.Payment>, customers: seq<Customers.Customer>,
                   dayOf: string -> string, today: string, monthIndexOf: string -> int, currentMonth: int): (s: Stats)
    ensures s.newCustomers <= |customers| && s.disbursedLoans <= |loans|
    ensures s.totalDue == 0 ==> s.collectionRate == 0.0
    ensures (forall p :: p in payments && p.amount.Some? ==> p.amount.value >= 0) ==> 0 <= s.paidToday && 0 <= s.totalPaid
  {
    var totalDue := Dashboard.TotalLoans(loans);
    var totalPaid := Dashboard.TotalPayments(payments);
    var unpaidDue := totalDue - totalPaid;
    Stats(totalDue, totalPaid, unpaidDue, PaidToday(payments, dayOf, today), CollectionRate(totalDue, totalPaid),
          |Filter(customers, CreatedThisMonth(monthIndexOf, currentMonth))|,
          |Filter(loans, DisbursedThisMonth(monthIndexOf, currentMonth))|,
          unpaidDue)
  }

  /**
   * The unpaid amount and the arrears are both due minus paid; the monthly
   * counts are counts of sublists; customers with no creation date are all
   * counted as new.
   */
  lemma StatsSpec(loans: seq<Loans.Loan>, payments: seq<Payments.Payment>, customers: seq<Customers.Customer>,
                  dayOf: string -> string, today: string, monthIndexOf: string -> int, currentMonth: int)
    ensures var s := StatsOf(loans, payments, customers, dayOf, today, monthIndexOf, currentMonth);
      && s.unpaidDue == s.totalDue - s.totalPaid
      && s.totalArrears == s.unpaidDue
      && (s.totalDue == 0 ==> s.collectionRate == 0.0)
      && s.newCustomers <= |customers|
      && s.disbursedLoans <= |loans|
      && ((forall c :: c in customers ==> !Truthy(c.createdAt)) ==> s.newCustomers == |customers|)
      && (s.disbursedLoans == |loans| <==>
            forall l :: l in loans ==> monthIndexOf(l.loanDate) == currentMonth)
  {
    var created := CreatedThisMonth(monthIndexOf, currentMonth);
    if forall c :: c in customers ==> !Truthy(c.createdAt) {
      FilterKeepsAll(customers, created);
    }
    FilterLengthBound(loans, DisbursedThisMonth(monthIndexOf, currentMonth));
  }
}
