/**
 * The dashboard page (src/Pages/Dashboard.jsx): amount totals, per-month
 * grouping merged into chart rows, gender counts and the quick insights.
 */
module Dashboard {
  import opened Wrappers
  import opened Js
  import opened Text
  import Loans
  import Payments
  import Customers

  /** `amount || 0`: a missing amount counts as 0. */
  function AmountOrZero(amount: Option<int>): int {
    amount.GetOr(0)
  }

  /** A left-to-right sum, as `reduce((sum, x) => sum + x, 0)` computes it. */
  function Sum(xs: seq<int>): int {
    if xs == [] then 0 else Sum(xs[..|xs| - 1]) + xs[|xs| - 1]
  }

  /** A sum of non-negative terms is non-negative, and a sum of zeros is zero. */
  lemma {:induction false} SumSign(xs: seq<int>)
    ensures (forall i :: 0 <= i < |xs| ==> xs[i] >= 0) ==> Sum(xs) >= 0
    ensures (forall i :: 0 <= i < |xs| ==> xs[i] == 0) ==> Sum(xs) == 0
  {
    if xs != [] {
      SumSign(xs[..|xs| - 1]);
    }
  }

  lemma {:induction false} SumConcat(a: seq<int>, b: seq<int>)
    ensures Sum(a + b) == Sum(a) + Sum(b)
    decreases |b|
  {
    if b == [] {
      assert a + b == a;
    } else {
      var b' := b[..|b| - 1];
      assert (a + b)[..|a + b| - 1] == a + b';
      SumConcat(a, b');
    }
  }

  function LoanAmounts(loans: seq<Loans.Loan>): seq<int> {
    seq(|loans|, i requires 0 <= i < |loans| => AmountOrZero(loans[i].amount))
  }

  function PaymentAmounts(payments: seq<Payments.Payment>): seq<int> {
    seq(|payments|, i requires 0 <= i < |payments| => AmountOrZero(payments[i].amount))
  }

  /** `totalLoans`. */
  function TotalLoans(loans: seq<Loans.Loan>): (r: int)
    ensures (forall l :: l in loans && l.amount.Some? ==> l.amount.value >= 0) ==> r >= 0
    ensures (forall l :: l in loans ==> l.amount.None?) ==> r == 0
  {
    assert forall i :: 0 <= i < |loans| ==> loans[i] in loans;
    SumSign(LoanAmounts(loans));
    Sum(LoanAmounts(loans))
  }

  /** `totalPayments`. */
  function TotalPayments(payments: seq<Payments.Payment>): (r: int)
    ensures (forall p :: p in payments && p.amount.Some? ==> p.amount.value >= 0) ==> r >= 0
    ensures (forall p :: p in payments ==> p.amount.None?) ==> r == 0
  {
    assert forall i :: 0 <= i < |payments| ==> payments[i] in payments;
    SumSign(PaymentAmounts(payments));
    Sum(PaymentAmounts(payments))
  }

  /**
   * The total over a list of loans is the total over its parts, and one loan
   * adds its amount, or nothing when the amount is missing.
   */
  lemma TotalLoansConcat(a: seq<Loans.Loan>, b: seq<Loans.Loan>, l: Loans.Loan)
    ensures TotalLoans(a + b) == TotalLoans(a) + TotalLoans(b)
    ensures TotalLoans(a + [l]) == TotalLoans(a) + (if l.amount.Some? then l.amount.value else 0)
  {
    assert LoanAmounts(a + b) == LoanAmounts(a) + LoanAmounts(b);
    SumConcat(LoanAmounts(a), LoanAmounts(b));
    assert LoanAmounts(a + [l]) == LoanAmounts(a) + [AmountOrZero(l.amount)];
    SumConcat(LoanAmounts(a), [AmountOrZero(l.amount)]);
  }

  /** The same for payments. */
  lemma TotalPaymentsConcat(a: seq<Payments.Payment>, b: seq<Payments.Payment>, p: Payments.Payment)
    ensures TotalPayments(a + b) == TotalPayments(a) + TotalPayments(b)
    ensures TotalPayments(a + [p]) == TotalPayments(a) + (if p.amount.Some? then p.amount.value else 0)
  {
    assert PaymentAmounts(a + b) == PaymentAmounts(a) + PaymentAmounts(b);
    SumConcat(PaymentAmounts(a), PaymentAmounts(b));
    assert PaymentAmounts(a + [p]) == PaymentAmounts(a) + [AmountOrZero(p.amount)];
    SumConcat(PaymentAmounts(a), [AmountOrZero(p.amount)]);
  }

  /** One record's contribution to a month: its month key and its amount. */
  datatype Entry = Entry(month: string, amount: int)

  function Amounts(es: seq<Entry>): seq<int> {
    seq(|es|, i requires 0 <= i < |es| => es[i].amount)
  }

  /**
   * The loans as entries; `monthOf` stands for
   * `new Date(date).toLocaleString("default", { month: "short" })`.
   */
  function LoanEntries(loans: seq<Loans.Loan>, monthOf: string -> string): (r: seq<Entry>)
    ensures Amounts(r) == LoanAmounts(loans)
  {
    seq(|loans|, i requires 0 <= i < |loans| => Entry(monthOf(loans[i].loanDate), AmountOrZero(loans[i].amount)))
  }

  function PaymentEntries(payments: seq<Payments.Payment>, monthOf: string -> string): (r: seq<Entry>)
    ensures Amounts(r) == PaymentAmounts(payments)
  {
    seq(|payments|, i requires 0 <= i < |payments| =>
      Entry(monthOf(payments[i].paymentDate), AmountOrZero(payments[i].amount)))
  }

  /** The reference for one month: the sum of the amounts of the entries in that month. */
  function MonthTotal(es: seq<Entry>, m: string): int {
    if es == [] then 0
    else MonthTotal(es[..|es| - 1], m) + (if es[|es| - 1].month == m then es[|es| - 1].amount else 0)
  }

  /**
   * A JavaScript object used as a dictionary: its keys in insertion order
   * (month names are not integer-like, so insertion order is the key order)
   * and its entries.
   */
  datatype Grouping = Grouping(keys: seq<string>, totals: map<string, int>)

  /** `obj[m] || 0`. */
  function Lookup(t: map<string, int>, m: string): int {
    if m in t then t[m] else 0
  }

  /** One step of the `forEach`: `obj[month] = (obj[month] || 0) + amount`. */
  function AddEntry(g: Grouping, e: Entry): (r: Grouping)
    ensures Lookup(r.totals, e.month) == Lookup(g.totals, e.month) + e.amount
    ensures forall m :: m != e.month ==> Lookup(r.totals, m) == Lookup(g.totals, m)
    ensures g.keys <= r.keys && e.month in r.totals
  {
    Grouping(if e.month in g.totals then g.keys else g.keys + [e.month],
             g.totals[e.month := Lookup(g.totals, e.month) + e.amount])
  }

  /** The dictionary the `forEach` leaves behind. */
  function Group(es: seq<Entry>): (r: Grouping)
    ensures forall m :: Lookup(r.totals, m) == MonthTotal(es, m)
    ensures |r.keys| <= |es|
  {
    if es == [] then Grouping([], map[]) else AddEntry(Group(es[..|es| - 1]), es[|es| - 1])
  }

  /** The `forEach` loop that builds `monthlyLoans` or `monthlyPayments`. */
  method GroupByMonth(es: seq<Entry>) returns (g: Grouping)
    ensures g == Group(es)
  {
    g := Grouping([], map[]);
    var i := 0;
    while i < |es|
      invariant 0 <= i <= |es|
      invariant g == Group(es[..i])
    {
      var e := es[i];
      assert es[..i + 1][..i] == es[..i];
      if e.month in g.totals {
        g := Grouping(g.keys, g.totals[e.month := g.totals[e.month] + e.amount]);
      } else {
        g := Grouping(g.keys + [e.month], g.totals[e.month := e.amount]);
      }
      i := i + 1;
    }
    assert es[..i] == es;
  }

  /** Some entry falls in month `m`. */
  predicate EntryInMonth(es: seq<Entry>, m: string) {
    exists e :: e in es && e.month == m
  }

  predicate Distinct<T(==)>(s: seq<T>) {
    forall i, j :: 0 <= i < j < |s| ==> s[i] != s[j]
  }

  /**
   * The dictionary's keys are distinct, are exactly its entries' keys, and
   * are exactly the months that occur; each month's total is the sum of
   * that month's amounts.
   */
  lemma {:induction false} GroupSpec(es: seq<Entry>)
    ensures var g := Group(es);
      && Distinct(g.keys)
      && (forall m :: m in g.keys <==> m in g.totals)
      && (forall m :: m in g.totals <==> EntryInMonth(es, m))
      && (forall m :: m in g.totals ==> g.totals[m] == MonthTotal(es, m))
  {
    if es != [] {
      var es' := es[..|es| - 1];
      var e := es[|es| - 1];
      GroupSpec(es');
      assert es == es' + [e];
      MonthTotalAbsent(es', e.month);
      forall m
        ensures (m in Group(es).totals) <==> EntryInMonth(es, m)
      {
        if m in Group(es).totals && m != e.month {
          var x :| x in es' && x.month == m;
          assert x in es;
        }
        if exists x :: x in es && x.month == m {
          var x :| x in es && x.month == m;
          assert x in es' || x == e;
        }
      }
    }
  }

  /** `Σ obj[k] || 0` over a list of keys. */
  function Lookups(keys: seq<string>, t: map<string, int>): seq<int> {
    seq(|keys|, i requires 0 <= i < |keys| => Lookup(t, keys[i]))
  }

  function SumLookup(keys: seq<string>, t: map<string, int>): int {
    Sum(Lookups(keys, t))
  }

  lemma SumLookupConcat(a: seq<string>, b: seq<string>, t: map<string, int>)
    ensures SumLookup(a + b, t) == SumLookup(a, t) + SumLookup(b, t)
  {
    assert Lookups(a + b, t) == Lookups(a, t) + Lookups(b, t);
    SumConcat(Lookups(a, t), Lookups(b, t));
  }

  /** Adding into one key that is listed once raises the sum by that amount. */
  lemma {:induction false} SumLookupUpdate(keys: seq<string>, t: map<string, int>, m: string, v: int)
    requires Distinct(keys)
    ensures SumLookup(keys, t[m := v]) == SumLookup(keys, t) + (if m in keys then v - Lookup(t, m) else 0)
    decreases |keys|
  {
    if keys != [] {
      var keys' := keys[..|keys| - 1];
      var k := keys[|keys| - 1];
      assert keys == keys' + [k];
      SumLookupUpdate(keys', t, m, v);
      SumLookupConcat(keys', [k], t);
      SumLookupConcat(keys', [k], t[m := v]);
      assert m in keys <==> m in keys' || m == k;
      assert m == k ==> m !in keys';
    }
  }

  /**
   * The per-month totals add up to the sum of all amounts, so nothing is
   * lost or counted twice by the grouping.
   */
  lemma {:induction false} GroupConserves(es: seq<Entry>)
    ensures SumLookup(Group(es).keys, Group(es).totals) == Sum(Amounts(es))
  {
    if es != [] {
      var es' := es[..|es| - 1];
      var e := es[|es| - 1];
      GroupConserves(es');
      AddEntryConserves(Group(es'), e, es');
      assert Amounts(es) == Amounts(es') + [e.amount];
      SumConcat(Amounts(es'), [e.amount]);
    }
  }

  /** One `forEach` step raises the sum over the keys by the entry's amount. */
  lemma AddEntryConserves(g: Grouping, e: Entry, es: seq<Entry>)
    requires g == Group(es)
    ensures SumLookup(AddEntry(g, e).keys, AddEntry(g, e).totals) == SumLookup(g.keys, g.totals) + e.amount
  {
    GroupSpec(es);
    var v := Lookup(g.totals, e.month) + e.amount;
    SumLookupUpdate(g.keys, g.totals, e.month, v);
    if e.month in g.totals {
      assert AddEntry(g, e) == Grouping(g.keys, g.totals[e.month := v]);
    } else {
      NewKeyConserves(g.keys, g.totals, e.month, v);
    }
  }

  /** A key not yet listed, appended with value `v`, adds `v` to the sum. */
  lemma NewKeyConserves(keys: seq<string>, t: map<string, int>, m: string, v: int)
    requires m !in keys && m !in t
    requires SumLookup(keys, t[m := v]) == SumLookup(keys, t)
    ensures SumLookup(keys + [m], t[m := v]) == SumLookup(keys, t) + v
  {
    SumLookupConcat(keys, [m], t[m := v]);
    SumLookupOne(m, t[m := v]);
  }

  lemma SumLookupOne(k: string, t: map<string, int>)
    ensures SumLookup([k], t) == Lookup(t, k)
  {
    var l := Lookups([k], t);
    assert l == [Lookup(t, k)];
    assert l[..|l| - 1] == [];
    assert Sum(l) == Sum([]) + Lookup(t, k);
  }

  /** The sum of a key list's lookups does not depend on the keys' order, nor on keys absent from the map. */
  lemma {:induction false} SumLookupSameKeys(xs: seq<string>, ys: seq<string>, t: map<string, int>)
    requires Distinct(xs) && Distinct(ys)
    requires forall m :: m in t ==> (m in xs <==> m in ys)
    ensures SumLookup(xs, t) == SumLookup(ys, t)
    decreases |xs| + |ys|, if xs == [] then 1 else 0
  {
    if xs == [] && ys == [] {
    } else if xs != [] {
      var xs' := xs[..|xs| - 1];
      var x := xs[|xs| - 1];
      assert xs == xs' + [x];
      SumLookupConcat(xs', [x], t);
      SumLookupOne(x, t);
      if x !in t {
        forall m | m in t
          ensures m in xs' <==> m in ys
        {
          assert m in xs <==> m in xs' || m == x;
        }
        SumLookupSameKeys(xs', ys, t);
      } else {
        var j :| 0 <= j < |ys| && ys[j] == x;
        var ys' := ys[..j] + ys[j + 1..];
        assert ys == ys[..j] + [x] + ys[j + 1..];
        SumLookupConcat(ys[..j] + [x], ys[j + 1..], t);
        SumLookupConcat(ys[..j], [x], t);
        SumLookupConcat(ys[..j], ys[j + 1..], t);
        forall m | m in t
          ensures m in xs' <==> m in ys'
        {
          assert m in xs <==> m in xs' || m == x;
          assert m in ys <==> m in ys' || m == x;
        }
        SumLookupSameKeys(xs', ys', t);
      }
    } else {
      SumLookupSameKeys(ys, xs, t);
    }
  }

  /** `[...new Set(s)]`: the first occurrence of each element, in order. */
  function Dedupe(s: seq<string>): (r: seq<string>)
    ensures |r| <= |s|
    ensures forall x :: x in r <==> x in s
  {
    if s == [] then []
    else
      var d := Dedupe(s[..|s| - 1]);
      if s[|s| - 1] in d then d else d + [s[|s| - 1]]
  }

  /** The position of the first occurrence of `x` in `s`. */
  function FirstIndex(s: seq<string>, x: string): (i: nat)
    requires x in s
    ensures i < |s| && s[i] == x && x !in s[..i]
  {
    if s[0] == x then 0
    else
      var j := FirstIndex(s[1..], x);
      assert s[..j + 1] == [s[0]] + s[1..][..j];
      j + 1
  }

  /** A position holding `x` with no `x` before it is the first occurrence. */
  lemma FirstIndexUnique(s: seq<string>, x: string, i: nat)
    requires i < |s| && s[i] == x && x !in s[..i]
    ensures FirstIndex(s, x) == i
  {
  }

  /** Appending leaves the first occurrence of an element already present. */
  lemma FirstIndexAppend(s: seq<string>, a: string, x: string)
    requires x in s
    ensures FirstIndex(s + [a], x) == FirstIndex(s, x)
  {
    var i := FirstIndex(s, x);
    assert (s + [a])[..i] == s[..i];
    FirstIndexUnique(s + [a], x, i);
  }

  /**
   * `new Set` keeps each element exactly once, at its first occurrence, and
   * the spread lists them in that order.
   */
  lemma {:induction false} DedupeSpec(s: seq<string>)
    ensures Distinct(Dedupe(s))
    ensures forall x :: x in Dedupe(s) <==> x in s
    ensures forall i, j :: 0 <= i < j < |Dedupe(s)| ==>
      FirstIndex(s, Dedupe(s)[i]) < FirstIndex(s, Dedupe(s)[j])
  {
    if s != [] {
      var s', a := s[..|s| - 1], s[|s| - 1];
      DedupeSpec(s');
      assert s == s' + [a];
      var d', d := Dedupe(s'), Dedupe(s);
      forall i | 0 <= i < |d'|
        ensures FirstIndex(s, d'[i]) == FirstIndex(s', d'[i])
      {
        assert d'[i] in d';
        FirstIndexAppend(s', a, d'[i]);
      }
      if a !in d' {
        assert d == d' + [a];
        assert a !in s'[..|s'|];
        FirstIndexUnique(s, a, |s'|);
        forall i, j | 0 <= i < j < |d|
          ensures FirstIndex(s, d[i]) < FirstIndex(s, d[j])
        {
          assert d[i] == d'[i];
          if j < |d'| {
            assert d[j] == d'[j];
          }
        }
      }
    }
  }

  /** One point of the charts. */
  datatype ChartRow = ChartRow(month: string, loans: int, payments: int)

  /** `months.map(m => ({ month: m, Loans: monthlyLoans[m] || 0, Payments: monthlyPayments[m] || 0 }))`. */
  function ChartData(months: seq<string>, loanTotals: map<string, int>, paymentTotals: map<string, int>): (r: seq<ChartRow>)
    ensures |r| == |months|
    ensures forall i :: 0 <= i < |r| ==> r[i].month == months[i]
  {
    seq(|months|, i requires 0 <= i < |months| =>
      ChartRow(months[i], Lookup(loanTotals, months[i]), Lookup(paymentTotals, months[i])))
  }

  function LoansColumn(rows: seq<ChartRow>): seq<int> {
    seq(|rows|, i requires 0 <= i < |rows| => rows[i].loans)
  }

  function PaymentsColumn(rows: seq<ChartRow>): seq<int> {
    seq(|rows|, i requires 0 <= i < |rows| => rows[i].payments)
  }

  /** The three gender buckets. */
  datatype Gender = Male | Female | Unknown

  /** `c.gender?.toLowerCase() === "male"`, then `"female"`, else unknown. */
  function Classify(gender: Option<string>): Gender {
    if gender.Some? && Lower(gender.value) == "male" then Male
    else if gender.Some? && Lower(gender.value) == "female" then Female
    else Unknown
  }

  /** Case does not matter to the classification. */
  lemma ClassifyIgnoresCase(s: string)
    ensures Classify(Some(s)) == Classify(Some(Lower(s)))
  {
    LowerIdempotent(s);
  }

  datatype GenderCounts = GenderCounts(male: nat, female: nat, unknown: nat)

  function Tally(acc: GenderCounts, c: Customers.Customer): GenderCounts {
    match Classify(c.gender)
    case Male => acc.(male := acc.male + 1)
    case Female => acc.(female := acc.female + 1)
    case Unknown => acc.(unknown := acc.unknown + 1)
  }

  /** `genderCounts`, the `reduce` from `{ male: 0, female: 0, unknown: 0 }`. */
  function CountGenders(cs: seq<Customers.Customer>): (r: GenderCounts)
    ensures r.male + r.female + r.unknown == |cs|
  {
    if cs == [] then GenderCounts(0, 0, 0) else Tally(CountGenders(cs[..|cs| - 1]), cs[|cs| - 1])
  }

  /** The `reduce` that mutates its accumulator, as a loop. */
  method TallyGenders(cs: seq<Customers.Customer>) returns (acc: GenderCounts)
    ensures acc == CountGenders(cs)
  {
    acc := GenderCounts(0, 0, 0);
    for i := 0 to |cs|
      invariant acc == CountGenders(cs[..i])
    {
      assert cs[..i + 1][..i] == cs[..i];
      var g := Classify(cs[i].gender);
      if g == Male {
        acc := acc.(male := acc.male + 1);
      } else if g == Female {
        acc := acc.(female := acc.female + 1);
      } else {
        acc := acc.(unknown := acc.unknown + 1);
      }
    }
    assert cs[..|cs|] == cs;
  }

  function Classes(cs: seq<Customers.Customer>): seq<Gender> {
    seq(|cs|, i requires 0 <= i < |cs| => Classify(cs[i].gender))
  }

  /**
   * Each count is the number of customers in that bucket, so the three
   * counts partition the customer list.
   */
  lemma {:induction false} CountGendersSpec(cs: seq<Customers.Customer>)
    ensures var r := CountGenders(cs);
      && r.male == multiset(Classes(cs))[Male]
      && r.female == multiset(Classes(cs))[Female]
      && r.unknown == multiset(Classes(cs))[Unknown]
      && r.male + r.female + r.unknown == |cs|
  {
    if cs != [] {
      var cs' := cs[..|cs| - 1];
      var g := Classify(cs[|cs| - 1].gender);
      CountGendersSpec(cs');
      assert Classes(cs) == Classes(cs') + [g];
      assert multiset(Classes(cs)) == multiset(Classes(cs')) + multiset{g};
    }
  }

  const ExcellentInsight := "💰 Excellent repayment performance this period."
  const SteadyInsight := "📈 Steady collections — continue follow-ups."
  const NoPaymentsInsight := "⚠️ No recent payments — check overdue clients."
  const LowRiskInsight := "✅ Low portfolio risk. Healthy balance sheet."
  const RisingRiskInsight := "🔔 Risk level rising — monitor delinquent loans."
  const CustomersInsightPrefix := "👥 Active Customers: "

  /**
   * `getInsights`: a repayment line, a risk line and the customer count.
   * `lowRisk` stands for the floating-point test `risk < 20`.
   */
  function Insights(totalLoans: int, totalPayments: int, lowRisk: bool, totalCustomers: nat): (r: seq<string>)
    ensures |r| == 3
    ensures r[0] == ExcellentInsight <==> (totalPayments as real) > (totalLoans as real) * 0.8
    ensures r[0] == SteadyInsight <==> (totalPayments as real) <= (totalLoans as real) * 0.8 && totalPayments > 0
    ensures r[0] == NoPaymentsInsight <==> (totalPayments as real) <= (totalLoans as real) * 0.8 && totalPayments <= 0
    ensures r[1] == (if lowRisk then LowRiskInsight else RisingRiskInsight)
    ensures r[2] == CustomersInsightPrefix + NatToText(totalCustomers)
  {
    var repayment :=
      if 5 * totalPayments > 4 * totalLoans then ExcellentInsight
      else if totalPayments > 0 then SteadyInsight
      else NoPaymentsInsight;
    [repayment, if lowRisk then LowRiskInsight else RisingRiskInsight, CustomersInsightPrefix + NatToText(totalCustomers)]
  }

  /** Everything the dashboard shows, computed from the fetched lists. */
  datatype View = View(
    totalLoans: int, totalPayments: int, outstanding: int, totalCustomers: nat,
    chartData: seq<ChartRow>, genderCounts: GenderCounts, insights: seq<string>)

  /** `monthlyLoans`. */
  function MonthlyLoans(loans: seq<Loans.Loan>, monthOf: string -> string): Grouping {
    Group(LoanEntries(loans, monthOf))
  }

  /** `monthlyPayments`. */
  function MonthlyPayments(payments: seq<Payments.Payment>, monthOf: string -> string): Grouping {
    Group(PaymentEntries(payments, monthOf))
  }

  /** `months`: the loan months, then the payment months not already listed. */
  function Months(loans: seq<Loans.Loan>, payments: seq<Payments.Payment>, monthOf: string -> string): seq<string> {
    Dedupe(MonthlyLoans(loans, monthOf).keys + MonthlyPayments(payments, monthOf).keys)
  }

  /** `chartData`. */
  function Chart(loans: seq<Loans.Loan>, payments: seq<Payments.Payment>, monthOf: string -> string): (r: seq<ChartRow>)
    ensures |r| == |Months(loans, payments, monthOf)|
    ensures forall i :: 0 <= i < |r| ==>
      && r[i].loans == MonthTotal(LoanEntries(loans, monthOf), r[i].month)
      && r[i].payments == MonthTotal(PaymentEntries(payments, monthOf), r[i].month)
  {
    ChartData(Months(loans, payments, monthOf), MonthlyLoans(loans, monthOf).totals,
              MonthlyPayments(payments, monthOf).totals)
  }

  /** The view as a function of the fetched lists. */
  function ViewOf(loans: seq<Loans.Loan>, payments: seq<Payments.Payment>, customers: seq<Customers.Customer>,
                  monthOf: string -> string, lowRisk: bool): (v: View)
    ensures v.genderCounts.male + v.genderCounts.female + v.genderCounts.unknown == v.totalCustomers
    ensures forall i :: 0 <= i < |v.chartData| ==>
      v.chartData[i].loans == MonthTotal(LoanEntries(loans, monthOf), v.chartData[i].month)
    ensures |v.insights| == 3
  {
    var totalLoans := TotalLoans(loans);
    var totalPayments := TotalPayments(payments);
    View(totalLoans, totalPayments, totalLoans - totalPayments, |customers|,
         Chart(loans, payments, monthOf),
         CountGenders(customers),
         Insights(totalLoans, totalPayments, lowRisk, |customers|))
  }

  /** The component body: the sums, the two `forEach` loops, the merge and the gender `reduce`. */
  method Render(loans: seq<Loans.Loan>, payments: seq<Payments.Payment>, customers: seq<Customers.Customer>,
                monthOf: string -> string, lowRisk: bool) returns (v: View)
    ensures v == ViewOf(loans, payments, customers, monthOf, lowRisk)
  {
    var totalLoans := TotalLoans(loans);
    var totalPayments := TotalPayments(payments);
    var monthlyLoans := GroupByMonth(LoanEntries(loans, monthOf));
    var monthlyPayments := GroupByMonth(PaymentEntries(payments, monthOf));
    var months := Dedupe(monthlyLoans.keys + monthlyPayments.keys);
    var genderCounts := TallyGenders(customers);
    v := View(totalLoans, totalPayments, totalLoans - totalPayments, |customers|,
              ChartData(months, monthlyLoans.totals, monthlyPayments.totals),
              genderCounts,
              Insights(totalLoans, totalPayments, lowRisk, |customers|));
  }

  /** Some loan's date falls in month `m`. */
  predicate LoanInMonth(loans: seq<Loans.Loan>, monthOf: string -> string, m: string) {
    exists l :: l in loans && monthOf(l.loanDate) == m
  }

  /** Some payment's date falls in month `m`. */
  predicate PaymentInMonth(payments: seq<Payments.Payment>, monthOf: string -> string, m: string) {
    exists p :: p in payments && monthOf(p.paymentDate) == m
  }

  lemma LoanEntriesInMonth(loans: seq<Loans.Loan>, monthOf: string -> string, m: string)
    ensures EntryInMonth(LoanEntries(loans, monthOf), m) <==> LoanInMonth(loans, monthOf, m)
  {
    var le := LoanEntries(loans, monthOf);
    if EntryInMonth(le, m) {
      var e :| e in le && e.month == m;
      var i :| 0 <= i < |le| && le[i] == e;
      assert loans[i] in loans;
    }
    if LoanInMonth(loans, monthOf, m) {
      var l :| l in loans && monthOf(l.loanDate) == m;
      var i :| 0 <= i < |loans| && loans[i] == l;
      assert le[i] in le;
    }
  }

  lemma PaymentEntriesInMonth(payments: seq<Payments.Payment>, monthOf: string -> string, m: string)
    ensures EntryInMonth(PaymentEntries(payments, monthOf), m) <==> PaymentInMonth(payments, monthOf, m)
  {
    var pe := PaymentEntries(payments, monthOf);
    if EntryInMonth(pe, m) {
      var e :| e in pe && e.month == m;
      var i :| 0 <= i < |pe| && pe[i] == e;
      assert payments[i] in payments;
    }
    if PaymentInMonth(payments, monthOf, m) {
      var p :| p in payments && monthOf(p.paymentDate) == m;
      var i :| 0 <= i < |payments| && payments[i] == p;
      assert pe[i] in pe;
    }
  }

  /** The chart has one row per month in which some loan or payment falls, each month once. */
  lemma ChartMonthsSpec(loans: seq<Loans.Loan>, payments: seq<Payments.Payment>, monthOf: string -> string)
    ensures var rows := Chart(loans, payments, monthOf);
      && Distinct(ChartMonths(rows))
      && (forall m :: m in ChartMonths(rows) <==> LoanInMonth(loans, monthOf, m) || PaymentInMonth(payments, monthOf, m))
  {
    var gl := MonthlyLoans(loans, monthOf);
    var gp := MonthlyPayments(payments, monthOf);
    GroupSpec(LoanEntries(loans, monthOf));
    GroupSpec(PaymentEntries(payments, monthOf));
    DedupeSpec(gl.keys + gp.keys);
    assert ChartMonths(Chart(loans, payments, monthOf)) == Months(loans, payments, monthOf);
    forall m
      ensures m in Months(loans, payments, monthOf) <==> LoanInMonth(loans, monthOf, m) || PaymentInMonth(payments, monthOf, m)
    {
      LoanEntriesInMonth(loans, monthOf, m);
      PaymentEntriesInMonth(payments, monthOf, m);
    }
  }

  /** Each row holds that month's loan and payment totals, 0 for a side with nothing in that month. */
  lemma ChartRowsSpec(loans: seq<Loans.Loan>, payments: seq<Payments.Payment>, monthOf: string -> string)
    ensures var rows := Chart(loans, payments, monthOf);
      forall i :: 0 <= i < |rows| ==>
        && rows[i].loans == MonthTotal(LoanEntries(loans, monthOf), rows[i].month)
        && rows[i].payments == MonthTotal(PaymentEntries(payments, monthOf), rows[i].month)
  {
    var le := LoanEntries(loans, monthOf);
    var pe := PaymentEntries(payments, monthOf);
    var rows := Chart(loans, payments, monthOf);
    GroupSpec(le);
    GroupSpec(pe);
    forall i | 0 <= i < |rows|
      ensures rows[i].loans == MonthTotal(le, rows[i].month)
      ensures rows[i].payments == MonthTotal(pe, rows[i].month)
    {
      MonthTotalAbsent(le, rows[i].month);
      MonthTotalAbsent(pe, rows[i].month);
    }
  }

  /** The chart's two columns add up to the two grand totals. */
  lemma ChartColumnsSum(loans: seq<Loans.Loan>, payments: seq<Payments.Payment>, monthOf: string -> string)
    ensures Sum(LoansColumn(Chart(loans, payments, monthOf))) == TotalLoans(loans)
    ensures Sum(PaymentsColumn(Chart(loans, payments, monthOf))) == TotalPayments(payments)
  {
    var le := LoanEntries(loans, monthOf);
    var pe := PaymentEntries(payments, monthOf);
    var gl := Group(le);
    var gp := Group(pe);
    var months := Months(loans, payments, monthOf);
    var rows := Chart(loans, payments, monthOf);
    GroupSpec(le);
    GroupSpec(pe);
    DedupeSpec(gl.keys + gp.keys);
    assert LoansColumn(rows) == Lookups(months, gl.totals);
    assert PaymentsColumn(rows) == Lookups(months, gp.totals);
    SumLookupSameKeys(months, gl.keys, gl.totals);
    SumLookupSameKeys(months, gp.keys, gp.totals);
    GroupConserves(le);
    GroupConserves(pe);
  }

  function ChartMonths(rows: seq<ChartRow>): seq<string> {
    seq(|rows|, i requires 0 <= i < |rows| => rows[i].month)
  }

  /** A month in which no entry falls totals 0. */
  lemma {:induction false} MonthTotalAbsent(es: seq<Entry>, m: string)
    ensures (forall e :: e in es ==> e.month != m) ==> MonthTotal(es, m) == 0
  {
    if es != [] {
      MonthTotalAbsent(es[..|es| - 1], m);
      assert forall e :: e in es[..|es| - 1] ==> e in es;
    }
  }

  /**
   * `outstanding` is loans minus payments, `totalCustomers` is the customer
   * count, the gender counts partition the customers and there are always
   * three insights.
   */
  lemma ViewSpec(loans: seq<Loans.Loan>, payments: seq<Payments.Payment>, customers: seq<Customers.Customer>,
                 monthOf: string -> string, lowRisk: bool)
    ensures var v := ViewOf(loans, payments, customers, monthOf, lowRisk);
      && v.outstanding == v.totalLoans - v.totalPayments
      && v.totalCustomers == |customers|
      && v.genderCounts.male + v.genderCounts.female + v.genderCounts.unknown == |customers|
      && |v.insights| == 3
      && v.insights[2] == CustomersInsightPrefix + NatToText(|customers|)
  {
    CountGendersSpec(customers);
  }
}
