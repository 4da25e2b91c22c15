/**
 * The payment page (src/pages/Payment.tsx): the instalment schedule, its three summary
 * sums, the rounded collection progress and the phases that offer "record payment".
 * The schedule is never updated by the page, so everything here is a function of it.
 */
module Payments {
  import opened Wrappers
  import opened Types
  import Seqs
  import Ratios

  /** The page's own record of one instalment. */
  datatype PaymentPhase = PaymentPhase(
    id: string, phase: int, amount: int, dueDate: string,
    paidDate: Option<string>, status: PaymentStatus, slipUrl: Option<string>)

  function AmountOf(p: PaymentPhase): int {
    p.amount
  }

  predicate IsPaid(p: PaymentPhase) {
    p.status == Paid
  }

  predicate IsUnpaid(p: PaymentPhase) {
    p.status != Paid
  }

  /** `totalAmount`: the sum of every phase's amount. */
  function TotalAmount(ps: seq<PaymentPhase>): int {
    Seqs.SumOf(AmountOf, ps)
  }

  /** `paidAmount`: the sum over the phases whose status is `paid`. */
  function PaidAmount(ps: seq<PaymentPhase>): int {
    Seqs.SumOf(AmountOf, Seqs.Filter(IsPaid, ps))
  }

  /** `pendingAmount = totalAmount - paidAmount`. */
  function PendingAmount(ps: seq<PaymentPhase>): int {
    TotalAmount(ps) - PaidAmount(ps)
  }

  /** The outstanding amount is exactly what the `pending` and `overdue` phases add up to. */
  lemma PendingIsSumOfUnpaid(ps: seq<PaymentPhase>)
    ensures PendingAmount(ps) == Seqs.SumOf(AmountOf, Seqs.Filter(IsUnpaid, ps))
    ensures PaidAmount(ps) + PendingAmount(ps) == TotalAmount(ps)
  {
    Seqs.SumOfPartition(AmountOf, IsPaid, IsUnpaid, ps);
  }

  /** A phase that is not `paid` adds nothing to the paid sum, whatever its amount. */
  lemma UnpaidPhaseAddsNothingToPaid(ps: seq<PaymentPhase>, p: PaymentPhase)
    requires p.status != Paid
    ensures PaidAmount(ps + [p]) == PaidAmount(ps)
    ensures TotalAmount(ps + [p]) == TotalAmount(ps) + p.amount
  {
    Seqs.FilterConcat(IsPaid, ps, [p]);
    Seqs.FilterKeepsNone(IsPaid, [p]);
    assert Seqs.Filter(IsPaid, ps + [p]) == Seqs.Filter(IsPaid, ps);
    Seqs.SumOfConcat(AmountOf, ps, [p]);
    assert [p][1..] == [];
  }

  predicate AmountsNonNegative(ps: seq<PaymentPhase>) {
    forall i :: 0 <= i < |ps| ==> ps[i].amount >= 0
  }

  /** With non-negative amounts, nothing is over-collected: 0 <= paid <= total. */
  lemma PaidWithinTotal(ps: seq<PaymentPhase>)
    requires AmountsNonNegative(ps)
    ensures 0 <= PaidAmount(ps) <= TotalAmount(ps)
    ensures 0 <= PendingAmount(ps)
  {
    PendingIsSumOfUnpaid(ps);
    var paid, unpaid := Seqs.Filter(IsPaid, ps), Seqs.Filter(IsUnpaid, ps);
    forall i | 0 <= i < |paid| ensures AmountOf(paid[i]) >= 0 {
      assert paid[i] in ps;
    }
    forall i | 0 <= i < |unpaid| ensures AmountOf(unpaid[i]) >= 0 {
      assert unpaid[i] in ps;
    }
    Seqs.SumOfNonNegative(AmountOf, paid);
    Seqs.SumOfNonNegative(AmountOf, unpaid);
  }

  /** `Math.round(x)`: the nearest integer, halves rounded up. */
  function Round(x: real): (r: int)
    ensures r as real - 0.5 <= x < r as real + 0.5
  {
    (x + 0.5).Floor
  }

  /**
   * The progress label `Math.round((paidAmount / totalAmount) * 100)`. A zero total gives no
   * number: `NaN` when nothing is paid either, and an infinity otherwise (possible only with
   * negative amounts). Both are `None` here.
   */
  function Progress(paid: int, total: int): (r: Option<int>)
    ensures r.Some? <==> total != 0
    ensures r.Some? ==>
      r.value as real - 0.5 <= paid as real / total as real * 100.0 < r.value as real + 0.5
  {
    if total == 0 then None else Some(Round(paid as real / total as real * 100.0))
  }

  /** With 0 <= paid <= total and a positive total, progress lies in 0..100. */
  lemma ProgressIsPercentage(paid: int, total: int)
    requires 0 <= paid <= total && total > 0
    ensures Progress(paid, total).Some?
    ensures 0 <= Progress(paid, total).value <= 100
  {
    Ratios.PartOverWhole(paid, total);
  }

  /** Fully paid shows 100, nothing paid shows 0. */
  lemma ProgressEnds(total: int)
    requires total != 0
    ensures Progress(total, total) == Some(100)
    ensures Progress(0, total) == Some(0)
  {
    assert total as real / total as real == 1.0;
    assert 0 as real / total as real == 0.0;
  }

  /** The "record payment" button is rendered for a phase exactly when it is `pending`. */
  predicate OffersRecordPayment(p: PaymentPhase) {
    p.status == PaymentPending
  }

  /** The phases showing the button, in schedule order. */
  function RecordablePhases(ps: seq<PaymentPhase>): (r: seq<PaymentPhase>)
    ensures forall i :: 0 <= i < |r| ==> r[i] in ps && r[i].status == PaymentPending
    ensures forall i :: 0 <= i < |ps| && ps[i].status == PaymentPending ==> ps[i] in r
  {
    Seqs.Filter(OffersRecordPayment, ps)
  }

  /** A paid or overdue phase never offers the button. */
  lemma NoRecordForPaidOrOverdue(ps: seq<PaymentPhase>, p: PaymentPhase)
    requires p.status == Paid || p.status == Overdue
    ensures p !in RecordablePhases(ps)
  {
  }

  /** The page's mock schedule: five pending phases. */
  function MockPayments(): seq<PaymentPhase> {
    [ PaymentPhase("1", 1, 30000, "2024-01-25", None, PaymentPending, None),
      PaymentPhase("2", 2, 40000, "2024-02-10", None, PaymentPending, None),
      PaymentPhase("3", 3, 40000, "2024-02-25", None, PaymentPending, None),
      PaymentPhase("4", 4, 30000, "2024-03-10", None, PaymentPending, None),
      PaymentPhase("5", 5, 10000, "2024-03-25", None, PaymentPending, None) ]
  }

  /** The mock schedule is numbered 1..5 in order, within the documented range. */
  lemma MockScheduleNumbering()
    ensures |MockPayments()| == 5
    ensures forall i :: 0 <= i < 5 ==>
      MockPayments()[i].phase == i + 1 && PhaseInDocumentedRange(MockPayments()[i].phase)
  {
  }

  /** The mock schedule sums to 150000; nothing is paid, so all of it is pending and progress is 0. */
  lemma MockScheduleSums()
    ensures TotalAmount(MockPayments()) == 150000
    ensures PaidAmount(MockPayments()) == 0
    ensures PendingAmount(MockPayments()) == 150000
    ensures Progress(PaidAmount(MockPayments()), TotalAmount(MockPayments())) == Some(0)
  {
    var ps := MockPayments();
    Seqs.FilterKeepsNone(IsPaid, ps);
    ProgressEnds(150000);
  }

  /** When every phase is pending, every phase offers the button, in schedule order. */
  lemma AllPendingAllRecordable(ps: seq<PaymentPhase>)
    requires forall i :: 0 <= i < |ps| ==> ps[i].status == PaymentPending
    ensures RecordablePhases(ps) == ps
  {
    Seqs.FilterKeepsAll(OffersRecordPayment, ps);
  }

  /** Every mock phase is pending, so every one offers the button. */
  lemma MockScheduleAllRecordable()
    ensures RecordablePhases(MockPayments()) == MockPayments()
  {
    AllPendingAllRecordable(MockPayments());
  }

  /**
   * A schedule like the mock one but with phase 1 (30000 of 150000) paid. The page itself
   * never changes its schedule; this only exercises the sums on a schedule with a paid phase.
   */
  function FirstPhasePaid(): seq<PaymentPhase> {
    [ PaymentPhase("1", 1, 30000, "2024-01-25", Some("2024-01-25"), Paid, None) ] + MockPayments()[1..]
  }

  /** 30000 of 150000 is shown as 20%. */
  lemma ProgressOfOneFifth()
    ensures Progress(30000, 150000) == Some(20)
  {
    assert 30000 as real / 150000 as real * 100.0 == 20.0;
  }

  /** With phase 1 paid, 30000 is collected, 120000 is pending and progress shows 20%. */
  lemma FirstPhasePaidSummary()
    ensures PaidAmount(FirstPhasePaid()) == 30000
    ensures PendingAmount(FirstPhasePaid()) == 120000
    ensures Progress(PaidAmount(FirstPhasePaid()), TotalAmount(FirstPhasePaid())) == Some(20)
  {
    var ps := FirstPhasePaid();
    var first, rest := [ps[0]], MockPayments()[1..];
    assert ps == first + rest;
    Seqs.FilterConcat(IsPaid, first, rest);
    Seqs.FilterKeepsNone(IsPaid, rest);
    Seqs.FilterKeepsAll(IsPaid, first);
    assert Seqs.Filter(IsPaid, ps) == first;
    Seqs.SumOfConcat(AmountOf, first, rest);
    assert first[1..] == [];
    assert Seqs.SumOf(AmountOf, first) == 30000;
    assert Seqs.SumOf(AmountOf, rest) == 120000;
    ProgressOfOneFifth();
  }
}
