/**
 * The worker's "Payslips" screen: the table of payslips and the detail view, with
 * earnings and deduction totals.  Amounts are whole pence.
 */
module Payslips {

  type Pence = int

  datatype Deduction = Deduction(kind: string, amount: Pence)

  datatype Payslip = Payslip(
    id: string,
    period: string,
    totalHours: int,
    basicPay: Pence,
    overtimePay: Pence,
    holidayPay: Pence,
    nationalInsurance: Pence,
    incomeTax: Pence,
    otherDeductions: seq<Deduction>,
    netPay: Pence,
    status: string)

  /** `otherDeductions.reduce((acc, curr) => acc + curr.amount, acc)`, folding from the left. */
  function ReduceAmounts(ds: seq<Deduction>, acc: Pence): Pence {
    if ds == [] then acc else ReduceAmounts(ds[1..], acc + ds[0].amount)
  }

  /** Reference: the plain sum of the amounts. */
  function SumAmounts(ds: seq<Deduction>): Pence {
    if ds == [] then 0 else ds[0].amount + SumAmounts(ds[1..])
  }

  /** The fold from any seed is the seed plus the sum; from 0 it is the sum. */
  lemma {:induction false} ReduceIsSum(ds: seq<Deduction>, acc: Pence)
    ensures ReduceAmounts(ds, acc) == acc + SumAmounts(ds)
  {
    if ds != [] {
      ReduceIsSum(ds[1..], acc + ds[0].amount);
    }
  }

  lemma {:induction false} SumAppend(a: seq<Deduction>, b: seq<Deduction>)
    ensures SumAmounts(a + b) == SumAmounts(a) + SumAmounts(b)
  {
    if a == [] {
      assert a + b == b;
    } else {
      assert (a + b)[1..] == a[1..] + b;
      SumAppend(a[1..], b);
    }
  }

  /** `totalEarnings` in `PayslipDetails`. */
  function DetailsEarnings(p: Payslip): (total: Pence)
    ensures p.basicPay >= 0 && p.overtimePay >= 0 && p.holidayPay >= 0 ==>
      total >= p.basicPay && total >= p.overtimePay && total >= p.holidayPay
  {
    p.basicPay + p.overtimePay + p.holidayPay
  }

  /** `totalDeductions` in `PayslipDetails`. */
  function DetailsDeductions(p: Payslip): (total: Pence)
    ensures total == p.nationalInsurance + p.incomeTax + SumAmounts(p.otherDeductions)
    ensures p.otherDeductions == [] ==> total == p.nationalInsurance + p.incomeTax
  {
    ReduceIsSum(p.otherDeductions, 0);
    p.nationalInsurance + p.incomeTax + ReduceAmounts(p.otherDeductions, 0)
  }

  /** `grossPay` in `PayslipTable`, written out separately from the detail view. */
  function TableGross(p: Payslip): (gross: Pence)
    ensures gross == DetailsEarnings(p)
  {
    p.basicPay + p.overtimePay + p.holidayPay
  }

  /** `totalDeductions` in `PayslipTable`. */
  function TableDeductions(p: Payslip): (total: Pence)
    ensures total == p.nationalInsurance + p.incomeTax + SumAmounts(p.otherDeductions)
  {
    ReduceIsSum(p.otherDeductions, 0);
    p.nationalInsurance + p.incomeTax + ReduceAmounts(p.otherDeductions, 0)
  }

  /** The table row and the detail view agree on both totals. */
  lemma TableAgreesWithDetails(p: Payslip)
    ensures TableGross(p) == DetailsEarnings(p)
    ensures TableDeductions(p) == DetailsDeductions(p)
  {
  }

  /** One more other deduction raises the total deductions by exactly its amount. */
  lemma ExtraDeduction(p: Payslip, d: Deduction)
    ensures DetailsDeductions(p.(otherDeductions := p.otherDeductions + [d])) == DetailsDeductions(p) + d.amount
  {
    SumAppend(p.otherDeductions, [d]);
    assert [d][1..] == [];
  }

  /** The Net Pay shown in both views: the stored field, never recomputed. */
  function ShownNetPay(p: Payslip): Pence {
    p.netPay
  }

  /** A payslip whose stored net pay disagrees with its totals still shows the stored figure. */
  lemma NetPayNotRecomputed(p: Payslip)
    requires p.basicPay == 100 && p.overtimePay == 0 && p.holidayPay == 0
    requires p.nationalInsurance == 0 && p.incomeTax == 0 && p.otherDeductions == [] && p.netPay == 7
    ensures ShownNetPay(p) == 7
    ensures DetailsEarnings(p) - DetailsDeductions(p) == 100
  {
  }

  const OtherDeductions: seq<Deduction> := [Deduction("Student Loan", 15000), Deduction("Pension", 10000)]

  const March: Payslip := Payslip("PS001", "March 2024", 160, 320000, 45000, 20000, 28000, 42000, OtherDeductions, 290000, "pending")
  const February: Payslip := Payslip("PS002", "February 2024", 152, 304000, 30000, 18000, 26000, 40000, OtherDeductions, 261000, "approved")

  /** `mockPayslips`. */
  const MockPayslips: map<string, seq<Payslip>> := map["pending" := [March], "approved" := [February]]

  /** The payslips as listed: pending ones first, then approved, each group in its order. */
  function TableRows(mock: map<string, seq<Payslip>>): (rows: seq<Payslip>)
    ensures "pending" in mock ==> |mock["pending"]| <= |rows| && rows[..|mock["pending"]|] == mock["pending"]
    ensures "pending" !in mock && "approved" !in mock ==> rows == []
    ensures forall x :: x in rows ==> exists k :: k in mock && x in mock[k]
  {
    (if "pending" in mock then mock["pending"] else []) + (if "approved" in mock then mock["approved"] else [])
  }

  /** The sample data is consistent: net pay is earnings minus deductions (3850 - 950 and 3520 - 910). */
  lemma MockPayslipsConsistent()
    ensures DetailsEarnings(March) == 385000 && DetailsDeductions(March) == 95000
    ensures ShownNetPay(March) == DetailsEarnings(March) - DetailsDeductions(March)
    ensures DetailsEarnings(February) == 352000 && DetailsDeductions(February) == 91000
    ensures ShownNetPay(February) == DetailsEarnings(February) - DetailsDeductions(February)
    ensures forall k, i :: k in MockPayslips && 0 <= i < |MockPayslips[k]| ==> MockPayslips[k][i].status == k
  {
    assert SumAmounts(OtherDeductions) == 25000 by {
      assert OtherDeductions[1..][1..] == [];
    }
  }

  /** Every pending payslip is listed before every approved one. */
  lemma PendingListedFirst(mock: map<string, seq<Payslip>>, i: int, j: int)
    requires "pending" in mock && "approved" in mock
    requires 0 <= i < |mock["pending"]| && 0 <= j < |mock["approved"]|
    ensures TableRows(mock)[i] == mock["pending"][i]
    ensures TableRows(mock)[|mock["pending"]| + j] == mock["approved"][j]
    ensures |TableRows(mock)| == |mock["pending"]| + |mock["approved"]|
  {
  }

  lemma MockTableOrder()
    ensures TableRows(MockPayslips) == [March, February]
  {
  }
}
