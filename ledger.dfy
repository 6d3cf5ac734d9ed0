/**
 * The billing ledger: bills, payments, advance payments, discounts and refunds, with the
 * bookkeeping their `save` overrides perform. Tables are sequences of rows; a row's
 * primary key is its position (rows are never deleted here).
 */
module Ledger {
  import opened Common
  import Codes

  datatype BillStatus = Pending | Paid | Partial | Overdue | Cancelled

  /** A row of the `bills` table. `dueDate` is only supplied by the scheduled billing job. */
  datatype Bill = Bill(
    number: string,
    subscription: nat,
    month: int,
    year: int,
    billingDate: Date,
    dueDate: Option<Date>,
    packagePrice: Cents,
    discount: Cents,
    otherCharges: Cents,
    total: Cents,
    paid: Cents,
    due: Cents,
    status: BillStatus,
    autoGenerated: bool,
    generatedBy: Option<nat>)

  datatype PaymentStatus = PaymentPending | Completed | Failed | Refunded

  /** A row of the `payments` table; `bill` is the bill's primary key. */
  datatype Payment = Payment(
    number: string,
    bill: nat,
    amount: Cents,
    status: PaymentStatus,
    receivedBy: Option<nat>)

  /** A row of the `advance_payments` table; `paymentDate` is a timestamp in seconds. */
  datatype AdvancePayment = AdvancePayment(
    number: string,
    subscription: nat,
    paymentDate: int,
    amount: Cents,
    used: Cents,
    remaining: Cents)

  datatype Discount = Discount(
    active: bool,
    startDate: Date,
    endDate: Option<Date>,
    maxUses: Option<int>,
    currentUses: int)

  datatype RefundStatus = RefundPending | Approved | Rejected | RefundCompleted

  /** A row of the `refunds` table. */
  datatype Refund = Refund(
    number: string,
    subscription: nat,
    amount: Cents,
    status: RefundStatus,
    approvedBy: Option<nat>,
    processedBy: Option<nat>,
    approvalNotes: Option<string>,
    rejectionReason: Option<string>,
    refundMethod: Option<string>,
    refundDate: Option<int>,
    transactionId: Option<string>)

  // ---------------------------------------------------------------- bill arithmetic

  /** What every saved bill satisfies: amounts derived from the price components and payments. */
  predicate Consistent(b: Bill)
  {
    && b.total == b.packagePrice + b.otherCharges - b.discount
    && b.due == b.total - b.paid
    && (b.paid >= b.total ==> b.status == Paid)
    && (0 < b.paid < b.total ==> b.status == Partial)
  }

  /** The arithmetic part of `Bill.save`: total, due amount and status are recomputed. */
  function Settle(b: Bill): Bill
  {
    var total := b.packagePrice + b.otherCharges - b.discount;
    b.(total := total,
       due := total - b.paid,
       status := if b.paid >= total then Paid else if b.paid > 0 then Partial else b.status)
  }

  /** After a save the bill is consistent, whatever it held before. */
  lemma SettleConsistent(b: Bill)
    ensures Consistent(Settle(b))
  {
  }

  /** Saving changes only the derived fields. */
  lemma SettleKeepsInputs(b: Bill)
    ensures var r := Settle(b);
      r.number == b.number && r.subscription == b.subscription && r.month == b.month
      && r.year == b.year && r.packagePrice == b.packagePrice && r.discount == b.discount
      && r.otherCharges == b.otherCharges && r.paid == b.paid && r.dueDate == b.dueDate
  {
  }

  /**
   * With nothing paid and something owed, save keeps the stored status: a pending,
   * overdue or cancelled bill stays so.
   */
  lemma SettleKeepsUnpaidStatus(b: Bill)
    requires b.paid <= 0 && b.paid < b.packagePrice + b.otherCharges - b.discount
    ensures Settle(b).status == b.status
  {
  }

  /**
   * Save re-derives `partial` from the amounts: a partly paid bill marked `overdue` and saved
   * is `partial` again.
   */
  lemma SettleRevertsOverdueOfPartial(b: Bill)
    requires 0 < b.paid < b.packagePrice + b.otherCharges - b.discount
    ensures Settle(b.(status := Overdue)).status == Partial
  {
  }

  /** Saving twice is saving once. */
  lemma SettleIdempotent(b: Bill)
    ensures Settle(Settle(b)) == Settle(b)
  {
  }

  /** A consistent bill is a fixed point of save. */
  lemma SettleOfConsistent(b: Bill)
    requires Consistent(b)
    ensures Settle(b) == b
  {
  }

  /** `Bill.is_paid`. */
  predicate IsPaid(b: Bill)
  {
    b.status == Paid
  }

  // ---------------------------------------------------------------- numbering

  /** The numbers held by a sequence of bills, in table order. */
  function BillNumbers(bills: seq<Bill>): seq<string>
  {
    seq(|bills|, i requires 0 <= i < |bills| => bills[i].number)
  }

  function BillScope(b: Bill): string
  {
    Codes.YearMonthScope("BILL", b.year, b.month)
  }

  /** The code a document gets on its first save, or the one it already has. */
  function AssignCode(current: string, scope: string, existing: seq<string>): string
  {
    if current == "" then Codes.FormatCode(scope, Codes.NextNumber(existing, scope)) else current
  }

  /** A document keeps its code, and a new code is one no other document holds. */
  lemma AssignCodeSpec(current: string, scope: string, existing: seq<string>)
    requires |scope| > 0 && scope[|scope| - 1] == '-'
    ensures current != "" ==> AssignCode(current, scope, existing) == current
    ensures current == "" ==> AssignCode(current, scope, existing) !in existing
    ensures AssignCode(current, scope, existing) != ""
  {
    if current == "" {
      Codes.NextCodeIsFresh(existing, scope);
    }
  }

  /** The first error a save can hit while numbering: the `int()` of a non-numeric suffix, or the unique index. */
  const SuffixNotNumeric := "invalid literal for int() with base 10"
  const CodeTaken := "duplicate key value violates unique constraint"

  /**
   * The numbering as the save methods write it: the suffix of the lexicographically greatest
   * code of the scope, plus one. A suffix that is not a number fails the save, and so does a
   * new code that the unique column already holds.
   */
  function AssignCodeAsWritten(current: string, scope: string, existing: seq<string>): (r: Result<string>)
    ensures current != "" ==> r == Ok(current)
    ensures r.Ok? && current == "" ==> r.value !in existing && Codes.InScope(r.value, scope)
  {
    if current != "" then Ok(current)
    else match Codes.NextNumberAsWritten(existing, scope)
      case None => Err(SuffixNotNumeric)
      case Some(n) =>
        var code := Codes.FormatCode(scope, n);
        assert code[..|scope|] == scope;
        if code in existing then Err(CodeTaken) else Ok(code)
  }

  /**
   * While every code of the scope has its four digits, the save as written succeeds and gives
   * exactly the code of the numeric rule.
   */
  lemma AssignAgreesBelow10000(current: string, scope: string, existing: seq<string>)
    requires |scope| > 0 && scope[|scope| - 1] == '-'
    requires forall c :: c in existing && Codes.InScope(c, scope) ==> Codes.FourDigit(c, scope)
    ensures AssignCodeAsWritten(current, scope, existing) == Ok(AssignCode(current, scope, existing))
  {
    if current == "" {
      Codes.AsWrittenAgreesBelow10000(existing, scope);
      Codes.NextCodeIsFresh(existing, scope);
    }
  }

  /** Once a scope holds its 9999th and 10000th codes, the next save as written fails on the unique column. */
  lemma AssignAsWrittenFailsAfter9999(scope: string)
    requires |scope| > 0 && scope[|scope| - 1] == '-'
    ensures AssignCodeAsWritten("", scope, [Codes.FormatCode(scope, 9999), Codes.FormatCode(scope, 10000)]) == Err(CodeTaken)
  {
    Codes.AsWrittenRepeatsAfter9999(scope);
  }

  /** `Bill.save` in full: number on first save, then the arithmetic. */
  function SavedBill(b: Bill, existing: seq<string>): Bill
  {
    Settle(b.(number := AssignCode(b.number, BillScope(b), existing)))
  }

  lemma SavedBillSpec(b: Bill, existing: seq<string>)
    ensures Consistent(SavedBill(b, existing))
    ensures b.number != "" ==> SavedBill(b, existing).number == b.number
    ensures b.number == "" ==> SavedBill(b, existing).number !in existing
    ensures SavedBill(b, existing).number != ""
  {
    AssignCodeSpec(b.number, BillScope(b), existing);
  }

  // ---------------------------------------------------------------- advance payments

  /** The arithmetic part of `AdvancePayment.save`. */
  function SettleAdvance(a: AdvancePayment): AdvancePayment
  {
    a.(remaining := a.amount - a.used)
  }

  lemma SettleAdvanceBalance(a: AdvancePayment)
    ensures SettleAdvance(a).remaining == a.amount - a.used
    ensures SettleAdvance(a).amount == a.amount && SettleAdvance(a).used == a.used
  {
  }

  /** Drawing `x` from an advance and saving it lowers its balance by exactly `x`. */
  lemma DrawLowersBalance(a: AdvancePayment, x: Cents)
    requires a.remaining == a.amount - a.used
    ensures SettleAdvance(a.(used := a.used + x)).remaining == a.remaining - x
  {
  }

  // ---------------------------------------------------------------- discounts

  /** `Discount.is_valid` on a given day. */
  predicate DiscountIsValid(d: Discount, today: Date)
  {
    if !d.active then false
    else if Before(today, d.startDate) then false
    else if d.endDate.Some? && Before(d.endDate.value, today) then false
    else if d.maxUses.Some? && d.maxUses.value != 0 && d.currentUses >= d.maxUses.value then false
    else true
  }

  /** Each rejection condition alone makes the discount invalid; none of them, valid. */
  lemma DiscountValidity(d: Discount, today: Date)
    ensures !d.active ==> !DiscountIsValid(d, today)
    ensures Before(today, d.startDate) ==> !DiscountIsValid(d, today)
    ensures d.endDate.Some? && Before(d.endDate.value, today) ==> !DiscountIsValid(d, today)
    ensures d.maxUses.Some? && d.maxUses.value != 0 && d.currentUses >= d.maxUses.value
      ==> !DiscountIsValid(d, today)
    ensures d.active && !Before(today, d.startDate)
      && (d.endDate.None? || !Before(d.endDate.value, today))
      && (d.maxUses.None? || d.maxUses.value == 0 || d.currentUses < d.maxUses.value)
      ==> DiscountIsValid(d, today)
  {
  }

  /** A usage limit of 0 means unlimited, as no limit does. */
  lemma ZeroMaxUsesIsUnlimited(d: Discount, today: Date)
    ensures DiscountIsValid(d.(maxUses := Some(0)), today) == DiscountIsValid(d.(maxUses := None), today)
  {
  }

  // ---------------------------------------------------------------- tables

  predicate SamePeriod(a: Bill, b: Bill)
  {
    a.subscription == b.subscription && a.year == b.year && a.month == b.month
  }

  /** Position of the bill of a subscription for a billing period, if any. */
  function FindBill(bills: seq<Bill>, sub: nat, year: int, month: int): (r: Option<nat>)
    ensures r.Some? ==>
      r.value < |bills| && bills[r.value].subscription == sub
      && bills[r.value].year == year && bills[r.value].month == month
    ensures r.None? <==> forall i :: 0 <= i < |bills| ==>
      !(bills[i].subscription == sub && bills[i].year == year && bills[i].month == month)
  {
    if bills == [] then None
    else
      var last := |bills| - 1;
      if bills[last].subscription == sub && bills[last].year == year && bills[last].month == month
      then Some(last)
      else FindBill(bills[..last], sub, year, month)
  }

  /** Appending rows never loses a bill: a billed period stays billed. */
  lemma FindBillExtends(a: seq<Bill>, b: seq<Bill>, sub: nat, year: int, month: int)
    requires |a| <= |b| && b[..|a|] == a
    ensures FindBill(a, sub, year, month).Some? ==> FindBill(b, sub, year, month).Some?
  {
    if FindBill(a, sub, year, month).Some? {
      var k := FindBill(a, sub, year, month).value;
      assert b[k] == a[k];
    }
  }

  /** The constraints of the `bills` table: unique (subscription, month, year) and unique numbers. */
  predicate BillsWellFormed(bills: seq<Bill>)
  {
    && (forall i, j :: 0 <= i < j < |bills| ==> !SamePeriod(bills[i], bills[j]))
    && (forall i, j :: 0 <= i < j < |bills| ==> bills[i].number != bills[j].number)
    && (forall i :: 0 <= i < |bills| ==> bills[i].number != "")
  }

  /** A new row in an unbilled period keeps the constraints of the `bills` table. */
  lemma AppendSavedBill(bills: seq<Bill>, b: Bill)
    requires BillsWellFormed(bills) && b.number == ""
    requires FindBill(bills, b.subscription, b.year, b.month).None?
    ensures BillsWellFormed(bills + [SavedBill(b, BillNumbers(bills))])
  {
    var nb := SavedBill(b, BillNumbers(bills));
    SavedBillSpec(b, BillNumbers(bills));
    SettleKeepsInputs(b.(number := AssignCode(b.number, BillScope(b), BillNumbers(bills))));
    assert SamePeriod(nb, b);
    var all := bills + [nb];
    forall i, j | 0 <= i < j < |all| ensures !SamePeriod(all[i], all[j]) && all[i].number != all[j].number {
      if j == |bills| {
        assert all[i] == bills[i] && all[j] == nb;
        assert BillNumbers(bills)[i] == bills[i].number;
      }
    }
  }

  function PaymentNumbers(ps: seq<Payment>): (r: seq<string>)
    ensures |r| == |ps|
  {
    seq(|ps|, i requires 0 <= i < |ps| => ps[i].number)
  }

  function AdvanceNumbers(advs: seq<AdvancePayment>): (r: seq<string>)
    ensures |r| == |advs|
  {
    seq(|advs|, i requires 0 <= i < |advs| => advs[i].number)
  }

  function RefundNumbers(rs: seq<Refund>): (r: seq<string>)
    ensures |r| == |rs|
  {
    seq(|rs|, i requires 0 <= i < |rs| => rs[i].number)
  }

  /** `Invoice.save`: an invoice without a number gets `INV-YYYY-NNNN`. */
  function InvoiceNumber(current: string, year: int, existing: seq<string>): string
  {
    AssignCode(current, Codes.YearScope("INV", year), existing)
  }

  /** `AdvancePayment.save`: an advance without a number gets `ADV-YYYY-NNNN`. */
  function AdvanceNumber(current: string, year: int, existing: seq<string>): string
  {
    AssignCode(current, Codes.YearScope("ADV", year), existing)
  }

  /** `Refund.save`: a refund without a number gets `REF-YYYY-NNNN`. */
  function RefundNumber(current: string, year: int, existing: seq<string>): string
  {
    AssignCode(current, Codes.YearScope("REF", year), existing)
  }

  lemma YearScopeEndsWithDash(prefix: string, year: int)
    ensures var s := Codes.YearScope(prefix, year); |s| > 0 && s[|s| - 1] == '-'
  {
  }

  /** Invoice, advance and refund numbers are kept once set and fresh when first given. */
  lemma DocumentNumbersFresh(current: string, year: int, existing: seq<string>)
    ensures current == "" ==> InvoiceNumber(current, year, existing) !in existing
    ensures current == "" ==> AdvanceNumber(current, year, existing) !in existing
    ensures current == "" ==> RefundNumber(current, year, existing) !in existing
    ensures current != "" ==> InvoiceNumber(current, year, existing) == current
    ensures current != "" ==> AdvanceNumber(current, year, existing) == current
    ensures current != "" ==> RefundNumber(current, year, existing) == current
  {
    YearScopeEndsWithDash("INV", year);
    YearScopeEndsWithDash("ADV", year);
    YearScopeEndsWithDash("REF", year);
    AssignCodeSpec(current, Codes.YearScope("INV", year), existing);
    AssignCodeSpec(current, Codes.YearScope("ADV", year), existing);
    AssignCodeSpec(current, Codes.YearScope("REF", year), existing);
  }

  /**
   * The billing tables. Each method is one `save`/`create` of the source, performed in place.
   */
  class BillingTables {
    var bills: seq<Bill>
    var payments: seq<Payment>
    var advances: seq<AdvancePayment>
    var refunds: seq<Refund>

    ghost predicate Valid()
      reads this
    {
      && BillsWellFormed(bills)
      && (forall i :: 0 <= i < |payments| ==> payments[i].bill < |bills|)
    }

    constructor ()
      ensures Valid() && bills == [] && payments == [] && advances == [] && refunds == []
    {
      bills, payments, advances, refunds := [], [], [], [];
    }

    /** `bill.save()` on a stored bill. */
    method SaveBill(i: nat)
      requires Valid() && i < |bills|
      modifies this`bills
      ensures Valid()
      ensures bills == old(bills)[i := Settle(old(bills)[i])]
    {
      var b := Settle(bills[i]);
      SettleKeepsInputs(bills[i]);
      bills := bills[i := b];
    }

    /**
     * `Bill.objects.create(...)`: the new row is numbered and settled, and refused (the
     * IntegrityError of `unique_together`) when the period is already billed.
     */
    method CreateBill(b: Bill) returns (r: Result<nat>)
      requires Valid() && b.number == ""
      modifies this`bills
      ensures Valid()
      ensures FindBill(old(bills), b.subscription, b.year, b.month).Some? ==>
        r.Err? && bills == old(bills)
      ensures FindBill(old(bills), b.subscription, b.year, b.month).None? ==>
        r == Ok(|old(bills)|) && bills == old(bills) + [SavedBill(b, BillNumbers(old(bills)))]
    {
      if FindBill(bills, b.subscription, b.year, b.month).Some? {
        return Err("UNIQUE constraint failed: bills.subscription_id, bills.billing_month, bills.billing_year");
      }
      var nb := SavedBill(b, BillNumbers(bills));
      AppendSavedBill(bills, b);
      r := Ok(|bills|);
      bills := bills + [nb];
    }

    /** `AdvancePayment.save` on a stored advance: the balance is recomputed. */
    method SaveAdvance(i: nat)
      requires i < |advances|
      modifies this`advances
      ensures advances == old(advances)[i := SettleAdvance(old(advances)[i])]
    {
      advances := advances[i := SettleAdvance(advances[i])];
    }

    /** `advance.used_amount += x` followed by `advance.save()`. */
    method DrawAdvance(k: nat, x: Cents)
      requires Valid() && k < |advances|
      modifies this`advances
      ensures Valid()
      ensures advances == old(advances)[k := SettleAdvance(old(advances)[k].(used := old(advances)[k].used + x))]
    {
      var a := advances[k];
      advances := advances[k := a.(used := a.used + x)];
      SaveAdvance(k);
    }

    /**
     * The first half of `Payment.save`: a new payment gets `PAY-YYYY-NNNN` and its row is
     * inserted.
     */
    method InsertPayment(p: Payment, year: int) returns (idx: nat)
      requires Valid() && p.bill < |bills|
      modifies this`payments
      ensures Valid()
      ensures idx == |old(payments)|
      ensures payments == old(payments) + [p.(number := AssignCode(p.number, Codes.YearScope("PAY", year), PaymentNumbers(old(payments))))]
    {
      var number := AssignCode(p.number, Codes.YearScope("PAY", year), PaymentNumbers(payments));
      idx := |payments|;
      payments := payments + [p.(number := number)];
    }

    /**
     * The second half of `Payment.save`: a completed payment adds its amount to its bill,
     * which is saved; any other status leaves the bill alone.
     */
    method ApplyPayment(idx: nat)
      requires Valid() && idx < |payments|
      modifies this`bills
      ensures Valid()
      ensures bills == ApplyPaymentToBills(old(bills), payments[idx])
    {
      var p := payments[idx];
      if p.status == Completed {
        var b := bills[p.bill];
        bills := bills[p.bill := b.(paid := b.paid + p.amount)];
        SaveBill(p.bill);
      }
    }
  }

  /** The bills after `ApplyPayment`. */
  function ApplyPaymentToBills(bills: seq<Bill>, p: Payment): seq<Bill>
    requires p.bill < |bills|
  {
    if p.status == Completed then
      var b := bills[p.bill];
      bills[p.bill := Settle(b.(paid := b.paid + p.amount))]
    else bills
  }

  /** A completed payment raises its bill's paid amount by exactly its amount and nothing else moves. */
  lemma ApplyPaymentEffect(bills: seq<Bill>, p: Payment)
    requires p.bill < |bills|
    ensures var r := ApplyPaymentToBills(bills, p);
      |r| == |bills|
      && (forall i :: 0 <= i < |bills| && i != p.bill ==> r[i] == bills[i])
      && r[p.bill].paid == bills[p.bill].paid + (if p.status == Completed then p.amount else 0)
      && (p.status == Completed ==> Consistent(r[p.bill]))
  {
  }

  /**
   * Payment.save adds the amount on every save of a completed payment, not only the first:
   * saving the same payment twice counts it twice.
   */
  lemma PaymentCountedOnEverySave(bills: seq<Bill>, p: Payment)
    requires p.bill < |bills| && p.status == Completed
    ensures ApplyPaymentToBills(ApplyPaymentToBills(bills, p), p)[p.bill].paid
      == bills[p.bill].paid + 2 * p.amount
  {
  }

  /** For a consistent bill, a payment of the whole due amount makes it paid. */
  lemma PayingDueSettlesBill(bills: seq<Bill>, p: Payment)
    requires p.bill < |bills| && p.status == Completed
    requires Consistent(bills[p.bill]) && p.amount == bills[p.bill].due
    ensures ApplyPaymentToBills(bills, p)[p.bill].status == Paid
    ensures ApplyPaymentToBills(bills, p)[p.bill].due == 0
  {
  }
}
