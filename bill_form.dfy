/**
 * The bill form of the web client: the window of months offered for a bill and the amounts
 * and status sent when the form is submitted. Amounts are in cents.
 */
module BillForm {
  import opened Common
  import opened Text

  const MonthNames: seq<string> := ["January", "February", "March", "April", "May", "June",
                                    "July", "August", "September", "October", "November", "December"]

  /** An entry of the month picker. */
  datatype MonthOption = MonthOption(month: int, year: int, caption: string)

  function Label(month: int, year: int): string
    requires 1 <= month <= 12
  {
    MonthNames[month - 1] + " " + IntToString(year)
  }

  /** The entry `k` months after the current month (negative for earlier months). */
  function OptionAt(currentYear: int, currentMonth: int, k: int): (o: MonthOption)
    requires 1 <= currentMonth <= 12
    ensures 1 <= o.month <= 12
    ensures MonthIndex(o.year, o.month) == MonthIndex(currentYear, currentMonth) + k
  {
    var (y, m) := ShiftMonth(currentYear, currentMonth, k);
    MonthOption(m, y, Label(m, y))
  }

  /** Six months back to eleven months ahead, one entry per month. */
  function Window(currentYear: int, currentMonth: int): (r: seq<MonthOption>)
    requires 1 <= currentMonth <= 12
    ensures |r| == 18
  {
    seq(18, i requires 0 <= i < 18 => OptionAt(currentYear, currentMonth, i - 6))
  }

  /** The window starts six months before the current month and holds the current month at position 6. */
  lemma WindowEnds(currentYear: int, currentMonth: int)
    requires 1 <= currentMonth <= 12
    ensures var w := Window(currentYear, currentMonth);
      && (w[0].month, w[0].year) == (if currentMonth > 6 then (currentMonth - 6, currentYear) else (currentMonth + 6, currentYear - 1))
      && (w[6].month, w[6].year) == (currentMonth, currentYear)
  {
    var w := Window(currentYear, currentMonth);
    var first := if currentMonth > 6 then (currentMonth - 6, currentYear) else (currentMonth + 6, currentYear - 1);
    assert w[0] == OptionAt(currentYear, currentMonth, -6);
    assert w[6] == OptionAt(currentYear, currentMonth, 0);
    MonthIndexUnique(w[0].year, w[0].month, first.1, first.0);
    MonthIndexUnique(w[6].year, w[6].month, currentYear, currentMonth);
  }

  /**
   * Each entry is labelled with its month's name and year, advances one month on the entry
   * before it, and no month is offered twice.
   */
  lemma WindowSteps(currentYear: int, currentMonth: int)
    requires 1 <= currentMonth <= 12
    ensures var w := Window(currentYear, currentMonth);
      && (forall i :: 0 <= i < 18 ==> 1 <= w[i].month <= 12 && w[i].caption == Label(w[i].month, w[i].year))
      && (forall i :: 0 < i < 18 ==> MonthIndex(w[i].year, w[i].month) == MonthIndex(w[i - 1].year, w[i - 1].month) + 1)
      && (forall i, j :: 0 <= i < j < 18 ==> (w[i].month, w[i].year) != (w[j].month, w[j].year))
  {
    var w := Window(currentYear, currentMonth);
    var base := MonthIndex(currentYear, currentMonth);
    assert forall i :: 0 <= i < 18 ==> MonthIndex(w[i].year, w[i].month) == base + i - 6;
  }

  /** An entry for the month `k` months after the current one, labelled with its name and year. */
  predicate EntryFor(o: MonthOption, currentYear: int, currentMonth: int, k: int)
  {
    1 <= o.month <= 12 && MonthIndex(o.year, o.month) == MonthIndex(currentYear, currentMonth) + k
    && o.caption == Label(o.month, o.year)
  }

  /** There is only one such entry: the one of the window. */
  lemma EntryForIsOption(o: MonthOption, currentYear: int, currentMonth: int, k: int)
    requires 1 <= currentMonth <= 12 && EntryFor(o, currentYear, currentMonth, k)
    ensures o == OptionAt(currentYear, currentMonth, k)
  {
    var w := OptionAt(currentYear, currentMonth, k);
    MonthIndexUnique(o.year, o.month, w.year, w.month);
  }

  /**
   * `getAvailableMonths`: the start month is stepped back six months once, then each entry
   * adds its offset and carries whole years out of the month.
   */
  method AvailableMonths(currentYear: int, currentMonth: int) returns (months: seq<MonthOption>)
    requires 1 <= currentMonth <= 12
    ensures months == Window(currentYear, currentMonth)
  {
    var startMonth := currentMonth - 6;
    var startYear := currentYear;
    if startMonth <= 0 {
      startMonth := startMonth + 12;
      startYear := startYear - 1;
    }
    assert MonthIndex(startYear, startMonth) == MonthIndex(currentYear, currentMonth) - 6;
    months := [];
    for i := 0 to 18
      invariant |months| == i
      invariant forall k :: 0 <= k < i ==> EntryFor(months[k], currentYear, currentMonth, k - 6)
    {
      var month := startMonth + i;
      var year := startYear;
      while month > 12
        invariant month >= 1 && MonthIndex(year, month) == MonthIndex(startYear, startMonth) + i
        decreases month
      {
        month := month - 12;
        year := year + 1;
      }
      months := months + [MonthOption(month, year, Label(month, year))];
    }
    forall k | 0 <= k < 18
      ensures months[k] == Window(currentYear, currentMonth)[k]
    {
      EntryForIsOption(months[k], currentYear, currentMonth, k - 6);
    }
  }

  // ---------------------------------------------------------------- submitting the form

  /** The amounts and status of the bill sent, and the payment posted with it if any. */
  datatype Submission = Submission(total: Cents, paid: Cents, due: Cents, status: string, payment: Option<Cents>)

  /**
   * `handleSubmit`: the total is price plus other charges minus discount; a paid bill is paid
   * in full, a partial bill is paid the amount entered, and any other status is sent as
   * pending with nothing paid. A payment is posted only for a paid or partial bill with a
   * positive paid amount.
   */
  method Submit(price: Cents, discount: Cents, otherCharges: Cents, status: string, entered: Cents)
    returns (s: Submission)
    ensures s.total == price + otherCharges - discount
    ensures s.paid + s.due == s.total
    ensures status == "paid" ==> s.status == "paid" && s.paid == s.total && s.due == 0
    ensures status == "partial" ==> s.status == "partial" && s.paid == entered
    ensures status != "paid" && status != "partial" ==> s.status == "pending" && s.paid == 0
    ensures s.payment.Some? <==> (status == "paid" || status == "partial") && s.paid > 0
    ensures s.payment.Some? ==> s.payment.value == s.paid
  {
    var totalAmount := price + otherCharges - discount;
    var paidAmount := 0;
    var dueAmount := totalAmount;
    var finalStatus := status;
    if status == "paid" {
      paidAmount := totalAmount;
      dueAmount := 0;
      finalStatus := "paid";
    } else if status == "partial" {
      paidAmount := entered;
      dueAmount := totalAmount - paidAmount;
      finalStatus := "partial";
    } else {
      finalStatus := "pending";
    }
    var payment := if (status == "paid" || status == "partial") && paidAmount > 0 then Some(paidAmount) else None;
    s := Submission(totalAmount, paidAmount, dueAmount, finalStatus, payment);
  }
}
