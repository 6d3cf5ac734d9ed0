/**
 * Subscriptions: the PPPoE credentials filled in on save, the status tests and the search
 * for the next billing date.
 */
module Subscriptions {
  import opened Common
  import opened Text
  import Ledger

  datatype SubStatus = Active | Suspended | SubCancelled | Expired

  /**
   * A row of the `subscriptions` table. `customer`, `package` and `router` are primary keys
   * (positions in their tables); times are seconds.
   */
  datatype Subscription = Subscription(
    customer: nat,
    package: nat,
    startDate: Date,
    billingDay: int,
    billingStartMonth: Option<Date>,
    status: SubStatus,
    router: Option<nat>,
    profileName: Option<string>,
    username: string,
    password: string,
    userId: Option<string>,
    synced: bool,
    lastSyncedAt: Option<int>,
    syncError: Option<string>,
    connectionFee: Cents,
    reconnectionFee: Cents,
    createdBy: Option<nat>)

  predicate IsActive(s: Subscription) { s.status == Active }

  predicate IsSuspended(s: Subscription) { s.status == Suspended }

  lemma StatusTests(s: Subscription)
    ensures IsActive(s) <==> s.status == Active
    ensures IsSuspended(s) <==> s.status == Suspended
    ensures !(IsActive(s) && IsSuspended(s))
  {
  }

  // ---------------------------------------------------------------- credentials

  /** The generated username: `"user"` + the customer id without `"ISP-"` and without dashes. */
  function DefaultUsername(customerId: string): string
  {
    "user" + Remove(ReplaceAll(customerId, "ISP-", ""), '-')
  }

  /**
   * `Subscription.save`: an empty username is derived from the customer id and an empty
   * password is replaced by `generated` (the random token of the source).
   */
  function WithCredentials(s: Subscription, customerId: string, generated: string): (r: Subscription)
    ensures s.username != "" ==> r.username == s.username
    ensures s.username == "" ==> r.username == DefaultUsername(customerId)
    ensures s.password != "" ==> r.password == s.password
    ensures s.password == "" ==> r.password == generated
    ensures r.(username := s.username, password := s.password) == s
  {
    s.(username := if s.username == "" then DefaultUsername(customerId) else s.username,
       password := if s.password == "" then generated else s.password)
  }

  /** For a customer id `ISP-<year>-<number>` the generated username is `user<year><number>`. */
  lemma UsernameOfCustomerId(year: string, number: string)
    requires AllDigits(year) && AllDigits(number)
    ensures DefaultUsername("ISP-" + year + "-" + number) == "user" + year + number
  {
    var rest := year + "-" + number;
    assert "ISP-" + year + "-" + number == "ISP-" + rest;
    StripPrefix(year, number);
    DropDash(year, number);
  }

  lemma StripPrefix(year: string, number: string)
    requires AllDigits(year) && AllDigits(number)
    ensures ReplaceAll("ISP-" + (year + "-" + number), "ISP-", "") == year + "-" + number
  {
    var rest := year + "-" + number;
    ReplaceAllLeading("ISP-", "", rest);
    assert 'I' !in rest by {
      forall i | 0 <= i < |rest| ensures rest[i] != 'I' {
        if i < |year| { assert rest[i] == year[i]; }
        else if i > |year| { assert rest[i] == number[i - |year| - 1]; }
      }
    }
    ReplaceAllAbsent(rest, "ISP-", "");
  }

  lemma DropDash(year: string, number: string)
    requires AllDigits(year) && AllDigits(number)
    ensures Remove(year + "-" + number, '-') == year + number
  {
    NoDashInDigits(year);
    NoDashInDigits(number);
    var a := year + "-";
    var ra := Remove(a, '-');
    var rn := Remove(number, '-');
    RemoveAppend(a, number, '-');
    assert Remove(a + number, '-') == ra + rn;
    RemoveAppend(year, "-", '-');
    RemoveAbsent(year, '-');
    assert Remove("-", '-') == [];
    assert ra == year;
    RemoveAbsent(number, '-');
    assert rn == number;
  }

  lemma NoDashInDigits(s: string)
    requires AllDigits(s)
    ensures '-' !in s
  {
    forall i | 0 <= i < |s| ensures s[i] != '-' { assert IsDigit(s[i]); }
  }

  // ---------------------------------------------------------------- next billing date

  /** The dates of a row are real calendar dates. */
  predicate WellDated(s: Subscription)
  {
    ValidDate(s.startDate) && (s.billingStartMonth.Some? ==> ValidDate(s.billingStartMonth.value))
  }

  /** The first month of the billing cycle: `billing_start_month`, else the month of `start_date`. */
  function StartMonth(s: Subscription): (r: (int, int))
    requires WellDated(s)
    ensures 1 <= r.1 <= 12
  {
    match s.billingStartMonth
    case Some(d) => (d.year, d.month)
    case None => (s.startDate.year, s.startDate.month)
  }

  /** Does the subscription at `sub` have a bill for the month `k` months after (year, month)? */
  predicate BilledAt(bills: seq<Ledger.Bill>, sub: nat, year: int, month: int, k: int)
    requires 1 <= month <= 12
  {
    var ym := ShiftMonth(year, month, k);
    Ledger.FindBill(bills, sub, ym.0, ym.1).Some?
  }

  /**
   * `next_billing_date`: the billing day (clamped to the month's last day) of the first of
   * the 24 months from the start month that has no bill, or else of the month after today.
   */
  method NextBillingDate(s: Subscription, sub: nat, bills: seq<Ledger.Bill>, today: Date) returns (d: Date)
    requires WellDated(s) && ValidDate(today)
    ensures ValidDate(d)
    ensures 1 <= s.billingDay <= DaysInMonth(d.year, d.month) ==> d.day == s.billingDay
    ensures !(1 <= s.billingDay <= DaysInMonth(d.year, d.month)) ==> d.day == DaysInMonth(d.year, d.month)
    ensures var (y, m) := StartMonth(s);
      (exists k :: 0 <= k < 24 && !BilledAt(bills, sub, y, m, k)) ==>
        exists k :: 0 <= k < 24 && (d.year, d.month) == ShiftMonth(y, m, k)
          && !BilledAt(bills, sub, y, m, k)
          && forall j :: 0 <= j < k ==> BilledAt(bills, sub, y, m, j)
    ensures var (y, m) := StartMonth(s);
      (forall k :: 0 <= k < 24 ==> BilledAt(bills, sub, y, m, k)) ==>
        (d.year, d.month) == ShiftMonth(today.year, today.month, 1)
  {
    var (y, m) := StartMonth(s);
    var cy, cm := y, m;
    for i := 0 to 24
      invariant 1 <= cm <= 12
      invariant (cy, cm) == ShiftMonth(y, m, i)
      invariant forall j :: 0 <= j < i ==> BilledAt(bills, sub, y, m, j)
    {
      if Ledger.FindBill(bills, sub, cy, cm).None? {
        d := DayInMonthOrLast(cy, cm, s.billingDay);
        assert !BilledAt(bills, sub, y, m, i);
        return;
      }
      assert BilledAt(bills, sub, y, m, i);
      ShiftMonthAdd(y, m, i, 1);
      cy, cm := ShiftMonth(cy, cm, 1).0, ShiftMonth(cy, cm, 1).1;
    }
    var next := ShiftMonth(today.year, today.month, 1);
    d := DayInMonthOrLast(next.0, next.1, s.billingDay);
  }
}
