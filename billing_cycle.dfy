/**
 * The billing cycle: the month's bills generated for every active subscription (by the
 * manual endpoint and by the scheduled job), the daily cron generator that bills the
 * subscriptions whose billing day is today and draws on advance payments, and the sweep
 * that marks bills past their due date as overdue.
 */
module BillingCycle {
  import opened Common
  import opened Text
  import opened Ledger
  import opened Catalog
  import opened Subscriptions

  /** Every subscription's package is a row of the `packages` table. */
  predicate PackagesKnown(subs: seq<Subscription>, packages: seq<Package>)
  {
    forall i :: 0 <= i < |subs| ==> subs[i].package < |packages|
  }

  /** The row a generator passes to `Bill.objects.create`, before `Bill.save` numbers and settles it. */
  function NewBill(sub: nat, year: int, month: int, date: Date, dueDate: Option<Date>,
                   price: Cents, paid: Cents, user: Option<nat>): Bill
  {
    Bill("", sub, month, year, date, dueDate, price, 0, 0, price, paid, price - paid, Pending, true, user)
  }

  /** A generation run in progress: the tables it writes and its counters. */
  datatype Run = Run(bills: seq<Bill>, advances: seq<AdvancePayment>, created: nat, skipped: nat, errors: seq<string>)

  /** `Bill.objects.create`: the saved bill is appended and counted. */
  function Created(r: Run, b: Bill): Run
  {
    r.(bills := r.bills + [SavedBill(b, BillNumbers(r.bills))], created := r.created + 1)
  }

  /** The bills of `r` are the first bills of `q`. */
  predicate Extends(r: Run, q: Run)
  {
    |r.bills| <= |q.bills| && q.bills[..|r.bills|] == r.bills
  }

  // ---------------------------------------------------------------- monthly generation

  /**
   * The month a monthly run bills, the date written on its bills and the user recorded as
   * `generated_by` (none for the scheduled job).
   */
  datatype Period = Period(year: int, month: int, date: Date, generatedBy: Option<nat>)

  /**
   * One subscription of `GenerateMonthlyBillsView.post` / the scheduled `generate_monthly_bills`:
   * inactive ones are not considered, a billed period is skipped, and a subscription whose
   * insert raises (`fails`, with the exception's text) is reported and left unbilled.
   */
  function GenerateStep(r: Run, subs: seq<Subscription>, packages: seq<Package>, i: nat,
                        p: Period, fails: map<nat, string>): Run
    requires i < |subs| && PackagesKnown(subs, packages)
  {
    var s := subs[i];
    if s.status != Active then r
    else if FindBill(r.bills, i, p.year, p.month).Some? then r.(skipped := r.skipped + 1)
    else if i in fails then r.(errors := r.errors + ["Sub " + NatToString(i) + ": " + fails[i]])
    else Created(r, NewBill(i, p.year, p.month, p.date, None, packages[s.package].price, 0, p.generatedBy))
  }

  /** The run after the first `n` subscriptions. */
  function GenerateUpTo(r: Run, subs: seq<Subscription>, packages: seq<Package>, n: nat,
                        p: Period, fails: map<nat, string>): Run
    requires n <= |subs| && PackagesKnown(subs, packages)
  {
    if n == 0 then r
    else GenerateStep(GenerateUpTo(r, subs, packages, n - 1, p, fails), subs, packages, n - 1, p, fails)
  }

  /** How many of the first `n` subscriptions are active. */
  function ActiveCount(subs: seq<Subscription>, n: nat): nat
    requires n <= |subs|
  {
    if n == 0 then 0 else ActiveCount(subs, n - 1) + (if subs[n - 1].status == Active then 1 else 0)
  }

  /** Every active subscription is generated, skipped or reported: `generated + skipped + len(errors)`. */
  lemma {:induction false} GenerateTally(r: Run, subs: seq<Subscription>, packages: seq<Package>, n: nat,
                                         p: Period, fails: map<nat, string>)
    requires n <= |subs| && PackagesKnown(subs, packages)
    ensures var q := GenerateUpTo(r, subs, packages, n, p, fails);
      q.created + q.skipped + |q.errors| == r.created + r.skipped + |r.errors| + ActiveCount(subs, n)
  {
    if n > 0 {
      GenerateTally(r, subs, packages, n - 1, p, fails);
    }
  }

  /** A bill a monthly run creates: the saved row it passed for an active subscription, numbered. */
  predicate GeneratedBill(b: Bill, subs: seq<Subscription>, packages: seq<Package>, p: Period)
    requires PackagesKnown(subs, packages)
  {
    && b.subscription < |subs| && subs[b.subscription].status == Active && b.number != ""
    && b == Settle(NewBill(b.subscription, p.year, p.month, p.date, None,
                           packages[subs[b.subscription].package].price, 0, p.generatedBy).(number := b.number))
  }

  /**
   * A generated bill is for the run's period, priced at its subscription's package with no
   * discount or other charge, unpaid and owing the whole price, pending unless the price is
   * zero, and marked as generated by the run's user.
   */
  lemma GeneratedBillHolds(b: Bill, subs: seq<Subscription>, packages: seq<Package>, p: Period)
    requires PackagesKnown(subs, packages) && GeneratedBill(b, subs, packages, p)
    ensures var price := packages[subs[b.subscription].package].price;
      && b.year == p.year && b.month == p.month && b.billingDate == p.date && b.dueDate.None?
      && b.packagePrice == price && b.total == price && b.due == price
      && b.paid == 0 && b.discount == 0 && b.otherCharges == 0
      && (price > 0 ==> b.status == Pending) && (price <= 0 ==> b.status == Paid)
      && b.autoGenerated && b.generatedBy == p.generatedBy
  {
  }

  /** One subscription's step appends at most one bill, a generated one, and bills it unless it fails. */
  lemma GenerateStepEffect(r: Run, subs: seq<Subscription>, packages: seq<Package>, i: nat,
                           p: Period, fails: map<nat, string>)
    requires i < |subs| && PackagesKnown(subs, packages)
    ensures AppendsAtMostOne(r, GenerateStep(r, subs, packages, i, p, fails), subs, packages, p)
    ensures subs[i].status == Active && i !in fails ==>
      FindBill(GenerateStep(r, subs, packages, i, p, fails).bills, i, p.year, p.month).Some?
  {
    var q := GenerateStep(r, subs, packages, i, p, fails);
    if subs[i].status == Active && FindBill(r.bills, i, p.year, p.month).None? && i !in fails {
      var b := NewBill(i, p.year, p.month, p.date, None, packages[subs[i].package].price, 0, p.generatedBy);
      SavedBillSpec(b, BillNumbers(r.bills));
      var nb := SavedBill(b, BillNumbers(r.bills));
      assert q.bills == r.bills + [nb];
      assert q.bills[..|r.bills|] == r.bills;
      assert q.bills[|r.bills|] == nb;
      assert nb == Settle(b.(number := nb.number));
    } else {
      assert q.bills[..|r.bills|] == r.bills;
    }
  }

  /** `q` appended at most one bill to `r`, a generated one. */
  predicate AppendsAtMostOne(r: Run, q: Run, subs: seq<Subscription>, packages: seq<Package>, p: Period)
    requires PackagesKnown(subs, packages)
  {
    && Extends(r, q) && |q.bills| <= |r.bills| + 1
    && (|q.bills| == |r.bills| + 1 ==> GeneratedBill(q.bills[|r.bills|], subs, packages, p))
  }

  /** `q` only appended bills to `r`, and each of them is a generated one. */
  predicate AppendsGenerated(r: Run, q: Run, subs: seq<Subscription>, packages: seq<Package>, p: Period)
    requires PackagesKnown(subs, packages)
  {
    Extends(r, q) && forall k :: |r.bills| <= k < |q.bills| ==> GeneratedBill(q.bills[k], subs, packages, p)
  }

  /** Every active subscription among the first `n` that did not fail has a bill for the period. */
  predicate BilledUpTo(bills: seq<Bill>, subs: seq<Subscription>, n: nat, p: Period, fails: map<nat, string>)
    requires n <= |subs|
  {
    forall j :: 0 <= j < n && subs[j].status == Active && j !in fails ==> FindBill(bills, j, p.year, p.month).Some?
  }

  /** A run that appended only generated bills, followed by a step that appends at most one more, still has. */
  lemma AppendGenerated(r: Run, q0: Run, q: Run, subs: seq<Subscription>, packages: seq<Package>, p: Period)
    requires PackagesKnown(subs, packages)
    requires AppendsGenerated(r, q0, subs, packages, p) && AppendsAtMostOne(q0, q, subs, packages, p)
    ensures AppendsGenerated(r, q, subs, packages, p)
  {
    assert q.bills[..|r.bills|] == q.bills[..|q0.bills|][..|r.bills|];
    forall k | |r.bills| <= k < |q.bills|
      ensures GeneratedBill(q.bills[k], subs, packages, p)
    {
      if k < |q0.bills| {
        assert q.bills[k] == q.bills[..|q0.bills|][k];
      }
    }
  }

  /** Bills only added keep every subscription billed, and billing one more extends the range. */
  lemma BilledExtends(a: seq<Bill>, b: seq<Bill>, subs: seq<Subscription>, n: nat, p: Period, fails: map<nat, string>)
    requires n < |subs| && BilledUpTo(a, subs, n, p, fails)
    requires |a| <= |b| && b[..|a|] == a
    requires subs[n].status == Active && n !in fails ==> FindBill(b, n, p.year, p.month).Some?
    ensures BilledUpTo(b, subs, n + 1, p, fails)
  {
    forall j | 0 <= j < n && subs[j].status == Active && j !in fails
      ensures FindBill(b, j, p.year, p.month).Some?
    {
      FindBillExtends(a, b, j, p.year, p.month);
    }
  }

  /** A run that appended only generated bills still has after one more subscription's step. */
  lemma GenerateStepAppends(r: Run, q0: Run, q: Run, subs: seq<Subscription>, packages: seq<Package>, i: nat,
                            p: Period, fails: map<nat, string>)
    requires i < |subs| && PackagesKnown(subs, packages)
    requires AppendsGenerated(r, q0, subs, packages, p) && q == GenerateStep(q0, subs, packages, i, p, fails)
    ensures AppendsGenerated(r, q, subs, packages, p)
  {
    GenerateStepEffect(q0, subs, packages, i, p, fails);
    AppendGenerated(r, q0, q, subs, packages, p);
  }

  /** A run only appends bills, and each bill it appends is a generated one. */
  lemma {:induction false} GenerateAppends(r: Run, subs: seq<Subscription>, packages: seq<Package>, n: nat,
                                           p: Period, fails: map<nat, string>)
    requires n <= |subs| && PackagesKnown(subs, packages)
    ensures AppendsGenerated(r, GenerateUpTo(r, subs, packages, n, p, fails), subs, packages, p)
  {
    if n > 0 {
      GenerateAppends(r, subs, packages, n - 1, p, fails);
      GenerateStepAppends(r, GenerateUpTo(r, subs, packages, n - 1, p, fails),
                          GenerateUpTo(r, subs, packages, n, p, fails), subs, packages, n - 1, p, fails);
    } else {
      assert r.bills[..|r.bills|] == r.bills;
    }
  }

  /** Once the first `n` subscriptions are processed, each active one that did not fail has a bill. */
  lemma {:induction false} GenerateReaches(r: Run, subs: seq<Subscription>, packages: seq<Package>, n: nat,
                                           p: Period, fails: map<nat, string>)
    requires n <= |subs| && PackagesKnown(subs, packages)
    ensures BilledUpTo(GenerateUpTo(r, subs, packages, n, p, fails).bills, subs, n, p, fails)
  {
    if n > 0 {
      GenerateReaches(r, subs, packages, n - 1, p, fails);
      var q0 := GenerateUpTo(r, subs, packages, n - 1, p, fails);
      GenerateStepEffect(q0, subs, packages, n - 1, p, fails);
      BilledExtends(q0.bills, GenerateStep(q0, subs, packages, n - 1, p, fails).bills, subs, n - 1, p, fails);
    }
  }

  /**
   * A run only appends bills, each for an active subscription of the period, priced at its
   * package and unpaid; afterwards every active subscription that did not fail has a bill
   * for the period.
   */
  lemma GenerateCovers(r: Run, subs: seq<Subscription>, packages: seq<Package>, n: nat,
                       p: Period, fails: map<nat, string>)
    requires n <= |subs| && PackagesKnown(subs, packages)
    ensures var q := GenerateUpTo(r, subs, packages, n, p, fails);
      && Extends(r, q)
      && (forall k :: |r.bills| <= k < |q.bills| ==> GeneratedBill(q.bills[k], subs, packages, p))
      && (forall j :: 0 <= j < n && subs[j].status == Active && j !in fails ==>
            FindBill(q.bills, j, p.year, p.month).Some?)
  {
    GenerateAppends(r, subs, packages, n, p, fails);
    GenerateReaches(r, subs, packages, n, p, fails);
  }

  /**
   * Generating again for the same period once every active subscription is billed (or
   * fails again) creates nothing: the bills are untouched.
   */
  lemma {:induction false} GenerateRerun(r: Run, subs: seq<Subscription>, packages: seq<Package>, n: nat,
                                         p: Period, fails: map<nat, string>)
    requires n <= |subs| && PackagesKnown(subs, packages)
    requires forall j :: 0 <= j < n && subs[j].status == Active && j !in fails ==>
      FindBill(r.bills, j, p.year, p.month).Some?
    ensures GenerateUpTo(r, subs, packages, n, p, fails).bills == r.bills
    ensures GenerateUpTo(r, subs, packages, n, p, fails).created == r.created
  {
    if n > 0 {
      GenerateRerun(r, subs, packages, n - 1, p, fails);
    }
  }

  /** A second run for the same period, with the same failures, leaves the bills as the first left them. */
  lemma GenerateIdempotent(r: Run, subs: seq<Subscription>, packages: seq<Package>,
                           p: Period, fails: map<nat, string>)
    requires PackagesKnown(subs, packages)
    ensures var q := GenerateUpTo(r, subs, packages, |subs|, p, fails);
      GenerateUpTo(q.(created := 0, skipped := 0, errors := []), subs, packages, |subs|, p, fails).bills == q.bills
  {
    var q := GenerateUpTo(r, subs, packages, |subs|, p, fails);
    GenerateCovers(r, subs, packages, |subs|, p, fails);
    GenerateRerun(q.(created := 0, skipped := 0, errors := []), subs, packages, |subs|, p, fails);
  }

  /** The loop shared by `GenerateMonthlyBillsView.post` and the scheduled `generate_monthly_bills`. */
  method GenerateForPeriod(t: BillingTables, subs: seq<Subscription>, packages: seq<Package>,
                           p: Period, fails: map<nat, string>)
    returns (created: nat, skipped: nat, errors: seq<string>)
    requires t.Valid() && PackagesKnown(subs, packages)
    modifies t`bills
    ensures t.Valid()
    ensures var q := GenerateUpTo(Run(old(t.bills), [], 0, 0, []), subs, packages, |subs|, p, fails);
      t.bills == q.bills && created == q.created && skipped == q.skipped && errors == q.errors
  {
    created, skipped, errors := 0, 0, [];
    for i := 0 to |subs|
      invariant t.Valid()
      invariant var q := GenerateUpTo(Run(old(t.bills), [], 0, 0, []), subs, packages, i, p, fails);
        t.bills == q.bills && created == q.created && skipped == q.skipped && errors == q.errors
    {
      var s := subs[i];
      if s.status != Active {
        continue;
      }
      if FindBill(t.bills, i, p.year, p.month).Some? {
        skipped := skipped + 1;
        continue;
      }
      if i in fails {
        errors := errors + ["Sub " + NatToString(i) + ": " + fails[i]];
        continue;
      }
      var res := t.CreateBill(NewBill(i, p.year, p.month, p.date, None, packages[s.package].price, 0, p.generatedBy));
      created := created + 1;
    }
  }

  /** The request fields of `GenerateMonthlyBillsView.post`: both required, both parsed with `int()`. */
  function ParsePeriod(year: Option<string>, month: Option<string>): (r: Result<(int, int)>)
    ensures year.None? || month.None? || year == Some("") || month == Some("") ==>
      r == Err("Year and month are required")
    ensures r.Ok? <==> (year.Some? && month.Some? && year.value != "" && month.value != ""
      && ParseInt(year.value).Some? && ParseInt(month.value).Some?)
    ensures r.Ok? ==> r.value == (ParseInt(year.value).value, ParseInt(month.value).value)
  {
    if year.None? || month.None? || year.value == "" || month.value == "" then Err("Year and month are required")
    else match (ParseInt(year.value), ParseInt(month.value))
      case (Some(y), Some(m)) => Ok((y, m))
      case _ => Err("Invalid year or month")
  }

  /**
   * `GenerateMonthlyBillsView.post`: a missing or non-numeric year or month creates nothing;
   * otherwise every active subscription is billed for that month, dated today and
   * recorded as generated by the requesting user.
   */
  method GenerateMonthlyBills(t: BillingTables, subs: seq<Subscription>, packages: seq<Package>,
                              year: Option<string>, month: Option<string>, today: Date, user: Option<nat>,
                              fails: map<nat, string>)
    returns (r: Result<(nat, nat, seq<string>)>)
    requires t.Valid() && PackagesKnown(subs, packages)
    modifies t`bills
    ensures t.Valid()
    ensures ParsePeriod(year, month).Err? ==> r.Err? && t.bills == old(t.bills)
    ensures ParsePeriod(year, month).Ok? ==>
      var (y, m) := ParsePeriod(year, month).value;
      var q := GenerateUpTo(Run(old(t.bills), [], 0, 0, []), subs, packages, |subs|, Period(y, m, today, user), fails);
      t.bills == q.bills && r == Ok((q.created, q.skipped, q.errors))
  {
    match ParsePeriod(year, month) {
      case Err(e) =>
        return Err(e);
      case Ok((y, m)) =>
        var created, skipped, errors := GenerateForPeriod(t, subs, packages, Period(y, m, today, user), fails);
        return Ok((created, skipped, errors));
    }
  }

  /** The scheduled `generate_monthly_bills`: the current month, dated today, with no user. */
  method GenerateScheduled(t: BillingTables, subs: seq<Subscription>, packages: seq<Package>,
                           today: Date, fails: map<nat, string>)
    returns (created: nat, skipped: nat)
    requires t.Valid() && PackagesKnown(subs, packages)
    modifies t`bills
    ensures t.Valid()
    ensures var q := GenerateUpTo(Run(old(t.bills), [], 0, 0, []), subs, packages, |subs|,
                                  Period(today.year, today.month, today, None), fails);
      t.bills == q.bills && created == q.created && skipped == q.skipped
  {
    var errors;
    created, skipped, errors := GenerateForPeriod(t, subs, packages, Period(today.year, today.month, today, None), fails);
  }

  // ---------------------------------------------------------------- the cron generator

  /** An advance of this subscription with a positive balance. */
  predicate Usable(a: AdvancePayment, sub: nat)
  {
    a.subscription == sub && a.remaining > 0
  }

  /**
   * The first usable advance in the table's order (latest payment date first); among equal
   * dates the earliest row.
   */
  function LatestAdvance(advs: seq<AdvancePayment>, sub: nat): (r: Option<nat>)
    ensures r.Some? ==> r.value < |advs| && Usable(advs[r.value], sub)
    ensures r.Some? ==> forall j :: 0 <= j < |advs| && Usable(advs[j], sub) ==>
      advs[j].paymentDate <= advs[r.value].paymentDate
    ensures r.None? <==> forall j :: 0 <= j < |advs| ==> !Usable(advs[j], sub)
  {
    if advs == [] then None
    else
      var last := |advs| - 1;
      var r := LatestAdvance(advs[..last], sub);
      if Usable(advs[last], sub) && (r.None? || advs[r.value].paymentDate < advs[last].paymentDate)
      then Some(last)
      else r
  }

  /** `used_amount += x` followed by `AdvancePayment.save`. */
  function Drawn(advs: seq<AdvancePayment>, k: nat, x: Cents): seq<AdvancePayment>
    requires k < |advs|
  {
    advs[k := SettleAdvance(advs[k].(used := advs[k].used + x))]
  }

  /** The cron bills the active subscriptions whose billing day is today. */
  predicate CronCandidate(s: Subscription, today: Date)
  {
    s.status == Active && s.billingDay == today.day
  }

  /** Does the cron draw on an advance for this subscription: the first usable one covers the price? */
  predicate Draws(advs: seq<AdvancePayment>, sub: nat, price: Cents)
  {
    var k := LatestAdvance(advs, sub);
    k.Some? && advs[k.value].remaining >= price
  }

  /**
   * A candidate of the cron without a bill for the month. The advance is drawn before the
   * insert, so a subscription whose insert raises (`fails`) keeps the draw.
   */
  function CronBill(r: Run, i: nat, price: Cents, today: Date, fails: map<nat, string>): Run
    requires ValidDate(today)
  {
    var draw := Draws(r.advances, i, price);
    var advances := if draw then Drawn(r.advances, LatestAdvance(r.advances, i).value, price) else r.advances;
    var r1 := r.(advances := advances);
    if i in fails then r1.(errors := r1.errors + [fails[i]])
    else Created(r1, NewBill(i, today.year, today.month, today, Some(AddDays(today, 7)), price,
                             if draw then price else 0, None))
  }

  /** One subscription of `generate_monthly_bills` in `cron/auto_billing.py`. */
  function CronStep(r: Run, subs: seq<Subscription>, packages: seq<Package>, i: nat,
                    today: Date, fails: map<nat, string>): Run
    requires i < |subs| && PackagesKnown(subs, packages) && ValidDate(today)
  {
    var s := subs[i];
    if !CronCandidate(s, today) then r
    else if FindBill(r.bills, i, today.year, today.month).Some? then r.(skipped := r.skipped + 1)
    else CronBill(r, i, packages[s.package].price, today, fails)
  }

  function CronUpTo(r: Run, subs: seq<Subscription>, packages: seq<Package>, n: nat,
                    today: Date, fails: map<nat, string>): Run
    requires n <= |subs| && PackagesKnown(subs, packages) && ValidDate(today)
  {
    if n == 0 then r
    else CronStep(CronUpTo(r, subs, packages, n - 1, today, fails), subs, packages, n - 1, today, fails)
  }

  function CandidateCount(subs: seq<Subscription>, n: nat, today: Date): nat
    requires n <= |subs|
  {
    if n == 0 then 0 else CandidateCount(subs, n - 1, today) + (if CronCandidate(subs[n - 1], today) then 1 else 0)
  }

  /** Every candidate is created, skipped or counted as an error. */
  lemma {:induction false} CronTally(r: Run, subs: seq<Subscription>, packages: seq<Package>, n: nat,
                                     today: Date, fails: map<nat, string>)
    requires n <= |subs| && PackagesKnown(subs, packages) && ValidDate(today)
    ensures var q := CronUpTo(r, subs, packages, n, today, fails);
      q.created + q.skipped + |q.errors| == r.created + r.skipped + |r.errors| + CandidateCount(subs, n, today)
  {
    if n > 0 {
      CronTally(r, subs, packages, n - 1, today, fails);
    }
  }

  /**
   * A candidate without a bill for the month: when the first usable advance covers the
   * package price its `used_amount` grows by exactly the price and the new bill is paid
   * with that amount; otherwise the advances are untouched and the bill starts unpaid. The
   * bill carries no discount or other charges, today's date and a due date a week later.
   */
  lemma CronDraw(r: Run, subs: seq<Subscription>, packages: seq<Package>, i: nat,
                 today: Date, fails: map<nat, string>)
    requires i < |subs| && PackagesKnown(subs, packages) && ValidDate(today)
    requires CronCandidate(subs[i], today) && FindBill(r.bills, i, today.year, today.month).None?
    requires i !in fails
    ensures var q := CronStep(r, subs, packages, i, today, fails);
      var price := packages[subs[i].package].price;
      var b := q.bills[|q.bills| - 1];
      && |q.bills| == |r.bills| + 1 && q.bills[..|r.bills|] == r.bills
      && b.subscription == i && b.year == today.year && b.month == today.month
      && b.packagePrice == price && b.discount == 0 && b.otherCharges == 0
      && b.billingDate == today && b.dueDate == Some(AddDays(today, 7)) && b.generatedBy.None?
      && |q.advances| == |r.advances|
      && (Draws(r.advances, i, price) ==>
            var k := LatestAdvance(r.advances, i).value;
            && q.advances[k].used == r.advances[k].used + price
            && q.advances[k].remaining == q.advances[k].amount - q.advances[k].used
            && (forall j :: 0 <= j < |r.advances| && j != k ==> q.advances[j] == r.advances[j])
            && b.paid == price && b.status == Paid)
      && (!Draws(r.advances, i, price) ==> q.advances == r.advances && b.paid == 0)
  {
    var q := CronStep(r, subs, packages, i, today, fails);
    assert q.bills[..|r.bills|] == r.bills;
  }

  /** The cron only appends bills and, once run, every candidate that did not fail is billed. */
  lemma {:induction false} CronCovers(r: Run, subs: seq<Subscription>, packages: seq<Package>, n: nat,
                                      today: Date, fails: map<nat, string>)
    requires n <= |subs| && PackagesKnown(subs, packages) && ValidDate(today)
    ensures var q := CronUpTo(r, subs, packages, n, today, fails);
      && Extends(r, q)
      && (forall j :: 0 <= j < n && CronCandidate(subs[j], today) && j !in fails ==>
            FindBill(q.bills, j, today.year, today.month).Some?)
  {
    if n > 0 {
      CronCovers(r, subs, packages, n - 1, today, fails);
      var q0 := CronUpTo(r, subs, packages, n - 1, today, fails);
      var q := CronUpTo(r, subs, packages, n, today, fails);
      assert Extends(q0, q);
      assert q.bills[..|r.bills|] == q0.bills[..|r.bills|];
      forall j | 0 <= j < n && CronCandidate(subs[j], today) && j !in fails
        ensures FindBill(q.bills, j, today.year, today.month).Some?
      {
        if j < n - 1 {
          FindBillExtends(q0.bills, q.bills, j, today.year, today.month);
        } else if FindBill(q0.bills, j, today.year, today.month).None? {
          var last := |q.bills| - 1;
          assert q.bills[last].subscription == j && q.bills[last].year == today.year;
        }
      }
    }
  }

  /** Once every candidate is billed, a run changes no bill and no advance and creates nothing. */
  lemma {:induction false} CronRerun(r: Run, subs: seq<Subscription>, packages: seq<Package>, n: nat,
                                     today: Date, fails: map<nat, string>)
    requires n <= |subs| && PackagesKnown(subs, packages) && ValidDate(today)
    requires forall j :: 0 <= j < n && CronCandidate(subs[j], today) ==>
      FindBill(r.bills, j, today.year, today.month).Some?
    ensures var q := CronUpTo(r, subs, packages, n, today, fails);
      q.bills == r.bills && q.advances == r.advances && q.created == r.created
  {
    if n > 0 {
      CronRerun(r, subs, packages, n - 1, today, fails);
    }
  }

  /** A rerun on the same day after a run without failures changes nothing. */
  lemma CronIdempotent(r: Run, subs: seq<Subscription>, packages: seq<Package>, today: Date)
    requires PackagesKnown(subs, packages) && ValidDate(today)
    ensures var q := CronUpTo(r, subs, packages, |subs|, today, map[]);
      var q2 := CronUpTo(q, subs, packages, |subs|, today, map[]);
      q2.bills == q.bills && q2.advances == q.advances && q2.created == q.created
  {
    var q := CronUpTo(r, subs, packages, |subs|, today, map[]);
    CronCovers(r, subs, packages, |subs|, today, map[]);
    CronRerun(q, subs, packages, |subs|, today, map[]);
  }

  /** The body of the cron loop for a candidate without a bill: draw, then insert. */
  method BillCandidate(t: BillingTables, i: nat, price: Cents, today: Date, fails: map<nat, string>)
    returns (failed: bool)
    requires t.Valid() && ValidDate(today) && FindBill(t.bills, i, today.year, today.month).None?
    modifies t`bills, t`advances
    ensures t.Valid() && failed == (i in fails)
    ensures var q := CronBill(Run(old(t.bills), old(t.advances), 0, 0, []), i, price, today, fails);
      t.bills == q.bills && t.advances == q.advances
  {
    ghost var r0 := Run(t.bills, t.advances, 0, 0, []);
    var draw := Draws(t.advances, i, price);
    if draw {
      t.DrawAdvance(LatestAdvance(t.advances, i).value, price);
    }
    ghost var r1 := Run(t.bills, t.advances, 0, 0, []);
    assert r1 == r0.(advances := if draw then Drawn(r0.advances, LatestAdvance(r0.advances, i).value, price) else r0.advances);
    if i in fails {
      return true;
    }
    var b := NewBill(i, today.year, today.month, today, Some(AddDays(today, 7)), price, if draw then price else 0, None);
    var res := t.CreateBill(b);
    assert t.bills == Created(r1, b).bills;
    return false;
  }

  /** `generate_monthly_bills` of `cron/auto_billing.py`, run on `today`. */
  method CronGenerate(t: BillingTables, subs: seq<Subscription>, packages: seq<Package>,
                      today: Date, fails: map<nat, string>)
    returns (created: nat, skipped: nat, errors: nat)
    requires t.Valid() && PackagesKnown(subs, packages) && ValidDate(today)
    modifies t`bills, t`advances
    ensures t.Valid()
    ensures var q := CronUpTo(Run(old(t.bills), old(t.advances), 0, 0, []), subs, packages, |subs|, today, fails);
      t.bills == q.bills && t.advances == q.advances
      && created == q.created && skipped == q.skipped && errors == |q.errors|
  {
    created, skipped, errors := 0, 0, 0;
    ghost var r0 := Run(old(t.bills), old(t.advances), 0, 0, []);
    for i := 0 to |subs|
      invariant t.Valid()
      invariant var q := CronUpTo(r0, subs, packages, i, today, fails);
        t.bills == q.bills && t.advances == q.advances
        && created == q.created && skipped == q.skipped && errors == |q.errors|
    {
      var s := subs[i];
      if !CronCandidate(s, today) {
        continue;
      }
      if FindBill(t.bills, i, today.year, today.month).Some? {
        skipped := skipped + 1;
        continue;
      }
      var failed := BillCandidate(t, i, packages[s.package].price, today, fails);
      if failed {
        errors := errors + 1;
      } else {
        created := created + 1;
      }
    }
  }

  // ---------------------------------------------------------------- the overdue sweep

  /** `check_overdue_bills` selects pending and partial bills whose due date has passed. */
  predicate PastDue(b: Bill, today: Date)
  {
    (b.status == Pending || b.status == Partial) && b.dueDate.Some? && Before(b.dueDate.value, today)
  }

  /** What the sweep does to one bill: `status = 'overdue'` and `save()` for a selected bill. */
  function SweepBill(b: Bill, today: Date): Bill
  {
    if PastDue(b, today) then Settle(b.(status := Overdue)) else b
  }

  function Swept(bills: seq<Bill>, today: Date): (r: seq<Bill>)
    ensures |r| == |bills|
    ensures forall i :: 0 <= i < |bills| ==> r[i] == SweepBill(bills[i], today)
  {
    seq(|bills|, i requires 0 <= i < |bills| => SweepBill(bills[i], today))
  }

  function PastDueCount(bills: seq<Bill>, today: Date): nat
  {
    if bills == [] then 0
    else PastDueCount(bills[..|bills| - 1], today) + (if PastDue(bills[|bills| - 1], today) then 1 else 0)
  }

  /**
   * The sweep on a saved bill: an unpaid bill past its due date becomes overdue, but a
   * partly paid one is re-derived as partial by `Bill.save`; bills not selected are left
   * alone; the result is again consistent.
   */
  lemma SweepEffect(b: Bill, today: Date)
    requires Consistent(b)
    ensures Consistent(SweepBill(b, today))
    ensures PastDue(b, today) && b.paid <= 0 && b.paid < b.total ==> SweepBill(b, today).status == Overdue
    ensures PastDue(b, today) && 0 < b.paid < b.total ==> SweepBill(b, today).status == Partial
    ensures !PastDue(b, today) ==> SweepBill(b, today) == b
    ensures SweepBill(b, today).paid == b.paid && SweepBill(b, today).total == b.total
  {
  }

  /** Sweeping saved bills twice is sweeping them once. */
  lemma SweepIdempotent(bills: seq<Bill>, today: Date)
    requires forall i :: 0 <= i < |bills| ==> Consistent(bills[i])
    ensures Swept(Swept(bills, today), today) == Swept(bills, today)
  {
    forall i | 0 <= i < |bills|
      ensures SweepBill(SweepBill(bills[i], today), today) == SweepBill(bills[i], today)
    {
      var b := bills[i];
      if PastDue(b, today) {
        var s := Settle(b.(status := Overdue));
        if PastDue(s, today) {
          assert s.status == Partial;
          assert Settle(s.(status := Overdue)) == s;
        }
      }
    }
  }

  /** `check_overdue_bills`: every selected bill is marked overdue and saved; the count is returned. */
  method MarkOverdue(t: BillingTables, today: Date) returns (updated: nat)
    requires t.Valid()
    modifies t`bills
    ensures t.Valid()
    ensures t.bills == Swept(old(t.bills), today)
    ensures updated == PastDueCount(old(t.bills), today)
  {
    updated := 0;
    ghost var bills0 := t.bills;
    for i := 0 to |t.bills|
      invariant t.Valid() && |t.bills| == |bills0|
      invariant forall j :: 0 <= j < i ==> t.bills[j] == SweepBill(bills0[j], today)
      invariant forall j :: i <= j < |t.bills| ==> t.bills[j] == bills0[j]
      invariant updated == PastDueCount(bills0[..i], today)
    {
      assert bills0[..i + 1][..i] == bills0[..i];
      if PastDue(t.bills[i], today) {
        var b := t.bills[i];
        t.bills := t.bills[i := b.(status := Overdue)];
        t.SaveBill(i);
        updated := updated + 1;
      }
    }
    assert bills0[..|bills0|] == bills0;
  }
}
