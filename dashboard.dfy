/**
 * The dashboard endpoints: the month compared against, revenue growth, router and bill
 * counts, the merged feed of recent activity and the "time ago" strings shown with it.
 * Instants are whole seconds.
 */
module Dashboard {
  import opened Common
  import opened Text
  import opened Ledger
  import opened RouterGateway

  // ---------------------------------------------------------------- overview

  /** The month before (year, month): December of the year before for January. */
  function PreviousMonth(year: int, month: int): (r: (int, int))
    requires 1 <= month <= 12
    ensures r == ShiftMonth(year, month, -1)
    ensures month == 1 ==> r == (year - 1, 12)
    ensures month > 1 ==> r == (year, month - 1)
  {
    if month > 1 then (year, month - 1) else (year - 1, 12)
  }

  /**
   * Revenue growth in percent as an exact fraction `num / den`: 0 when last month's revenue
   * is not positive, else the change relative to last month.
   */
  function RevenueGrowth(current: Cents, last: Cents): (r: (int, int))
    ensures r.1 > 0
    ensures last <= 0 ==> r.0 == 0
    ensures last > 0 ==> r.0 * last == (current - last) * 100 * r.1
  {
    if last > 0 then ((current - last) * 100, last) else (0, 1)
  }

  /**
   * With revenue last month, growth is positive exactly when this month earned more, zero
   * exactly when it earned the same, and 100 percent exactly when it doubled.
   */
  lemma GrowthMeaning(current: Cents, last: Cents)
    requires last > 0
    ensures var (num, den) := RevenueGrowth(current, last);
      && (num > 0 <==> current > last)
      && (num == 0 <==> current == last)
      && (num == 100 * den <==> current == 2 * last)
  {
  }

  function OnlineCount(rs: seq<RouterState>): (n: nat)
    ensures n <= |rs|
  {
    if rs == [] then 0 else OnlineCount(rs[..|rs| - 1]) + (if rs[|rs| - 1].isOnline then 1 else 0)
  }

  function OfflineCount(rs: seq<RouterState>): nat
  {
    if rs == [] then 0 else OfflineCount(rs[..|rs| - 1]) + (if rs[|rs| - 1].isOnline then 0 else 1)
  }

  /** Every router is online or offline, so the routers not online are the offline ones. */
  lemma {:induction false} OnlineOfflinePartition(rs: seq<RouterState>)
    ensures OnlineCount(rs) + OfflineCount(rs) == |rs|
  {
    if rs != [] {
      OnlineOfflinePartition(rs[..|rs| - 1]);
    }
  }

  function CountStatus(bills: seq<Bill>, s: BillStatus): (n: nat)
    ensures n <= |bills|
  {
    if bills == [] then 0 else CountStatus(bills[..|bills| - 1], s) + (if bills[|bills| - 1].status == s then 1 else 0)
  }

  /** Each bill has exactly one of the five statuses. */
  lemma {:induction false} StatusPartition(bills: seq<Bill>)
    ensures CountStatus(bills, Pending) + CountStatus(bills, Paid) + CountStatus(bills, Partial)
            + CountStatus(bills, Overdue) + CountStatus(bills, Cancelled) == |bills|
  {
    if bills != [] {
      StatusPartition(bills[..|bills| - 1]);
    }
  }

  /** The router and bill figures of `DashboardOverviewView`. */
  datatype Counts = Counts(routers: nat, online: nat, offline: int, pending: nat, paid: nat, partial: nat, bills: nat)

  /**
   * The offline figure is total minus online, which is the number of routers not online;
   * the bill total adds pending, paid and partial, so it leaves out overdue and cancelled bills.
   */
  function Overview(rs: seq<RouterState>, bills: seq<Bill>): (c: Counts)
    ensures c.offline == OfflineCount(rs) && c.online + c.offline == c.routers == |rs|
    ensures c.bills == |bills| - CountStatus(bills, Overdue) - CountStatus(bills, Cancelled)
    ensures c.bills == c.pending + c.paid + c.partial
  {
    OnlineOfflinePartition(rs);
    StatusPartition(bills);
    var pending := CountStatus(bills, Pending);
    var paid := CountStatus(bills, Paid);
    var partial := CountStatus(bills, Partial);
    Counts(|rs|, OnlineCount(rs), |rs| - OnlineCount(rs), pending, paid, partial, pending + paid + partial)
  }

  // ---------------------------------------------------------------- time ago

  /** "N unit ago", with the plural "s" only when N is more than 1. */
  function Ago(n: int, unit: string): string
  {
    IntToString(n) + " " + unit + (if n > 1 then "s" else "") + " ago"
  }

  /**
   * `_get_time_ago` for an instant `diff` seconds in the past: the difference is split into
   * whole days and the remaining seconds of the day, as a time delta is.
   */
  function TimeAgo(diff: int): string
  {
    var days := diff / 86400;
    var seconds := diff % 86400;
    if days > 0 then Ago(days, "day")
    else if seconds >= 3600 then Ago(seconds / 3600, "hour")
    else if seconds >= 60 then Ago(seconds / 60, "minute")
    else "Just now"
  }

  /** A day or more reads in days, an hour or more in hours, a minute or more in minutes, less than that as "Just now". */
  lemma TimeAgoCases(diff: int)
    ensures diff >= 86400 ==> TimeAgo(diff) == Ago(diff / 86400, "day")
    ensures 3600 <= diff < 86400 ==> TimeAgo(diff) == Ago(diff / 3600, "hour")
    ensures 60 <= diff < 3600 ==> TimeAgo(diff) == Ago(diff / 60, "minute")
    ensures 0 <= diff < 60 ==> TimeAgo(diff) == "Just now"
  {
    if diff >= 86400 {
      assert diff / 86400 >= 1;
    } else if diff >= 0 {
      assert diff / 86400 == 0 && diff % 86400 == diff;
    }
  }

  /** One unit of time reads in the singular. */
  lemma TimeAgoSingular(diff: int)
    ensures 86400 <= diff < 2 * 86400 ==> TimeAgo(diff) == "1 day ago"
    ensures 3600 <= diff < 7200 ==> TimeAgo(diff) == "1 hour ago"
    ensures 60 <= diff < 120 ==> TimeAgo(diff) == "1 minute ago"
  {
    TimeAgoCases(diff);
    AgoOnes();
    if 86400 <= diff < 2 * 86400 {
      assert diff / 86400 == 1;
    } else if 3600 <= diff < 7200 {
      assert diff / 3600 == 1;
    } else if 60 <= diff < 120 {
      assert diff / 60 == 1;
    }
  }

  lemma AgoOnes()
    ensures Ago(1, "day") == "1 day ago" && Ago(1, "hour") == "1 hour ago" && Ago(1, "minute") == "1 minute ago"
  {
    assert IntToString(1) == "1";
  }

  // ---------------------------------------------------------------- recent activity

  /** A feed entry: its kind, message, instant and "time ago" text. */
  datatype Activity = Activity(kind: string, message: string, timestamp: int, timeAgo: string)

  /** A completed payment, newest first as queried. */
  datatype PaymentRow = PaymentRow(customerName: string, paidAt: int)
  /** A customer, newest first as queried. */
  datatype CustomerRow = CustomerRow(name: string, createdAt: int)
  /** A pending bill, newest first as queried. */
  datatype PendingRow = PendingRow(customerName: string, createdAt: int)

  function PaymentActivity(p: PaymentRow, now: int): Activity
  {
    Activity("payment", "Payment received from " + p.customerName, p.paidAt, TimeAgo(now - p.paidAt))
  }

  function CustomerActivity(c: CustomerRow, now: int): Activity
  {
    Activity("customer", "New customer added: " + c.name, c.createdAt, TimeAgo(now - c.createdAt))
  }

  function PendingActivity(b: PendingRow, now: int): Activity
  {
    Activity("pending", "Pending bill: " + b.customerName, b.createdAt, TimeAgo(now - b.createdAt))
  }

  function PaymentActivities(ps: seq<PaymentRow>, now: int): (r: seq<Activity>)
    ensures |r| == |ps|
  {
    if ps == [] then [] else PaymentActivities(ps[..|ps| - 1], now) + [PaymentActivity(ps[|ps| - 1], now)]
  }

  function CustomerActivities(cs: seq<CustomerRow>, now: int): (r: seq<Activity>)
    ensures |r| == |cs|
  {
    if cs == [] then [] else CustomerActivities(cs[..|cs| - 1], now) + [CustomerActivity(cs[|cs| - 1], now)]
  }

  function PendingActivities(bs: seq<PendingRow>, now: int): (r: seq<Activity>)
    ensures |r| == |bs|
  {
    if bs == [] then [] else PendingActivities(bs[..|bs| - 1], now) + [PendingActivity(bs[|bs| - 1], now)]
  }

  /** The entries in the order the view appends them: payments, customers, pending bills. */
  function Merged(ps: seq<PaymentRow>, cs: seq<CustomerRow>, bs: seq<PendingRow>, now: int): (r: seq<Activity>)
    ensures |r| == |ps| + |cs| + |bs|
  {
    PaymentActivities(ps, now) + CustomerActivities(cs, now) + PendingActivities(bs, now)
  }

  /** Newest first. */
  predicate NewestFirst(s: seq<Activity>)
  {
    forall i, j :: 0 <= i < j < |s| ==> s[i].timestamp >= s[j].timestamp
  }

  /** No entry is newer than `t`. */
  predicate NoneNewer(s: seq<Activity>, t: int)
  {
    forall i :: 0 <= i < |s| ==> s[i].timestamp <= t
  }

  /** Put `x` after every entry at least as new, so that equal instants keep their order. */
  function Insert(s: seq<Activity>, x: Activity): (r: seq<Activity>)
    ensures multiset(r) == multiset(s) + multiset{x}
  {
    if s == [] then [x]
    else if s[0].timestamp >= x.timestamp then
      assert s == [s[0]] + s[1..];
      [s[0]] + Insert(s[1..], x)
    else
      [x] + s
  }

  lemma {:induction false} InsertNoneNewer(s: seq<Activity>, x: Activity, t: int)
    requires NoneNewer(s, t) && x.timestamp <= t
    ensures NoneNewer(Insert(s, x), t)
  {
    if s != [] && s[0].timestamp >= x.timestamp {
      InsertNoneNewer(s[1..], x, t);
    }
  }

  /** Inserting into a newest-first sequence keeps it newest first. */
  lemma {:induction false} InsertKeepsOrder(s: seq<Activity>, x: Activity)
    requires NewestFirst(s)
    ensures NewestFirst(Insert(s, x))
  {
    if s != [] && s[0].timestamp >= x.timestamp {
      var rest := Insert(s[1..], x);
      InsertKeepsOrder(s[1..], x);
      InsertNoneNewer(s[1..], x, s[0].timestamp);
      assert Insert(s, x) == [s[0]] + rest;
    }
  }

  /** The stable newest-first sort of `activities.sort(key=timestamp, reverse=True)`. */
  function SortNewestFirst(s: seq<Activity>): (r: seq<Activity>)
    ensures multiset(r) == multiset(s)
  {
    if s == [] then []
    else
      assert s == s[..|s| - 1] + [s[|s| - 1]];
      Insert(SortNewestFirst(s[..|s| - 1]), s[|s| - 1])
  }

  lemma {:induction false} SortIsNewestFirst(s: seq<Activity>)
    ensures NewestFirst(SortNewestFirst(s))
  {
    if s != [] {
      SortIsNewestFirst(s[..|s| - 1]);
      InsertKeepsOrder(SortNewestFirst(s[..|s| - 1]), s[|s| - 1]);
    }
  }

  function Take<T>(s: seq<T>, n: nat): (r: seq<T>)
    ensures |r| == if n < |s| then n else |s|
  {
    if n < |s| then s[..n] else s
  }

  /**
   * `RecentActivityView.get`: at most `limit` of each kind, merged, newest first, cut to
   * `limit`. A negative limit cannot slice a query and fails.
   */
  function RecentSpec(ps: seq<PaymentRow>, cs: seq<CustomerRow>, bs: seq<PendingRow>, limit: int, now: int)
    : (r: Result<seq<Activity>>)
    ensures limit < 0 <==> r.Err?
  {
    if limit < 0 then Err("Negative indexing is not supported.")
    else Ok(Take(SortNewestFirst(Merged(Take(ps, limit), Take(cs, limit), Take(bs, limit), now)), limit))
  }

  /**
   * The feed holds min(limit, entries) entries, newest first, each one of the merged
   * entries, and none of the entries cut off is newer than an entry kept.
   */
  /** The first `n` of a newest-first sequence: newest first, drawn from it, and none left out is newer. */
  lemma TakeNewest(s: seq<Activity>, n: nat)
    requires NewestFirst(s)
    ensures var r := Take(s, n);
      && NewestFirst(r)
      && multiset(r) <= multiset(s)
      && forall i, j :: 0 <= i < |r| <= j < |s| ==> r[i].timestamp >= s[j].timestamp
  {
    var r := Take(s, n);
    assert s == r + s[|r|..];
  }

  lemma RecentIsTopEntries(ps: seq<PaymentRow>, cs: seq<CustomerRow>, bs: seq<PendingRow>, limit: int, now: int)
    requires limit >= 0
    ensures var all := Merged(Take(ps, limit), Take(cs, limit), Take(bs, limit), now);
      var sorted := SortNewestFirst(all);
      var r := RecentSpec(ps, cs, bs, limit, now).value;
      && |r| == (if limit < |all| then limit else |all|)
      && NewestFirst(r)
      && multiset(r) <= multiset(all)
      && forall i, j :: 0 <= i < |r| <= j < |sorted| ==> r[i].timestamp >= sorted[j].timestamp
  {
    var all := Merged(Take(ps, limit), Take(cs, limit), Take(bs, limit), now);
    SortIsNewestFirst(all);
    TakeNewest(SortNewestFirst(all), limit);
  }

  /** The three appending loops of the view. */
  method Collect(payments: seq<PaymentRow>, customers: seq<CustomerRow>, pending: seq<PendingRow>, now: int)
    returns (activities: seq<Activity>)
    ensures activities == Merged(payments, customers, pending, now)
  {
    activities := [];
    for k := 0 to |payments|
      invariant activities == PaymentActivities(payments[..k], now)
    {
      assert payments[..k + 1][..k] == payments[..k];
      activities := activities + [PaymentActivity(payments[k], now)];
    }
    assert payments[..|payments|] == payments;
    var more := [];
    for k := 0 to |customers|
      invariant more == CustomerActivities(customers[..k], now)
    {
      assert customers[..k + 1][..k] == customers[..k];
      more := more + [CustomerActivity(customers[k], now)];
    }
    assert customers[..|customers|] == customers;
    activities := activities + more;
    more := [];
    for k := 0 to |pending|
      invariant more == PendingActivities(pending[..k], now)
    {
      assert pending[..k + 1][..k] == pending[..k];
      more := more + [PendingActivity(pending[k], now)];
    }
    assert pending[..|pending|] == pending;
    activities := activities + more;
  }

  /** The in-place sort of the view, as one insertion per entry. */
  method Sort(activities: seq<Activity>) returns (sorted: seq<Activity>)
    ensures sorted == SortNewestFirst(activities)
  {
    sorted := [];
    for k := 0 to |activities|
      invariant sorted == SortNewestFirst(activities[..k])
    {
      assert activities[..k + 1][..k] == activities[..k];
      sorted := Insert(sorted, activities[k]);
    }
    assert activities[..|activities|] == activities;
  }

  method RecentActivity(ps: seq<PaymentRow>, cs: seq<CustomerRow>, bs: seq<PendingRow>, limit: int, now: int)
    returns (r: Result<seq<Activity>>)
    ensures r == RecentSpec(ps, cs, bs, limit, now)
  {
    if limit < 0 {
      return Err("Negative indexing is not supported.");
    }
    var activities := Collect(Take(ps, limit), Take(cs, limit), Take(bs, limit), now);
    var sorted := Sort(activities);
    return Ok(Take(sorted, limit));
  }
}
