/**
 * The two versions of the job that suspends customers whose bill for the current month is
 * still unpaid after their billing day:
 *  - the hourly task of the backend, which disables the PPPoE secret on the router first and
 *    suspends the subscription only when the router accepted;
 *  - the scheduled job, which runs only when its configuration row is enabled, suspends the
 *    subscription first and then calls a service method that does not exist, so the router
 *    is never touched.
 */
module SuspensionJobs {
  import opened Common
  import opened Ledger
  import opened Subscriptions
  import opened RouterGateway
  import opened Records

  /** Everything a run reads and writes, and `disabled_count`. */
  datatype Sweep = Sweep(subs: seq<Subscription>, bills: seq<Bill>, routers: map<nat, RouterState>, disabled: nat)

  /** Picked by the query (active, with a router) and past its billing day. */
  predicate Expired(s: Subscription, today: Date)
  {
    s.status == Active && s.router.Some? && today.day > s.billingDay
  }

  /** `status in ['pending', 'partial', 'overdue']`. */
  predicate Unpaid(b: Bill)
  {
    b.status == Pending || b.status == Partial || b.status == Overdue
  }

  /** The bill of the subscription at position `i` for the month of `today`. */
  function CurrentBill(bills: seq<Bill>, i: nat, today: Date): Option<nat>
  {
    FindBill(bills, i, today.year, today.month)
  }

  /** The subscriptions the loop disables: expired, with a current bill that is unpaid. */
  predicate Selected(subs: seq<Subscription>, bills: seq<Bill>, i: nat, today: Date)
  {
    && i < |subs| && Expired(subs[i], today)
    && CurrentBill(bills, i, today).Some? && Unpaid(bills[CurrentBill(bills, i, today).value])
  }

  /** `Selected` on the tables of a sweep. */
  predicate SelectedIn(w: Sweep, i: nat, today: Date)
  {
    Selected(w.subs, w.bills, i, today)
  }

  /** How many of the first `n` subscriptions are selected. */
  function SelectedCount(subs: seq<Subscription>, bills: seq<Bill>, n: nat, today: Date): nat
  {
    if n == 0 then 0
    else SelectedCount(subs, bills, n - 1, today) + (if Selected(subs, bills, n - 1, today) then 1 else 0)
  }

  /** The billing period of each bill: subscription, year and month. */
  function Periods(bills: seq<Bill>): (r: seq<(nat, int, int)>)
    ensures |r| == |bills|
  {
    seq(|bills|, k requires 0 <= k < |bills| => (bills[k].subscription, bills[k].year, bills[k].month))
  }

  /**
   * What every run keeps: the rows of both tables, the billing period of each bill and the
   * set of routers. Which statuses it changes is `OutcomeA`'s business.
   */
  predicate Frame(w0: Sweep, w: Sweep)
  {
    && |w.subs| == |w0.subs|
    && Periods(w.bills) == Periods(w0.bills)
    && w.routers.Keys == w0.routers.Keys
  }

  /** Read element by element, a frame keeps every bill's period. */
  lemma FrameElements(w0: Sweep, w: Sweep)
    requires Frame(w0, w)
    ensures |w.bills| == |w0.bills|
    ensures forall k :: 0 <= k < |w0.bills| ==> SamePeriod(w.bills[k], w0.bills[k])
  {
    forall k | 0 <= k < |w0.bills| ensures SamePeriod(w.bills[k], w0.bills[k]) {
      assert Periods(w.bills)[k] == Periods(w0.bills)[k];
    }
  }

  /** The bill lookup sees only the period of each bill, so a run never moves a bill. */
  lemma {:induction false} FindBillSamePeriods(a: seq<Bill>, b: seq<Bill>, sub: nat, year: int, month: int)
    requires |a| == |b| && forall k :: 0 <= k < |a| ==> SamePeriod(a[k], b[k])
    ensures FindBill(a, sub, year, month) == FindBill(b, sub, year, month)
    decreases |a|
  {
    if a != [] {
      var last := |a| - 1;
      FindBillSamePeriods(a[..last], b[..last], sub, year, month);
    }
  }

  /** The subscription at `j` and the bills it owns are as they were. */
  predicate Untouched(w0: Sweep, w: Sweep, j: nat)
    requires Frame(w0, w) && j < |w0.subs|
  {
    assert |Periods(w.bills)| == |Periods(w0.bills)|;
    && w.subs[j] == w0.subs[j]
    && forall k :: 0 <= k < |w0.bills| && w0.bills[k].subscription == j ==> w.bills[k] == w0.bills[k]
  }

  /** The save of a bill marked overdue: a partly paid bill comes back as partial. */
  function MarkedOverdue(b: Bill): Bill
  {
    Settle(b.(status := Overdue))
  }

  // ---------------------------------------------------------------- the backend's hourly task

  /**
   * `disable_subscription` of the hourly task: the router's secret is disabled; only when that
   * succeeds the subscription is suspended and its bill is marked overdue and saved.
   */
  function DisableA(w: Sweep, i: nat, k: nat, env: Env): (r: Sweep)
    requires i < |w.subs| && k < |w.bills| && RoutersKnown(w.subs, w.routers) && w.subs[i].router.Some?
    ensures |r.subs| == |w.subs| && |r.bills| == |w.bills| && RoutersKnown(r.subs, r.routers) && r.disabled == w.disabled
    ensures Frame(w, r)
  {
    var s := w.subs[i];
    var rid := s.router.value;
    var res := SetDisabledSpec(w.routers[rid], s.username, "yes", env);
    SettleKeepsInputs(w.bills[k].(status := Overdue));
    if res.ok then Sweep(w.subs[i := s.(status := Suspended)], w.bills[k := MarkedOverdue(w.bills[k])],
                         w.routers[rid := res.state], w.disabled)
    else Sweep(w.subs, w.bills, w.routers[rid := res.state], w.disabled)
  }

  /** One iteration of the loop; `env` is what the router does for this subscription. */
  function StepA(w: Sweep, i: nat, today: Date, env: Env): (r: Sweep)
    requires i < |w.subs| && RoutersKnown(w.subs, w.routers)
    ensures |r.subs| == |w.subs| && |r.bills| == |w.bills| && RoutersKnown(r.subs, r.routers)
    ensures r.disabled == if Selected(w.subs, w.bills, i, today) then w.disabled + 1 else w.disabled
    ensures Frame(w, r)
  {
    if Selected(w.subs, w.bills, i, today) then
      var r := DisableA(w, i, CurrentBill(w.bills, i, today).value, env);
      r.(disabled := r.disabled + 1)
    else w
  }

  /** The loop after its first `n` iterations. */
  function RunA(w: Sweep, n: nat, today: Date, envs: nat -> Env): (r: Sweep)
    requires n <= |w.subs| && RoutersKnown(w.subs, w.routers)
    ensures |r.subs| == |w.subs| && |r.bills| == |w.bills| && RoutersKnown(r.subs, r.routers)
    ensures Frame(w, r)
  {
    if n == 0 then w
    else
      var p := RunA(w, n - 1, today, envs);
      var r := StepA(p, n - 1, today, envs(n - 1));
      FrameTrans(w, p, r);
      r
  }

  /**
   * One iteration changes at most the subscription it handles and that subscription's
   * current bill, and then both together or neither, and counts it when selected.
   */
  lemma StepAEffect(p: Sweep, i: nat, today: Date, env: Env)
    requires i < |p.subs| && RoutersKnown(p.subs, p.routers)
    ensures var w := StepA(p, i, today, env);
      && Frame(p, w)
      && (forall j :: 0 <= j < |p.subs| && j != i ==> w.subs[j] == p.subs[j])
      && (forall k :: 0 <= k < |p.bills| && p.bills[k].subscription != i ==> w.bills[k] == p.bills[k])
      && (!Selected(p.subs, p.bills, i, today) ==> w == p)
      && (Selected(p.subs, p.bills, i, today) ==>
            var k := CurrentBill(p.bills, i, today).value;
            && w.disabled == p.disabled + 1
            && ((w.subs == p.subs && w.bills == p.bills)
                || (w.subs == p.subs[i := p.subs[i].(status := Suspended)]
                    && w.bills == p.bills[k := MarkedOverdue(p.bills[k])])))
  {
    if Selected(p.subs, p.bills, i, today) {
      var k := CurrentBill(p.bills, i, today).value;
      SettleKeepsInputs(p.bills[k].(status := Overdue));
    }
  }

  /** An iteration leaves the other subscriptions and their bills alone. */
  lemma StepAOthers(p: Sweep, i: nat, today: Date, env: Env)
    requires i < |p.subs| && RoutersKnown(p.subs, p.routers)
    ensures var w := StepA(p, i, today, env);
      && (forall j :: 0 <= j < |p.subs| && j != i ==> w.subs[j] == p.subs[j])
      && (forall k :: 0 <= k < |p.bills| && p.bills[k].subscription != i ==> w.bills[k] == p.bills[k])
  {
    StepAEffect(p, i, today, env);
  }

  lemma FrameTrans(a: Sweep, b: Sweep, c: Sweep)
    requires Frame(a, b) && Frame(b, c)
    ensures Frame(a, c)
  {
  }

  /** What the background job did to the subscription at `j`: nothing, or a complete disable. */
  predicate OutcomeA(w0: Sweep, w: Sweep, j: nat, today: Date)
    requires Frame(w0, w) && j < |w0.subs|
  {
    || Untouched(w0, w, j)
    || (&& Selected(w0.subs, w0.bills, j, today)
        && var k := CurrentBill(w0.bills, j, today).value;
        && w.subs[j] == w0.subs[j].(status := Suspended)
        && w.bills[k] == MarkedOverdue(w0.bills[k])
        && forall k' :: 0 <= k' < |w0.bills| && k' != k && w0.bills[k'].subscription == j ==> w.bills[k'] == w0.bills[k'])
  }

  /** An iteration sees the subscription it handles as the run started. */
  lemma SelectedUntouched(w0: Sweep, w: Sweep, j: nat, today: Date)
    requires Frame(w0, w) && j < |w0.subs| && Untouched(w0, w, j)
    ensures Selected(w.subs, w.bills, j, today) == Selected(w0.subs, w0.bills, j, today)
    ensures CurrentBill(w.bills, j, today) == CurrentBill(w0.bills, j, today)
  {
    FrameElements(w0, w);
    FindBillSamePeriods(w.bills, w0.bills, j, today.year, today.month);
  }

  /**
   * The loop changes only statuses and existing routers, and the iterations not yet run have
   * touched nothing of the subscriptions they will handle.
   */
  lemma {:induction false} RunABeyond(w0: Sweep, n: nat, today: Date, envs: nat -> Env)
    requires n <= |w0.subs| && RoutersKnown(w0.subs, w0.routers)
    ensures Frame(w0, RunA(w0, n, today, envs))
    ensures forall j :: n <= j < |w0.subs| ==> Untouched(w0, RunA(w0, n, today, envs), j)
  {
    if n > 0 {
      RunABeyond(w0, n - 1, today, envs);
      var p := RunA(w0, n - 1, today, envs);
      var w := RunA(w0, n, today, envs);
      StepAEffect(p, n - 1, today, envs(n - 1));
      forall j | n <= j < |w0.subs| ensures Untouched(w0, w, j) {
        assert Untouched(w0, p, j);
        forall k | 0 <= k < |w0.bills| && w0.bills[k].subscription == j ensures w.bills[k] == w0.bills[k] {
          assert p.bills[k].subscription == j;
        }
      }
    }
  }

  /** When the hourly task reaches subscription `i` it selects it exactly when it was selected at the start. */
  lemma SelectedAtA(w0: Sweep, i: nat, today: Date, envs: nat -> Env)
    requires i < |w0.subs| && RoutersKnown(w0.subs, w0.routers)
    ensures SelectedIn(RunA(w0, i, today, envs), i, today) == Selected(w0.subs, w0.bills, i, today)
  {
    RunABeyond(w0, i, today, envs);
    SelectedUntouched(w0, RunA(w0, i, today, envs), i, today);
  }

  /** `disabled_count` counts every selected subscription, whether or not its router accepted. */
  lemma {:induction false} RunACount(w0: Sweep, n: nat, today: Date, envs: nat -> Env)
    requires n <= |w0.subs| && RoutersKnown(w0.subs, w0.routers)
    ensures RunA(w0, n, today, envs).disabled == w0.disabled + SelectedCount(w0.subs, w0.bills, n, today)
  {
    if n > 0 {
      RunACount(w0, n - 1, today, envs);
      CountStep(w0, n, today, envs);
    }
  }

  /** An iteration adds one to the count exactly when its subscription was selected at the start. */
  lemma CountStep(w0: Sweep, n: nat, today: Date, envs: nat -> Env)
    requires 0 < n <= |w0.subs| && RoutersKnown(w0.subs, w0.routers)
    requires RunA(w0, n - 1, today, envs).disabled == w0.disabled + SelectedCount(w0.subs, w0.bills, n - 1, today)
    ensures RunA(w0, n, today, envs).disabled == w0.disabled + SelectedCount(w0.subs, w0.bills, n, today)
  {
    SelectedAtA(w0, n - 1, today, envs);
    var p := RunA(w0, n - 1, today, envs);
    var now, before := SelectedIn(p, n - 1, today), Selected(w0.subs, w0.bills, n - 1, today);
    assert now == before;
    assert RunA(w0, n, today, envs).disabled == p.disabled + if now then 1 else 0;
    assert SelectedCount(w0.subs, w0.bills, n, today) == SelectedCount(w0.subs, w0.bills, n - 1, today) + if before then 1 else 0;
  }

  /**
   * The hourly task, in full: every subscription ends either untouched or suspended with its
   * current bill marked overdue, and the second only when it was selected.
   */
  lemma {:induction false} RunAEffect(w0: Sweep, n: nat, today: Date, envs: nat -> Env)
    requires n <= |w0.subs| && RoutersKnown(w0.subs, w0.routers)
    ensures Frame(w0, RunA(w0, n, today, envs))
    ensures forall j :: 0 <= j < |w0.subs| ==> OutcomeA(w0, RunA(w0, n, today, envs), j, today)
  {
    RunABeyond(w0, n, today, envs);
    if n > 0 {
      RunAEffect(w0, n - 1, today, envs);
      RunABeyond(w0, n - 1, today, envs);
      var p := RunA(w0, n - 1, today, envs);
      var w := RunA(w0, n, today, envs);
      var i := n - 1;
      SelectedUntouched(w0, p, i, today);
      StepAEffect(p, i, today, envs(i));
      forall j | 0 <= j < |w0.subs| && j != i
        ensures OutcomeA(w0, w, j, today)
      {
        assert OutcomeA(w0, p, j, today);
        assert w.subs[j] == p.subs[j];
        assert forall k :: 0 <= k < |w0.bills| && w0.bills[k].subscription == j ==> w.bills[k] == p.bills[k];
      }
      assert OutcomeA(w0, w, i, today) by {
        assert Untouched(w0, p, i);
        if Selected(p.subs, p.bills, i, today) && w.subs != p.subs {
          var k := CurrentBill(p.bills, i, today).value;
          assert forall k' :: 0 <= k' < |w0.bills| && k' != k ==> w.bills[k'] == p.bills[k'];
        }
      }
    }
  }

  /** A paid bill, or the bill of a subscription the background job did not select, is never changed. */
  lemma RunAKeepsOtherBills(w0: Sweep, today: Date, envs: nat -> Env, k: nat)
    requires RoutersKnown(w0.subs, w0.routers) && k < |w0.bills|
    requires !(w0.bills[k].subscription < |w0.subs| && Selected(w0.subs, w0.bills, w0.bills[k].subscription, today))
    ensures RunA(w0, |w0.subs|, today, envs).bills[k] == w0.bills[k]
  {
    RunAEffect(w0, |w0.subs|, today, envs);
    var w := RunA(w0, |w0.subs|, today, envs);
    var j := w0.bills[k].subscription;
    if j < |w0.subs| {
      assert OutcomeA(w0, w, j, today);
    } else {
      RunAOwnBills(w0, |w0.subs|, today, envs, k);
    }
  }

  /** Each iteration writes only the bill of the subscription it handles. */
  lemma {:induction false} RunAOwnBills(w0: Sweep, n: nat, today: Date, envs: nat -> Env, k: nat)
    requires n <= |w0.subs| && RoutersKnown(w0.subs, w0.routers) && k < |w0.bills|
    requires w0.bills[k].subscription >= n
    ensures RunA(w0, n, today, envs).bills[k] == w0.bills[k]
  {
    if n > 0 {
      RunAOwnBills(w0, n - 1, today, envs, k);
      var p := RunA(w0, n - 1, today, envs);
      assert RunA(w0, n, today, envs) == StepA(p, n - 1, today, envs(n - 1));
      StepAOthers(p, n - 1, today, envs(n - 1));
    }
  }

  /** A subscription whose router refused stays selected: the next run tries it again. */
  lemma RefusedIsRetried(w0: Sweep, today: Date, envs: nat -> Env, j: nat)
    requires RoutersKnown(w0.subs, w0.routers) && j < |w0.subs| && Selected(w0.subs, w0.bills, j, today)
    requires RunA(w0, |w0.subs|, today, envs).subs[j].status == Active
    ensures var w := RunA(w0, |w0.subs|, today, envs); Selected(w.subs, w.bills, j, today)
  {
    RunAEffect(w0, |w0.subs|, today, envs);
    var w := RunA(w0, |w0.subs|, today, envs);
    assert OutcomeA(w0, w, j, today);
    SelectedUntouched(w0, w, j, today);
  }

  /** `disable_subscription` of the hourly task, on the tables. */
  method DisableSubscriptionA(st: SubscriptionTable, t: BillingTables, net: Network, i: nat, k: nat, env: Env)
    requires t.Valid() && i < |st.subs| && k < |t.bills| && RoutersKnown(st.subs, net.routers)
    requires st.subs[i].router.Some?
    modifies st`subs, t`bills, net
    ensures t.Valid()
    ensures Sweep(st.subs, t.bills, net.routers, 0)
      == DisableA(Sweep(old(st.subs), old(t.bills), old(net.routers), 0), i, k, env)
  {
    var s := st.subs[i];
    var service := new MikroTikService(s.router.value, net);
    var ok, message := service.SetDisabled(s.username, "yes", env);
    if ok {
      st.subs := st.subs[i := s.(status := Suspended)];
      t.bills := t.bills[k := t.bills[k].(status := Overdue)];
      t.SaveBill(k);
    }
  }

  /** One iteration of the hourly task's loop; `hit` says whether `disabled_count` goes up. */
  method HandleA(st: SubscriptionTable, t: BillingTables, net: Network, i: nat, today: Date, env: Env,
                 ghost d: nat)
    returns (hit: bool)
    requires t.Valid() && i < |st.subs| && RoutersKnown(st.subs, net.routers)
    modifies st`subs, t`bills, net
    ensures t.Valid()
    ensures Sweep(st.subs, t.bills, net.routers, if hit then d + 1 else d)
      == StepA(Sweep(old(st.subs), old(t.bills), old(net.routers), d), i, today, env)
  {
    ghost var w := Sweep(st.subs, t.bills, net.routers, d);
    hit := false;
    var s := st.subs[i];
    if s.status == Active && s.router.Some? && today.day > s.billingDay {
      var current := FindBill(t.bills, i, today.year, today.month);
      if current.Some? && Unpaid(t.bills[current.value]) {
        assert Selected(w.subs, w.bills, i, today);
        DisableSubscriptionA(st, t, net, i, current.value, env);
        hit := true;
        return;
      }
    }
    assert !Selected(w.subs, w.bills, i, today);
  }

  /** `check_and_disable_expired_subscriptions` of the backend; `envs(i)` is what the router does for subscription `i`. */
  method CheckExpiredA(st: SubscriptionTable, t: BillingTables, net: Network, today: Date, envs: nat -> Env)
    returns (disabled: nat)
    requires t.Valid() && RoutersKnown(st.subs, net.routers)
    modifies st`subs, t`bills, net
    ensures t.Valid()
    ensures Sweep(st.subs, t.bills, net.routers, disabled)
      == RunA(Sweep(old(st.subs), old(t.bills), old(net.routers), 0), |old(st.subs)|, today, envs)
  {
    ghost var w0 := Sweep(st.subs, t.bills, net.routers, 0);
    disabled := 0;
    for i := 0 to |st.subs|
      invariant t.Valid() && |st.subs| == |w0.subs|
      invariant Sweep(st.subs, t.bills, net.routers, disabled) == RunA(w0, i, today, envs)
    {
      var hit := HandleA(st, t, net, i, today, envs(i), disabled);
      if hit {
        disabled := disabled + 1;
      }
    }
  }

  // ---------------------------------------------------------------- the scheduled job

  /**
   * `disable_subscription` of the scheduled job: the subscription is suspended, its bill is
   * marked overdue only when it was pending, and the router call fails before reaching the
   * router, its error caught and logged.
   */
  function DisableB(w: Sweep, i: nat, k: nat): (r: Sweep)
    requires i < |w.subs| && k < |w.bills|
    ensures |r.subs| == |w.subs| && |r.bills| == |w.bills| && r.routers == w.routers && r.disabled == w.disabled
  {
    Sweep(w.subs[i := w.subs[i].(status := Suspended)],
          if w.bills[k].status == Pending then w.bills[k := MarkedOverdue(w.bills[k])] else w.bills,
          w.routers, w.disabled)
  }

  function StepB(w: Sweep, i: nat, today: Date): (r: Sweep)
    requires i < |w.subs|
    ensures |r.subs| == |w.subs| && |r.bills| == |w.bills| && r.routers == w.routers
    ensures r.disabled == if Selected(w.subs, w.bills, i, today) then w.disabled + 1 else w.disabled
    ensures Frame(w, r)
  {
    if Selected(w.subs, w.bills, i, today) then
      var r := DisableB(w, i, CurrentBill(w.bills, i, today).value);
      r.(disabled := r.disabled + 1)
    else w
  }

  function RunB(w: Sweep, n: nat, today: Date): (r: Sweep)
    requires n <= |w.subs|
    ensures |r.subs| == |w.subs| && |r.bills| == |w.bills| && r.routers == w.routers
  {
    if n == 0 then w else StepB(RunB(w, n - 1, today), n - 1, today)
  }

  /** The job as a whole; `enabled` is the `is_enabled` of its configuration row, when there is one. */
  function JobB(w: Sweep, enabled: Option<bool>, today: Date): (r: Sweep)
  {
    if enabled != Some(true) then w else RunB(w, |w.subs|, today)
  }

  /** The subscriptions after the scheduled job: exactly the selected ones are suspended. */
  function SuspendedAll(subs: seq<Subscription>, bills: seq<Bill>, today: Date): (r: seq<Subscription>)
    ensures |r| == |subs|
  {
    seq(|subs|, j requires 0 <= j < |subs| =>
      if Selected(subs, bills, j, today) then subs[j].(status := Suspended) else subs[j])
  }

  /** Whether bill `k` is the pending current bill of a selected subscription. */
  predicate PendingCurrent(subs: seq<Subscription>, bills: seq<Bill>, k: nat, today: Date)
    requires k < |bills|
  {
    && Selected(subs, bills, bills[k].subscription, today)
    && CurrentBill(bills, bills[k].subscription, today) == Some(k)
    && bills[k].status == Pending
  }

  /** The bills after the scheduled job: exactly the pending current bills of the selected subscriptions are overdue. */
  function OverdueAll(subs: seq<Subscription>, bills: seq<Bill>, today: Date): (r: seq<Bill>)
    ensures |r| == |bills|
  {
    seq(|bills|, k requires 0 <= k < |bills| =>
      if PendingCurrent(subs, bills, k, today) then MarkedOverdue(bills[k]) else bills[k])
  }

  /** Marking bills overdue keeps every bill's period, so no lookup changes. */
  lemma OverdueAllPeriods(subs: seq<Subscription>, bills: seq<Bill>, today: Date)
    ensures forall k :: 0 <= k < |bills| ==> SamePeriod(OverdueAll(subs, bills, today)[k], bills[k])
  {
    forall k | 0 <= k < |bills| ensures SamePeriod(OverdueAll(subs, bills, today)[k], bills[k]) {
      SettleKeepsInputs(bills[k].(status := Overdue));
    }
  }

  /** One iteration of the scheduled job, element by element. */
  lemma StepBEffect(p: Sweep, i: nat, today: Date)
    requires i < |p.subs|
    ensures var w := StepB(p, i, today);
      var sel := Selected(p.subs, p.bills, i, today);
      && (forall j :: 0 <= j < |p.subs| ==>
            w.subs[j] == if j == i && sel then p.subs[j].(status := Suspended) else p.subs[j])
      && (forall k :: 0 <= k < |p.bills| ==>
            w.bills[k] == if sel && CurrentBill(p.bills, i, today) == Some(k) && p.bills[k].status == Pending
                          then MarkedOverdue(p.bills[k]) else p.bills[k])
  {
  }

  /** What a run of the scheduled job sees when it reaches subscription `i`. */
  lemma SelectedBeforeB(w0: Sweep, p: Sweep, i: nat, today: Date)
    requires i < |w0.subs| && |p.subs| == |w0.subs| && |p.bills| == |w0.bills| && p.subs[i] == w0.subs[i]
    requires forall k :: 0 <= k < |w0.bills| ==>
      p.bills[k] == if w0.bills[k].subscription < i then OverdueAll(w0.subs, w0.bills, today)[k] else w0.bills[k]
    ensures CurrentBill(p.bills, i, today) == CurrentBill(w0.bills, i, today)
    ensures Selected(p.subs, p.bills, i, today) == Selected(w0.subs, w0.bills, i, today)
  {
    OverdueAllPeriods(w0.subs, w0.bills, today);
    assert forall k :: 0 <= k < |w0.bills| ==> SamePeriod(p.bills[k], w0.bills[k]);
    FindBillSamePeriods(p.bills, w0.bills, i, today.year, today.month);
  }

  /** After `n` iterations the first `n` subscriptions and their bills are as the closed form says, the rest untouched. */
  lemma {:induction false} RunBClosed(w0: Sweep, n: nat, today: Date)
    requires n <= |w0.subs|
    ensures var w := RunB(w0, n, today);
      && (forall j :: 0 <= j < |w0.subs| ==>
            w.subs[j] == if j < n then SuspendedAll(w0.subs, w0.bills, today)[j] else w0.subs[j])
      && (forall k :: 0 <= k < |w0.bills| ==>
            w.bills[k] == if w0.bills[k].subscription < n then OverdueAll(w0.subs, w0.bills, today)[k] else w0.bills[k])
  {
    if n > 0 {
      RunBClosed(w0, n - 1, today);
      var p := RunB(w0, n - 1, today);
      var i := n - 1;
      var w := StepB(p, i, today);
      assert RunB(w0, n, today) == w;
      SelectedBeforeB(w0, p, i, today);
      StepBEffect(p, i, today);
      var over := OverdueAll(w0.subs, w0.bills, today);
      forall k | 0 <= k < |w0.bills|
        ensures w.bills[k] == if w0.bills[k].subscription < n then over[k] else w0.bills[k]
      {
        if w0.bills[k].subscription == i && CurrentBill(w0.bills, i, today) != Some(k) {
          assert !PendingCurrent(w0.subs, w0.bills, k, today);
        }
      }
    }
  }

  /** When the scheduled job reaches subscription `i` it selects it exactly when it was selected at the start. */
  lemma SelectedAtB(w0: Sweep, i: nat, today: Date)
    requires i < |w0.subs|
    ensures var p := RunB(w0, i, today); Selected(p.subs, p.bills, i, today) == Selected(w0.subs, w0.bills, i, today)
  {
    RunBClosed(w0, i, today);
    SelectedBeforeB(w0, RunB(w0, i, today), i, today);
  }

  /** `disabled_count` of the scheduled job counts the selected subscriptions. */
  lemma {:induction false} RunBCount(w0: Sweep, n: nat, today: Date)
    requires n <= |w0.subs|
    ensures RunB(w0, n, today).disabled == w0.disabled + SelectedCount(w0.subs, w0.bills, n, today)
  {
    if n > 0 {
      RunBCount(w0, n - 1, today);
      SelectedAtB(w0, n - 1, today);
    }
  }

  /**
   * The scheduled job in closed form: when its configuration is enabled, exactly the
   * selected subscriptions are suspended, exactly their pending current bills become
   * overdue, no router changes, and `disabled_count` is the number selected; otherwise
   * nothing changes.
   */
  lemma JobBEffect(w0: Sweep, enabled: Option<bool>, today: Date)
    ensures var w := JobB(w0, enabled, today);
      && (enabled != Some(true) ==> w == w0)
      && (enabled == Some(true) ==>
            w == Sweep(SuspendedAll(w0.subs, w0.bills, today), OverdueAll(w0.subs, w0.bills, today),
                       w0.routers, w0.disabled + SelectedCount(w0.subs, w0.bills, |w0.subs|, today)))
  {
    if enabled == Some(true) {
      RunBClosed(w0, |w0.subs|, today);
      RunBCount(w0, |w0.subs|, today);
      var w := JobB(w0, enabled, today);
      forall k | 0 <= k < |w0.bills| ensures w.bills[k] == OverdueAll(w0.subs, w0.bills, today)[k] {
        if w0.bills[k].subscription >= |w0.subs| {
          assert !Selected(w0.subs, w0.bills, w0.bills[k].subscription, today);
        }
      }
      assert w.subs == SuspendedAll(w0.subs, w0.bills, today);
    }
  }

  /** After the job has run nothing is selected any more. */
  lemma NothingSelectedAfterB(subs: seq<Subscription>, bills: seq<Bill>, today: Date, j: nat)
    requires j < |subs|
    ensures !Selected(SuspendedAll(subs, bills, today), OverdueAll(subs, bills, today), j, today)
  {
    var subs2, bills2 := SuspendedAll(subs, bills, today), OverdueAll(subs, bills, today);
    assert forall k :: 0 <= k < |bills| ==> SamePeriod(bills2[k], bills[k]) by {
      forall k | 0 <= k < |bills| ensures SamePeriod(bills2[k], bills[k]) {
        SettleKeepsInputs(bills[k].(status := Overdue));
      }
    }
    FindBillSamePeriods(bills2, bills, j, today.year, today.month);
  }

  /** Running the scheduled job a second time suspends nobody and changes no bill. */
  lemma JobBIdempotent(w0: Sweep, today: Date)
    ensures var w := JobB(w0, Some(true), today);
      JobB(w, Some(true), today) == w
  {
    JobBEffect(w0, Some(true), today);
    var w := JobB(w0, Some(true), today);
    JobBEffect(w, Some(true), today);
    forall j | 0 <= j < |w.subs| ensures !Selected(w.subs, w.bills, j, today) {
      NothingSelectedAfterB(w0.subs, w0.bills, today, j);
    }
    NoneSelectedCount(w.subs, w.bills, |w.subs|, today);
    assert SuspendedAll(w.subs, w.bills, today) == w.subs;
    forall k | 0 <= k < |w.bills| ensures OverdueAll(w.subs, w.bills, today)[k] == w.bills[k] {
      if w.bills[k].subscription < |w.subs| {
        assert !Selected(w.subs, w.bills, w.bills[k].subscription, today);
      }
    }
  }

  lemma {:induction false} NoneSelectedCount(subs: seq<Subscription>, bills: seq<Bill>, n: nat, today: Date)
    requires forall j :: 0 <= j < n ==> !Selected(subs, bills, j, today)
    ensures SelectedCount(subs, bills, n, today) == 0
  {
    if n > 0 {
      NoneSelectedCount(subs, bills, n - 1, today);
    }
  }

  /** `disable_subscription` of the scheduled job, on the tables. */
  method DisableSubscriptionB(st: SubscriptionTable, t: BillingTables, i: nat, k: nat)
    requires t.Valid() && i < |st.subs| && k < |t.bills|
    modifies st`subs, t`bills
    ensures t.Valid()
    ensures Sweep(st.subs, t.bills, map[], 0) == DisableB(Sweep(old(st.subs), old(t.bills), map[], 0), i, k)
  {
    st.subs := st.subs[i := st.subs[i].(status := Suspended)];
    if t.bills[k].status == Pending {
      t.bills := t.bills[k := t.bills[k].(status := Overdue)];
      t.SaveBill(k);
    }
  }

  /** `check_and_disable_expired_subscriptions` of the scheduled job. */
  method CheckExpiredB(st: SubscriptionTable, t: BillingTables, enabled: Option<bool>, today: Date)
    returns (disabled: nat)
    requires t.Valid()
    modifies st`subs, t`bills
    ensures t.Valid()
    ensures Sweep(st.subs, t.bills, map[], disabled) == JobB(Sweep(old(st.subs), old(t.bills), map[], 0), enabled, today)
  {
    disabled := 0;
    if enabled != Some(true) {
      return;
    }
    ghost var w0 := Sweep(st.subs, t.bills, map[], 0);
    for i := 0 to |st.subs|
      invariant t.Valid() && |st.subs| == |w0.subs|
      invariant Sweep(st.subs, t.bills, map[], disabled) == RunB(w0, i, today)
    {
      var s := st.subs[i];
      if s.status == Active && s.router.Some? && today.day > s.billingDay {
        var current := FindBill(t.bills, i, today.year, today.month);
        if current.Some? && Unpaid(t.bills[current.value]) {
          DisableSubscriptionB(st, t, i, current.value);
          disabled := disabled + 1;
        }
      }
    }
  }
}
