/**
 * The payment endpoint with the `post_save` signal that re-enables a suspended customer,
 * and the refund approval workflow.
 */
module BillingViews {
  import opened Common
  import opened Ledger
  import opened Subscriptions
  import opened RouterGateway
  import opened Records

  // ---------------------------------------------------------------- re-enable on payment

  /** The subscriptions and the routers, the part of the database the signal can change. */
  datatype World = World(subs: seq<Subscription>, routers: map<nat, RouterState>)

  predicate Known(w: World)
  {
    RoutersKnown(w.subs, w.routers)
  }

  /**
   * `auto_enable_on_payment` tries the router only for a newly created completed payment
   * whose subscription is suspended and has a router, when the bill it sees is paid.
   */
  predicate ReenableAttempted(s: Subscription, seen: Bill, p: Payment, created: bool)
  {
    created && p.status == Completed && s.status == Suspended && s.router.Some? && seen.status == Paid
  }

  /**
   * The signal: `seen` is the bill as the signal reads it. The subscription becomes active
   * only when the router's enable call succeeds.
   */
  function AutoEnableSpec(w: World, seen: Bill, p: Payment, created: bool, env: Env): World
    requires seen.subscription < |w.subs| && Known(w)
  {
    var s := w.subs[seen.subscription];
    if !ReenableAttempted(s, seen, p, created) then w
    else
      var rid := s.router.value;
      var r := SetDisabledSpec(w.routers[rid], s.username, "no", env);
      World(if r.ok then w.subs[seen.subscription := s.(status := Active)] else w.subs,
            w.routers[rid := r.state])
  }

  /**
   * Only the payment's own subscription can change, and only from suspended to active,
   * exactly when the re-enable is attempted and the router call succeeds; nothing happens
   * when it is not attempted.
   */
  lemma AutoEnableEffect(w: World, seen: Bill, p: Payment, created: bool, env: Env)
    requires seen.subscription < |w.subs| && Known(w)
    ensures var w2 := AutoEnableSpec(w, seen, p, created, env);
      var k := seen.subscription;
      && |w2.subs| == |w.subs|
      && (forall i :: 0 <= i < |w.subs| && i != k ==> w2.subs[i] == w.subs[i])
      && w2.subs[k].(status := w.subs[k].status) == w.subs[k]
      && (w2.subs[k] != w.subs[k] <==>
            ReenableAttempted(w.subs[k], seen, p, created)
            && SetDisabledSpec(w.routers[w.subs[k].router.value], w.subs[k].username, "no", env).ok)
      && (w2.subs[k] != w.subs[k] ==> w.subs[k].status == Suspended && w2.subs[k].status == Active)
      && (!ReenableAttempted(w.subs[k], seen, p, created) ==> w2 == w)
      && w2.routers.Keys == w.routers.Keys
  {
  }

  /** `post_save` of Payment: the signal receiver, run with the bill as it is seen at that moment. */
  method AutoEnableOnPayment(st: SubscriptionTable, net: Network, seen: Bill, p: Payment, created: bool, env: Env)
    requires seen.subscription < |st.subs| && RoutersKnown(st.subs, net.routers)
    modifies st`subs, net
    ensures World(st.subs, net.routers) == AutoEnableSpec(World(old(st.subs), old(net.routers)), seen, p, created, env)
  {
    if created && p.status == Completed {
      var s := st.subs[seen.subscription];
      if s.status == Suspended && s.router.Some? {
        if seen.status == Paid {
          var service := new MikroTikService(s.router.value, net);
          var ok, message := service.SetDisabled(s.username, "no", env);
          if ok {
            st.subs := st.subs[seen.subscription := s.(status := Active)];
          }
        }
      }
    }
  }

  /** Every bill belongs to a row of the `subscriptions` table. */
  predicate BillsOwned(bills: seq<Bill>, subs: seq<Subscription>)
  {
    forall k :: 0 <= k < |bills| ==> bills[k].subscription < |subs|
  }

  /** The guards of `BillAddPaymentView.post` before the payment is created. */
  function CheckPayment(b: Bill, amount: Cents): (r: Result<Cents>)
    ensures r.Ok? <==> b.status != Paid && 0 < amount <= b.due
    ensures b.status == Paid ==> r == Err("Bill is already fully paid")
    ensures r.Ok? ==> r.value == amount
  {
    if b.status == Paid then Err("Bill is already fully paid")
    else if amount <= 0 then Err("Payment amount must be greater than 0")
    else if amount > b.due then Err("Payment amount cannot exceed due amount")
    else Ok(amount)
  }

  /** The payment the endpoint creates: always completed. */
  function EndpointPayment(i: nat, amount: Cents, user: Option<nat>): Payment
  {
    Payment("", i, amount, Completed, user)
  }

  /**
   * `Payment.save` as written: the row is inserted with `super().save()`, which fires the
   * signal while the bill still has its old amounts and status, and only then the bill is
   * updated.
   */
  function AddPaymentAsWritten(bills: seq<Bill>, w: World, p: Payment, env: Env): (seq<Bill>, World)
    requires p.bill < |bills| && bills[p.bill].subscription < |w.subs| && Known(w)
  {
    (ApplyPaymentToBills(bills, p), AutoEnableSpec(w, bills[p.bill], p, true, env))
  }

  /** `Payment.save` with the bill updated before the signal reads it. */
  function AddPayment(bills: seq<Bill>, w: World, p: Payment, env: Env): (seq<Bill>, World)
    requires p.bill < |bills| && bills[p.bill].subscription < |w.subs| && Known(w)
  {
    var bills2 := ApplyPaymentToBills(bills, p);
    (bills2, AutoEnableSpec(w, bills2[p.bill], p, true, env))
  }

  /**
   * As written, a payment accepted by the endpoint never re-enables anybody: the endpoint
   * refuses paid bills, and the signal reads the bill before the payment is added to it.
   */
  lemma AsWrittenEndpointNeverReenables(bills: seq<Bill>, w: World, i: nat, amount: Cents,
                                        user: Option<nat>, env: Env)
    requires i < |bills| && bills[i].subscription < |w.subs| && Known(w)
    requires CheckPayment(bills[i], amount).Ok?
    ensures AddPaymentAsWritten(bills, w, EndpointPayment(i, amount, user), env).1 == w
  {
  }

  /**
   * With the bill updated first, paying the whole due amount of a saved bill re-enables a
   * suspended subscription with a router whenever the router's enable call succeeds.
   */
  lemma PayingInFullReenables(bills: seq<Bill>, w: World, i: nat, user: Option<nat>, env: Env)
    requires i < |bills| && bills[i].subscription < |w.subs| && Known(w)
    requires Consistent(bills[i]) && CheckPayment(bills[i], bills[i].due).Ok?
    requires var s := w.subs[bills[i].subscription];
      s.status == Suspended && s.router.Some?
      && SetDisabledSpec(w.routers[s.router.value], s.username, "no", env).ok
    ensures var (bills2, w2) := AddPayment(bills, w, EndpointPayment(i, bills[i].due, user), env);
      bills2[i].status == Paid && w2.subs[bills[i].subscription].status == Active
  {
  }

  /** A payment that leaves the bill partly paid changes no subscription and no router. */
  lemma PartialPaymentReenablesNothing(bills: seq<Bill>, w: World, i: nat, amount: Cents,
                                       user: Option<nat>, env: Env)
    requires i < |bills| && bills[i].subscription < |w.subs| && Known(w)
    requires Consistent(bills[i]) && CheckPayment(bills[i], amount).Ok? && amount < bills[i].due
    ensures var (bills2, w2) := AddPayment(bills, w, EndpointPayment(i, amount, user), env);
      && bills2[i].status != Paid
      && (bills[i].paid >= 0 ==> bills2[i].status == Partial)
      && w2 == w
  {
  }

  /**
   * `BillAddPaymentView.post`: a refused payment changes nothing; an accepted one is
   * inserted as a completed payment, the signal fires on the insert and sees the bill as
   * it was, and only then is the payment added to its bill.
   */
  method BillAddPayment(t: BillingTables, st: SubscriptionTable, net: Network, i: nat, amount: Cents,
                        user: Option<nat>, year: int, env: Env)
    returns (r: Result<nat>)
    requires t.Valid() && BillsOwned(t.bills, st.subs) && RoutersKnown(st.subs, net.routers)
    modifies t`payments, t`bills, st`subs, net
    ensures t.Valid()
    ensures i >= |old(t.bills)| ==>
      r == Err("Bill not found") && t.bills == old(t.bills) && t.payments == old(t.payments)
      && st.subs == old(st.subs) && net.routers == old(net.routers)
    ensures i < |old(t.bills)| && CheckPayment(old(t.bills[i]), amount).Err? ==>
      r.Err? && t.bills == old(t.bills) && t.payments == old(t.payments)
      && st.subs == old(st.subs) && net.routers == old(net.routers)
    ensures i < |old(t.bills)| && CheckPayment(old(t.bills[i]), amount).Ok? ==>
      var n := |old(t.payments)|;
      && r == Ok(n) && |t.payments| == n + 1 && t.payments[..n] == old(t.payments)
      && t.payments[n] == EndpointPayment(i, amount, user).(number := t.payments[n].number)
      && (t.bills, World(st.subs, net.routers))
         == AddPaymentAsWritten(old(t.bills), World(old(st.subs), old(net.routers)), t.payments[n], env)
  {
    if i >= |t.bills| {
      return Err("Bill not found");
    }
    var b := t.bills[i];
    match CheckPayment(b, amount) {
      case Err(e) =>
        return Err(e);
      case Ok(_) =>
        var idx := t.InsertPayment(EndpointPayment(i, amount, user), year);
        AutoEnableOnPayment(st, net, t.bills[i], t.payments[idx], true, env);
        t.ApplyPayment(idx);
        assert t.payments[..idx] == old(t.payments);
        return Ok(idx);
    }
  }

  // ---------------------------------------------------------------- refunds

  /** What an admin does to a refund, with the request fields each action reads. */
  datatype RefundAction =
    | Approve(approver: nat, notes: string)
    | Reject(rejecter: nat, reason: string)
    | Complete(processor: nat, how: Option<string>, now: int, transactionId: string)

  /** The status each action may start from. */
  function Source(a: RefundAction): RefundStatus
  {
    if a.Complete? then Approved else RefundPending
  }

  /** The status each action sets. */
  function Target(a: RefundAction): RefundStatus
  {
    match a
    case Approve(_, _) => Approved
    case Reject(_, _) => Rejected
    case Complete(_, _, _, _) => RefundCompleted
  }

  /**
   * `RefundApproveView` / `RefundRejectView` / `RefundCompleteView`: a refund in the wrong
   * status is refused; otherwise it moves to the action's status with the action's fields.
   */
  function RefundStep(r: Refund, a: RefundAction): (res: Result<Refund>)
    ensures res.Ok? <==> r.status == Source(a)
    ensures res.Ok? ==> res.value.status == Target(a)
    ensures res.Ok? ==>
      res.value.number == r.number && res.value.subscription == r.subscription && res.value.amount == r.amount
    ensures res.Ok? && a.Approve? ==> res.value.approvedBy == Some(a.approver) && res.value.approvalNotes == Some(a.notes)
    ensures res.Ok? && a.Reject? ==> res.value.approvedBy == Some(a.rejecter) && res.value.rejectionReason == Some(a.reason)
    ensures res.Ok? && a.Complete? ==>
      && res.value.processedBy == Some(a.processor) && res.value.refundMethod == a.how
      && res.value.refundDate == Some(a.now) && res.value.transactionId == Some(a.transactionId)
  {
    match a
    case Approve(user, notes) =>
      if r.status != RefundPending then Err("Only pending refunds can be approved")
      else Ok(r.(status := Approved, approvedBy := Some(user), approvalNotes := Some(notes)))
    case Reject(user, reason) =>
      if r.status != RefundPending then Err("Only pending refunds can be rejected")
      else Ok(r.(status := Rejected, approvedBy := Some(user), rejectionReason := Some(reason)))
    case Complete(user, how, now, tid) =>
      if r.status != Approved then Err("Only approved refunds can be completed")
      else Ok(r.(status := RefundCompleted, processedBy := Some(user), refundMethod := how,
                 refundDate := Some(now), transactionId := Some(tid)))
  }

  /** Runs a sequence of actions, stopping at the first refusal. */
  function RefundRun(r: Refund, actions: seq<RefundAction>): Result<Refund>
    decreases |actions|
  {
    if actions == [] then Ok(r)
    else match RefundStep(r, actions[0])
      case Err(e) => Err(e)
      case Ok(r2) => RefundRun(r2, actions[1..])
  }

  /**
   * The workflow: a pending refund can only be completed after an approval, a rejected or
   * completed refund accepts no further action, and any accepted run from pending that
   * ends completed contains an approval.
   */
  lemma {:induction false} RefundWorkflow(r: Refund, actions: seq<RefundAction>)
    requires r.status == RefundPending
    ensures var res := RefundRun(r, actions);
      res.Ok? && res.value.status == RefundCompleted ==> exists k :: 0 <= k < |actions| && actions[k].Approve?
  {
    if actions != [] && !actions[0].Approve? {
      match RefundStep(r, actions[0]) {
        case Err(_) =>
        case Ok(r2) =>
          assert r2.status == Rejected;
          TerminalRun(r2, actions[1..]);
      }
    }
  }

  /** Once rejected or completed a refund refuses every action. */
  lemma TerminalRun(r: Refund, actions: seq<RefundAction>)
    requires r.status == Rejected || r.status == RefundCompleted
    ensures actions != [] ==> RefundRun(r, actions).Err?
    ensures actions == [] ==> RefundRun(r, actions) == Ok(r)
  {
  }

  /** An admin action on the refund at position `i`; a refused action changes nothing. */
  method RefundAct(t: BillingTables, i: nat, a: RefundAction) returns (res: Result<Refund>)
    modifies t`refunds
    ensures i >= |old(t.refunds)| ==> res == Err("Refund not found")
    ensures i < |old(t.refunds)| ==> res == RefundStep(old(t.refunds[i]), a)
    ensures res.Err? ==> t.refunds == old(t.refunds)
    ensures res.Ok? ==> t.refunds == old(t.refunds)[i := res.value]
  {
    if i >= |t.refunds| {
      return Err("Refund not found");
    }
    var r := t.refunds[i];
    res := RefundStep(r, a);
    if res.Ok? {
      t.refunds := t.refunds[i := res.value];
    }
  }
}
