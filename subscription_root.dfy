/**
 * The subscription endpoints of the root copy of the backend: creation records the
 * connection fees sent with the request and links the PPPoE secret only when a PPP profile
 * was chosen; the fee endpoints record who received a paid fee. Update, sync, suspend and
 * activate are the same code as in the other copy and are modelled there.
 */
module SubscriptionRoot {
  import opened Common
  import opened Subscriptions
  import opened RouterGateway
  import opened Records
  import opened SubscriptionViews

  /** One fee the request sent; `fee.get` on an entry that is not an object raises. */
  datatype FeeItem =
    | FeeObject(amount: Option<Cents>, feeType: Option<string>, date: Option<Date>, isPaid: Option<bool>, notes: Option<string>)
    | NotAnObject

  /** Creating the row succeeds unless the entry is not an object or has no amount. */
  predicate Accepted(item: FeeItem)
  {
    item.FeeObject? && item.amount.Some?
  }

  /** The row an accepted entry creates, with the defaults of the view. */
  function FeeRow(item: FeeItem, sub: nat, today: Date, user: Option<nat>): (f: ConnectionFee)
    requires Accepted(item)
    ensures f.subscription == sub && f.amount == item.amount.value
    ensures f.isPaid <==> item.isPaid == Some(true)
    ensures f.receivedBy == if f.isPaid then user else None
  {
    var paid := if item.isPaid.Some? then item.isPaid.value else false;
    ConnectionFee(sub, item.amount.value,
                  if item.feeType.Some? then item.feeType.value else "connection",
                  if item.date.Some? then item.date.value else today,
                  paid,
                  if item.notes.Some? then item.notes.value else "",
                  if paid then user else None)
  }

  /** The rows the fee loop creates: one per accepted entry, in order; the others are skipped. */
  function FeesFrom(items: seq<FeeItem>, sub: nat, today: Date, user: Option<nat>): (r: seq<ConnectionFee>)
    ensures |r| <= |items|
    ensures (forall k :: 0 <= k < |items| ==> Accepted(items[k])) <==> |r| == |items|
    ensures forall j :: 0 <= j < |r| ==> r[j].subscription == sub && r[j].receivedBy == (if r[j].isPaid then user else None)
  {
    if items == [] then []
    else
      var last := items[|items| - 1];
      var init := items[..|items| - 1];
      var r0 := FeesFrom(init, sub, today, user);
      assert forall k :: 0 <= k < |init| ==> init[k] == items[k];
      r0 + (if Accepted(last) then [FeeRow(last, sub, today, user)] else [])
  }

  /** The fee loop of the creation, one `ConnectionFee.objects.create` per entry. */
  method CreateFees(st: SubscriptionTable, sub: nat, items: seq<FeeItem>, today: Date, user: Option<nat>)
    modifies st`fees
    ensures st.fees == old(st.fees) + FeesFrom(items, sub, today, user)
  {
    for k := 0 to |items|
      invariant st.fees == old(st.fees) + FeesFrom(items[..k], sub, today, user)
    {
      assert items[..k + 1][..k] == items[..k];
      var item := items[k];
      if Accepted(item) {
        st.fees := st.fees + [FeeRow(item, sub, today, user)];
      }
    }
    assert items[..|items|] == items;
  }

  /** Whether a PPP profile name was chosen for the subscription. */
  predicate ProfileChosen(s: Subscription)
  {
    s.profileName.Some? && s.profileName.value != ""
  }

  /** The create request of this copy: the subscription, the `fees` list and `force_link`. */
  datatype RootCreateRequest = RootCreateRequest(sub: Subscription, fees: seq<FeeItem>, forceLink: bool)

  /**
   * `SubscriptionCreateView.create` of the root copy: validation, then `RootInsertSpec` on
   * the validated row (credentials stripped).
   */
  function RootCreateSpec(db: Db, routers: map<nat, RouterState>, req: RootCreateRequest, ctx: Ctx, today: Date, env: Env)
    : Outcome
  {
    match ValidateCreate(db.subs, req.sub, ctx, routers)
    case Err(e) => Outcome(Err(e), db, routers)
    case Ok(v) => RootInsertSpec(db, routers, req.(sub := v), ctx, today, env)
  }

  /**
   * The writes of a validated root creation: the row, the fee rows, and when both a router
   * and a profile name are set the PPPoE secret; a failure of the secret rolls back the row
   * and its fees, and leaves the router changed.
   */
  function RootInsertSpec(db: Db, routers: map<nat, RouterState>, req: RootCreateRequest, ctx: Ctx, today: Date, env: Env)
    : Outcome
    requires KnownRefs(req.sub, ctx, routers)
  {
    var saved := Created(req.sub, ctx).(profileName := req.sub.profileName);
    var idx := |db.subs|;
    var db1 := db.(subs := db.subs + [saved], fees := db.fees + FeesFrom(req.fees, idx, today, ctx.user));
    var entry := CreatedEntry(idx, saved, ctx);
    if saved.router.Some? && ProfileChosen(saved) then
      var u := UserStage(db1, routers, idx, ctx, saved.router.value, req.forceLink, env);
      if !u.ok then
        Outcome(Err(UserFailure(u.reply)),
                db, u.routers)
      else Outcome(Ok(idx), u.db.(history := db.history + [entry]), u.routers)
    else Outcome(Ok(idx), db1.(history := db.history + [entry]), routers)
  }

  /**
   * A failed creation leaves every table, fees included, as it was; a successful one adds
   * exactly the fee rows of the accepted entries, for the new subscription.
   */
  lemma RootCreateFees(db: Db, routers: map<nat, RouterState>, req: RootCreateRequest, ctx: Ctx, today: Date, env: Env)
    ensures var o := RootCreateSpec(db, routers, req, ctx, today, env);
      && (o.result.Err? ==> o.db == db)
      && (o.result.Ok? ==> o.result.value == |db.subs| && o.db.fees == db.fees + FeesFrom(req.fees, |db.subs|, today, ctx.user))
  {
    var v := ValidateCreate(db.subs, req.sub, ctx, routers);
    if v.Ok? {
      InsertFees(db, routers, req.(sub := v.value), ctx, today, env);
    }
  }

  /** `RootCreateFees` for the writes of a validated creation. */
  lemma InsertFees(db: Db, routers: map<nat, RouterState>, req: RootCreateRequest, ctx: Ctx, today: Date, env: Env)
    requires KnownRefs(req.sub, ctx, routers)
    ensures var o := RootInsertSpec(db, routers, req, ctx, today, env);
      && (o.result.Err? ==> o.db == db)
      && (o.result.Ok? ==> o.result.value == |db.subs| && o.db.fees == db.fees + FeesFrom(req.fees, |db.subs|, today, ctx.user))
  {
  }

  /**
   * Without a router or without a profile name the router is never called and the new row
   * stays unsynced; with both, the row is synced exactly when the creation succeeds.
   */
  lemma RootSyncGated(db: Db, routers: map<nat, RouterState>, req: RootCreateRequest, ctx: Ctx, today: Date, env: Env)
    ensures var o := RootCreateSpec(db, routers, req, ctx, today, env);
      o.result.Ok? ==>
        && |o.db.subs| == |db.subs| + 1
        && (!(req.sub.router.Some? && ProfileChosen(req.sub)) ==> o.routers == routers && !o.db.subs[|db.subs|].synced)
        && (req.sub.router.Some? && ProfileChosen(req.sub) ==> o.db.subs[|db.subs|].synced)
  {
    var v := ValidateCreate(db.subs, req.sub, ctx, routers);
    if v.Ok? {
      InsertSyncGated(db, routers, req.(sub := v.value), ctx, today, env);
    }
  }

  /** `RootSyncGated` for the writes of a validated creation. */
  lemma InsertSyncGated(db: Db, routers: map<nat, RouterState>, req: RootCreateRequest, ctx: Ctx, today: Date, env: Env)
    requires KnownRefs(req.sub, ctx, routers)
    ensures var o := RootInsertSpec(db, routers, req, ctx, today, env);
      o.result.Ok? ==>
        && |o.db.subs| == |db.subs| + 1
        && (!(req.sub.router.Some? && ProfileChosen(req.sub)) ==> o.routers == routers && !o.db.subs[|db.subs|].synced)
        && (req.sub.router.Some? && ProfileChosen(req.sub) ==> o.db.subs[|db.subs|].synced)
  {
  }

  /** The root creation keeps every row's username set and no two rows sharing one. */
  lemma RootCreateKeepsUsernamesUnique(db: Db, routers: map<nat, RouterState>, req: RootCreateRequest, ctx: Ctx,
                                       today: Date, env: Env)
    requires UsernamesUnique(db.subs)
    ensures UsernamesUnique(RootCreateSpec(db, routers, req, ctx, today, env).db.subs)
  {
    var v := ValidateCreate(db.subs, req.sub, ctx, routers);
    if v.Ok? {
      var o := RootInsertSpec(db, routers, req.(sub := v.value), ctx, today, env);
      InsertAppendsRow(db, routers, req.(sub := v.value), ctx, today, env);
      if o.result.Ok? {
        AppendKeepsUnique(db.subs, o.db.subs);
      }
    }
  }

  /** A successful insert appends one row, with the username of the validated request. */
  lemma InsertAppendsRow(db: Db, routers: map<nat, RouterState>, req: RootCreateRequest, ctx: Ctx, today: Date, env: Env)
    requires KnownRefs(req.sub, ctx, routers) && req.sub.username != ""
    ensures var o := RootInsertSpec(db, routers, req, ctx, today, env);
      o.result.Ok? ==>
        |o.db.subs| == |db.subs| + 1 && o.db.subs[..|db.subs|] == db.subs && o.db.subs[|db.subs|].username == req.sub.username
  {
  }

  /**
   * The root creation on the tables and the router. The snapshot taken before the first
   * write stands for the transaction.
   */
  method RootCreateSubscription(st: SubscriptionTable, rec: SyncRecords, net: Network, req: RootCreateRequest, ctx: Ctx,
                                today: Date, env: Env)
    returns (result: Result<nat>)
    modifies st, rec, net
    ensures var o := RootCreateSpec(old(DbOf(st, rec)), old(net.routers), req, ctx, today, env);
      result == o.result && DbOf(st, rec) == o.db && net.routers == o.routers
  {
    var v := ValidateCreate(st.subs, req.sub, ctx, net.routers);
    if v.Err? {
      return Err(v.msg);
    }
    result := RootInsert(st, rec, net, req.(sub := v.value), ctx, today, env);
  }

  /** The writes of a validated root creation. */
  method RootInsert(st: SubscriptionTable, rec: SyncRecords, net: Network, req: RootCreateRequest, ctx: Ctx,
                    today: Date, env: Env)
    returns (result: Result<nat>)
    requires KnownRefs(req.sub, ctx, net.routers)
    modifies st, rec, net
    ensures var o := RootInsertSpec(old(DbOf(st, rec)), old(net.routers), req, ctx, today, env);
      result == o.result && DbOf(st, rec) == o.db && net.routers == o.routers
  {
    var db0 := DbOf(st, rec);
    var saved := Created(req.sub, ctx).(profileName := req.sub.profileName);
    var idx := |st.subs|;
    st.subs := st.subs + [saved];
    CreateFees(st, idx, req.fees, today, ctx.user);
    if saved.router.Some? && ProfileChosen(saved) {
      var service := new MikroTikService(saved.router.value, net);
      var ok, reply := UserStepOrRollback(st, rec, service, idx, ctx, req.forceLink, env, db0);
      if !ok {
        return Err(UserFailure(reply));
      }
    }
    st.history := db0.history + [CreatedEntry(idx, saved, ctx)];
    return Ok(idx);
  }

  // ---------------------------------------------------------------- the fee endpoints

  /** Every paid fee names who received it. */
  predicate ReceiversRecorded(fees: seq<ConnectionFee>)
  {
    forall k :: 0 <= k < |fees| ==> fees[k].isPaid ==> fees[k].receivedBy.Some?
  }

  /** `ConnectionFeeListCreateView.perform_create`: the receiver is the requesting user when the fee is paid. */
  function NewFee(f: ConnectionFee, user: Option<nat>): (r: ConnectionFee)
    ensures r.(receivedBy := f.receivedBy) == f
    ensures r.isPaid ==> r.receivedBy == user
    ensures !r.isPaid ==> r.receivedBy.None?
  {
    f.(receivedBy := if f.isPaid then user else None)
  }

  /** A fee update: the values sent and which fields were present. */
  datatype FeeUpdate = FeeUpdate(values: ConnectionFee, given: set<string>)

  /**
   * `ConnectionFeeDetailView.perform_update`: the sent fields are written, and the receiver
   * becomes the requesting user only when the request marks an unpaid fee paid.
   */
  function UpdatedFee(f: ConnectionFee, u: FeeUpdate, user: Option<nat>): (r: ConnectionFee)
    ensures r.subscription == f.subscription
    ensures r.isPaid == (if "is_paid" in u.given then u.values.isPaid else f.isPaid)
    ensures r.receivedBy == if "is_paid" in u.given && u.values.isPaid && !f.isPaid then user else f.receivedBy
  {
    var g := u.given;
    var v := u.values;
    var sentPaid := "is_paid" in g && v.isPaid;
    f.(amount := if "amount" in g then v.amount else f.amount,
       feeType := if "fee_type" in g then v.feeType else f.feeType,
       date := if "date" in g then v.date else f.date,
       isPaid := if "is_paid" in g then v.isPaid else f.isPaid,
       notes := if "notes" in g then v.notes else f.notes,
       receivedBy := if sentPaid && !f.isPaid then user else f.receivedBy)
  }

  /** With a signed-in user, the fee endpoints and the creation keep every paid fee's receiver recorded. */
  lemma FeeEndpointsKeepReceivers(fees: seq<ConnectionFee>, f: ConnectionFee, k: nat, u: FeeUpdate,
                                  items: seq<FeeItem>, sub: nat, today: Date, user: Option<nat>)
    requires ReceiversRecorded(fees) && user.Some? && k < |fees|
    ensures ReceiversRecorded(fees + [NewFee(f, user)])
    ensures ReceiversRecorded(fees[k := UpdatedFee(fees[k], u, user)])
    ensures ReceiversRecorded(fees + FeesFrom(items, sub, today, user))
  {
    var added := fees + FeesFrom(items, sub, today, user);
    forall j | 0 <= j < |added| && added[j].isPaid
      ensures added[j].receivedBy.Some?
    {
      if j >= |fees| {
        assert added[j] == FeesFrom(items, sub, today, user)[j - |fees|];
      }
    }
  }

  /** A paid fee keeps its receiver through any update. */
  lemma PaidReceiverStable(f: ConnectionFee, u: FeeUpdate, user: Option<nat>)
    requires f.isPaid
    ensures UpdatedFee(f, u, user).receivedBy == f.receivedBy
  {
  }

  method AddFee(st: SubscriptionTable, f: ConnectionFee, user: Option<nat>) returns (k: nat)
    modifies st`fees
    ensures st.fees == old(st.fees) + [NewFee(f, user)] && k == |old(st.fees)|
  {
    k := |st.fees|;
    st.fees := st.fees + [NewFee(f, user)];
  }

  method UpdateFee(st: SubscriptionTable, k: nat, u: FeeUpdate, user: Option<nat>) returns (result: Result<nat>)
    modifies st`fees
    ensures k < |old(st.fees)| ==> result == Ok(k) && st.fees == old(st.fees)[k := UpdatedFee(old(st.fees)[k], u, user)]
    ensures k >= |old(st.fees)| ==> result == Err("No ConnectionFee matches the given query.") && st.fees == old(st.fees)
  {
    if k >= |st.fees| {
      return Err("No ConnectionFee matches the given query.");
    }
    st.fees := st.fees[k := UpdatedFee(st.fees[k], u, user)];
    return Ok(k);
  }
}
