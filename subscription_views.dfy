/**
 * The subscription endpoints of the backend: creation (serializer validation, the row, the
 * router-side package, PPP profile and PPPoE secret, all inside one database transaction),
 * update, manual sync, suspend and activate.
 */
module SubscriptionViews {
  import opened Common
  import opened Text
  import opened Catalog
  import opened Subscriptions
  import opened RouterGateway
  import opened Records
  import Customers

  /** The database tables these endpoints write. */
  datatype Db = Db(
    subs: seq<Subscription>,
    history: seq<HistoryEntry>,
    fees: seq<ConnectionFee>,
    profiles: seq<QueueProfile>,
    logs: seq<SyncLog>)

  /** A subscription id with no row behind it. */
  const NotFound := "Subscription not found"
  const OpenSubscriptionError := "Customer already has an active or suspended subscription."
  const BillingDayError := "billing day must be between 1 and 31."
  const MinDayError := "Ensure this value is greater than or equal to 1."
  const BlankError := "This field may not be blank."
  const TooLongError := "Ensure this field has no more than 100 characters."
  const UsernameTakenError := "Subscription with this mikrotik username already exists."
  const QueueFailurePrefix := "Failed to sync package to router: "
  const QueueFailureTail := ". Details: Subscription creation rolled back."
  const UserFailurePrefix := "Failed to create user in MikroTik: "
  const UserFailureTail := ". Subscription creation rolled back."

  /** The error of a create rolled back because the router refused the package's queue. */
  function QueueFailure(reply: Reply): string
  {
    QueueFailurePrefix + Message(reply) + QueueFailureTail
  }

  /** The error of a create rolled back because the router refused the PPPoE secret. */
  function UserFailure(reply: Reply): string
  {
    UserFailurePrefix + Message(reply) + UserFailureTail
  }

  function DbOf(st: SubscriptionTable, rec: SyncRecords): Db
    reads st, rec
  {
    Db(st.subs, st.history, st.fees, rec.profiles, rec.logs)
  }

  /**
   * What a request reads besides the tables it writes: the customers and packages, the
   * requesting user, the clock, and the random token `secrets.token_urlsafe` would return.
   */
  datatype Ctx = Ctx(
    customers: seq<Customers.Customer>,
    packages: seq<Package>,
    user: Option<nat>,
    now: int,
    token: string)

  /** An endpoint's answer together with the database and the routers after it. */
  datatype Outcome = Outcome(result: Result<nat>, db: Db, routers: map<nat, RouterState>)

  /** The foreign keys of a subscription point at existing rows. */
  predicate KnownRefs(s: Subscription, ctx: Ctx, routers: map<nat, RouterState>)
  {
    s.customer < |ctx.customers| && s.package < |ctx.packages| && (s.router.Some? ==> s.router.value in routers)
  }

  predicate RowsKnown(subs: seq<Subscription>, ctx: Ctx, routers: map<nat, RouterState>)
  {
    forall i :: 0 <= i < |subs| ==> KnownRefs(subs[i], ctx, routers)
  }

  /** The PPPoE account of a subscription: its credentials, its package's profile, its customer's id and static IP. */
  function AccountOf(s: Subscription, ctx: Ctx): (a: Account)
    requires s.customer < |ctx.customers| && s.package < |ctx.packages|
    ensures a.username == s.username && a.password == s.password
    ensures a.profile == ctx.packages[s.package].queueName
    ensures a.customerId == ctx.customers[s.customer].customerId
  {
    Account(s.username, s.password, ctx.packages[s.package].queueName,
            ctx.customers[s.customer].customerId, ctx.customers[s.customer].staticIp)
  }

  /** `Subscription.save`. */
  function Save(s: Subscription, ctx: Ctx): Subscription
    requires s.customer < |ctx.customers|
  {
    WithCredentials(s, ctx.customers[s.customer].customerId, ctx.token)
  }

  /** Saving changes nothing but empty credentials, and saving twice is saving once. */
  lemma SaveIdempotent(s: Subscription, ctx: Ctx)
    requires s.customer < |ctx.customers|
    ensures Save(Save(s, ctx), ctx) == Save(s, ctx)
    ensures Save(s, ctx).(username := s.username, password := s.password) == s
  {
    var cid := ctx.customers[s.customer].customerId;
    assert DefaultUsername(cid) != "";
  }

  // ---------------------------------------------------------------- the create serializer

  predicate IsOpen(s: Subscription)
  {
    s.status == Active || s.status == Suspended
  }

  /** Does the customer already have an active or suspended subscription? */
  predicate HasOpen(subs: seq<Subscription>, customer: nat)
  {
    exists i :: 0 <= i < |subs| && subs[i].customer == customer && IsOpen(subs[i])
  }

  /** At most one active or suspended subscription per customer. */
  predicate OneOpen(subs: seq<Subscription>)
  {
    forall i, j :: 0 <= i < j < |subs| && subs[i].customer == subs[j].customer ==> !(IsOpen(subs[i]) && IsOpen(subs[j]))
  }

  /** The error of a primary-key field naming a row that does not exist. */
  function UnknownPk(n: nat): string
  {
    "Invalid pk \"" + NatToString(n) + "\" - object does not exist."
  }

  /** Does a row other than `me` (the row being updated, if any) use this PPPoE username? */
  predicate UsernameTaken(subs: seq<Subscription>, me: Option<nat>, u: string)
  {
    exists j :: 0 <= j < |subs| && me != Some(j) && subs[j].username == u
  }

  /**
   * The `unique=True` of `mikrotik_username`: no two rows share a username; and every row
   * has one, as `Subscription.save` sees to.
   */
  predicate UsernamesUnique(subs: seq<Subscription>)
  {
    && (forall k :: 0 <= k < |subs| ==> subs[k].username != "")
    && (forall i, j :: 0 <= i < j < |subs| ==> subs[i].username != subs[j].username)
  }

  /** The credentials as the serializer's character fields store them: stripped. */
  function Cleaned(s: Subscription): Subscription
  {
    s.(username := Trim(s.username), password := Trim(s.password))
  }

  /**
   * `mikrotik_username` as the serializer checks it: stripped, it may not be blank, may not
   * be the username of another row, and may not exceed 100 characters.
   */
  function UsernameError(subs: seq<Subscription>, me: Option<nat>, u: string): (e: Option<string>)
    ensures e.None? <==> Trim(u) != "" && !UsernameTaken(subs, me, Trim(u)) && |Trim(u)| <= 100
  {
    if Trim(u) == "" then Some(BlankError)
    else if UsernameTaken(subs, me, Trim(u)) then Some(UsernameTakenError)
    else if |Trim(u)| > 100 then Some(TooLongError)
    else None
  }

  /** `mikrotik_password`: stripped, not blank and at most 100 characters. */
  function PasswordError(pw: string): (e: Option<string>)
    ensures e.None? <==> Trim(pw) != "" && |Trim(pw)| <= 100
  {
    if Trim(pw) == "" then Some(BlankError)
    else if |Trim(pw)| > 100 then Some(TooLongError)
    else None
  }

  /** The fields of `SubscriptionCreateSerializer`: a create request carries all of them. */
  const CreateFields: set<string> := {"customer", "package", "start_date", "billing_day", "billing_start_month",
    "router", "mikrotik_username", "mikrotik_password", "connection_fee", "reconnection_fee", "status"}

  /**
   * The field checks the model serializers derive from the `Subscription` fields, in field
   * order, giving the first error: the foreign keys name existing rows, and of the fields
   * `sent`, the billing day is at least 1 and the credentials pass their checks. `me` is the
   * row being updated, whose own username does not count as taken.
   */
  function FieldError(subs: seq<Subscription>, me: Option<nat>, s: Subscription, sent: set<string>, ctx: Ctx,
                      routers: map<nat, RouterState>): (e: Option<string>)
    ensures e.None? <==>
      && KnownRefs(s, ctx, routers)
      && ("billing_day" in sent ==> s.billingDay >= 1)
      && ("mikrotik_username" in sent ==>
            Trim(s.username) != "" && !UsernameTaken(subs, me, Trim(s.username)) && |Trim(s.username)| <= 100)
      && ("mikrotik_password" in sent ==> Trim(s.password) != "" && |Trim(s.password)| <= 100)
    ensures s.customer < |ctx.customers| && s.package < |ctx.packages| && "billing_day" in sent && s.billingDay < 1 ==>
      e == Some(MinDayError)
  {
    if s.customer >= |ctx.customers| then Some(UnknownPk(s.customer))
    else if s.package >= |ctx.packages| then Some(UnknownPk(s.package))
    else if "billing_day" in sent && s.billingDay < 1 then Some(MinDayError)
    else if s.router.Some? && s.router.value !in routers then Some(UnknownPk(s.router.value))
    else if "mikrotik_username" in sent && UsernameError(subs, me, s.username).Some? then UsernameError(subs, me, s.username)
    else if "mikrotik_password" in sent then PasswordError(s.password)
    else None
  }

  /**
   * `SubscriptionCreateSerializer` validation: the field checks, then its `validate` (the
   * customer has no active or suspended subscription, and the billing day is at most 31);
   * valid attributes come back with their credentials stripped.
   */
  function ValidateCreate(subs: seq<Subscription>, s: Subscription, ctx: Ctx, routers: map<nat, RouterState>)
    : (r: Result<Subscription>)
    ensures r.Ok? <==>
      && KnownRefs(s, ctx, routers) && 1 <= s.billingDay <= 31 && !HasOpen(subs, s.customer)
      && Trim(s.username) != "" && !UsernameTaken(subs, None, Trim(s.username)) && |Trim(s.username)| <= 100
      && Trim(s.password) != "" && |Trim(s.password)| <= 100
    ensures r.Ok? ==> r.value == s.(username := Trim(s.username), password := Trim(s.password))
    ensures s.customer < |ctx.customers| && s.package < |ctx.packages| && s.billingDay < 1 ==>
      r == Err(MinDayError)
    ensures FieldError(subs, None, s, CreateFields, ctx, routers).None? && HasOpen(subs, s.customer) ==>
      r == Err(OpenSubscriptionError)
    ensures FieldError(subs, None, s, CreateFields, ctx, routers).None? && !HasOpen(subs, s.customer) && s.billingDay > 31 ==>
      r == Err(BillingDayError)
  {
    match FieldError(subs, None, s, CreateFields, ctx, routers)
    case Some(e) => Err(e)
    case None =>
      if HasOpen(subs, s.customer) then Err(OpenSubscriptionError)
      else if s.billingDay < 1 || s.billingDay > 31 then Err(BillingDayError)
      else Ok(Cleaned(s))
  }

  /**
   * `SubscriptionCreateSerializer.create` and the save: the fields the serializer does not
   * accept take their defaults, `created_by` is the requesting user, and the credentials are
   * filled in.
   */
  function Created(s: Subscription, ctx: Ctx): (r: Subscription)
    requires s.customer < |ctx.customers|
    ensures r.customer == s.customer && r.package == s.package && r.status == s.status
    ensures r.billingDay == s.billingDay && r.router == s.router && r.startDate == s.startDate
    ensures r.createdBy == ctx.user && !r.synced && r.userId.None? && r.syncError.None? && r.lastSyncedAt.None?
    ensures r.username != "" && (s.username != "" ==> r.username == s.username)
  {
    Save(s.(userId := None, synced := false, lastSyncedAt := None, syncError := None, profileName := None,
            createdBy := ctx.user), ctx)
  }

  // ---------------------------------------------------------------- creation, step by step

  /** The create request: the subscription fields, the two fees as sent, and `force_link`. */
  datatype CreateRequest = CreateRequest(
    sub: Subscription,
    connectionFee: Option<Cents>,
    reconnectionFee: Option<Cents>,
    forceLink: bool)

  /** A missing fee is sent on as 0. */
  function FeeOrZero(f: Option<Cents>): Cents
  {
    if f.Some? then f.value else 0
  }

  function Requested(req: CreateRequest): Subscription
  {
    req.sub.(connectionFee := FeeOrZero(req.connectionFee), reconnectionFee := FeeOrZero(req.reconnectionFee))
  }

  /** What each router call of the creation does. */
  datatype Calls = Calls(queue: Env, profile: Env, user: Env)

  /** A tracked package profile that is marked synced. */
  predicate HasSyncedProfile(qps: seq<QueueProfile>, package: nat, router: nat)
  {
    FindProfile(qps, package, router).Some? && qps[FindProfile(qps, package, router).value].synced
  }

  /** `update_or_create` on (package, router). */
  function UpsertProfile(qps: seq<QueueProfile>, row: QueueProfile): (r: seq<QueueProfile>)
    ensures FindProfile(qps, row.package, row.router).Some? ==>
      r == qps[FindProfile(qps, row.package, row.router).value := row]
    ensures FindProfile(qps, row.package, row.router).None? ==> r == qps + [row]
  {
    match FindProfile(qps, row.package, row.router)
    case Some(k) => qps[k := row]
    case None => qps + [row]
  }

  /** Updating or inserting keeps (package, router) unique, and afterwards the lookup finds the row. */
  lemma UpsertProfileSpec(qps: seq<QueueProfile>, row: QueueProfile)
    requires ProfilesUnique(qps)
    ensures ProfilesUnique(UpsertProfile(qps, row))
    ensures var r := UpsertProfile(qps, row);
      FindProfile(r, row.package, row.router).Some? && r[FindProfile(r, row.package, row.router).value] == row
  {
    var r := UpsertProfile(qps, row);
    match FindProfile(qps, row.package, row.router) {
      case Some(k) =>
        assert r[k] == row;
        assert FindProfile(r, row.package, row.router).Some?;
      case None =>
        assert r[|r| - 1] == row;
        assert FindProfile(r, row.package, row.router) == Some(|qps|);
    }
  }

  /** The tracking row written after the package was set up: a string reply is kept as the queue id. */
  function TrackedProfile(package: nat, router: nat, reply: Reply, now: int): QueueProfile
  {
    QueueProfile(package, router, Some(if reply.RText? then reply.text else ""), true, Some(now), None)
  }

  /** The log row of a router call about a PPPoE secret. */
  function UserLog(router: nat, action: string, username: string, sub: nat, ok: bool, reply: Reply): SyncLog
  {
    SyncLog(router, action, ok, "pppoe_user", username, Some(sub), Some(reply), if ok then None else Some(Message(reply)))
  }

  /** After a router call: every intermediate result. */
  datatype Stage = Stage(ok: bool, reply: Reply, db: Db, routers: map<nat, RouterState>)

  /**
   * Step 1: unless the package is tracked as synced on the router, it is created there, the
   * call is logged, and on success the tracking row is updated or created.
   */
  function QueueStage(db: Db, routers: map<nat, RouterState>, package: nat, p: Package, rid: nat, env: Env, now: int)
    : (g: Stage)
    requires rid in routers
    ensures g.routers.Keys == routers.Keys && g.db.subs == db.subs && g.db.history == db.history
    ensures g.db.fees == db.fees
  {
    if HasSyncedProfile(db.profiles, package, rid) then Stage(true, RText(""), db, routers)
    else
      var r := CreateQueueSpec(routers[rid], p, env);
      var log := SyncLog(rid, "create_queue", r.ok, "queue", p.queueName, None, None,
                         if r.ok then None else Some(Message(r.reply)));
      var profiles := if r.ok then UpsertProfile(db.profiles, TrackedProfile(package, rid, r.reply, now)) else db.profiles;
      Stage(r.ok, r.reply, db.(profiles := profiles, logs := db.logs + [log]), routers[rid := r.state])
  }

  /** Step 2: the PPP profile is always created; only a failure is logged, and it does not stop the creation. */
  function ProfileStage(db: Db, routers: map<nat, RouterState>, p: Package, rid: nat, env: Env): (g: Stage)
    requires rid in routers
    ensures g.routers.Keys == routers.Keys && g.db.subs == db.subs && g.db.history == db.history
    ensures g.db.fees == db.fees && g.db.profiles == db.profiles
  {
    var r := CreateProfileSpec(routers[rid], p, env);
    var logs := if r.ok then db.logs
      else db.logs + [SyncLog(rid, "create_ppp_profile", false, "ppp_profile", p.queueName, None, None, Some(Message(r.reply)))];
    Stage(r.ok, r.reply, db.(logs := logs), routers[rid := r.state])
  }

  /** A successful router call marks the row synced and keeps the secret's id when the reply has one. */
  function Linked(s: Subscription, reply: Reply, now: int): (r: Subscription)
    ensures r.synced && r.lastSyncedAt == Some(now) && r.syncError.None?
    ensures r.userId == if ReplyId(reply).Some? then ReplyId(reply) else s.userId
    ensures r.(synced := s.synced, lastSyncedAt := s.lastSyncedAt, syncError := s.syncError, userId := s.userId) == s
  {
    s.(synced := true, lastSyncedAt := Some(now), syncError := None,
       userId := if ReplyId(reply).Some? then ReplyId(reply) else s.userId)
  }

  /** Step 3: the PPPoE secret is created and logged; on success the row is marked synced and saved. */
  function UserStage(db: Db, routers: map<nat, RouterState>, idx: nat, ctx: Ctx, rid: nat, forceLink: bool, env: Env)
    : (g: Stage)
    requires rid in routers && idx < |db.subs| && db.subs[idx].customer < |ctx.customers|
    requires db.subs[idx].package < |ctx.packages|
    ensures g.routers.Keys == routers.Keys && g.db.history == db.history
    ensures g.db.fees == db.fees && g.db.profiles == db.profiles
    ensures |g.db.subs| == |db.subs| && g.db.subs[..idx] == db.subs[..idx]
  {
    var s := db.subs[idx];
    var r := CreateSecretSpec(routers[rid], AccountOf(s, ctx), forceLink, env);
    var logs := db.logs + [UserLog(rid, "create_user", s.username, idx, r.ok, r.reply)];
    var subs := if r.ok then db.subs[idx := Save(Linked(s, r.reply, ctx.now), ctx)] else db.subs;
    Stage(r.ok, r.reply, db.(subs := subs, logs := logs), routers[rid := r.state])
  }

  /** The history row of a creation. */
  function CreatedEntry(idx: nat, s: Subscription, ctx: Ctx): HistoryEntry
  {
    HistoryEntry(idx, "created", StatusChange(None, s.status), "Subscription created and synced", ctx.user)
  }

  /** `SubscriptionCreateView.create` of the backend: validation, then `InsertSpec` on the validated row. */
  function CreateSpec(db: Db, routers: map<nat, RouterState>, req: CreateRequest, ctx: Ctx, calls: Calls): Outcome
  {
    match ValidateCreate(db.subs, Requested(req), ctx, routers)
    case Err(e) => Outcome(Err(e), db, routers)
    case Ok(v) => InsertSpec(db, routers, v, req.forceLink, ctx, calls)
  }

  /**
   * The writes of a validated creation. A failure of the package or of the secret raises
   * inside the transaction: every row written so far is rolled back, but what the router
   * already did stays.
   */
  function InsertSpec(db: Db, routers: map<nat, RouterState>, v: Subscription, forceLink: bool, ctx: Ctx, calls: Calls)
    : Outcome
    requires KnownRefs(v, ctx, routers)
  {
    var saved := Created(v, ctx);
    var idx := |db.subs|;
    var db1 := db.(subs := db.subs + [saved]);
    if saved.router.None? then
      Outcome(Ok(idx), db1.(history := db.history + [CreatedEntry(idx, saved, ctx)]), routers)
    else
      var rid := saved.router.value;
      var p := ctx.packages[saved.package];
      var q := QueueStage(db1, routers, saved.package, p, rid, calls.queue, ctx.now);
      if !q.ok then
        Outcome(Err(QueueFailure(q.reply)), db, q.routers)
      else
        var pp := ProfileStage(q.db, q.routers, p, rid, calls.profile);
        var u := UserStage(pp.db, pp.routers, idx, ctx, rid, forceLink, calls.user);
        if !u.ok then
          Outcome(Err(UserFailure(u.reply)), db, u.routers)
        else Outcome(Ok(idx), u.db.(history := db.history + [CreatedEntry(idx, saved, ctx)]), u.routers)
  }

  /** A refused or rolled-back creation leaves every table as it was. */
  lemma CreateAtomic(db: Db, routers: map<nat, RouterState>, req: CreateRequest, ctx: Ctx, calls: Calls)
    ensures var o := CreateSpec(db, routers, req, ctx, calls);
      o.result.Err? ==> o.db == db
    ensures CreateSpec(db, routers, req, ctx, calls).routers.Keys == routers.Keys
  {
    var r := ValidateCreate(db.subs, Requested(req), ctx, routers);
    if r.Ok? {
      InsertAtomic(db, routers, r.value, req.forceLink, ctx, calls);
    }
  }

  /** `CreateAtomic` for the writes of a validated creation. */
  lemma InsertAtomic(db: Db, routers: map<nat, RouterState>, v: Subscription, forceLink: bool, ctx: Ctx, calls: Calls)
    requires KnownRefs(v, ctx, routers)
    ensures var o := InsertSpec(db, routers, v, forceLink, ctx, calls);
      (o.result.Err? ==> o.db == db) && o.routers.Keys == routers.Keys
  {
  }

  /**
   * A creation that succeeds appends exactly one subscription, one that passed validation,
   * created by the requesting user with the credentials sent, stripped; it is synced exactly
   * when it has a router, and exactly one `created` history row is added.
   */
  lemma CreateSucceeds(db: Db, routers: map<nat, RouterState>, req: CreateRequest, ctx: Ctx, calls: Calls)
    ensures var o := CreateSpec(db, routers, req, ctx, calls);
      o.result.Ok? ==>
        var idx := o.result.value;
        var s := Requested(req);
        && ValidateCreate(db.subs, s, ctx, routers).Ok?
        && idx == |db.subs| && |o.db.subs| == idx + 1 && o.db.subs[..idx] == db.subs
        && o.db.subs[idx].customer == s.customer && o.db.subs[idx].package == s.package
        && o.db.subs[idx].status == s.status && o.db.subs[idx].billingDay == s.billingDay
        && o.db.subs[idx].router == s.router && o.db.subs[idx].createdBy == ctx.user
        && o.db.subs[idx].username == Trim(s.username) && o.db.subs[idx].password == Trim(s.password)
        && (o.db.subs[idx].synced <==> s.router.Some?)
        && o.db.subs[idx].syncError.None?
        && o.db.history == db.history + [CreatedEntry(idx, Created(Cleaned(s), ctx), ctx)]
        && o.db.fees == db.fees
  {
    var r := ValidateCreate(db.subs, Requested(req), ctx, routers);
    if r.Ok? {
      InsertSucceeds(db, routers, r.value, req.forceLink, ctx, calls);
    }
  }

  /** `CreateSucceeds` for the writes of a validated creation. */
  lemma InsertSucceeds(db: Db, routers: map<nat, RouterState>, v: Subscription, forceLink: bool, ctx: Ctx, calls: Calls)
    requires KnownRefs(v, ctx, routers) && v.username != "" && v.password != ""
    ensures var o := InsertSpec(db, routers, v, forceLink, ctx, calls);
      o.result.Ok? ==>
        var idx := o.result.value;
        && idx == |db.subs| && |o.db.subs| == idx + 1 && o.db.subs[..idx] == db.subs
        && o.db.subs[idx].customer == v.customer && o.db.subs[idx].package == v.package
        && o.db.subs[idx].status == v.status && o.db.subs[idx].billingDay == v.billingDay
        && o.db.subs[idx].router == v.router && o.db.subs[idx].createdBy == ctx.user
        && o.db.subs[idx].username == v.username && o.db.subs[idx].password == v.password
        && (o.db.subs[idx].synced <==> v.router.Some?)
        && o.db.subs[idx].syncError.None?
        && o.db.history == db.history + [CreatedEntry(idx, Created(v, ctx), ctx)]
        && o.db.fees == db.fees
  {
    var o := InsertSpec(db, routers, v, forceLink, ctx, calls);
    if o.result.Ok? && v.router.Some? {
      var saved := Created(v, ctx);
      var idx := |db.subs|;
      var rid := saved.router.value;
      var p := ctx.packages[saved.package];
      var q := QueueStage(db.(subs := db.subs + [saved]), routers, saved.package, p, rid, calls.queue, ctx.now);
      var pp := ProfileStage(q.db, q.routers, p, rid, calls.profile);
      var u := UserStage(pp.db, pp.routers, idx, ctx, rid, forceLink, calls.user);
      assert u.db.subs == pp.db.subs[idx := Save(Linked(saved, u.reply, ctx.now), ctx)];
      assert u.db.subs[..idx] == db.subs;
    }
  }

  /** Creation never gives a customer a second active or suspended subscription. */
  lemma CreateKeepsOneOpen(db: Db, routers: map<nat, RouterState>, req: CreateRequest, ctx: Ctx, calls: Calls)
    requires OneOpen(db.subs)
    ensures OneOpen(CreateSpec(db, routers, req, ctx, calls).db.subs)
  {
    var r := ValidateCreate(db.subs, Requested(req), ctx, routers);
    if r.Ok? {
      InsertKeepsOneOpen(db, routers, r.value, req.forceLink, ctx, calls);
    }
  }

  /** The writes of a creation for a customer without an open subscription keep `OneOpen`. */
  lemma InsertKeepsOneOpen(db: Db, routers: map<nat, RouterState>, v: Subscription, forceLink: bool, ctx: Ctx, calls: Calls)
    requires KnownRefs(v, ctx, routers) && v.username != "" && v.password != ""
    requires OneOpen(db.subs) && !HasOpen(db.subs, v.customer)
    ensures OneOpen(InsertSpec(db, routers, v, forceLink, ctx, calls).db.subs)
  {
    var o := InsertSpec(db, routers, v, forceLink, ctx, calls);
    InsertSucceeds(db, routers, v, forceLink, ctx, calls);
    InsertAtomic(db, routers, v, forceLink, ctx, calls);
    if o.result.Ok? {
      var idx := |db.subs|;
      var subs := o.db.subs;
      forall i, j | 0 <= i < j < |subs| && subs[i].customer == subs[j].customer
        ensures !(IsOpen(subs[i]) && IsOpen(subs[j]))
      {
        assert subs[i] == db.subs[i];
        if j < idx {
          assert subs[j] == db.subs[j];
        }
      }
    }
  }

  /** Creation keeps every row's username set and no two rows sharing one. */
  lemma CreateKeepsUsernamesUnique(db: Db, routers: map<nat, RouterState>, req: CreateRequest, ctx: Ctx, calls: Calls)
    requires UsernamesUnique(db.subs)
    ensures UsernamesUnique(CreateSpec(db, routers, req, ctx, calls).db.subs)
  {
    var r := ValidateCreate(db.subs, Requested(req), ctx, routers);
    if r.Ok? {
      var v := r.value;
      InsertSucceeds(db, routers, v, req.forceLink, ctx, calls);
      InsertAtomic(db, routers, v, req.forceLink, ctx, calls);
      var o := InsertSpec(db, routers, v, req.forceLink, ctx, calls);
      if o.result.Ok? {
        AppendKeepsUnique(db.subs, o.db.subs);
      }
    }
  }

  /** Adding one row with a set username no row uses keeps usernames unique. */
  lemma AppendKeepsUnique(subs: seq<Subscription>, t: seq<Subscription>)
    requires UsernamesUnique(subs) && |t| == |subs| + 1 && t[..|subs|] == subs
    requires t[|subs|].username != "" && !UsernameTaken(subs, None, t[|subs|].username)
    ensures UsernamesUnique(t)
  {
    forall a, b | 0 <= a < b < |t|
      ensures t[a].username != t[b].username
    {
      assert t[a] == subs[a];
    }
  }

  /** The profile rows stay unique through a creation. */
  lemma CreateKeepsProfilesUnique(db: Db, routers: map<nat, RouterState>, req: CreateRequest, ctx: Ctx, calls: Calls)
    requires ProfilesUnique(db.profiles)
    ensures ProfilesUnique(CreateSpec(db, routers, req, ctx, calls).db.profiles)
  {
    var r := ValidateCreate(db.subs, Requested(req), ctx, routers);
    if r.Ok? {
      InsertKeepsProfilesUnique(db, routers, r.value, req.forceLink, ctx, calls);
    }
  }

  /** `CreateKeepsProfilesUnique` for the writes of a validated creation. */
  lemma InsertKeepsProfilesUnique(db: Db, routers: map<nat, RouterState>, v: Subscription, forceLink: bool, ctx: Ctx,
                                  calls: Calls)
    requires KnownRefs(v, ctx, routers) && ProfilesUnique(db.profiles)
    ensures ProfilesUnique(InsertSpec(db, routers, v, forceLink, ctx, calls).db.profiles)
  {
    if v.router.Some? {
      var saved := Created(v, ctx);
      var p := ctx.packages[saved.package];
      var rid := saved.router.value;
      if !HasSyncedProfile(db.profiles, saved.package, rid) {
        var r := CreateQueueSpec(routers[rid], p, calls.queue);
        UpsertProfileSpec(db.profiles, TrackedProfile(saved.package, rid, r.reply, ctx.now));
      }
    }
  }

  /**
   * The rollback does not reach the router: when the package's queue is created but the
   * secret then fails, the request fails and no row is left, yet the new queue stays on the
   * router.
   */
  lemma FailedCreateLeavesQueue(db: Db, routers: map<nat, RouterState>, req: CreateRequest, ctx: Ctx, calls: Calls)
    requires ValidateCreate(db.subs, Requested(req), ctx, routers).Ok? && req.sub.router.Some?
    requires !HasSyncedProfile(db.profiles, req.sub.package, req.sub.router.value)
    requires calls.queue.connect == Connected && calls.queue.fault.None?
    requires Named(routers[req.sub.router.value].device.queues, ctx.packages[req.sub.package].queueName) == []
    requires calls.user.connect != Connected
    ensures var o := CreateSpec(db, routers, req, ctx, calls);
      && o.result.Err? && o.db == db
      && o.routers[req.sub.router.value].device.queues ==
         routers[req.sub.router.value].device.queues + [Entry(calls.queue.newId, QueuePayload(ctx.packages[req.sub.package]))]
  {
    InsertLeavesQueue(db, routers, ValidateCreate(db.subs, Requested(req), ctx, routers).value, req.forceLink, ctx, calls);
  }

  /** `FailedCreateLeavesQueue` for the writes of a validated creation. */
  lemma InsertLeavesQueue(db: Db, routers: map<nat, RouterState>, v: Subscription, forceLink: bool, ctx: Ctx, calls: Calls)
    requires KnownRefs(v, ctx, routers) && v.router.Some?
    requires !HasSyncedProfile(db.profiles, v.package, v.router.value)
    requires calls.queue.connect == Connected && calls.queue.fault.None?
    requires Named(routers[v.router.value].device.queues, ctx.packages[v.package].queueName) == []
    requires calls.user.connect != Connected
    ensures var o := InsertSpec(db, routers, v, forceLink, ctx, calls);
      && o.result.Err? && o.db == db
      && o.routers[v.router.value].device.queues ==
         routers[v.router.value].device.queues + [Entry(calls.queue.newId, QueuePayload(ctx.packages[v.package]))]
  {
    var saved := Created(v, ctx);
    var rid := saved.router.value;
    var p := ctx.packages[saved.package];
    var idx := |db.subs|;
    var db1 := db.(subs := db.subs + [saved]);
    var q := QueueStage(db1, routers, saved.package, p, rid, calls.queue, ctx.now);
    var queues := routers[rid].device.queues + [Entry(calls.queue.newId, QueuePayload(p))];
    assert q.ok && q.routers[rid].device.queues == queues by {
      assert CreateQueueSpec(routers[rid], p, calls.queue).ok;
    }
    var pp := ProfileStage(q.db, q.routers, p, rid, calls.profile);
    ProfileKeepsQueues(q.routers[rid], p, calls.profile);
    var u := UserStage(pp.db, pp.routers, idx, ctx, rid, forceLink, calls.user);
    assert !u.ok && u.routers[rid].device == pp.routers[rid].device;
  }

  lemma ProfileKeepsQueues(st: RouterState, p: Package, env: Env)
    ensures CreateProfileSpec(st, p, env).state.device.queues == st.device.queues
  {
  }
  /** Step 1 on the tables and the router, through the view's service object. */
  method QueueStep(st: SubscriptionTable, rec: SyncRecords, service: MikroTikService, package: nat, p: Package, env: Env, now: int)
    returns (ok: bool, reply: Reply)
    requires service.routerId in service.net.routers && !service.connected
    modifies rec, service, service.net
    ensures !service.connected
    ensures var g := QueueStage(old(DbOf(st, rec)), old(service.net.routers), package, p, service.routerId, env, now);
      ok == g.ok && reply == g.reply && DbOf(st, rec) == g.db && service.net.routers == g.routers
  {
    var rid := service.routerId;
    if HasSyncedProfile(rec.profiles, package, rid) {
      return true, RText("");
    }
    ok, reply := service.CreateQueueProfile(p, env);
    rec.logs := rec.logs + [SyncLog(rid, "create_queue", ok, "queue", p.queueName, None, None,
                                    if ok then None else Some(Message(reply)))];
    if ok {
      rec.profiles := UpsertProfile(rec.profiles, TrackedProfile(package, rid, reply, now));
    }
  }

  /** Step 2 on the tables and the router. */
  method ProfileStep(st: SubscriptionTable, rec: SyncRecords, service: MikroTikService, p: Package, env: Env)
    requires service.routerId in service.net.routers && !service.connected
    modifies rec, service, service.net
    ensures !service.connected
    ensures var g := ProfileStage(old(DbOf(st, rec)), old(service.net.routers), p, service.routerId, env);
      DbOf(st, rec) == g.db && service.net.routers == g.routers
  {
    var ok, reply := service.CreatePppProfile(p, env);
    if !ok {
      rec.logs := rec.logs + [SyncLog(service.routerId, "create_ppp_profile", false, "ppp_profile", p.queueName, None, None,
                                      Some(Message(reply)))];
    }
  }

  /** Step 3 on the tables and the router. */
  method UserStep(st: SubscriptionTable, rec: SyncRecords, service: MikroTikService, idx: nat, ctx: Ctx, forceLink: bool, env: Env)
    returns (ok: bool, reply: Reply)
    requires service.routerId in service.net.routers && !service.connected
    requires idx < |st.subs| && st.subs[idx].customer < |ctx.customers| && st.subs[idx].package < |ctx.packages|
    modifies st, rec, service, service.net
    ensures var g := UserStage(old(DbOf(st, rec)), old(service.net.routers), idx, ctx, service.routerId, forceLink, env);
      ok == g.ok && reply == g.reply && DbOf(st, rec) == g.db && service.net.routers == g.routers
  {
    var s := st.subs[idx];
    ok, reply := service.CreatePppoeUser(AccountOf(s, ctx), forceLink, env);
    rec.logs := rec.logs + [UserLog(service.routerId, "create_user", s.username, idx, ok, reply)];
    if ok {
      st.subs := st.subs[idx := Save(Linked(s, reply, ctx.now), ctx)];
    }
  }

  /** The rollback of a transaction: every table back to the snapshot `db0`. */
  method Restore(st: SubscriptionTable, rec: SyncRecords, db0: Db)
    modifies st, rec
    ensures DbOf(st, rec) == db0
  {
    st.subs, st.history, st.fees, rec.profiles, rec.logs := db0.subs, db0.history, db0.fees, db0.profiles, db0.logs;
  }

  /** The PPPoE secret of a new row; when the router refuses it, the tables go back to `db0`. */
  method UserStepOrRollback(st: SubscriptionTable, rec: SyncRecords, service: MikroTikService, idx: nat, ctx: Ctx,
                            forceLink: bool, env: Env, db0: Db)
    returns (ok: bool, reply: Reply)
    requires service.routerId in service.net.routers && !service.connected
    requires idx < |st.subs| && st.subs[idx].customer < |ctx.customers| && st.subs[idx].package < |ctx.packages|
    modifies st, rec, service, service.net
    ensures var g := UserStage(old(DbOf(st, rec)), old(service.net.routers), idx, ctx, service.routerId, forceLink, env);
      && ok == g.ok && reply == g.reply && service.net.routers == g.routers
      && DbOf(st, rec) == if ok then g.db else db0
  {
    ok, reply := UserStep(st, rec, service, idx, ctx, forceLink, env);
    if !ok {
      Restore(st, rec, db0);
    }
  }

  /**
   * `SubscriptionCreateView.create` on the tables, the routers and one service object:
   * validation, then the writes.
   */
  method CreateSubscription(st: SubscriptionTable, rec: SyncRecords, net: Network, req: CreateRequest, ctx: Ctx, calls: Calls)
    returns (result: Result<nat>)
    modifies st, rec, net
    ensures var o := CreateSpec(old(DbOf(st, rec)), old(net.routers), req, ctx, calls);
      result == o.result && DbOf(st, rec) == o.db && net.routers == o.routers
  {
    var v := ValidateCreate(st.subs, Requested(req), ctx, net.routers);
    if v.Err? {
      return Err(v.msg);
    }
    result := InsertSubscription(st, rec, net, v.value, req.forceLink, ctx, calls);
  }

  /**
   * The writes of a validated creation. The transaction is a snapshot of the tables taken
   * before the first write and put back when the view raises.
   */
  method InsertSubscription(st: SubscriptionTable, rec: SyncRecords, net: Network, v: Subscription, forceLink: bool,
                            ctx: Ctx, calls: Calls)
    returns (result: Result<nat>)
    requires KnownRefs(v, ctx, net.routers)
    modifies st, rec, net
    ensures var o := InsertSpec(old(DbOf(st, rec)), old(net.routers), v, forceLink, ctx, calls);
      result == o.result && DbOf(st, rec) == o.db && net.routers == o.routers
  {
    var db0 := DbOf(st, rec);
    var saved := Created(v, ctx);
    var idx := |st.subs|;
    st.subs := st.subs + [saved];
    if saved.router.None? {
      st.history := st.history + [CreatedEntry(idx, saved, ctx)];
      return Ok(idx);
    }
    var p := ctx.packages[saved.package];
    var service := new MikroTikService(saved.router.value, net);
    var qok, qreply := QueueStep(st, rec, service, saved.package, p, calls.queue, ctx.now);
    if !qok {
      Restore(st, rec, db0);
      return Err(QueueFailure(qreply));
    }
    ProfileStep(st, rec, service, p, calls.profile);
    var uok, ureply := UserStepOrRollback(st, rec, service, idx, ctx, forceLink, calls.user, db0);
    if !uok {
      return Err(UserFailure(ureply));
    }
    st.history := db0.history + [CreatedEntry(idx, saved, ctx)];
    return Ok(idx);
  }

  // ---------------------------------------------------------------- update

  /**
   * An update request: the values sent and the names of the fields present. The update
   * serializer writes customer, package, billing day, billing start month, router, status,
   * credentials, start date and both fees.
   */
  datatype UpdateRequest = UpdateRequest(values: Subscription, given: set<string>)

  function Pick<T>(given: set<string>, field: string, sent: T, kept: T): T
  {
    if field in given then sent else kept
  }

  /** The row with the sent writable fields replaced. */
  function ApplyUpdate(s: Subscription, req: UpdateRequest): (r: Subscription)
    ensures r.userId == s.userId && r.synced == s.synced && r.lastSyncedAt == s.lastSyncedAt
    ensures r.syncError == s.syncError && r.createdBy == s.createdBy && r.profileName == s.profileName
    ensures r.package == (if "package" in req.given then req.values.package else s.package)
    ensures r.status == (if "status" in req.given then req.values.status else s.status)
  {
    var g := req.given;
    var v := req.values;
    s.(customer := Pick(g, "customer", v.customer, s.customer),
       package := Pick(g, "package", v.package, s.package),
       billingDay := Pick(g, "billing_day", v.billingDay, s.billingDay),
       billingStartMonth := Pick(g, "billing_start_month", v.billingStartMonth, s.billingStartMonth),
       router := Pick(g, "router", v.router, s.router),
       status := Pick(g, "status", v.status, s.status),
       username := Pick(g, "mikrotik_username", v.username, s.username),
       password := Pick(g, "mikrotik_password", v.password, s.password),
       startDate := Pick(g, "start_date", v.startDate, s.startDate),
       connectionFee := Pick(g, "connection_fee", v.connectionFee, s.connectionFee),
       reconnectionFee := Pick(g, "reconnection_fee", v.reconnectionFee, s.reconnectionFee))
  }

  /**
   * `SubscriptionUpdateView.update`: the request goes through the update serializer's field
   * checks (the row's foreign keys name existing rows; a billing day sent is at least 1;
   * credentials sent are not blank, at most 100 characters, and a username sent is not
   * another row's); the row is saved with the sent fields, credentials stripped, and a
   * `package_changed` history row is written when the request names a package other than
   * the old one. The router is not told.
   */
  function UpdateSpec(db: Db, routers: map<nat, RouterState>, i: nat, req: UpdateRequest, ctx: Ctx): (o: Outcome)
    ensures o.routers == routers && o.db.profiles == db.profiles && o.db.logs == db.logs && o.db.fees == db.fees
    ensures o.result.Err? ==> o.db == db
    ensures o.result.Ok? ==> i < |db.subs| && o.result.value == i && |o.db.subs| == |db.subs|
  {
    if i >= |db.subs| then Outcome(Err("No Subscription matches the given query."), db, routers)
    else
      var s := db.subs[i];
      match FieldError(db.subs, Some(i), ApplyUpdate(s, req), req.given, ctx, routers)
      case Some(e) => Outcome(Err(e), db, routers)
      case None =>
        var n := ApplyUpdate(s, req.(values := Cleaned(req.values)));
        var history := if "package" in req.given && s.package != n.package
          then db.history + [HistoryEntry(i, "package_changed", PackageChange(Some(s.package), n.package), "Package changed", ctx.user)]
          else db.history;
        Outcome(Ok(i), db.(subs := db.subs[i := Save(n, ctx)], history := history), routers)
  }

  /**
   * An update is accepted exactly when the row exists and the sent fields pass their checks.
   * It never touches the sync state of the row or any other row, stores a billing day and
   * credentials sent (stripped) that passed those checks, and writes a `package_changed` row
   * exactly when the package sent differs from the old one.
   */
  lemma UpdateEffect(db: Db, routers: map<nat, RouterState>, i: nat, req: UpdateRequest, ctx: Ctx)
    ensures var o := UpdateSpec(db, routers, i, req, ctx);
      o.result.Ok? <==> i < |db.subs| && FieldError(db.subs, Some(i), ApplyUpdate(db.subs[i], req), req.given, ctx, routers).None?
    ensures var o := UpdateSpec(db, routers, i, req, ctx);
      o.result.Ok? ==>
        && (forall j :: 0 <= j < |db.subs| && j != i ==> o.db.subs[j] == db.subs[j])
        && o.db.subs[i].userId == db.subs[i].userId && o.db.subs[i].synced == db.subs[i].synced
        && o.db.subs[i].createdBy == db.subs[i].createdBy
        && o.db.subs[i].package == (if "package" in req.given then req.values.package else db.subs[i].package)
        && KnownRefs(o.db.subs[i], ctx, routers)
        && ("billing_day" in req.given ==> o.db.subs[i].billingDay == req.values.billingDay >= 1)
        && ("mikrotik_username" in req.given ==>
              && o.db.subs[i].username == Trim(req.values.username) != ""
              && !UsernameTaken(db.subs, Some(i), o.db.subs[i].username))
        && ("mikrotik_password" in req.given ==> o.db.subs[i].password == Trim(req.values.password) != "")
        && (|o.db.history| == |db.history| + 1 <==> "package" in req.given && req.values.package != db.subs[i].package)
        && (|o.db.history| == |db.history| || |o.db.history| == |db.history| + 1)
  {
  }

  /** An update keeps every row's foreign keys valid. */
  lemma UpdateKeepsRowsKnown(db: Db, routers: map<nat, RouterState>, i: nat, req: UpdateRequest, ctx: Ctx)
    requires RowsKnown(db.subs, ctx, routers)
    ensures RowsKnown(UpdateSpec(db, routers, i, req, ctx).db.subs, ctx, routers)
  {
    UpdateEffect(db, routers, i, req, ctx);
  }

  /** An update keeps every row's username set and no two rows sharing one. */
  lemma UpdateKeepsUsernamesUnique(db: Db, routers: map<nat, RouterState>, i: nat, req: UpdateRequest, ctx: Ctx)
    requires UsernamesUnique(db.subs)
    ensures UsernamesUnique(UpdateSpec(db, routers, i, req, ctx).db.subs)
  {
    var o := UpdateSpec(db, routers, i, req, ctx);
    UpdateEffect(db, routers, i, req, ctx);
    if o.result.Ok? {
      assert o.db.subs == db.subs[i := o.db.subs[i]];
      ReplaceKeepsUnique(db.subs, i, o.db.subs[i]);
    }
  }

  /** Replacing a row by one with its own username, or with a set username no other row uses, keeps usernames unique. */
  lemma ReplaceKeepsUnique(subs: seq<Subscription>, i: nat, r: Subscription)
    requires UsernamesUnique(subs) && i < |subs| && r.username != ""
    requires r.username == subs[i].username || !UsernameTaken(subs, Some(i), r.username)
    ensures UsernamesUnique(subs[i := r])
  {
    var t := subs[i := r];
    forall a, b | 0 <= a < b < |t|
      ensures t[a].username != t[b].username
    {
      if (a == i || b == i) && r.username != subs[i].username {
        var other := if a == i then b else a;
        assert t[other] == subs[other];
      }
    }
  }

  method UpdateSubscription(st: SubscriptionTable, rec: SyncRecords, net: Network, i: nat, req: UpdateRequest, ctx: Ctx)
    returns (result: Result<nat>)
    modifies st
    ensures var o := UpdateSpec(old(DbOf(st, rec)), net.routers, i, req, ctx);
      result == o.result && DbOf(st, rec) == o.db
  {
    if i >= |st.subs| {
      return Err("No Subscription matches the given query.");
    }
    var s := st.subs[i];
    var e := FieldError(st.subs, Some(i), ApplyUpdate(s, req), req.given, ctx, net.routers);
    if e.Some? {
      return Err(e.value);
    }
    var n := ApplyUpdate(s, req.(values := Cleaned(req.values)));
    st.subs := st.subs[i := Save(n, ctx)];
    if "package" in req.given && s.package != n.package {
      st.history := st.history + [HistoryEntry(i, "package_changed", PackageChange(Some(s.package), n.package), "Package changed", ctx.user)];
    }
    return Ok(i);
  }

  // ---------------------------------------------------------------- manual sync

  /** `if subscription.mikrotik_user_id`: a non-empty secret id is known. */
  predicate LinkedToSecret(s: Subscription)
  {
    s.userId.Some? && s.userId.value != ""
  }

  /**
   * `SubscriptionSyncToMikroTikView.post`: a row linked to a secret updates that secret,
   * any other creates one (never force-linking); the call is logged and its outcome recorded
   * on the row.
   */
  function SyncSpec(db: Db, routers: map<nat, RouterState>, i: nat, ctx: Ctx, env: Env): (o: Outcome)
    requires RowsKnown(db.subs, ctx, routers)
    ensures o.routers.Keys == routers.Keys && o.db.history == db.history && o.db.fees == db.fees
    ensures o.db.profiles == db.profiles && |o.db.subs| == |db.subs|
    ensures o.result.Ok? ==> o.result.value == i
  {
    if i >= |db.subs| then Outcome(Err(NotFound), db, routers)
    else
      var s := db.subs[i];
      if s.router.None? then Outcome(Err("No router assigned to this subscription"), db, routers)
      else
        var rid := s.router.value;
        var a := AccountOf(s, ctx);
        var r := if LinkedToSecret(s) then UpdateSecretSpec(routers[rid], a, s.userId.value, env)
                 else CreateSecretSpec(routers[rid], a, false, env);
        var action := if LinkedToSecret(s) then "update_user" else "create_user";
        var row := if r.ok then Linked(s, r.reply, ctx.now) else s.(synced := false, syncError := Some(Message(r.reply)));
        var db2 := db.(subs := db.subs[i := Save(row, ctx)], logs := db.logs + [UserLog(rid, action, s.username, i, r.ok, r.reply)]);
        Outcome(if r.ok then Ok(i) else Err("Failed to sync subscription: " + Message(r.reply)), db2, routers[rid := r.state])
  }

  /**
   * A sync records its outcome on the row: synced and without error exactly when it succeeded,
   * with the router's message otherwise; it never drops a known secret id and other rows are
   * unchanged. A success whose reply names the secret links the row, so the next sync updates.
   */
  lemma SyncRecordsOutcome(db: Db, routers: map<nat, RouterState>, i: nat, ctx: Ctx, env: Env)
    requires RowsKnown(db.subs, ctx, routers) && i < |db.subs| && db.subs[i].router.Some?
    ensures var o := SyncSpec(db, routers, i, ctx, env);
      && (o.result.Ok? <==> o.db.subs[i].synced)
      && (o.result.Ok? <==> o.db.subs[i].syncError.None?)
      && (LinkedToSecret(db.subs[i]) ==> LinkedToSecret(o.db.subs[i]))
      && o.db.subs[i].status == db.subs[i].status && o.db.subs[i].router == db.subs[i].router
      && (forall j :: 0 <= j < |db.subs| && j != i ==> o.db.subs[j] == db.subs[j])
      && |o.db.logs| == |db.logs| + 1 && o.db.logs[|db.logs|].success == o.result.Ok?
  {
  }

  /** A sync that creates the secret and is answered with its record links the row to it. */
  lemma SyncLinksCreatedSecret(db: Db, routers: map<nat, RouterState>, i: nat, ctx: Ctx, env: Env)
    requires RowsKnown(db.subs, ctx, routers) && i < |db.subs| && db.subs[i].router.Some?
    requires !LinkedToSecret(db.subs[i])
    ensures var o := SyncSpec(db, routers, i, ctx, env);
      var r := CreateSecretSpec(routers[db.subs[i].router.value], AccountOf(db.subs[i], ctx), false, env);
      r.ok && ReplyId(r.reply).Some? && ReplyId(r.reply).value != "" ==>
        o.result.Ok? && LinkedToSecret(o.db.subs[i]) && o.db.subs[i].userId == ReplyId(r.reply)
  {
  }

  method SyncSubscription(st: SubscriptionTable, rec: SyncRecords, net: Network, i: nat, ctx: Ctx, env: Env)
    returns (result: Result<nat>)
    requires RowsKnown(st.subs, ctx, net.routers)
    modifies st, rec, net
    ensures var o := SyncSpec(old(DbOf(st, rec)), old(net.routers), i, ctx, env);
      result == o.result && DbOf(st, rec) == o.db && net.routers == o.routers
  {
    if i >= |st.subs| {
      return Err(NotFound);
    }
    var s := st.subs[i];
    if s.router.None? {
      return Err("No router assigned to this subscription");
    }
    var rid := s.router.value;
    var service := new MikroTikService(rid, net);
    var ok, reply, action;
    if LinkedToSecret(s) {
      ok, reply := service.UpdatePppoeUser(AccountOf(s, ctx), s.userId.value, env);
      action := "update_user";
    } else {
      ok, reply := service.CreatePppoeUser(AccountOf(s, ctx), false, env);
      action := "create_user";
    }
    rec.logs := rec.logs + [UserLog(rid, action, s.username, i, ok, reply)];
    if ok {
      st.subs := st.subs[i := Save(Linked(s, reply, ctx.now), ctx)];
      return Ok(i);
    }
    st.subs := st.subs[i := Save(s.(synced := false, syncError := Some(Message(reply))), ctx)];
    return Err("Failed to sync subscription: " + Message(reply));
  }

  // ---------------------------------------------------------------- suspend and activate

  datatype Toggle = Suspend | Activate

  function Target(t: Toggle): SubStatus
  {
    if t.Suspend? then Suspended else Active
  }

  /**
   * `SubscriptionSuspendView.post` and `SubscriptionActivateView.post`: a row already in the
   * target state is refused; a row with a router that is synced has its secret disabled or
   * enabled and the call logged; the status is set whatever the router answered, and the
   * change goes to the history with the reason (suspend) or a fixed note (activate).
   */
  function StatusSpec(db: Db, routers: map<nat, RouterState>, i: nat, t: Toggle, reason: Option<string>, ctx: Ctx, env: Env)
    : (o: Outcome)
    requires RowsKnown(db.subs, ctx, routers)
    ensures o.routers.Keys == routers.Keys && o.db.fees == db.fees && o.db.profiles == db.profiles
    ensures |o.db.subs| == |db.subs|
    ensures o.result.Err? ==> o.db == db && o.routers == routers
  {
    if i >= |db.subs| then Outcome(Err(NotFound), db, routers)
    else
      var s := db.subs[i];
      if s.status == Target(t) then Outcome(Err(AlreadyError(t)), db, routers)
      else
        var (logs, routers2) := RouterToggle(db.logs, routers, s, t, env);
        var db2 := db.(subs := db.subs[i := Save(s.(status := Target(t)), ctx)],
                       history := db.history + [ToggleEntry(i, s, t, reason, ctx)], logs := logs);
        Outcome(Ok(i), db2, routers2)
  }

  /**
   * The router side of a toggle: a synced row with a router has its secret disabled or
   * enabled and the call logged; any other row leaves the log and the routers alone.
   */
  function RouterToggle(logs: seq<SyncLog>, routers: map<nat, RouterState>, s: Subscription, t: Toggle, env: Env)
    : (r: (seq<SyncLog>, map<nat, RouterState>))
    requires s.router.Some? ==> s.router.value in routers
    ensures r.1.Keys == routers.Keys
    ensures !(s.router.Some? && s.synced) ==> r == (logs, routers)
  {
    if s.router.Some? && s.synced then
      var call := SetDisabledSpec(routers[s.router.value], s.username, DisabledFlag(t), env);
      (logs + [ToggleLog(s, t, call.ok, call.reply)], routers[s.router.value := call.state])
    else (logs, routers)
  }

  /** The router call of a toggle and its log row. */
  method ToggleOnRouter(rec: SyncRecords, net: Network, s: Subscription, t: Toggle, env: Env)
    requires s.router.Some? ==> s.router.value in net.routers
    modifies rec, net
    ensures rec.profiles == old(rec.profiles)
    ensures (rec.logs, net.routers) == RouterToggle(old(rec.logs), old(net.routers), s, t, env)
  {
    if s.router.Some? && s.synced {
      var service := new MikroTikService(s.router.value, net);
      var ok, reply := service.SetDisabled(s.username, DisabledFlag(t), env);
      rec.logs := rec.logs + [ToggleLog(s, t, ok, reply)];
    }
  }

  /** The error of a toggle to the status the subscription already has. */
  function AlreadyError(t: Toggle): string
  {
    if t.Suspend? then "Subscription is already suspended" else "Subscription is already active"
  }

  /** The `disabled` flag the router is given for a toggle. */
  function DisabledFlag(t: Toggle): string
  {
    if t.Suspend? then "yes" else "no"
  }

  /** The log line of the router call of a toggle. */
  function ToggleLog(s: Subscription, t: Toggle, ok: bool, reply: Reply): SyncLog
    requires s.router.Some?
  {
    SyncLog(s.router.value, if t.Suspend? then "disable_user" else "enable_user", ok, "pppoe_user",
            s.username, None, None, if ok then None else Some(Message(reply)))
  }

  /** The history row of a toggle: the reason of a suspension, or a fixed note. */
  function ToggleEntry(i: nat, s: Subscription, t: Toggle, reason: Option<string>, ctx: Ctx): HistoryEntry
  {
    var notes := if t.Activate? then "Activated by admin" else if reason.Some? then reason.value else "Suspended by admin";
    HistoryEntry(i, if t.Suspend? then "suspended" else "activated", StatusChange(Some(s.status), Target(t)), notes, ctx.user)
  }

  /**
   * The status is set whatever the router answers, and only the status (and missing
   * credentials) change; the router and the log are touched only for a synced row with a router.
   */
  lemma StatusSetRegardless(db: Db, routers: map<nat, RouterState>, i: nat, t: Toggle, reason: Option<string>, ctx: Ctx, env: Env)
    requires RowsKnown(db.subs, ctx, routers) && i < |db.subs| && db.subs[i].status != Target(t)
    ensures var o := StatusSpec(db, routers, i, t, reason, ctx, env);
      && o.result == Ok(i)
      && o.db.subs[i].status == Target(t)
      && o.db.subs[i].(status := db.subs[i].status) == Save(db.subs[i], ctx)
      && (forall j :: 0 <= j < |db.subs| && j != i ==> o.db.subs[j] == db.subs[j])
      && o.db.history == db.history + [o.db.history[|db.history|]]
      && o.db.history[|db.history|].change == StatusChange(Some(db.subs[i].status), Target(t))
      && (!(db.subs[i].router.Some? && db.subs[i].synced) ==> o.routers == routers && o.db.logs == db.logs)
  {
  }

  /** Suspending an active row and then activating it gives back the saved row. */
  lemma SuspendThenActivate(db: Db, routers: map<nat, RouterState>, i: nat, reason: Option<string>, ctx: Ctx, env1: Env, env2: Env)
    requires RowsKnown(db.subs, ctx, routers) && i < |db.subs| && db.subs[i].status == Active
    ensures var o1 := StatusSpec(db, routers, i, Suspend, reason, ctx, env1);
      RowsKnown(o1.db.subs, ctx, o1.routers) &&
      var o2 := StatusSpec(o1.db, o1.routers, i, Activate, None, ctx, env2);
      o2.result == Ok(i) && o2.db.subs[i] == Save(db.subs[i], ctx)
  {
    var o1 := StatusSpec(db, routers, i, Suspend, reason, ctx, env1);
    StatusSetRegardless(db, routers, i, Suspend, reason, ctx, env1);
    assert forall j :: 0 <= j < |o1.db.subs| ==>
      o1.db.subs[j].customer == db.subs[j].customer && o1.db.subs[j].package == db.subs[j].package
      && o1.db.subs[j].router == db.subs[j].router;
    StatusSetRegardless(o1.db, o1.routers, i, Activate, None, ctx, env2);
    var cid := ctx.customers[db.subs[i].customer].customerId;
    assert DefaultUsername(cid) != "";
  }

  method SetStatus(st: SubscriptionTable, rec: SyncRecords, net: Network, i: nat, t: Toggle, reason: Option<string>, ctx: Ctx, env: Env)
    returns (result: Result<nat>)
    requires RowsKnown(st.subs, ctx, net.routers)
    modifies st, rec, net
    ensures var o := StatusSpec(old(DbOf(st, rec)), old(net.routers), i, t, reason, ctx, env);
      result == o.result && DbOf(st, rec) == o.db && net.routers == o.routers
  {
    if i >= |st.subs| {
      return Err(NotFound);
    }
    var s := st.subs[i];
    if s.status == Target(t) {
      return Err(AlreadyError(t));
    }
    ToggleOnRouter(rec, net, s, t, env);
    st.subs := st.subs[i := Save(s.(status := Target(t)), ctx)];
    st.history := st.history + [ToggleEntry(i, s, t, reason, ctx)];
    return Ok(i);
  }
}
