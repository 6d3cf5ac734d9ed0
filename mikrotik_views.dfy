/**
 * The router endpoints: testing the connection to a router and pushing a package to a router
 * as a PPP profile, with its tracking row and sync log.
 */
module MikrotikViews {
  import opened Common
  import opened Catalog
  import opened RouterGateway
  import opened Records

  // ---------------------------------------------------------------- test connection

  /** An HTTP answer: the status code, the message and the router state reported. */
  datatype Response = Response(code: int, message: string, state: string)

  /**
   * `MikroTikRouterTestConnectionView.post`: 404 for an unknown router, else 200 "online" when
   * the test succeeds and 400 "offline" when it does not.
   */
  function TestConnectionViewSpec(routers: map<nat, RouterState>, rid: nat, env: Env): (r: (Response, map<nat, RouterState>))
    ensures rid !in routers ==> r == (Response(404, "Router not found", ""), routers)
    ensures rid in routers ==> r.1 == routers[rid := TestConnectionSpec(routers[rid], env).state]
    ensures rid in routers ==> (r.0.code == 200 <==> TestConnectionSpec(routers[rid], env).ok)
    ensures rid in routers ==> (r.0.code == 200 <==> r.0.state == "online") && (r.0.code == 200 || r.0.code == 400)
  {
    if rid !in routers then (Response(404, "Router not found", ""), routers)
    else
      var t := TestConnectionSpec(routers[rid], env);
      var message := if t.reply.RText? then t.reply.text else "";
      (if t.ok then Response(200, message, "online") else Response(400, message, "offline"), routers[rid := t.state])
  }

  /**
   * The answer agrees with the bookkeeping on the router row: "online" means the row is marked
   * online, and a refused API connection leaves it marked offline.
   */
  lemma TestAnswerMatchesRow(routers: map<nat, RouterState>, rid: nat, env: Env)
    requires rid in routers
    ensures var (resp, after) := TestConnectionViewSpec(routers, rid, env);
      && (resp.state == "online" ==> after[rid].isOnline && after[rid].lastConnectedAt == Some(env.now))
      && (env.connect == ApiFailure ==> resp.state == "offline" && !after[rid].isOnline)
      && after[rid].device == routers[rid].device
  {
  }

  method TestConnectionView(net: Network, rid: nat, env: Env) returns (resp: Response)
    modifies net
    ensures (resp, net.routers) == TestConnectionViewSpec(old(net.routers), rid, env)
  {
    if rid !in net.routers {
      return Response(404, "Router not found", "");
    }
    var service := new MikroTikService(rid, net);
    var ok, message := service.TestConnection(env);
    if ok {
      resp := Response(200, message, "online");
    } else {
      resp := Response(400, message, "offline");
    }
  }

  // ---------------------------------------------------------------- sync a package

  /**
   * What `update_ppp_profile` answered. The service does not define that call, so its result is
   * a parameter and the router is taken to be left as it was.
   */
  datatype UpdateOutcome = UpdateOutcome(ok: bool, reply: Reply)

  /** The tracking rows, the sync log and the routers after a request. */
  datatype PackageOutcome = PackageOutcome(
    result: Result<nat>,
    profiles: seq<QueueProfile>,
    logs: seq<SyncLog>,
    routers: map<nat, RouterState>)

  /** `get_or_create(package, router)`: the position of the tracking row and the rows after. */
  function GetOrCreate(qps: seq<QueueProfile>, package: nat, rid: nat): (r: (nat, seq<QueueProfile>))
    ensures r.0 < |r.1| && r.1[r.0].package == package && r.1[r.0].router == rid
    ensures FindProfile(qps, package, rid).Some? ==> r == (FindProfile(qps, package, rid).value, qps)
    ensures FindProfile(qps, package, rid).None? ==> r == (|qps|, qps + [QueueProfile(package, rid, None, false, None, None)])
  {
    match FindProfile(qps, package, rid)
    case Some(k) => (k, qps)
    case None => (|qps|, qps + [QueueProfile(package, rid, None, false, None, None)])
  }

  /** `if queue_profile.mikrotik_queue_id`: a non-empty id is known. */
  predicate HasRouterId(q: QueueProfile)
  {
    q.queueId.Some? && q.queueId.value != ""
  }

  /** The tracking row after the router answered. */
  function Tracked(q: QueueProfile, ok: bool, reply: Reply, now: int): (r: QueueProfile)
    ensures r.package == q.package && r.router == q.router
    ensures r.synced == ok && (r.syncError.None? <==> ok)
    ensures ok ==> r.lastSyncedAt == Some(now)
    ensures r.queueId == if ok && ReplyId(reply).Some? then ReplyId(reply) else q.queueId
  {
    if ok then q.(synced := true, lastSyncedAt := Some(now), syncError := None,
                  queueId := if ReplyId(reply).Some? then ReplyId(reply) else q.queueId)
    else q.(synced := false, syncError := Some(Message(reply)))
  }

  /**
   * `SyncPackageToRouterView.post`: the package and the router must exist; the tracking row is
   * fetched or created; a row with a router-side id updates the profile, any other creates it;
   * the attempt is logged and its outcome recorded on the row. Nothing is rolled back.
   */
  function SyncPackageSpec(qps: seq<QueueProfile>, logs: seq<SyncLog>, routers: map<nat, RouterState>,
                           packages: seq<Package>, package: nat, rid: nat, env: Env, update: UpdateOutcome, now: int)
    : (o: PackageOutcome)
    ensures o.routers.Keys == routers.Keys
    ensures o.result.Err? && (package >= |packages| || rid !in routers) ==> o.profiles == qps && o.logs == logs && o.routers == routers
  {
    if package >= |packages| then PackageOutcome(Err("Package not found"), qps, logs, routers)
    else if rid !in routers then PackageOutcome(Err("Router not found"), qps, logs, routers)
    else
      var p := packages[package];
      var (k, qps1) := GetOrCreate(qps, package, rid);
      var updating := HasRouterId(qps1[k]);
      var call := if updating then OpResult(routers[rid], update.ok, update.reply) else CreateProfileSpec(routers[rid], p, env);
      var log := SyncLog(rid, if updating then "update_profile" else "create_profile", call.ok, "profile", p.queueName,
                         None, Some(call.reply), if call.ok then None else Some(Message(call.reply)));
      PackageOutcome(if call.ok then Ok(k) else Err("Failed to sync package: " + Message(call.reply)),
                     qps1[k := Tracked(qps1[k], call.ok, call.reply, now)], logs + [log], routers[rid := call.state])
  }

  /**
   * A sync keeps one tracking row per (package, router), and the row it leaves for the pair
   * is synced exactly when the request succeeded; one log row records the attempt.
   */
  lemma SyncPackageTracksOnce(qps: seq<QueueProfile>, logs: seq<SyncLog>, routers: map<nat, RouterState>,
                              packages: seq<Package>, package: nat, rid: nat, env: Env, update: UpdateOutcome, now: int)
    requires ProfilesUnique(qps) && package < |packages| && rid in routers
    ensures var o := SyncPackageSpec(qps, logs, routers, packages, package, rid, env, update, now);
      && ProfilesUnique(o.profiles)
      && FindProfile(o.profiles, package, rid).Some?
      && var q := o.profiles[FindProfile(o.profiles, package, rid).value];
      && (q.synced <==> o.result.Ok?)
      && (q.syncError.None? <==> o.result.Ok?)
      && |o.logs| == |logs| + 1 && (o.logs[|logs|].success <==> o.result.Ok?)
      && |o.profiles| <= |qps| + 1
  {
    var (k, qps1) := GetOrCreate(qps, package, rid);
    var o := SyncPackageSpec(qps, logs, routers, packages, package, rid, env, update, now);
    GetOrCreateUnique(qps, package, rid);
    assert o.profiles[k].package == package && o.profiles[k].router == rid;
    UniqueFind(o.profiles, k);
  }

  /** Taking or adding the tracking row of a pair keeps one row per pair. */
  lemma GetOrCreateUnique(qps: seq<QueueProfile>, package: nat, rid: nat)
    requires ProfilesUnique(qps)
    ensures ProfilesUnique(GetOrCreate(qps, package, rid).1)
  {
    var qps1 := GetOrCreate(qps, package, rid).1;
    if FindProfile(qps, package, rid).None? {
      assert forall i :: 0 <= i < |qps| ==> qps1[i] == qps[i];
    }
  }

  /** With one row per pair, the lookup of a row's pair finds that row. */
  lemma UniqueFind(qps: seq<QueueProfile>, k: nat)
    requires ProfilesUnique(qps) && k < |qps|
    ensures FindProfile(qps, qps[k].package, qps[k].router) == Some(k)
  {
  }

  /**
   * Which call a sync makes: the update exactly when the tracking row holds a router-side
   * id; so once a creation answered with an id, the next sync of the pair updates.
   */
  lemma SyncPackagePath(qps: seq<QueueProfile>, logs: seq<SyncLog>, routers: map<nat, RouterState>,
                        packages: seq<Package>, package: nat, rid: nat, env: Env, update: UpdateOutcome, now: int)
    requires ProfilesUnique(qps) && package < |packages| && rid in routers
    ensures var o := SyncPackageSpec(qps, logs, routers, packages, package, rid, env, update, now);
      var before := FindProfile(qps, package, rid);
      && (o.logs[|logs|].action == "update_profile" <==> before.Some? && HasRouterId(qps[before.value]))
      && (o.logs[|logs|].action == "update_profile" ==> o.routers == routers && o.result.Ok? == update.ok)
      && FindProfile(o.profiles, package, rid).Some?
      && (o.result.Ok? && o.logs[|logs|].response.Some? && ReplyId(o.logs[|logs|].response.value).Some?
          && ReplyId(o.logs[|logs|].response.value).value != ""
          ==> HasRouterId(o.profiles[FindProfile(o.profiles, package, rid).value]))
  {
    SyncPackageTracksOnce(qps, logs, routers, packages, package, rid, env, update, now);
  }

  method SyncPackageToRouter(rec: SyncRecords, net: Network, packages: seq<Package>, package: nat, rid: nat,
                             env: Env, update: UpdateOutcome, now: int)
    returns (result: Result<nat>)
    modifies rec, net
    ensures var o := SyncPackageSpec(old(rec.profiles), old(rec.logs), old(net.routers), packages, package, rid, env, update, now);
      result == o.result && rec.profiles == o.profiles && rec.logs == o.logs && net.routers == o.routers
  {
    if package >= |packages| {
      return Err("Package not found");
    }
    if rid !in net.routers {
      return Err("Router not found");
    }
    var p := packages[package];
    var k: nat;
    match FindProfile(rec.profiles, package, rid) {
      case Some(j) => k := j;
      case None =>
        k := |rec.profiles|;
        rec.profiles := rec.profiles + [QueueProfile(package, rid, None, false, None, None)];
    }
    var updating := HasRouterId(rec.profiles[k]);
    var ok, reply;
    if updating {
      ok, reply := update.ok, update.reply;
    } else {
      var service := new MikroTikService(rid, net);
      ok, reply := service.CreatePppProfile(p, env);
    }
    rec.logs := rec.logs + [SyncLog(rid, if updating then "update_profile" else "create_profile", ok, "profile", p.queueName,
                                    None, Some(reply), if ok then None else Some(Message(reply)))];
    rec.profiles := rec.profiles[k := Tracked(rec.profiles[k], ok, reply, now)];
    if ok {
      return Ok(k);
    }
    return Err("Failed to sync package: " + Message(reply));
  }
}
