/**
 * The MikroTik gateway: one service object per router, which connects, issues one RouterOS
 * API call and disconnects again. The router is an in-memory store of named entries in
 * three menus (`/queue/simple`, `/ppp/profile`, `/ppp/secret`); what the network and the
 * device do on a call is an `Env` value, so every outcome the code handles is reachable.
 */
module RouterGateway {
  import opened Common
  import opened Text
  import opened Catalog

  /** An item of a RouterOS menu: its `.id` and its properties. */
  datatype Entry = Entry(id: string, props: map<string, string>)

  /** What the router holds. */
  datatype Device = Device(
    identity: Option<string>,
    queues: seq<Entry>,
    profiles: seq<Entry>,
    secrets: seq<Entry>,
    active: seq<map<string, string>>)

  /** The connection bookkeeping of a `routers` row together with the device it stands for. */
  datatype RouterState = RouterState(isOnline: bool, lastConnectedAt: Option<int>, device: Device)

  /** How opening the API pool ends: success, a RouterOS connection/communication error, or another exception. */
  datatype ConnectOutcome = Connected | ApiFailure | OtherFailure

  /** The second element of a service call's result: a message, a record, or what `add` returned. */
  datatype Reply = RText(text: string) | RRecord(record: map<string, string>) | RAdded

  /**
   * One call's environment: the connection outcome, the clock, an exception the main API
   * call raises (`fault`), whether the follow-up lookup by name raises, the id the device
   * gives a new entry, and the value `add` returns.
   */
  datatype Env = Env(
    connect: ConnectOutcome,
    now: int,
    fault: Option<string>,
    lookupFault: bool,
    newId: string,
    addReply: Reply)

  /** Result of one service call: the router afterwards, the success flag and the reply. */
  datatype OpResult = OpResult(state: RouterState, ok: bool, reply: Reply)

  const DuplicateName := "failure: already have such name"
  /** The end of the message for a username the router already has. */
  const CollisionTail := "' already exists in MikroTik. Please delete it from router or use a different username."
  const NoConnection := "Failed to connect to router"

  // ---------------------------------------------------------------- payloads

  /** `f"{a}M/{b}M"`. */
  function Rate(a: int, b: int): string
  {
    IntToString(a) + "M/" + IntToString(b) + "M"
  }

  /** Python truthiness of an optional integer field. */
  predicate Truthy(v: Option<int>)
  {
    v.Some? && v.value != 0
  }

  /** The `/queue/simple` item for a package. */
  function QueuePayload(p: Package): (data: map<string, string>)
    ensures "name" in data && data["name"] == p.queueName
    ensures "max-limit" in data && data["max-limit"] == Rate(p.download, p.upload)
    ensures "priority" in data && data["priority"] == IntToString(p.priority)
    ensures "burst-limit" in data <==> Truthy(p.burstLimitDownload) && Truthy(p.burstLimitUpload)
    ensures "burst-limit" in data ==>
      data["burst-limit"] == Rate(p.burstLimitDownload.value, p.burstLimitUpload.value)
    ensures "burst-threshold" in data <==> Truthy(p.burstThresholdDownload) && Truthy(p.burstThresholdUpload)
    ensures "burst-threshold" in data ==>
      data["burst-threshold"] == Rate(p.burstThresholdDownload.value, p.burstThresholdUpload.value)
    ensures "burst-time" in data <==> Truthy(p.burstTime)
    ensures "burst-time" in data ==>
      data["burst-time"] == IntToString(p.burstTime.value) + "s/" + IntToString(p.burstTime.value) + "s"
    ensures data.Keys <= {"name", "max-limit", "priority", "burst-limit", "burst-threshold", "burst-time"}
  {
    var base := map["name" := p.queueName, "max-limit" := Rate(p.download, p.upload),
                    "priority" := IntToString(p.priority)];
    var withLimit := if Truthy(p.burstLimitDownload) && Truthy(p.burstLimitUpload)
      then base["burst-limit" := Rate(p.burstLimitDownload.value, p.burstLimitUpload.value)]
      else base;
    var withThreshold := if Truthy(p.burstThresholdDownload) && Truthy(p.burstThresholdUpload)
      then withLimit["burst-threshold" := Rate(p.burstThresholdDownload.value, p.burstThresholdUpload.value)]
      else withLimit;
    if Truthy(p.burstTime)
    then withThreshold["burst-time" := IntToString(p.burstTime.value) + "s/" + IntToString(p.burstTime.value) + "s"]
    else withThreshold
  }

  /** The `/ppp/profile` item for a package: its rate limit is upload first. */
  function ProfilePayload(p: Package): (data: map<string, string>)
    ensures data.Keys == {"name", "rate-limit"}
    ensures data["name"] == p.queueName && data["rate-limit"] == Rate(p.upload, p.download)
  {
    map["name" := p.queueName, "rate-limit" := Rate(p.upload, p.download)]
  }

  /** The PPPoE account of a subscription, as the gateway needs it. */
  datatype Account = Account(
    username: string,
    password: string,
    profile: string,
    customerId: string,
    staticIp: Option<string>)

  predicate HasStaticIp(a: Account)
  {
    a.staticIp.Some? && a.staticIp.value != ""
  }

  /** The `/ppp/secret` item for an account. */
  function SecretPayload(a: Account): (data: map<string, string>)
    ensures "name" in data && data["name"] == a.username
    ensures "password" in data && data["password"] == a.password
    ensures "service" in data && data["service"] == "pppoe"
    ensures "profile" in data && data["profile"] == a.profile
    ensures "comment" in data && data["comment"] == "Customer: " + a.customerId
    ensures "remote-address" in data <==> HasStaticIp(a)
    ensures HasStaticIp(a) ==> data["remote-address"] == a.staticIp.value
    ensures data.Keys <= {"name", "password", "service", "profile", "comment", "remote-address"}
  {
    var base := map["name" := a.username, "password" := a.password, "service" := "pppoe",
                    "profile" := a.profile, "comment" := "Customer: " + a.customerId];
    if HasStaticIp(a) then base["remote-address" := a.staticIp.value] else base
  }

  /** The properties `update_pppoe_user` sets (besides `.id`). */
  function SecretUpdate(a: Account): (data: map<string, string>)
    ensures "name" in data && data["name"] == a.username
    ensures "password" in data && data["password"] == a.password
    ensures "profile" in data && data["profile"] == a.profile
    ensures "remote-address" in data <==> HasStaticIp(a)
    ensures data.Keys <= {"name", "password", "profile", "remote-address"}
  {
    var base := map["name" := a.username, "password" := a.password, "profile" := a.profile];
    if HasStaticIp(a) then base["remote-address" := a.staticIp.value] else base
  }

  // ---------------------------------------------------------------- the device

  predicate HasName(e: Entry, name: string)
  {
    "name" in e.props && e.props["name"] == name
  }

  /** `resource.get(name=...)`: the entries with that name, in menu order. */
  function Named(entries: seq<Entry>, name: string): (r: seq<Entry>)
    ensures forall i :: 0 <= i < |r| ==> HasName(r[i], name)
    ensures r == [] <==> forall i :: 0 <= i < |entries| ==> !HasName(entries[i], name)
  {
    if entries == [] then []
    else (if HasName(entries[0], name) then [entries[0]] else []) + Named(entries[1..], name)
  }

  /** An entry as the API returns it: its properties with its id under `id`. */
  function Record(e: Entry): (r: map<string, string>)
    ensures "id" in r && r["id"] == e.id
  {
    e.props["id" := e.id]
  }

  /** `resource.add(**data)`: refused on a fault or when the name is taken. */
  function Add(entries: seq<Entry>, data: map<string, string>, env: Env): (r: Result<seq<Entry>>)
    requires "name" in data
    ensures r.Ok? ==> r.value == entries + [Entry(env.newId, data)]
    ensures env.fault.None? ==> (r.Err? <==> Named(entries, data["name"]) != [])
    ensures env.fault.None? && r.Err? ==> r.msg == DuplicateName
  {
    if env.fault.Some? then Err(env.fault.value)
    else if Named(entries, data["name"]) != [] then Err(DuplicateName)
    else Ok(entries + [Entry(env.newId, data)])
  }

  /** Position of the entry with an id. */
  function IndexOfId(entries: seq<Entry>, id: string): (r: Option<nat>)
    ensures r.Some? ==> r.value < |entries| && entries[r.value].id == id
    ensures r.None? ==> forall i :: 0 <= i < |entries| ==> entries[i].id != id
  {
    if entries == [] then None
    else if entries[|entries| - 1].id == id then Some(|entries| - 1)
    else IndexOfId(entries[..|entries| - 1], id)
  }

  /** `resource.set(id=..., **props)`: the entry's properties are overwritten key by key. */
  function SetProps(entries: seq<Entry>, id: string, props: map<string, string>): (r: Result<seq<Entry>>)
    ensures r.Err? <==> IndexOfId(entries, id).None?
    ensures r.Ok? ==> |r.value| == |entries|
  {
    match IndexOfId(entries, id)
    case None => Err("no such item")
    case Some(i) => Ok(entries[i := entries[i].(props := entries[i].props + props)])
  }

  /** `resource.remove(id=...)`. */
  function RemoveId(entries: seq<Entry>, id: string): (r: seq<Entry>)
  {
    match IndexOfId(entries, id)
    case None => entries
    case Some(i) => entries[..i] + entries[i + 1..]
  }

  // ---------------------------------------------------------------- service calls, specified

  /** `connect`: success marks the router online and stamps the time; an API error marks it offline. */
  function AfterConnect(st: RouterState, env: Env): (r: RouterState)
    ensures r.device == st.device
  {
    match env.connect
    case Connected => st.(isOnline := true, lastConnectedAt := Some(env.now))
    case ApiFailure => st.(isOnline := false)
    case OtherFailure => st
  }

  function WithQueues(st: RouterState, qs: seq<Entry>): RouterState
  {
    st.(device := st.device.(queues := qs))
  }

  function WithProfiles(st: RouterState, ps: seq<Entry>): RouterState
  {
    st.(device := st.device.(profiles := ps))
  }

  function WithSecrets(st: RouterState, ss: seq<Entry>): RouterState
  {
    st.(device := st.device.(secrets := ss))
  }

  /** `create_queue_profile`. */
  function CreateQueueSpec(st: RouterState, p: Package, env: Env): OpResult
  {
    var s := AfterConnect(st, env);
    if env.connect != Connected then OpResult(s, false, RText(NoConnection))
    else match Add(s.device.queues, QueuePayload(p), env)
      case Ok(qs) => OpResult(WithQueues(s, qs), true, env.addReply)
      case Err(e) =>
        var found := if Contains(e, "already have such name") && !env.lookupFault
          then Named(s.device.queues, p.queueName) else [];
        if found != [] then OpResult(s, true, RRecord(Record(found[0])))
        else OpResult(s, false, RText("Error creating queue profile: " + e))
  }

  /** `create_ppp_profile`: a taken name counts as success even when the lookup fails. */
  function CreateProfileSpec(st: RouterState, p: Package, env: Env): OpResult
  {
    var s := AfterConnect(st, env);
    if env.connect != Connected then OpResult(s, false, RText(NoConnection))
    else match Add(s.device.profiles, ProfilePayload(p), env)
      case Ok(ps) => OpResult(WithProfiles(s, ps), true, env.addReply)
      case Err(e) =>
        if Contains(e, "already have such name") then
          var found := if env.lookupFault then [] else Named(s.device.profiles, p.queueName);
          if found != [] then OpResult(s, true, RRecord(Record(found[0])))
          else OpResult(s, true, RText("Profile already exists"))
        else OpResult(s, false, RText(e))
  }

  function CollisionMessage(username: string): string
  {
    "User '" + username + CollisionTail
  }

  /** `create_pppoe_user`: on a taken name, `forceLink` adopts the existing secret if it can be found. */
  function CreateSecretSpec(st: RouterState, a: Account, forceLink: bool, env: Env): OpResult
  {
    var s := AfterConnect(st, env);
    if env.connect != Connected then OpResult(s, false, RText(NoConnection))
    else match Add(s.device.secrets, SecretPayload(a), env)
      case Ok(ss) => OpResult(WithSecrets(s, ss), true, env.addReply)
      case Err(e) =>
        if Contains(e, "already have such name") || Contains(e, "already exists") then
          var found := if forceLink && !env.lookupFault then Named(s.device.secrets, a.username) else [];
          if found != [] then OpResult(s, true, RRecord(Record(found[0])))
          else OpResult(s, false, RText(CollisionMessage(a.username)))
        else OpResult(s, false, RText("Error creating PPPoE user: " + e))
  }

  /** `update_pppoe_user`: the secret with the stored id gets the account's properties. */
  function UpdateSecretSpec(st: RouterState, a: Account, userId: string, env: Env): OpResult
  {
    var s := AfterConnect(st, env);
    if env.connect != Connected then OpResult(s, false, RText(NoConnection))
    else if env.fault.Some? then OpResult(s, false, RText("Error updating PPPoE user: " + env.fault.value))
    else match SetProps(s.device.secrets, userId, SecretUpdate(a))
      case Ok(ss) => OpResult(WithSecrets(s, ss), true, RText("PPPoE user updated successfully"))
      case Err(e) => OpResult(s, false, RText("Error updating PPPoE user: " + e))
  }

  /** `enable_pppoe_user` (`flag` "no") and `disable_pppoe_user` (`flag` "yes") on the first secret of that name. */
  function SetDisabledSpec(st: RouterState, username: string, flag: string, env: Env): OpResult
  {
    var s := AfterConnect(st, env);
    var verb := if flag == "no" then "enabl" else "disabl";
    if env.connect != Connected then OpResult(s, false, RText(NoConnection))
    else if env.fault.Some? then OpResult(s, false, RText("Error " + verb + "ing PPPoE user: " + env.fault.value))
    else
      var users := Named(s.device.secrets, username);
      if users == [] then OpResult(s, false, RText("User not found"))
      else match SetProps(s.device.secrets, users[0].id, map["disabled" := flag])
        case Ok(ss) => OpResult(WithSecrets(s, ss), true, RText("User " + verb + "ed successfully"))
        case Err(e) => OpResult(s, false, RText("Error " + verb + "ing PPPoE user: " + e))
  }

  /** `delete_pppoe_user`: the first secret of that name is removed. */
  function DeleteSecretSpec(st: RouterState, username: string, env: Env): OpResult
  {
    var s := AfterConnect(st, env);
    if env.connect != Connected then OpResult(s, false, RText(NoConnection))
    else if env.fault.Some? then OpResult(s, false, RText("Error deleting PPPoE user: " + env.fault.value))
    else
      var users := Named(s.device.secrets, username);
      if users == [] then OpResult(s, false, RText("User not found"))
      else OpResult(WithSecrets(s, RemoveId(s.device.secrets, users[0].id)), true, RText("User deleted successfully"))
  }

  /** `test_connection`: the router's identity name, or "Unknown" when it has none. */
  function TestConnectionSpec(st: RouterState, env: Env): OpResult
  {
    var s := AfterConnect(st, env);
    if env.connect != Connected then OpResult(s, false, RText("Connection failed"))
    else if env.fault.Some? then OpResult(s, false, RText(env.fault.value))
    else
      var name := if st.device.identity.Some? then st.device.identity.value else "Unknown";
      OpResult(s, true, RText("Connected successfully. Router: " + name))
  }

  /** `get_active_connections`: the live sessions, or none when the router cannot be reached. */
  function ActiveConnectionsSpec(st: RouterState, env: Env): seq<map<string, string>>
  {
    if env.connect != Connected || env.fault.Some? then [] else st.device.active
  }

  // ---------------------------------------------------------------- the service object

  /** The `routers` table together with the devices. */
  class Network {
    var routers: map<nat, RouterState>

    constructor (routers: map<nat, RouterState>)
      ensures this.routers == routers
    {
      this.routers := routers;
    }
  }

  /** `MikroTikService(router)`: one router, and whether an API connection is open. */
  class MikroTikService {
    const routerId: nat
    const net: Network
    var connected: bool

    constructor (routerId: nat, net: Network)
      ensures this.routerId == routerId && this.net == net && !connected
    {
      this.routerId := routerId;
      this.net := net;
      connected := false;
    }

    method Connect(env: Env) returns (ok: bool)
      requires routerId in net.routers && !connected
      modifies this, net
      ensures net.routers == old(net.routers)[routerId := AfterConnect(old(net.routers)[routerId], env)]
      ensures ok <==> env.connect == Connected
      ensures connected == ok
    {
      var st := net.routers[routerId];
      match env.connect {
        case Connected =>
          net.routers := net.routers[routerId := st.(isOnline := true, lastConnectedAt := Some(env.now))];
          connected := true;
          return true;
        case ApiFailure =>
          net.routers := net.routers[routerId := st.(isOnline := false)];
          return false;
        case OtherFailure =>
          return false;
      }
    }

    method Disconnect()
      modifies this
      ensures !connected
    {
      connected := false;
    }

    /** Replace this router's device; used while connected. */
    method Store(st: RouterState)
      requires connected && routerId in net.routers
      modifies net
      ensures net.routers == old(net.routers)[routerId := st]
    {
      net.routers := net.routers[routerId := st];
    }

    method CreateQueueProfile(p: Package, env: Env) returns (ok: bool, reply: Reply)
      requires routerId in net.routers && !connected
      modifies this, net
      ensures !connected
      ensures var r := CreateQueueSpec(old(net.routers)[routerId], p, env);
        net.routers == old(net.routers)[routerId := r.state] && ok == r.ok && reply == r.reply
    {
      var up := Connect(env);
      if !up {
        return false, RText(NoConnection);
      }
      var s := net.routers[routerId];
      var data := QueuePayload(p);
      match Add(s.device.queues, data, env) {
        case Ok(qs) =>
          Store(WithQueues(s, qs));
          ok, reply := true, env.addReply;
        case Err(e) =>
          ok, reply := false, RText("Error creating queue profile: " + e);
          if Contains(e, "already have such name") && !env.lookupFault {
            var existing := Named(s.device.queues, p.queueName);
            if existing != [] {
              ok, reply := true, RRecord(Record(existing[0]));
            }
          }
      }
      Disconnect();
    }

    method CreatePppProfile(p: Package, env: Env) returns (ok: bool, reply: Reply)
      requires routerId in net.routers && !connected
      modifies this, net
      ensures !connected
      ensures var r := CreateProfileSpec(old(net.routers)[routerId], p, env);
        net.routers == old(net.routers)[routerId := r.state] && ok == r.ok && reply == r.reply
    {
      var up := Connect(env);
      if !up {
        return false, RText(NoConnection);
      }
      var s := net.routers[routerId];
      match Add(s.device.profiles, ProfilePayload(p), env) {
        case Ok(ps) =>
          Store(WithProfiles(s, ps));
          ok, reply := true, env.addReply;
        case Err(e) =>
          if Contains(e, "already have such name") {
            ok, reply := true, RText("Profile already exists");
            if !env.lookupFault {
              var existing := Named(s.device.profiles, p.queueName);
              if existing != [] {
                reply := RRecord(Record(existing[0]));
              }
            }
          } else {
            ok, reply := false, RText(e);
          }
      }
      Disconnect();
    }

    method CreatePppoeUser(a: Account, forceLink: bool, env: Env) returns (ok: bool, reply: Reply)
      requires routerId in net.routers && !connected
      modifies this, net
      ensures !connected
      ensures var r := CreateSecretSpec(old(net.routers)[routerId], a, forceLink, env);
        net.routers == old(net.routers)[routerId := r.state] && ok == r.ok && reply == r.reply
    {
      ghost var spec := CreateSecretSpec(net.routers[routerId], a, forceLink, env);
      var up := Connect(env);
      if !up {
        return false, RText(NoConnection);
      }
      var s := net.routers[routerId];
      assert s == AfterConnect(old(net.routers)[routerId], env);
      match Add(s.device.secrets, SecretPayload(a), env) {
        case Ok(ss) =>
          Store(WithSecrets(s, ss));
          ok, reply := true, env.addReply;
          assert spec == OpResult(WithSecrets(s, ss), ok, reply);
        case Err(e) =>
          if Contains(e, "already have such name") || Contains(e, "already exists") {
            ok, reply := false, RText(CollisionMessage(a.username));
            if forceLink && !env.lookupFault {
              var existing := Named(s.device.secrets, a.username);
              if existing != [] {
                ok, reply := true, RRecord(Record(existing[0]));
              }
            }
          } else {
            ok, reply := false, RText("Error creating PPPoE user: " + e);
          }
          assert spec == OpResult(s, ok, reply);
      }
      Disconnect();
    }

    method UpdatePppoeUser(a: Account, userId: string, env: Env) returns (ok: bool, reply: Reply)
      requires routerId in net.routers && !connected
      modifies this, net
      ensures !connected
      ensures var r := UpdateSecretSpec(old(net.routers)[routerId], a, userId, env);
        net.routers == old(net.routers)[routerId := r.state] && ok == r.ok && reply == r.reply
    {
      var up := Connect(env);
      if !up {
        return false, RText(NoConnection);
      }
      var s := net.routers[routerId];
      if env.fault.Some? {
        ok, reply := false, RText("Error updating PPPoE user: " + env.fault.value);
      } else {
        match SetProps(s.device.secrets, userId, SecretUpdate(a)) {
          case Ok(ss) =>
            Store(WithSecrets(s, ss));
            ok, reply := true, RText("PPPoE user updated successfully");
          case Err(e) =>
            ok, reply := false, RText("Error updating PPPoE user: " + e);
        }
      }
      Disconnect();
    }

    /** `enable_pppoe_user` and `disable_pppoe_user`. */
    method SetDisabled(username: string, flag: string, env: Env) returns (ok: bool, reply: Reply)
      requires routerId in net.routers && !connected
      modifies this, net
      ensures !connected
      ensures var r := SetDisabledSpec(old(net.routers)[routerId], username, flag, env);
        net.routers == old(net.routers)[routerId := r.state] && ok == r.ok && reply == r.reply
    {
      var verb := if flag == "no" then "enabl" else "disabl";
      var up := Connect(env);
      if !up {
        return false, RText(NoConnection);
      }
      var s := net.routers[routerId];
      if env.fault.Some? {
        ok, reply := false, RText("Error " + verb + "ing PPPoE user: " + env.fault.value);
      } else {
        var users := Named(s.device.secrets, username);
        if users == [] {
          ok, reply := false, RText("User not found");
        } else {
          match SetProps(s.device.secrets, users[0].id, map["disabled" := flag]) {
            case Ok(ss) =>
              Store(WithSecrets(s, ss));
              ok, reply := true, RText("User " + verb + "ed successfully");
            case Err(e) =>
              ok, reply := false, RText("Error " + verb + "ing PPPoE user: " + e);
          }
        }
      }
      Disconnect();
    }

    method DeletePppoeUser(username: string, env: Env) returns (ok: bool, reply: Reply)
      requires routerId in net.routers && !connected
      modifies this, net
      ensures !connected
      ensures var r := DeleteSecretSpec(old(net.routers)[routerId], username, env);
        net.routers == old(net.routers)[routerId := r.state] && ok == r.ok && reply == r.reply
    {
      var up := Connect(env);
      if !up {
        return false, RText(NoConnection);
      }
      var s := net.routers[routerId];
      if env.fault.Some? {
        ok, reply := false, RText("Error deleting PPPoE user: " + env.fault.value);
      } else {
        var users := Named(s.device.secrets, username);
        if users == [] {
          ok, reply := false, RText("User not found");
        } else {
          Store(WithSecrets(s, RemoveId(s.device.secrets, users[0].id)));
          ok, reply := true, RText("User deleted successfully");
        }
      }
      Disconnect();
    }

    method TestConnection(env: Env) returns (ok: bool, message: string)
      requires routerId in net.routers && !connected
      modifies this, net
      ensures !connected
      ensures var r := TestConnectionSpec(old(net.routers)[routerId], env);
        net.routers == old(net.routers)[routerId := r.state] && ok == r.ok && RText(message) == r.reply
    {
      var up := Connect(env);
      if !up {
        return false, "Connection failed";
      }
      var s := net.routers[routerId];
      if env.fault.Some? {
        Disconnect();
        return false, env.fault.value;
      }
      var name := if s.device.identity.Some? then s.device.identity.value else "Unknown";
      Disconnect();
      return true, "Connected successfully. Router: " + name;
    }

    method GetActiveConnections(env: Env) returns (sessions: seq<map<string, string>>)
      requires routerId in net.routers && !connected
      modifies this, net
      ensures !connected
      ensures net.routers == old(net.routers)[routerId := AfterConnect(old(net.routers)[routerId], env)]
      ensures sessions == ActiveConnectionsSpec(old(net.routers)[routerId], env)
    {
      var up := Connect(env);
      if !up {
        return [];
      }
      sessions := if env.fault.Some? then [] else net.routers[routerId].device.active;
      Disconnect();
    }
  }
}
