/**
 * What the MikroTik gateway promises: the router's online bookkeeping, no remote change
 * without a connection, the payloads sent, and how each call treats a name that is taken.
 */
module RouterProperties {
  import opened Common
  import opened Text
  import opened Catalog
  import opened RouterGateway

  // ---------------------------------------------------------------- connection bookkeeping

  /** A successful connect marks the router online at `now`; an API error marks it offline; any other failure changes nothing. */
  lemma ConnectBookkeeping(st: RouterState, env: Env)
    ensures env.connect == Connected ==>
      AfterConnect(st, env).isOnline && AfterConnect(st, env).lastConnectedAt == Some(env.now)
    ensures env.connect == ApiFailure ==>
      !AfterConnect(st, env).isOnline && AfterConnect(st, env).lastConnectedAt == st.lastConnectedAt
    ensures env.connect == OtherFailure ==> AfterConnect(st, env) == st
    ensures AfterConnect(st, env).device == st.device
  {
  }

  /** Without a connection no call changes the device, and each reports the failure. */
  lemma NoRemoteChangeWithoutConnection(st: RouterState, p: Package, a: Account, forceLink: bool,
                                        userId: string, username: string, flag: string, env: Env)
    requires env.connect != Connected
    ensures var r := CreateQueueSpec(st, p, env);
      r.state == AfterConnect(st, env) && !r.ok && r.reply == RText("Failed to connect to router")
    ensures var r := CreateProfileSpec(st, p, env);
      r.state == AfterConnect(st, env) && !r.ok && r.reply == RText("Failed to connect to router")
    ensures var r := CreateSecretSpec(st, a, forceLink, env);
      r.state == AfterConnect(st, env) && !r.ok && r.reply == RText("Failed to connect to router")
    ensures var r := UpdateSecretSpec(st, a, userId, env);
      r.state == AfterConnect(st, env) && !r.ok && r.reply == RText("Failed to connect to router")
    ensures var r := SetDisabledSpec(st, username, flag, env);
      r.state == AfterConnect(st, env) && !r.ok && r.reply == RText("Failed to connect to router")
    ensures var r := DeleteSecretSpec(st, username, env);
      r.state == AfterConnect(st, env) && !r.ok && r.reply == RText("Failed to connect to router")
    ensures ActiveConnectionsSpec(st, env) == []
  {
  }

  // ---------------------------------------------------------------- names

  lemma DuplicateNameRecognised()
    ensures Contains(DuplicateName, "already have such name")
  {
    ContainsAppend("failure: ", "already have such name", "");
    assert "failure: " + "already have such name" + "" == DuplicateName;
  }

  /** Position of the first entry with a name. */
  function FirstNamed(entries: seq<Entry>, name: string): (r: Option<nat>)
    ensures r.Some? ==> r.value < |entries| && HasName(entries[r.value], name)
    ensures r.Some? ==> forall j :: 0 <= j < r.value ==> !HasName(entries[j], name)
    ensures r.None? <==> forall j :: 0 <= j < |entries| ==> !HasName(entries[j], name)
  {
    if entries == [] then None
    else if HasName(entries[0], name) then Some(0)
    else match FirstNamed(entries[1..], name)
      case None => None
      case Some(k) => Some(k + 1)
  }

  /** `get(name=...)[0]` is the first entry of that name. */
  lemma {:induction false} NamedHead(entries: seq<Entry>, name: string)
    requires Named(entries, name) != []
    ensures FirstNamed(entries, name).Some?
    ensures Named(entries, name)[0] == entries[FirstNamed(entries, name).value]
  {
    if !HasName(entries[0], name) {
      NamedHead(entries[1..], name);
    }
  }

  predicate UniqueIds(entries: seq<Entry>)
  {
    forall i, j :: 0 <= i < j < |entries| ==> entries[i].id != entries[j].id
  }

  lemma IndexOfUniqueId(entries: seq<Entry>, k: nat)
    requires UniqueIds(entries) && k < |entries|
    ensures IndexOfId(entries, entries[k].id) == Some(k)
  {
  }

  // ---------------------------------------------------------------- queue profiles

  /** A free queue name: the payload is added as a new entry and `add`'s value is returned. */
  lemma QueueCreatedWhenNameFree(st: RouterState, p: Package, env: Env)
    requires env.connect == Connected && env.fault.None?
    requires Named(st.device.queues, p.queueName) == []
    ensures var r := CreateQueueSpec(st, p, env);
      r.ok && r.reply == env.addReply
      && r.state.device == st.device.(queues := st.device.queues + [Entry(env.newId, QueuePayload(p))])
  {
  }

  /** A taken queue name: success with the existing entry when the lookup works, failure otherwise; the router is not changed. */
  lemma QueueNameTaken(st: RouterState, p: Package, env: Env)
    requires env.connect == Connected && env.fault.None?
    requires Named(st.device.queues, p.queueName) != []
    ensures var r := CreateQueueSpec(st, p, env);
      r.state.device == st.device
      && (r.ok <==> !env.lookupFault)
      && (r.ok ==> r.reply == RRecord(Record(Named(st.device.queues, p.queueName)[0])))
      && (!r.ok ==> r.reply == RText("Error creating queue profile: " + DuplicateName))
  {
    DuplicateNameRecognised();
  }

  // ---------------------------------------------------------------- PPP profiles

  /** A taken profile name always counts as success, even when the lookup raises. */
  lemma ProfileNameTakenSucceeds(st: RouterState, p: Package, env: Env)
    requires env.connect == Connected && env.fault.None?
    requires Named(st.device.profiles, p.queueName) != []
    ensures var r := CreateProfileSpec(st, p, env);
      r.ok && r.state.device == st.device
      && (env.lookupFault ==> r.reply == RText("Profile already exists"))
      && (!env.lookupFault ==> r.reply == RRecord(Record(Named(st.device.profiles, p.queueName)[0])))
  {
    DuplicateNameRecognised();
  }

  lemma ProfileCreatedWhenNameFree(st: RouterState, p: Package, env: Env)
    requires env.connect == Connected && env.fault.None?
    requires Named(st.device.profiles, p.queueName) == []
    ensures var r := CreateProfileSpec(st, p, env);
      r.ok && r.state.device == st.device.(profiles := st.device.profiles + [Entry(env.newId, ProfilePayload(p))])
  {
  }

  // ---------------------------------------------------------------- PPPoE secrets

  lemma SecretCreatedWhenNameFree(st: RouterState, a: Account, forceLink: bool, env: Env)
    requires env.connect == Connected && env.fault.None?
    requires Named(st.device.secrets, a.username) == []
    ensures var r := CreateSecretSpec(st, a, forceLink, env);
      r.ok && r.reply == env.addReply
      && r.state.device == st.device.(secrets := st.device.secrets + [Entry(env.newId, SecretPayload(a))])
  {
  }

  /**
   * A taken username: without `forceLink` the call fails with the collision message; with
   * it, the call adopts the existing secret when the lookup works and fails otherwise.
   */
  lemma SecretNameTaken(st: RouterState, a: Account, forceLink: bool, env: Env)
    requires env.connect == Connected && env.fault.None?
    requires Named(st.device.secrets, a.username) != []
    ensures var r := CreateSecretSpec(st, a, forceLink, env);
      r.state.device == st.device
      && (r.ok <==> forceLink && !env.lookupFault)
      && (r.ok ==> r.reply == RRecord(Record(Named(st.device.secrets, a.username)[0])))
      && (!r.ok ==> r.reply == RText(CollisionMessage(a.username)))
  {
    DuplicateNameRecognised();
  }

  // ---------------------------------------------------------------- enable, disable, delete

  /**
   * Enable and disable set `disabled` on the first secret with the username and touch
   * nothing else.
   */
  lemma SetDisabledEffect(st: RouterState, username: string, flag: string, env: Env)
    requires env.connect == Connected && env.fault.None?
    requires UniqueIds(st.device.secrets) && FirstNamed(st.device.secrets, username).Some?
    ensures var r := SetDisabledSpec(st, username, flag, env);
      var ss := st.device.secrets;
      var k := FirstNamed(ss, username).value;
      r.ok && r.state.device == st.device.(secrets := ss[k := ss[k].(props := ss[k].props["disabled" := flag])])
  {
    var ss := st.device.secrets;
    IndexOfUniqueId(ss, FirstNamed(ss, username).value);
    FlagFirstNamed(ss, username, flag);
  }

  lemma FlagFirstNamed(ss: seq<Entry>, username: string, flag: string)
    requires FirstNamed(ss, username).Some?
    requires var k := FirstNamed(ss, username).value; IndexOfId(ss, ss[k].id) == Some(k)
    ensures Named(ss, username) != []
    ensures var k := FirstNamed(ss, username).value;
      SetProps(ss, Named(ss, username)[0].id, map["disabled" := flag])
        == Ok(ss[k := ss[k].(props := ss[k].props["disabled" := flag])])
  {
    var k := FirstNamed(ss, username).value;
    var users := Named(ss, username);
    NamedHead(ss, username);
    assert users[0] == ss[k];
    assert ss[k].props + map["disabled" := flag] == ss[k].props["disabled" := flag];
  }

  /** With no secret of that name, enable and disable report "User not found" and change nothing. */
  lemma SetDisabledUnknownUser(st: RouterState, username: string, flag: string, env: Env)
    requires env.connect == Connected && env.fault.None?
    requires FirstNamed(st.device.secrets, username).None?
    ensures var r := SetDisabledSpec(st, username, flag, env);
      !r.ok && r.state.device == st.device && r.reply == RText("User not found")
  {
  }

  /** Delete removes exactly the first secret with the username. */
  lemma DeleteEffect(st: RouterState, username: string, env: Env)
    requires env.connect == Connected && env.fault.None?
    requires UniqueIds(st.device.secrets)
    ensures var r := DeleteSecretSpec(st, username, env);
      var ss := st.device.secrets;
      && (r.ok <==> FirstNamed(ss, username).Some?)
      && (!r.ok ==> r.state.device == st.device && r.reply == RText("User not found"))
      && (r.ok ==> var k := FirstNamed(ss, username).value;
            r.state.device == st.device.(secrets := ss[..k] + ss[k + 1..]))
  {
    var ss := st.device.secrets;
    if Named(ss, username) != [] {
      NamedHead(ss, username);
      IndexOfUniqueId(ss, FirstNamed(ss, username).value);
    }
  }

  // ---------------------------------------------------------------- update, test, live sessions

  /**
   * With the connection up, an update succeeds exactly when a secret has the stored id; it
   * then writes the account's properties over that secret's and changes nothing else.
   */
  lemma UpdateSecretEffect(st: RouterState, a: Account, userId: string, env: Env)
    requires env.connect == Connected && env.fault.None?
    ensures var r := UpdateSecretSpec(st, a, userId, env);
      var ss := st.device.secrets;
      && (r.ok <==> exists i :: 0 <= i < |ss| && ss[i].id == userId)
      && (r.ok ==> r.reply == RText("PPPoE user updated successfully"))
      && (r.ok ==> var i := IndexOfId(ss, userId).value;
            r.state.device == st.device.(secrets := ss[i := ss[i].(props := ss[i].props + SecretUpdate(a))]))
      && (!r.ok ==> r.state.device == st.device)
  {
  }

  /** The connection test changes no device, and succeeds exactly when the router answers; it then names the router. */
  lemma TestConnectionEffect(st: RouterState, env: Env)
    ensures var r := TestConnectionSpec(st, env);
      && r.state == AfterConnect(st, env)
      && (r.ok <==> env.connect == Connected && env.fault.None?)
      && (env.connect != Connected ==> r.reply == RText("Connection failed"))
      && (r.ok && st.device.identity.Some? ==> r.reply == RText("Connected successfully. Router: " + st.device.identity.value))
      && (r.ok && st.device.identity.None? ==> r.reply == RText("Connected successfully. Router: Unknown"))
  {
  }

  /** The live sessions are the router's own when it answers; any failure gives an empty list, never a partial one. */
  lemma ActiveConnectionsEffect(st: RouterState, env: Env)
    ensures env.connect == Connected && env.fault.None? ==> ActiveConnectionsSpec(st, env) == st.device.active
    ensures ActiveConnectionsSpec(st, env) == [] || ActiveConnectionsSpec(st, env) == st.device.active
  {
  }

  /** Any exception raised by the call itself is reported as a failure and changes nothing. */
  lemma FaultChangesNothing(st: RouterState, p: Package, a: Account, forceLink: bool,
                            userId: string, username: string, flag: string, msg: string, env: Env)
    requires env.connect == Connected && env.fault == Some(msg)
    requires !Contains(msg, "already have such name") && !Contains(msg, "already exists")
    ensures CreateQueueSpec(st, p, env) == OpResult(AfterConnect(st, env), false, RText("Error creating queue profile: " + msg))
    ensures CreateProfileSpec(st, p, env) == OpResult(AfterConnect(st, env), false, RText(msg))
    ensures CreateSecretSpec(st, a, forceLink, env) == OpResult(AfterConnect(st, env), false, RText("Error creating PPPoE user: " + msg))
    ensures UpdateSecretSpec(st, a, userId, env) == OpResult(AfterConnect(st, env), false, RText("Error updating PPPoE user: " + msg))
    ensures SetDisabledSpec(st, username, flag, env).state == AfterConnect(st, env)
    ensures !SetDisabledSpec(st, username, flag, env).ok
    ensures DeleteSecretSpec(st, username, env) == OpResult(AfterConnect(st, env), false, RText("Error deleting PPPoE user: " + msg))
    ensures ActiveConnectionsSpec(st, env) == []
  {
  }

  // ---------------------------------------------------------------- rate strings

  lemma {:induction false} NatToStringInjective(a: nat, b: nat)
    requires NatToString(a) == NatToString(b)
    ensures a == b
  {
    ParseNatToString(a);
    ParseNatToString(b);
  }

  /** The number of leading digits of a text. */
  function LeadingDigits(s: string): (n: nat)
    ensures n <= |s|
  {
    if s == [] || !IsDigit(s[0]) then 0 else 1 + LeadingDigits(s[1..])
  }

  lemma {:induction false} LeadingDigitsBeforeNonDigit(x: string, c: char, r: string)
    requires AllDigits(x) && !IsDigit(c)
    ensures LeadingDigits(x + [c] + r) == |x|
  {
    if x == [] {
      assert (x + [c] + r)[0] == c;
    } else {
      assert (x + [c] + r)[1..] == x[1..] + [c] + r;
      LeadingDigitsBeforeNonDigit(x[1..], c, r);
    }
  }

  /** Two digit strings each followed by the same non-digit split a text at the same place. */
  lemma SplitAtNonDigit(x: string, y: string, c: char, r1: string, r2: string)
    requires AllDigits(x) && AllDigits(y) && !IsDigit(c)
    requires x + [c] + r1 == y + [c] + r2
    ensures x == y && r1 == r2
  {
    var s1 := x + [c] + r1;
    LeadingDigitsBeforeNonDigit(x, c, r1);
    LeadingDigitsBeforeNonDigit(y, c, r2);
    assert x == s1[..|x|] && y == s1[..|y|];
    assert r1 == s1[|x| + 1..] && r2 == s1[|y| + 1..];
  }

  /** A rate string is the first bandwidth's digits, an `M`, then a tail holding the second. */
  lemma RateShape(a: nat, b: nat)
    ensures Rate(a, b) == NatToString(a) + ['M'] + ("/" + (NatToString(b) + ['M'] + []))
  {
  }

  /** A rate string names its two bandwidths: `Rate` is one-to-one on natural numbers. */
  lemma RateInjective(a: nat, b: nat, c: nat, d: nat)
    requires Rate(a, b) == Rate(c, d)
    ensures a == c && b == d
  {
    var sa, sb, sc, sd := NatToString(a), NatToString(b), NatToString(c), NatToString(d);
    RateShape(a, b);
    RateShape(c, d);
    SplitAtNonDigit(sa, sc, 'M', "/" + (sb + ['M'] + []), "/" + (sd + ['M'] + []));
    NatToStringInjective(a, c);
    assert sb + ['M'] + [] == ("/" + (sb + ['M'] + []))[1..];
    assert sd + ['M'] + [] == ("/" + (sd + ['M'] + []))[1..];
    SplitAtNonDigit(sb, sd, 'M', [], []);
    NatToStringInjective(b, d);
  }

  /**
   * The PPP profile's rate limit lists upload first, the queue's max-limit download first:
   * the two strings agree exactly when the package is symmetric.
   */
  lemma ProfileRateIsQueueRateReversed(p: Package)
    requires p.download >= 0 && p.upload >= 0
    ensures ProfilePayload(p)["rate-limit"] == Rate(p.upload, p.download)
    ensures QueuePayload(p)["max-limit"] == Rate(p.download, p.upload)
    ensures ProfilePayload(p)["rate-limit"] == QueuePayload(p)["max-limit"] <==> p.download == p.upload
  {
    if Rate(p.upload, p.download) == Rate(p.download, p.upload) {
      RateInjective(p.upload, p.download, p.download, p.upload);
    }
  }
}
