/**
 * The bookkeeping rows written around subscriptions and router calls: the subscription
 * history, connection fees, the per-router tracking of package profiles and the sync log.
 */
module Records {
  import opened Common
  import opened Subscriptions
  import opened RouterGateway

  /** The `old_value`/`new_value` pair of a history row. */
  datatype Change =
    | StatusChange(from: Option<SubStatus>, to: SubStatus)
    | PackageChange(fromPackage: Option<nat>, toPackage: nat)

  /** A row of `subscription_history`. */
  datatype HistoryEntry = HistoryEntry(
    subscription: nat,
    action: string,
    change: Change,
    notes: string,
    performedBy: Option<nat>)

  /** A row of `connection_fees`. */
  datatype ConnectionFee = ConnectionFee(
    subscription: nat,
    amount: Cents,
    feeType: string,
    date: Date,
    isPaid: bool,
    notes: string,
    receivedBy: Option<nat>)

  /** A row of `mikrotik_sync_logs`; `response` is the reply the gateway returned, when it is logged. */
  datatype SyncLog = SyncLog(
    router: nat,
    action: string,
    success: bool,
    entityType: string,
    entityId: string,
    subscription: Option<nat>,
    response: Option<Reply>,
    errorMessage: Option<string>)

  /** A row of `mikrotik_queue_profiles`: which package is set up on which router. */
  datatype QueueProfile = QueueProfile(
    package: nat,
    router: nat,
    queueId: Option<string>,
    synced: bool,
    lastSyncedAt: Option<int>,
    syncError: Option<string>)

  /**
   * `str(result)` of a failed gateway call. Every failing call of the gateway replies with
   * a message, so only messages need a rendering.
   */
  function Message(r: Reply): string
  {
    if r.RText? then r.text else ""
  }

  /** `result['id']` when `isinstance(result, dict) and 'id' in result`. */
  function ReplyId(r: Reply): (id: Option<string>)
    ensures id.Some? <==> r.RRecord? && "id" in r.record
    ensures id.Some? ==> id.value == r.record["id"]
  {
    if r.RRecord? && "id" in r.record then Some(r.record["id"]) else None
  }

  /** Every router a subscription names is a row of the `routers` table. */
  predicate RoutersKnown(subs: seq<Subscription>, routers: map<nat, RouterState>)
  {
    forall i :: 0 <= i < |subs| && subs[i].router.Some? ==> subs[i].router.value in routers
  }

  /** The `subscriptions` table with the history and fee rows that hang off it. */
  class SubscriptionTable {
    var subs: seq<Subscription>
    var history: seq<HistoryEntry>
    var fees: seq<ConnectionFee>

    constructor (subs: seq<Subscription>)
      ensures this.subs == subs && history == [] && fees == []
    {
      this.subs := subs;
      history := [];
      fees := [];
    }
  }

  /** Position of the tracking row of a package on a router, if any. */
  function FindProfile(qps: seq<QueueProfile>, package: nat, router: nat): (r: Option<nat>)
    ensures r.Some? ==> r.value < |qps| && qps[r.value].package == package && qps[r.value].router == router
    ensures r.None? <==> forall i :: 0 <= i < |qps| ==> !(qps[i].package == package && qps[i].router == router)
  {
    if qps == [] then None
    else
      var last := |qps| - 1;
      if qps[last].package == package && qps[last].router == router then Some(last)
      else FindProfile(qps[..last], package, router)
  }

  /** `unique_together = ['package', 'router']`. */
  predicate ProfilesUnique(qps: seq<QueueProfile>)
  {
    forall i, j :: 0 <= i < j < |qps| ==> !(qps[i].package == qps[j].package && qps[i].router == qps[j].router)
  }

  /** The tracking rows and the sync log. */
  class SyncRecords {
    var profiles: seq<QueueProfile>
    var logs: seq<SyncLog>

    ghost predicate Valid()
      reads this
    {
      ProfilesUnique(profiles)
    }

    constructor ()
      ensures Valid() && profiles == [] && logs == []
    {
      profiles := [];
      logs := [];
    }
  }
}
