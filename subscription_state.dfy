/** The client's registry of live subscriptions, keyed by subscription id.

    The registry is permissive: an operation on an unknown id does nothing,
    adding a subscription whose id is already present replaces the old one,
    and draining hands the whole map to the caller and leaves the registry
    empty. What a subscription does with data changes and monitored items is
    not part of this model: those effects are given to the registry as
    functions, and the registry promises only which subscription they reach. */
module SubscriptionRegistry {
  import opened MachineInts
  import opened Wrappers

  /** An IEEE 754 double, kept as its bit pattern: the registry stores a
      publishing interval and never computes with it. */
  datatype Float64 = Float64(bits: bv64)

  /** The rest of a subscription: its monitored items, its queued
      notifications and its publish-timer state. */
  type SubscriptionInternals
  /** A data change notification handed to a subscription. */
  type DataChangeNotification
  /** A monitored item to create in a subscription. */
  type CreateMonitoredItem
  /** A change to a monitored item of a subscription. */
  type ModifyMonitoredItem

  /** A subscription, as far as the registry reads and writes it. */
  datatype Subscription = Subscription(
    subscriptionId: u32,
    publishingInterval: Float64,
    lifetimeCount: u32,
    maxKeepAliveCount: u32,
    maxNotificationsPerPublish: u32,
    priority: u8,
    publishingEnabled: bool,
    internals: SubscriptionInternals)

  /** The registry after adding s: s under its own id, every other entry kept. */
  function Added(m: map<u32, Subscription>, s: Subscription): (r: map<u32, Subscription>)
    ensures r.Keys == m.Keys + {s.subscriptionId}
    ensures r[s.subscriptionId] == s
    ensures forall id :: id in m && id != s.subscriptionId ==> r[id] == m[id]
  {
    m[s.subscriptionId := s]
  }

  /** The registry after deleting id: that entry gone, every other entry kept. */
  function Removed(m: map<u32, Subscription>, id: u32): (r: map<u32, Subscription>)
    ensures r.Keys == m.Keys - {id}
    ensures forall k :: k in r ==> r[k] == m[k]
  {
    m - {id}
  }

  /** One step of a client's use of the registry. */
  datatype RegistryOp = Add(subscription: Subscription) | Delete(id: u32)
  {
    function Target(): u32
    {
      match this
      case Add(s) => s.subscriptionId
      case Delete(id) => id
    }

    function ApplyTo(m: map<u32, Subscription>): map<u32, Subscription>
    {
      match this
      case Add(s) => Added(m, s)
      case Delete(id) => Removed(m, id)
    }
  }

  /** The registry after the operations, in order. */
  function Replay(m: map<u32, Subscription>, ops: seq<RegistryOp>): map<u32, Subscription>
  {
    if ops == [] then m else ops[|ops| - 1].ApplyTo(Replay(m, ops[..|ops| - 1]))
  }

  /** The last of the operations that names id, if any. */
  function LastTouching(ops: seq<RegistryOp>, id: u32): (r: Option<RegistryOp>)
    ensures r.Some? ==> r.value in ops && r.value.Target() == id
    ensures r.None? ==> forall i :: 0 <= i < |ops| ==> ops[i].Target() != id
  {
    if ops == [] then None
    else if ops[|ops| - 1].Target() == id then Some(ops[|ops| - 1])
    else LastTouching(ops[..|ops| - 1], id)
  }

  /** After any sequence of adds and deletes, an id is present exactly when
      the last operation that named it was an add, and then it holds what
      that add put there; an id no operation named keeps its first state.
      A deleted id never comes back by itself. */
  lemma {:induction false} LatestAddOrDeleteWins(m: map<u32, Subscription>, ops: seq<RegistryOp>, id: u32)
    ensures match LastTouching(ops, id)
      case None => (id in Replay(m, ops) <==> id in m) && (id in m ==> Replay(m, ops)[id] == m[id])
      case Some(op) => (id in Replay(m, ops) <==> op.Add?) && (op.Add? ==> Replay(m, ops)[id] == op.subscription)
  {
    if ops != [] {
      LatestAddOrDeleteWins(m, ops[..|ops| - 1], id);
    }
  }

  /** The live subscriptions of a client session. */
  class SubscriptionState {
    /** Subscriptions, keyed by subscription id. */
    var subscriptions: map<u32, Subscription>

    /** Every subscription is stored under its own id. */
    ghost predicate KeyedById()
      reads this
    {
      forall id :: id in subscriptions ==> subscriptions[id].subscriptionId == id
    }

    /** An empty registry. */
    constructor ()
      ensures subscriptions == map[]
      ensures KeyedById()
    {
      subscriptions := map[];
    }

    /** Hands every subscription to the caller and leaves the registry empty. */
    method DrainSubscriptions() returns (drained: map<u32, Subscription>)
      modifies this
      ensures drained == old(subscriptions)
      ensures subscriptions == map[]
      ensures KeyedById()
    {
      drained := subscriptions;
      subscriptions := map[];
    }

    /** The ids of the live subscriptions, in no particular order, or None
        when there are none. */
    method SubscriptionIds() returns (ids: Option<seq<u32>>)
      ensures ids.None? <==> subscriptions == map[]
      ensures ids.Some? ==> forall id :: id in ids.value <==> id in subscriptions
      ensures ids.Some? ==> |ids.value| == |subscriptions|
      ensures ids.Some? ==> forall i, j :: 0 <= i < j < |ids.value| ==> ids.value[i] != ids.value[j]
    {
      if subscriptions == map[] {
        return None;
      }
      var rest := subscriptions.Keys;
      var out: seq<u32> := [];
      while rest != {}
        invariant forall id :: id in subscriptions <==> id in rest || id in out
        invariant forall id :: id in rest ==> id !in out
        invariant |out| + |rest| == |subscriptions|
        invariant forall i, j :: 0 <= i < j < |out| ==> out[i] != out[j]
        decreases |rest|
      {
        var id :| id in rest;
        out := out + [id];
        rest := rest - {id};
      }
      ids := Some(out);
    }

    /** Whether a subscription with that id is live. */
    function SubscriptionExists(subscriptionId: u32): (r: bool)
      reads this
      ensures r <==> Get(subscriptionId).Some?
    {
      subscriptionId in subscriptions
    }

    /** The subscription with that id, if it is live. */
    function Get(subscriptionId: u32): (r: Option<Subscription>)
      reads this
      ensures r.Some? <==> subscriptionId in subscriptions
      ensures r.Some? ==> r.value == subscriptions[subscriptionId]
      ensures KeyedById() && r.Some? ==> r.value.subscriptionId == subscriptionId
    {
      if subscriptionId in subscriptions then Some(subscriptions[subscriptionId]) else None
    }

    /** Adds a subscription under its own id, replacing any subscription
        already there. */
    method AddSubscription(subscription: Subscription)
      modifies this
      ensures subscriptions == Added(old(subscriptions), subscription)
      ensures SubscriptionExists(subscription.subscriptionId)
      ensures old(KeyedById()) ==> KeyedById()
    {
      subscriptions := subscriptions[subscription.subscriptionId := subscription];
    }

    /** Sets the five settings of a live subscription; does nothing for an
        unknown id. Nothing else of that subscription, and no other
        subscription, changes. */
    method ModifySubscription(subscriptionId: u32, publishingInterval: Float64, lifetimeCount: u32,
                              maxKeepAliveCount: u32, maxNotificationsPerPublish: u32, priority: u8)
      modifies this
      ensures subscriptionId !in old(subscriptions) ==> subscriptions == old(subscriptions)
      ensures subscriptionId in old(subscriptions) ==>
        subscriptions == old(subscriptions)[subscriptionId := old(subscriptions)[subscriptionId].(
          publishingInterval := publishingInterval,
          lifetimeCount := lifetimeCount,
          maxKeepAliveCount := maxKeepAliveCount,
          maxNotificationsPerPublish := maxNotificationsPerPublish,
          priority := priority)]
      ensures subscriptions.Keys == old(subscriptions).Keys
      ensures old(KeyedById()) ==> KeyedById()
    {
      if subscriptionId in subscriptions {
        var subscription := subscriptions[subscriptionId];
        subscription := subscription.(publishingInterval := publishingInterval);
        subscription := subscription.(lifetimeCount := lifetimeCount);
        subscription := subscription.(maxKeepAliveCount := maxKeepAliveCount);
        subscription := subscription.(maxNotificationsPerPublish := maxNotificationsPerPublish);
        subscription := subscription.(priority := priority);
        subscriptions := subscriptions[subscriptionId := subscription];
      }
    }

    /** Removes the subscription with that id and returns it, or returns None
        when the id is unknown. */
    method DeleteSubscription(subscriptionId: u32) returns (removed: Option<Subscription>)
      modifies this
      ensures removed == old(Get(subscriptionId))
      ensures subscriptions == Removed(old(subscriptions), subscriptionId)
      ensures !SubscriptionExists(subscriptionId)
      ensures old(KeyedById()) ==> KeyedById()
    {
      if subscriptionId in subscriptions {
        removed := Some(subscriptions[subscriptionId]);
        subscriptions := subscriptions - {subscriptionId};
      } else {
        removed := None;
      }
    }

    /** Sets the publishing flag of every live subscription whose id is
        listed, one id after another; unknown ids are skipped. */
    method SetPublishingMode(subscriptionIds: seq<u32>, publishingEnabled: bool)
      modifies this
      ensures subscriptions.Keys == old(subscriptions).Keys
      ensures forall id :: id in subscriptions && id in subscriptionIds ==>
        subscriptions[id] == old(subscriptions)[id].(publishingEnabled := publishingEnabled)
      ensures forall id :: id in subscriptions && id !in subscriptionIds ==>
        subscriptions[id] == old(subscriptions)[id]
      ensures old(KeyedById()) ==> KeyedById()
    {
      var i := 0;
      while i < |subscriptionIds|
        invariant 0 <= i <= |subscriptionIds|
        invariant subscriptions.Keys == old(subscriptions).Keys
        invariant forall id :: id in subscriptions && id in subscriptionIds[..i] ==>
          subscriptions[id] == old(subscriptions)[id].(publishingEnabled := publishingEnabled)
        invariant forall id :: id in subscriptions && id !in subscriptionIds[..i] ==>
          subscriptions[id] == old(subscriptions)[id]
      {
        var id := subscriptionIds[i];
        if id in subscriptions {
          subscriptions := subscriptions[id := subscriptions[id].(publishingEnabled := publishingEnabled)];
        }
        assert subscriptionIds[..i + 1] == subscriptionIds[..i] + [id];
        i := i + 1;
      }
      assert subscriptionIds[..i] == subscriptionIds;
    }

    /** Hands data changes to a live subscription, whose reaction is
        dataChange; does nothing for an unknown id. */
    method SubscriptionDataChange(subscriptionId: u32, notifications: seq<DataChangeNotification>,
                                  dataChange: (Subscription, seq<DataChangeNotification>) -> Subscription)
      modifies this
      ensures subscriptionId !in old(subscriptions) ==> subscriptions == old(subscriptions)
      ensures subscriptionId in old(subscriptions) ==>
        subscriptions == old(subscriptions)[subscriptionId := dataChange(old(subscriptions)[subscriptionId], notifications)]
      ensures subscriptions.Keys == old(subscriptions).Keys
      ensures (old(KeyedById()) &&
               (subscriptionId in old(subscriptions) ==>
                  dataChange(old(subscriptions)[subscriptionId], notifications).subscriptionId == subscriptionId)) ==>
        KeyedById()
    {
      if subscriptionId in subscriptions {
        subscriptions := subscriptions[subscriptionId := dataChange(subscriptions[subscriptionId], notifications)];
      }
    }

    /** Creates monitored items in a live subscription, whose reaction is
        insert; does nothing for an unknown id. */
    method InsertMonitoredItems(subscriptionId: u32, itemsToCreate: seq<CreateMonitoredItem>,
                                insert: (Subscription, seq<CreateMonitoredItem>) -> Subscription)
      modifies this
      ensures subscriptionId !in old(subscriptions) ==> subscriptions == old(subscriptions)
      ensures subscriptionId in old(subscriptions) ==>
        subscriptions == old(subscriptions)[subscriptionId := insert(old(subscriptions)[subscriptionId], itemsToCreate)]
      ensures subscriptions.Keys == old(subscriptions).Keys
      ensures (old(KeyedById()) &&
               (subscriptionId in old(subscriptions) ==>
                  insert(old(subscriptions)[subscriptionId], itemsToCreate).subscriptionId == subscriptionId)) ==>
        KeyedById()
    {
      if subscriptionId in subscriptions {
        subscriptions := subscriptions[subscriptionId := insert(subscriptions[subscriptionId], itemsToCreate)];
      }
    }

    /** Changes monitored items of a live subscription, whose reaction is
        modifyItems; does nothing for an unknown id. */
    method ModifyMonitoredItems(subscriptionId: u32, itemsToModify: seq<ModifyMonitoredItem>,
                                modifyItems: (Subscription, seq<ModifyMonitoredItem>) -> Subscription)
      modifies this
      ensures subscriptionId !in old(subscriptions) ==> subscriptions == old(subscriptions)
      ensures subscriptionId in old(subscriptions) ==>
        subscriptions == old(subscriptions)[subscriptionId := modifyItems(old(subscriptions)[subscriptionId], itemsToModify)]
      ensures subscriptions.Keys == old(subscriptions).Keys
      ensures (old(KeyedById()) &&
               (subscriptionId in old(subscriptions) ==>
                  modifyItems(old(subscriptions)[subscriptionId], itemsToModify).subscriptionId == subscriptionId)) ==>
        KeyedById()
    {
      if subscriptionId in subscriptions {
        subscriptions := subscriptions[subscriptionId := modifyItems(subscriptions[subscriptionId], itemsToModify)];
      }
    }

    /** Deletes monitored items, by id, from a live subscription, whose
        reaction is deleteItems; does nothing for an unknown id. */
    method DeleteMonitoredItems(subscriptionId: u32, itemsToDelete: seq<u32>,
                                deleteItems: (Subscription, seq<u32>) -> Subscription)
      modifies this
      ensures subscriptionId !in old(subscriptions) ==> subscriptions == old(subscriptions)
      ensures subscriptionId in old(subscriptions) ==>
        subscriptions == old(subscriptions)[subscriptionId := deleteItems(old(subscriptions)[subscriptionId], itemsToDelete)]
      ensures subscriptions.Keys == old(subscriptions).Keys
      ensures (old(KeyedById()) &&
               (subscriptionId in old(subscriptions) ==>
                  deleteItems(old(subscriptions)[subscriptionId], itemsToDelete).subscriptionId == subscriptionId)) ==>
        KeyedById()
    {
      if subscriptionId in subscriptions {
        subscriptions := subscriptions[subscriptionId := deleteItems(subscriptions[subscriptionId], itemsToDelete)];
      }
    }
  }

  /** A client of the registry: publishing mode over a known and an unknown id,
      then a drain of two subscriptions. */
  method DrainTwoSubscriptions(five: Subscription, nine: Subscription)
    requires five.subscriptionId == 5 && nine.subscriptionId == 9
  {
    var state := new SubscriptionState();
    state.AddSubscription(five);
    state.AddSubscription(nine);
    state.SetPublishingMode([5, 7], true);
    assert state.subscriptions[5].publishingEnabled;
    assert state.subscriptions[9] == nine;
    assert !state.SubscriptionExists(7);
    var drained := state.DrainSubscriptions();
    assert drained.Keys == {5, 9};
    var ids := state.SubscriptionIds();
    assert ids.None?;
  }
}
