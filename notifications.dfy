/** The notification registry (`NotificationManager`): subscriptions keyed by Guid, and the
    rule that picks which subscriptions a pushed message reaches. */
module Notifications {
  import opened Wrappers
  import opened JobIds
  import opened Messages
  import opened ErrorHandling

  /** A Guid; 0 is the default (empty) Guid. */
  type Guid = nat
  const DefaultGuid: Guid := 0

  /** A hook handler, identified by reference only. */
  type HandlerId = nat

  /** `HookNotification`: who listens (the receiver's JobId), to what type, with which handler. */
  datatype Subscription = Subscription(receiver: JobId, msgType: MessageType, handler: HandlerId)

  /** One handler invocation started by a push. */
  datatype Delivery = Delivery(subscription: Guid, handler: HandlerId, sender: JobId, message: MessageHook)

  /** Whether a subscription listens to a message of type t from `sender`. */
  predicate Listens(s: Subscription, sender: JobId, t: MessageType) {
    s.receiver == sender && (s.msgType == t || s.msgType == All)
  }

  /** The subscriptions a message of type t from `sender` is pushed to. */
  function Selected(hooks: map<Guid, Subscription>, sender: JobId, t: MessageType): (r: set<Guid>)
    ensures forall g :: g in r <==> g in hooks && Listens(hooks[g], sender, t)
  {
    set g | g in hooks && Listens(hooks[g], sender, t)
  }

  /** The deliveries one push produces: one per selected subscription. */
  function Deliveries(hooks: map<Guid, Subscription>, sender: JobId, message: MessageHook): set<Delivery> {
    set g | g in Selected(hooks, sender, message.msgType) :: Delivery(g, hooks[g].handler, sender, message)
  }

  /** A registry never holds the default Guid, nor two Guids for one subscription. */
  ghost predicate WellFormed(hooks: map<Guid, Subscription>) {
    && DefaultGuid !in hooks
    && forall g1, g2 :: g1 in hooks && g2 in hooks && hooks[g1] == hooks[g2] ==> g1 == g2
  }

  /** A finite set of Guids always leaves a non-default Guid free. */
  lemma {:induction false} FreshGuidExists(used: set<Guid>)
    ensures exists g: Guid :: g != DefaultGuid && g !in used
  {
    var b := UpperBound(used);
    assert b + 1 != DefaultGuid && b + 1 !in used;
  }

  ghost function UpperBound(s: set<Guid>): (b: nat)
    ensures forall x :: x in s ==> x <= b
    decreases s
  {
    if s == {} then 0
    else
      var x :| x in s;
      var rest := UpperBound(s - {x});
      assert forall y :: y in s ==> y == x || y in s - {x};
      if x < rest then rest else x
  }

  /** `Push`: the handler runs inside `Expect`, so a throwing handler is swallowed; the value
      is whether an error was handled. */
  function Push(handlerRun: Outcome<()>): (errorHandled: bool)
    ensures errorHandled <==> handlerRun.Threw?
  {
    ExpectAction(handlerRun)
  }

  /** Running every delivery of a push: each delivery's own outcome decides only its own
      flag, whatever the others do. */
  function PushAll(ds: set<Delivery>, run: Delivery -> Outcome<()>): (flags: map<Delivery, bool>)
    ensures flags.Keys == ds
    ensures forall d :: d in ds ==> flags[d] == run(d).Threw?
  {
    map d | d in ds :: Push(run(d))
  }

  /** A handler that throws does not change what the other deliveries see. */
  lemma ThrowingHandlerIsolated(ds: set<Delivery>, run1: Delivery -> Outcome<()>, run2: Delivery -> Outcome<()>, bad: Delivery)
    requires forall d :: d in ds && d != bad ==> run1(d) == run2(d)
    ensures forall d :: d in ds && d != bad ==> PushAll(ds, run1)[d] == PushAll(ds, run2)[d]
  {
  }

  /** A new subscription receives every message of its type (or of any type, for All) from
      its receiver key. */
  lemma NewSubscriptionReceives(hooks: map<Guid, Subscription>, g: Guid, s: Subscription, message: MessageHook)
    requires s.msgType == message.msgType || s.msgType == All
    ensures Delivery(g, s.handler, s.receiver, message) in Deliveries(hooks[g := s], s.receiver, message)
  {
    assert g in Selected(hooks[g := s], s.receiver, message.msgType);
  }

  /** A removed subscription receives nothing, and the others are selected as before. */
  lemma RemovedReceivesNothing(hooks: map<Guid, Subscription>, g: Guid, sender: JobId, t: MessageType)
    ensures g !in Selected(hooks - {g}, sender, t)
    ensures Selected(hooks - {g}, sender, t) == Selected(hooks, sender, t) - {g}
  {
  }

  class NotificationManager {
    var hooks: map<Guid, Subscription>

    ghost predicate Valid()
      reads this
    {
      WellFormed(hooks)
    }

    constructor ()
      ensures Valid() && hooks == map[]
    {
      hooks := map[];
    }

    /** `IsRegistered(id)`: the default Guid is rejected; otherwise map membership. */
    function IsRegistered(id: Guid): (r: Result<bool, Failure>)
      reads this
      ensures id == DefaultGuid <==> r == Err(ArgumentNull("id"))
      ensures id != DefaultGuid ==> r == Ok(id in hooks)
    {
      if id == DefaultGuid then Err(ArgumentNull("id")) else Ok(id in hooks)
    }

    /** `RegisterHook(key, type, handler)`: an identical subscription keeps its Guid; a new
        one is stored under a fresh non-default Guid. */
    method RegisterHook(receiver: Option<JobId>, t: MessageType, handler: Option<HandlerId>) returns (r: Result<Guid, Failure>)
      requires Valid()
      modifies this
      ensures Valid()
      ensures receiver.None? ==> r == Err(ArgumentNull("recieverKey")) && hooks == old(hooks)
      ensures receiver.Some? && handler.None? ==> r == Err(ArgumentNull("handler")) && hooks == old(hooks)
      ensures r.Ok? <==> receiver.Some? && handler.Some?
      ensures r.Ok? ==> r.value != DefaultGuid && r.value in hooks
      ensures r.Ok? ==> hooks[r.value] == Subscription(receiver.value, t, handler.value)
      ensures r.Ok? && r.value in old(hooks) ==> hooks == old(hooks)
      ensures r.Ok? && r.value !in old(hooks) ==>
        (forall g :: g in old(hooks) ==> old(hooks)[g] != Subscription(receiver.value, t, handler.value))
        && hooks == old(hooks)[r.value := Subscription(receiver.value, t, handler.value)]
    {
      if receiver.None? {
        return Err(ArgumentNull("recieverKey"));
      }
      if handler.None? {
        return Err(ArgumentNull("handler"));
      }
      var s := Subscription(receiver.value, t, handler.value);
      if exists g :: g in hooks && hooks[g] == s {
        var g :| g in hooks && hooks[g] == s;
        return Ok(g);
      }
      FreshGuidExists(hooks.Keys);
      var g: Guid :| g != DefaultGuid && g !in hooks;
      hooks := hooks[g := s];
      r := Ok(g);
    }

    /** `RemoveHook(id)`: the default Guid is rejected; otherwise the entry goes, if present. */
    method RemoveHook(id: Guid) returns (r: Result<(), Failure>)
      requires Valid()
      modifies this
      ensures Valid()
      ensures id == DefaultGuid ==> r == Err(ArgumentNull("id")) && hooks == old(hooks)
      ensures id != DefaultGuid ==> r == Ok(()) && hooks == old(hooks) - {id}
      ensures id != DefaultGuid ==> IsRegistered(id) == Ok(false)
    {
      if id == DefaultGuid {
        return Err(ArgumentNull("id"));
      }
      hooks := hooks - {id};
      r := Ok(());
    }

    /** `PushAsync(sender, message)`: the deliveries it starts, one per listening subscription. */
    function PushAsync(sender: Option<JobId>, message: Option<MessageHook>): (r: Result<set<Delivery>, Failure>)
      reads this
      ensures sender.None? ==> r == Err(ArgumentNull("senderKey"))
      ensures sender.Some? && message.None? ==> r == Err(ArgumentNull("message"))
      ensures r.Ok? <==> sender.Some? && message.Some?
      ensures r.Ok? ==> forall d :: d in r.value <==>
        d.subscription in hooks && Listens(hooks[d.subscription], sender.value, message.value.msgType)
        && d == Delivery(d.subscription, hooks[d.subscription].handler, sender.value, message.value)
    {
      if sender.None? then Err(ArgumentNull("senderKey"))
      else if message.None? then Err(ArgumentNull("message"))
      else Ok(Deliveries(hooks, sender.value, message.value))
    }
  }

  /** Each subscription gets at most one delivery per push. */
  lemma OneDeliveryPerSubscription(hooks: map<Guid, Subscription>, sender: JobId, message: MessageHook, d1: Delivery, d2: Delivery)
    requires d1 in Deliveries(hooks, sender, message) && d2 in Deliveries(hooks, sender, message)
    requires d1.subscription == d2.subscription
    ensures d1 == d2
  {
  }
}
