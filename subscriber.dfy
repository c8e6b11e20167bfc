/**
  The oracle subscriber contract (`OracleSubscriberContract`).

  Instance storage holds three kinds of entry:
    - `DataKey::Admin`: the admin, set once;
    - `DataKey::BrokerWhitelist(b)`: `true` for each broker the admin allowed;
    - `DataKey::Topic(topic)`: the last data received for a topic.

  Authorisation (`require_auth`) is the set of principals that authorised the
  call.
 */
module Subscriber {
  import opened Oracle

  /** The subscriber's instance storage. */
  datatype SubscriberState = SubscriberState(
    admin: Option<Address>,
    brokers: map<Address, bool>,
    data: map<Bytes, Bytes>)

  /** The storage of a newly deployed subscriber. */
  const Fresh: SubscriberState := SubscriberState(None, map[], map[])

  /** What every reachable storage satisfies: only `true` is ever written to the whitelist. */
  ghost predicate Consistent(s: SubscriberState) {
    forall b | b in s.brokers :: s.brokers[b]
  }

  /** `require_admin_auth`: the stored admin must have authorised the call. */
  function RequireAdminAuth(s: SubscriberState, auth: set<Address>): (r: Result<()>)
    ensures r.Ok? <==> s.admin.Some? && s.admin.value in auth
    ensures s.admin.None? ==> r == Err(AdminNotSet)
    ensures s.admin.Some? && r.Err? ==> r == Err(NotAuthorized(s.admin.value))
  {
    match s.admin
    case None => Err(AdminNotSet)
    case Some(a) => if a in auth then Ok(()) else Err(NotAuthorized(a))
  }

  /**
    `require_broker_whitelisted`: fails on a missing entry and otherwise
    returns the stored flag, which is always `true` in a consistent storage.
   */
  function RequireBrokerWhitelisted(s: SubscriberState, broker: Address): (r: Result<bool>)
    ensures r.Ok? <==> broker in s.brokers
    ensures r.Err? ==> r.error == NotWhitelisted(broker)
    ensures r.Ok? && Consistent(s) ==> r.value
  {
    if broker in s.brokers then Ok(s.brokers[broker]) else Err(NotWhitelisted(broker))
  }

  /**
    `reconcile_data`: no aggregation is done, so the value stored is the
    latest one received, exactly as delivered.
   */
  function ReconcileData(data: Bytes): (r: Bytes)
    ensures r == data
  {
    data
  }

  /** `set_admin`: stores the admin if none is stored; no authorisation needed. */
  function SetAdminStep(s: SubscriberState, admin: Address): (t: Transition<SubscriberState, ()>)
    ensures Reverts(s, t)
    ensures t.result.Ok? <==> s.admin.None?
    ensures t.result.Err? ==> t.result.error == AdminAlreadySet
    ensures t.result.Ok? ==> t.next.admin == Some(admin) && t.next.(admin := None) == s
  {
    if s.admin.Some? then Transition(Err(AdminAlreadySet), s)
    else Transition(Ok(()), s.(admin := Some(admin)))
  }

  /** `allow_broker`: the admin writes `BrokerWhitelist(broker) = true`. */
  function AllowBrokerStep(s: SubscriberState, broker: Address, auth: set<Address>): (t: Transition<SubscriberState, ()>)
    ensures Reverts(s, t)
    ensures t.result.Ok? <==> s.admin.Some? && s.admin.value in auth
    ensures t.result.Ok? ==>
      && broker in t.next.brokers && t.next.brokers[broker]
      && t.next.brokers - {broker} == s.brokers - {broker}
      && t.next.(brokers := s.brokers) == s
  {
    match RequireAdminAuth(s, auth)
    case Err(e) => Transition(Err(e), s)
    case Ok(_) => Transition(Ok(()), s.(brokers := s.brokers[broker := true]))
  }

  /** `deny_broker`: the admin removes the broker's whitelist entry. */
  function DenyBrokerStep(s: SubscriberState, broker: Address, auth: set<Address>): (t: Transition<SubscriberState, ()>)
    ensures Reverts(s, t)
    ensures t.result.Ok? <==> s.admin.Some? && s.admin.value in auth
    ensures t.result.Ok? ==>
      && broker !in t.next.brokers
      && t.next.brokers - {broker} == s.brokers - {broker}
      && t.next.(brokers := s.brokers) == s
  {
    match RequireAdminAuth(s, auth)
    case Err(e) => Transition(Err(e), s)
    case Ok(_) => Transition(Ok(()), s.(brokers := s.brokers - {broker}))
  }

  /**
    `on_sync_receive`: a whitelisted broker's data is stored for the topic,
    unchanged; nothing else is written.
   */
  function SyncReceiveStep(s: SubscriberState, topic: Bytes, envelope: Envelope, data: Bytes)
    : (t: Transition<SubscriberState, ()>)
    ensures Reverts(s, t)
    ensures t.result.Ok? <==> envelope.broker in s.brokers
    ensures t.result.Err? ==> t.result.error == NotWhitelisted(envelope.broker)
    ensures t.result.Ok? ==>
      && Lookup(t.next.data, topic) == Some(data)
      && t.next.data - {topic} == s.data - {topic}
      && t.next.(data := s.data) == s
  {
    match RequireBrokerWhitelisted(s, envelope.broker)
    case Err(e) => Transition(Err(e), s)
    case Ok(_) => Transition(Ok(()), s.(data := s.data[topic := ReconcileData(data)]))
  }

  /**
    `on_async_receive`: as `on_sync_receive`, and the broker itself must also
    have authorised the call.
   */
  function AsyncReceiveStep(s: SubscriberState, topic: Bytes, envelope: Envelope, data: Bytes, auth: set<Address>)
    : (t: Transition<SubscriberState, ()>)
    ensures Reverts(s, t)
    ensures t.result.Ok? <==> envelope.broker in s.brokers && envelope.broker in auth
    ensures envelope.broker in s.brokers && t.result.Err? ==> t.result == Err(NotAuthorized(envelope.broker))
    ensures t.result.Ok? ==>
      && Lookup(t.next.data, topic) == Some(data)
      && t.next.data - {topic} == s.data - {topic}
      && t.next.(data := s.data) == s
  {
    match RequireBrokerWhitelisted(s, envelope.broker)
    case Err(e) => Transition(Err(e), s)
    case Ok(_) =>
      if envelope.broker !in auth then Transition(Err(NotAuthorized(envelope.broker)), s)
      else Transition(Ok(()), s.(data := s.data[topic := ReconcileData(data)]))
  }

  /** One call of a public entry point or hook, with the principals that authorised it. */
  datatype Call =
    | SetAdmin(admin: Address)
    | AllowBroker(broker: Address, auth: set<Address>)
    | DenyBroker(broker: Address, auth: set<Address>)
    | Request(topic: Bytes, envelope: Envelope, auth: set<Address>)
    | SyncReceive(topic: Bytes, envelope: Envelope, data: Bytes)
    | AsyncReceive(topic: Bytes, envelope: Envelope, data: Bytes, auth: set<Address>)

  /** The storage after one call. */
  function Step(s: SubscriberState, c: Call): (r: SubscriberState) {
    match c
    case SetAdmin(admin) => SetAdminStep(s, admin).next
    case AllowBroker(b, auth) => AllowBrokerStep(s, b, auth).next
    case DenyBroker(b, auth) => DenyBrokerStep(s, b, auth).next
    case Request(_, _, _) => s
    case SyncReceive(topic, envelope, data) => SyncReceiveStep(s, topic, envelope, data).next
    case AsyncReceive(topic, envelope, data, auth) => AsyncReceiveStep(s, topic, envelope, data, auth).next
  }

  /** The storage after a sequence of calls, one after the other. */
  function Run(s: SubscriberState, calls: seq<Call>): (r: SubscriberState)
    decreases |calls|
  {
    if calls == [] then s else Run(Step(s, calls[0]), calls[1..])
  }

  /** True of a receive hook call for `topic` that the hook accepts in storage `s`. */
  predicate AcceptedReceive(s: SubscriberState, c: Call, topic: Bytes) {
    match c
    case SyncReceive(t, envelope, data) => t == topic && SyncReceiveStep(s, t, envelope, data).result.Ok?
    case AsyncReceive(t, envelope, data, auth) => t == topic && AsyncReceiveStep(s, t, envelope, data, auth).result.Ok?
    case _ => false
  }

  /** True when some call of `calls`, run from `s`, is an accepted receive for `topic`. */
  predicate ReceivedAlong(s: SubscriberState, calls: seq<Call>, topic: Bytes)
    decreases |calls|
  {
    calls != [] && (AcceptedReceive(s, calls[0], topic) || ReceivedAlong(Step(s, calls[0]), calls[1..], topic))
  }

  // ----- The storage invariant -----

  lemma StepKeepsConsistent(s: SubscriberState, c: Call)
    requires Consistent(s)
    ensures Consistent(Step(s, c))
  {
  }

  lemma {:induction false} RunKeepsConsistent(s: SubscriberState, calls: seq<Call>)
    requires Consistent(s)
    ensures Consistent(Run(s, calls))
    decreases |calls|
  {
    if calls != [] {
      StepKeepsConsistent(s, calls[0]);
      RunKeepsConsistent(Step(s, calls[0]), calls[1..]);
    }
  }

  /** Every storage a deployed subscriber can reach is consistent. */
  lemma ReachableIsConsistent(calls: seq<Call>)
    ensures Consistent(Run(Fresh, calls))
  {
    RunKeepsConsistent(Fresh, calls);
  }

  // ----- Received data -----

  /** Every call the asynchronous hook accepts, the synchronous hook accepts too, with the same effect. */
  lemma AsyncAcceptedBySync(s: SubscriberState, topic: Bytes, envelope: Envelope, data: Bytes, auth: set<Address>)
    requires AsyncReceiveStep(s, topic, envelope, data, auth).result.Ok?
    ensures SyncReceiveStep(s, topic, envelope, data) == AsyncReceiveStep(s, topic, envelope, data, auth)
  {
  }

  /** Running `a` and then `b` is running `a + b`. */
  lemma {:induction false} RunAppend(s: SubscriberState, a: seq<Call>, b: seq<Call>)
    ensures Run(s, a + b) == Run(Run(s, a), b)
    decreases |a|
  {
    if a != [] {
      assert (a + b)[0] == a[0];
      assert (a + b)[1..] == a[1..] + b;
      RunAppend(Step(s, a[0]), a[1..], b);
    } else {
      assert a + b == b;
    }
  }

  /** A call that is not an accepted receive for `topic` leaves its stored data as it was. */
  lemma StepKeepsOtherData(s: SubscriberState, c: Call, topic: Bytes)
    requires !AcceptedReceive(s, c, topic)
    ensures Lookup(Step(s, c).data, topic) == Lookup(s.data, topic)
  {
  }

  /** Without an accepted receive for `topic`, a run leaves its stored data as it was. */
  lemma {:induction false} OnlyReceivesWriteTopic(s: SubscriberState, calls: seq<Call>, topic: Bytes)
    requires !ReceivedAlong(s, calls, topic)
    ensures Lookup(Run(s, calls).data, topic) == Lookup(s.data, topic)
    decreases |calls|
  {
    if calls != [] {
      StepKeepsOtherData(s, calls[0], topic);
      OnlyReceivesWriteTopic(Step(s, calls[0]), calls[1..], topic);
    }
  }

  /** Before the first accepted receive for a topic, `get_data` reports nothing for it. */
  lemma NothingBeforeFirstReceive(calls: seq<Call>, topic: Bytes)
    requires !ReceivedAlong(Fresh, calls, topic)
    ensures Lookup(Run(Fresh, calls).data, topic) == None
  {
    OnlyReceivesWriteTopic(Fresh, calls, topic);
  }

  /**
    After an accepted receive for a topic, `get_data` reports its data until
    the next accepted receive for that topic: the last write wins.
   */
  lemma LastReceiveWins(s: SubscriberState, before: seq<Call>, c: Call, after: seq<Call>, topic: Bytes)
    requires AcceptedReceive(Run(s, before), c, topic)
    requires !ReceivedAlong(Step(Run(s, before), c), after, topic)
    ensures Lookup(Run(s, before + [c] + after).data, topic) == Some(c.data)
  {
    var mid := Run(s, before);
    RunAppend(s, before + [c], after);
    RunAppend(s, before, [c]);
    assert Run(mid, [c]) == Step(mid, c);
    OnlyReceivesWriteTopic(Step(mid, c), after, topic);
  }

  /**
    The subscriber contract: the instance storage as fields, one method per
    entry point or hook that writes, and functions for the reads.
   */
  class OracleSubscriberContract {
    var admin: Option<Address>
    var brokers: map<Address, bool>
    var data: map<Bytes, Bytes>

    /** The instance storage, as one value. */
    function State(): (r: SubscriberState)
      reads this
    {
      SubscriberState(admin, brokers, data)
    }

    ghost predicate Valid()
      reads this
    {
      Consistent(State())
    }

    constructor ()
      ensures State() == Fresh && Valid()
    {
      admin := None;
      brokers := map[];
      data := map[];
    }

    /** `get_data`: never fails and writes nothing. */
    function GetData(topic: Bytes): (r: Option<Bytes>)
      reads this
      ensures r.Some? <==> topic in data
      ensures r.Some? ==> r.value == data[topic]
    {
      Lookup(data, topic)
    }

    /** `on_request`: a guard that reads the whitelist and writes nothing. */
    method OnRequest(topic: Bytes, envelope: Envelope, auth: set<Address>) returns (r: Result<()>)
      ensures r.Ok? <==> envelope.broker in brokers && envelope.subscriber in auth
      ensures envelope.broker !in brokers ==> r == Err(NotWhitelisted(envelope.broker))
      ensures envelope.broker in brokers && r.Err? ==> r == Err(NotAuthorized(envelope.subscriber))
    {
      var whitelisted := RequireBrokerWhitelisted(State(), envelope.broker);
      if whitelisted.Err? {
        return Err(whitelisted.error);
      }
      if envelope.subscriber !in auth {
        return Err(NotAuthorized(envelope.subscriber));
      }
      r := Ok(());
    }

    method SetAdmin(newAdmin: Address) returns (r: Result<()>)
      requires Valid()
      modifies this
      ensures Valid()
      ensures var t := SetAdminStep(old(State()), newAdmin); r == t.result && State() == t.next
    {
      if admin.Some? {
        return Err(AdminAlreadySet);
      }
      admin := Some(newAdmin);
      r := Ok(());
    }

    method AllowBroker(broker: Address, auth: set<Address>) returns (r: Result<()>)
      requires Valid()
      modifies this
      ensures Valid()
      ensures var t := AllowBrokerStep(old(State()), broker, auth); r == t.result && State() == t.next
    {
      r := RequireAdminAuth(State(), auth);
      if r.Err? {
        return;
      }
      brokers := brokers[broker := true];
      r := Ok(());
    }

    method DenyBroker(broker: Address, auth: set<Address>) returns (r: Result<()>)
      requires Valid()
      modifies this
      ensures Valid()
      ensures var t := DenyBrokerStep(old(State()), broker, auth); r == t.result && State() == t.next
    {
      r := RequireAdminAuth(State(), auth);
      if r.Err? {
        return;
      }
      brokers := brokers - {broker};
      r := Ok(());
    }

    method OnSyncReceive(topic: Bytes, envelope: Envelope, received: Bytes) returns (r: Result<()>)
      requires Valid()
      modifies this
      ensures Valid()
      ensures var t := SyncReceiveStep(old(State()), topic, envelope, received); r == t.result && State() == t.next
      ensures r.Ok? ==> GetData(topic) == Some(received)
    {
      var whitelisted := RequireBrokerWhitelisted(State(), envelope.broker);
      if whitelisted.Err? {
        return Err(whitelisted.error);
      }
      data := data[topic := ReconcileData(received)];
      r := Ok(());
    }

    method OnAsyncReceive(topic: Bytes, envelope: Envelope, received: Bytes, auth: set<Address>) returns (r: Result<()>)
      requires Valid()
      modifies this
      ensures Valid()
      ensures var t := AsyncReceiveStep(old(State()), topic, envelope, received, auth);
        r == t.result && State() == t.next
      ensures r.Ok? ==> GetData(topic) == Some(received)
    {
      var whitelisted := RequireBrokerWhitelisted(State(), envelope.broker);
      if whitelisted.Err? {
        return Err(whitelisted.error);
      }
      if envelope.broker !in auth {
        return Err(NotAuthorized(envelope.broker));
      }
      data := data[topic := ReconcileData(received)];
      r := Ok(());
    }
  }
}
