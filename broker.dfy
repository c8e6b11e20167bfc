/**
  The oracle broker contract (`OracleBrokerContract`).

  Instance storage holds four kinds of entry:
    - `DataKey::Admin`: the admin, set once;
    - `DataKey::PublisherWhitelist(p)`: `true` for each publisher the admin allowed;
    - `DataKey::Topic(topic)`: the last data published for a topic (the cache);
    - the raw topic bytes: the queue of envelopes waiting for that topic.
  The last two keys are distinct even for the same topic, so they are two maps.

  Authorisation (`require_auth`) is the set of principals that authorised the
  call; the fee token contract is the set of transfers it accepts in the call.
 */
module Broker {
  import opened Oracle

  /** The fee charged to a subscriber on every request, in token units. */
  const SubscriptionFee: int := 10000000

  /** A transfer asked of the fee token contract. */
  datatype Transfer = Transfer(from: Address, to: Address, amount: int)

  /** The transfer that pays for one request handled by the broker at `self`. */
  function Fee(envelope: Envelope, self: Address): (r: Transfer) {
    Transfer(envelope.subscriber, self, SubscriptionFee)
  }

  /** The broker's instance storage. */
  datatype BrokerState = BrokerState(
    admin: Option<Address>,
    publishers: map<Address, bool>,
    cache: map<Bytes, Bytes>,
    pending: map<Bytes, seq<Envelope>>)

  /** The storage of a newly deployed broker. */
  const Fresh: BrokerState := BrokerState(None, map[], map[], map[])

  /**
    What every reachable storage satisfies: only `true` is ever written to the
    whitelist, a topic never has both a cached value and a queue, and a queue
    that exists is not empty.
   */
  ghost predicate Consistent(s: BrokerState) {
    && (forall p | p in s.publishers :: s.publishers[p])
    && (forall t | t in s.pending :: t !in s.cache && s.pending[t] != [])
  }

  /** The queue of a topic as `on_subscribe` loads it: empty when none is stored. */
  function PendingEnvelopes(s: BrokerState, topic: Bytes): (r: seq<Envelope>) {
    if topic in s.pending then s.pending[topic] else []
  }

  /** `require_admin_auth`: the stored admin must have authorised the call. */
  function RequireAdminAuth(s: BrokerState, auth: set<Address>): (r: Result<()>)
    ensures r.Ok? <==> s.admin.Some? && s.admin.value in auth
    ensures s.admin.None? ==> r == Err(AdminNotSet)
    ensures s.admin.Some? && r.Err? ==> r == Err(NotAuthorized(s.admin.value))
  {
    match s.admin
    case None => Err(AdminNotSet)
    case Some(a) => if a in auth then Ok(()) else Err(NotAuthorized(a))
  }

  /**
    `require_publisher_whitelisted`: fails on a missing entry and otherwise
    returns the stored flag, which is always `true` in a consistent storage.
   */
  function RequirePublisherWhitelisted(s: BrokerState, publisher: Address): (r: Result<bool>)
    ensures r.Ok? <==> publisher in s.publishers
    ensures r.Err? ==> r.error == NotWhitelisted(publisher)
    ensures r.Ok? && Consistent(s) ==> r.value
  {
    if publisher in s.publishers then Ok(s.publishers[publisher]) else Err(NotWhitelisted(publisher))
  }

  /** `set_admin`: stores the admin if none is stored; no authorisation needed. */
  function SetAdminStep(s: BrokerState, admin: Address): (t: Transition<BrokerState, ()>)
    ensures Reverts(s, t)
    ensures t.result.Ok? <==> s.admin.None?
    ensures t.result.Err? ==> t.result.error == AdminAlreadySet
    ensures t.result.Ok? ==> t.next.admin == Some(admin) && t.next.(admin := None) == s
  {
    if s.admin.Some? then Transition(Err(AdminAlreadySet), s)
    else Transition(Ok(()), s.(admin := Some(admin)))
  }

  /** `allow_publisher`: the admin writes `PublisherWhitelist(publisher) = true`. */
  function AllowPublisherStep(s: BrokerState, publisher: Address, auth: set<Address>): (t: Transition<BrokerState, ()>)
    ensures Reverts(s, t)
    ensures t.result.Ok? <==> s.admin.Some? && s.admin.value in auth
    ensures t.result.Ok? ==>
      && publisher in t.next.publishers && t.next.publishers[publisher]
      && t.next.publishers - {publisher} == s.publishers - {publisher}
      && t.next.(publishers := s.publishers) == s
  {
    match RequireAdminAuth(s, auth)
    case Err(e) => Transition(Err(e), s)
    case Ok(_) => Transition(Ok(()), s.(publishers := s.publishers[publisher := true]))
  }

  /** `deny_publisher`: the admin removes the publisher's whitelist entry. */
  function DenyPublisherStep(s: BrokerState, publisher: Address, auth: set<Address>): (t: Transition<BrokerState, ()>)
    ensures Reverts(s, t)
    ensures t.result.Ok? <==> s.admin.Some? && s.admin.value in auth
    ensures t.result.Ok? ==>
      && publisher !in t.next.publishers
      && t.next.publishers - {publisher} == s.publishers - {publisher}
      && t.next.(publishers := s.publishers) == s
  {
    match RequireAdminAuth(s, auth)
    case Err(e) => Transition(Err(e), s)
    case Ok(_) => Transition(Ok(()), s.(publishers := s.publishers - {publisher}))
  }

  /**
    `on_subscribe`: the subscriber authorises and pays the fee; then a cached
    value is returned as it is, and otherwise the envelope joins the end of the
    topic's queue and nothing is returned.
   */
  function SubscribeStep(s: BrokerState, self: Address, topic: Bytes, envelope: Envelope,
                         auth: set<Address>, accepted: set<Transfer>): (t: Transition<BrokerState, Option<Bytes>>)
    ensures Reverts(s, t)
    ensures t.result.Ok? <==> envelope.subscriber in auth && Fee(envelope, self) in accepted
    ensures envelope.subscriber !in auth ==> t.result == Err(NotAuthorized(envelope.subscriber))
    ensures t.result.Ok? && topic in s.cache ==> t.result.value == Some(s.cache[topic]) && t.next == s
    ensures t.result.Ok? && topic !in s.cache ==>
      && t.result.value == None
      && topic in t.next.pending
      && |t.next.pending[topic]| == |PendingEnvelopes(s, topic)| + 1
      && t.next.pending[topic][..|PendingEnvelopes(s, topic)|] == PendingEnvelopes(s, topic)
      && t.next.pending[topic][|PendingEnvelopes(s, topic)|] == envelope
      && t.next.pending - {topic} == s.pending - {topic}
      && t.next.(pending := s.pending) == s
  {
    var envelopes := PendingEnvelopes(s, topic);
    if envelope.subscriber !in auth then Transition(Err(NotAuthorized(envelope.subscriber)), s)
    else if Fee(envelope, self) !in accepted then Transition(Err(FeeNotTransferred), s)
    else if topic in s.cache then Transition(Ok(Some(s.cache[topic])), s)
    else Transition(Ok(None), s.(pending := s.pending[topic := envelopes + [envelope]]))
  }

  /**
    `on_publish`: a whitelisted publisher caches the data and takes the whole
    queue of the topic, which is then removed. With no queue the call fails and
    the cache write is discarded with it.
   */
  function PublishStep(s: BrokerState, topic: Bytes, data: Bytes, publisher: Address): (t: Transition<BrokerState, seq<Envelope>>)
    ensures Reverts(s, t)
    ensures t.result.Ok? <==> publisher in s.publishers && topic in s.pending
    ensures publisher !in s.publishers ==> t.result == Err(NotWhitelisted(publisher))
    ensures publisher in s.publishers && topic !in s.pending ==> t.result == Err(NoPendingEnvelopes)
    ensures t.result.Ok? ==>
      && t.result.value == s.pending[topic]
      && topic in t.next.cache && t.next.cache[topic] == data
      && t.next.cache - {topic} == s.cache - {topic}
      && topic !in t.next.pending
      && t.next.pending == s.pending - {topic}
      && t.next.admin == s.admin && t.next.publishers == s.publishers
  {
    match RequirePublisherWhitelisted(s, publisher)
    case Err(e) => Transition(Err(e), s)
    case Ok(_) =>
      var cached := s.(cache := s.cache[topic := data]);
      if topic !in cached.pending then Transition(Err(NoPendingEnvelopes), s)
      else Transition(Ok(cached.pending[topic]), cached.(pending := cached.pending - {topic}))
  }

  /** One call of a public entry point, with what the host tells it. */
  datatype Call =
    | SetAdmin(admin: Address)
    | AllowPublisher(publisher: Address, auth: set<Address>)
    | DenyPublisher(publisher: Address, auth: set<Address>)
    | Subscribe(topic: Bytes, envelope: Envelope, auth: set<Address>, accepted: set<Transfer>)
    | Publish(topic: Bytes, data: Bytes, publisher: Address)

  /** The storage after one call of the broker at `self`. */
  function Step(s: BrokerState, self: Address, c: Call): (r: BrokerState) {
    match c
    case SetAdmin(admin) => SetAdminStep(s, admin).next
    case AllowPublisher(p, auth) => AllowPublisherStep(s, p, auth).next
    case DenyPublisher(p, auth) => DenyPublisherStep(s, p, auth).next
    case Subscribe(topic, envelope, auth, accepted) => SubscribeStep(s, self, topic, envelope, auth, accepted).next
    case Publish(topic, data, publisher) => PublishStep(s, topic, data, publisher).next
  }

  /** The storage after a sequence of calls, one after the other. */
  function Run(s: BrokerState, self: Address, calls: seq<Call>): (r: BrokerState)
    decreases |calls|
  {
    if calls == [] then s else Run(Step(s, self, calls[0]), self, calls[1..])
  }

  // ----- The storage invariant -----

  lemma StepKeepsConsistent(s: BrokerState, self: Address, c: Call)
    requires Consistent(s)
    ensures Consistent(Step(s, self, c))
  {
  }

  lemma {:induction false} RunKeepsConsistent(s: BrokerState, self: Address, calls: seq<Call>)
    requires Consistent(s)
    ensures Consistent(Run(s, self, calls))
    decreases |calls|
  {
    if calls != [] {
      StepKeepsConsistent(s, self, calls[0]);
      RunKeepsConsistent(Step(s, self, calls[0]), self, calls[1..]);
    }
  }

  /** Every storage a deployed broker can reach is consistent. */
  lemma ReachableIsConsistent(self: Address, calls: seq<Call>)
    ensures Consistent(Run(Fresh, self, calls))
  {
    RunKeepsConsistent(Fresh, self, calls);
  }

  // ----- The cache is written once -----

  /** A cached topic keeps its value through any call and never gets a queue. */
  lemma StepKeepsCache(s: BrokerState, self: Address, c: Call, topic: Bytes)
    requires Consistent(s) && topic in s.cache
    ensures var n := Step(s, self, c);
      topic in n.cache && n.cache[topic] == s.cache[topic] && topic !in n.pending
  {
  }

  /** Once a topic is cached, no sequence of calls replaces or removes its value. */
  lemma {:induction false} CacheIsPermanent(s: BrokerState, self: Address, calls: seq<Call>, topic: Bytes)
    requires Consistent(s) && topic in s.cache
    ensures var e := Run(s, self, calls);
      topic in e.cache && e.cache[topic] == s.cache[topic] && topic !in e.pending
    decreases |calls|
  {
    if calls != [] {
      StepKeepsCache(s, self, calls[0], topic);
      StepKeepsConsistent(s, self, calls[0]);
      CacheIsPermanent(Step(s, self, calls[0]), self, calls[1..], topic);
    }
  }

  /** After a topic's first successful publish, every later publish for it fails. */
  lemma PublishSucceedsOnce(s: BrokerState, self: Address, topic: Bytes, data: Bytes, publisher: Address,
                            calls: seq<Call>, data': Bytes, publisher': Address)
    requires Consistent(s)
    requires PublishStep(s, topic, data, publisher).result.Ok?
    ensures var later := Run(PublishStep(s, topic, data, publisher).next, self, calls);
      && PublishStep(later, topic, data', publisher').result.Err?
      && PublishStep(later, topic, data', publisher').next == later
      && topic in later.cache && later.cache[topic] == data
  {
    var first := PublishStep(s, topic, data, publisher).next;
    StepKeepsConsistent(s, self, Publish(topic, data, publisher));
    CacheIsPermanent(first, self, calls, topic);
  }

  /**
    After a successful publish, any later request for the topic is answered
    with the published data and adds no envelope.
   */
  lemma SubscribeAfterPublishHitsCache(s: BrokerState, self: Address, topic: Bytes, data: Bytes, publisher: Address,
                                       calls: seq<Call>, envelope: Envelope, auth: set<Address>, accepted: set<Transfer>)
    requires Consistent(s)
    requires PublishStep(s, topic, data, publisher).result.Ok?
    ensures var later := Run(PublishStep(s, topic, data, publisher).next, self, calls);
      var t := SubscribeStep(later, self, topic, envelope, auth, accepted);
      && (t.result.Ok? ==> t.result.value == Some(data))
      && t.next == later
  {
    var first := PublishStep(s, topic, data, publisher).next;
    StepKeepsConsistent(s, self, Publish(topic, data, publisher));
    CacheIsPermanent(first, self, calls, topic);
  }

  // ----- Queueing -----

  /** Two requests before any publish leave exactly two envelopes, in call order. */
  lemma TwoSubscribesQueueInOrder(s: BrokerState, self: Address, topic: Bytes,
                                  e1: Envelope, auth1: set<Address>, accepted1: set<Transfer>,
                                  e2: Envelope, auth2: set<Address>, accepted2: set<Transfer>)
    requires topic !in s.cache && topic !in s.pending
    requires e1.subscriber in auth1 && Fee(e1, self) in accepted1
    requires e2.subscriber in auth2 && Fee(e2, self) in accepted2
    ensures var s1 := SubscribeStep(s, self, topic, e1, auth1, accepted1).next;
      var s2 := SubscribeStep(s1, self, topic, e2, auth2, accepted2).next;
      topic in s2.pending && s2.pending[topic] == [e1, e2]
  {
  }

  /**
    Publishing drains the topic: a queue filled by one request is handed back
    whole, the topic is cached, and no queue is left.
   */
  lemma SubscribeThenPublish(s: BrokerState, self: Address, topic: Bytes, envelope: Envelope,
                             auth: set<Address>, accepted: set<Transfer>, data: Bytes, publisher: Address)
    requires topic !in s.cache && topic !in s.pending && publisher in s.publishers
    requires envelope.subscriber in auth && Fee(envelope, self) in accepted
    ensures var s1 := SubscribeStep(s, self, topic, envelope, auth, accepted);
      var s2 := PublishStep(s1.next, topic, data, publisher);
      && s1.result == Ok(None)
      && s2.result == Ok([envelope])
      && Lookup(s2.next.cache, topic) == Some(data)
      && topic !in s2.next.pending
  {
  }

  // ----- Admin and whitelist -----

  /** A second `set_admin` always fails and keeps the first admin. */
  lemma SetAdminOnce(s: BrokerState, first: Address, second: Address)
    ensures var t := SetAdminStep(SetAdminStep(s, first).next, second);
      t.result == Err(AdminAlreadySet) && t.next.admin == SetAdminStep(s, first).next.admin
      && t.next.admin.Some?
  {
  }

  /**
    Allowing and then denying a publisher that was not whitelisted restores
    the storage exactly, so the publisher's later publish fails as before.
   */
  lemma AllowThenDenyIsNoOp(s: BrokerState, publisher: Address, auth: set<Address>,
                            topic: Bytes, data: Bytes)
    requires publisher !in s.publishers
    requires s.admin.Some? && s.admin.value in auth
    ensures var s1 := AllowPublisherStep(s, publisher, auth).next;
      var s2 := DenyPublisherStep(s1, publisher, auth).next;
      && s2 == s
      && PublishStep(s2, topic, data, publisher).result == Err(NotWhitelisted(publisher))
  {
  }

  /** Only an allow or deny call authorised by the stored admin changes the whitelist. */
  lemma WhitelistNeedsAdmin(s: BrokerState, self: Address, c: Call)
    ensures Step(s, self, c).publishers != s.publishers ==>
      && (c.AllowPublisher? || c.DenyPublisher?)
      && s.admin.Some? && s.admin.value in c.auth
  {
  }

  // ----- Where queued envelopes come from -----

  /** A request for `topic` by envelope `e` that the subscriber authorised and paid for. */
  predicate PaidRequest(c: Call, self: Address, topic: Bytes, e: Envelope) {
    c.Subscribe? && c.topic == topic && c.envelope == e
    && e.subscriber in c.auth && Fee(e, self) in c.accepted
  }

  /** How many calls of `calls` are paid requests for `topic` by envelope `e`. */
  function PaidCount(calls: seq<Call>, self: Address, topic: Bytes, e: Envelope): (n: nat)
    decreases |calls|
  {
    if calls == [] then 0
    else (if PaidRequest(calls[0], self, topic, e) then 1 else 0) + PaidCount(calls[1..], self, topic, e)
  }

  /** A positive count names a paid request in the sequence. */
  lemma {:induction false} PaidCountWitness(calls: seq<Call>, self: Address, topic: Bytes, e: Envelope)
    requires PaidCount(calls, self, topic, e) > 0
    ensures exists i | 0 <= i < |calls| :: PaidRequest(calls[i], self, topic, e)
    decreases |calls|
  {
    if !PaidRequest(calls[0], self, topic, e) {
      PaidCountWitness(calls[1..], self, topic, e);
      var i :| 0 <= i < |calls[1..]| && PaidRequest(calls[1..][i], self, topic, e);
      assert calls[1..][i] == calls[i + 1];
    }
  }

  /**
    One call adds at most one copy of an envelope to a topic's queue, and only
    when the call is that envelope's paid request for the topic.
   */
  lemma StepQueuesOnlyPaidRequests(s: BrokerState, self: Address, c: Call, topic: Bytes, e: Envelope)
    ensures multiset(PendingEnvelopes(Step(s, self, c), topic))[e]
            <= multiset(PendingEnvelopes(s, topic))[e] + (if PaidRequest(c, self, topic, e) then 1 else 0)
  {
    match c
    case Subscribe(t, envelope, auth, accepted) =>
      var n := SubscribeStep(s, self, t, envelope, auth, accepted).next;
      if t == topic && n != s {
        assert PendingEnvelopes(n, topic) == PendingEnvelopes(s, topic) + [envelope];
      }
    case _ =>
  }

  /**
    Every copy of an envelope in a topic's queue after a run was there before
    it or is paid for by its own request in the run: the fee is charged once
    per queued envelope.
   */
  lemma {:induction false} QueuedEnvelopesWerePaidFor(s: BrokerState, self: Address, calls: seq<Call>,
                                                       topic: Bytes, e: Envelope)
    ensures multiset(PendingEnvelopes(Run(s, self, calls), topic))[e]
            <= multiset(PendingEnvelopes(s, topic))[e] + PaidCount(calls, self, topic, e)
    decreases |calls|
  {
    if calls != [] {
      StepQueuesOnlyPaidRequests(s, self, calls[0], topic, e);
      QueuedEnvelopesWerePaidFor(Step(s, self, calls[0]), self, calls[1..], topic, e);
    }
  }

  /**
    In a deployed broker, each queued copy of an envelope was paid for by a
    distinct authorised request, so a queued envelope has such a request.
   */
  lemma ReachableQueuesArePaidFor(self: Address, calls: seq<Call>, topic: Bytes, e: Envelope)
    ensures multiset(PendingEnvelopes(Run(Fresh, self, calls), topic))[e] <= PaidCount(calls, self, topic, e)
    ensures e in PendingEnvelopes(Run(Fresh, self, calls), topic) ==>
      exists i | 0 <= i < |calls| :: PaidRequest(calls[i], self, topic, e)
  {
    QueuedEnvelopesWerePaidFor(Fresh, self, calls, topic, e);
    if e in PendingEnvelopes(Run(Fresh, self, calls), topic) {
      PaidCountWitness(calls, self, topic, e);
    }
  }

  /**
    The broker contract: the instance storage as fields, one method per
    public entry point. Every method keeps the storage consistent and does
    what the matching step function on `BrokerState` says.
   */
  class OracleBrokerContract {
    /** `current_contract_address`: where subscription fees are paid. */
    const address: Address
    var admin: Option<Address>
    var publishers: map<Address, bool>
    var cache: map<Bytes, Bytes>
    var pending: map<Bytes, seq<Envelope>>

    /** The instance storage, as one value. */
    function State(): (r: BrokerState)
      reads this
    {
      BrokerState(admin, publishers, cache, pending)
    }

    ghost predicate Valid()
      reads this
    {
      Consistent(State())
    }

    constructor (address: Address)
      ensures this.address == address
      ensures State() == Fresh && Valid()
    {
      this.address := address;
      admin := None;
      publishers := map[];
      cache := map[];
      pending := map[];
    }

    method SetAdmin(newAdmin: Address) returns (r: Result<()>)
      requires Valid()
      modifies this
      ensures Valid()
      ensures var t := SetAdminStep(old(State()), newAdmin); r == t.result && State() == t.next
    {
      if admin.Some? {
        return Err(AdminAlreadySet);
      }
      admin := Some(newAdmin);
      r := Ok(());
    }

    method AllowPublisher(publisher: Address, auth: set<Address>) returns (r: Result<()>)
      requires Valid()
      modifies this
      ensures Valid()
      ensures var t := AllowPublisherStep(old(State()), publisher, auth); r == t.result && State() == t.next
    {
      r := RequireAdminAuth(State(), auth);
      if r.Err? {
        return;
      }
      publishers := publishers[publisher := true];
      r := Ok(());
    }

    method DenyPublisher(publisher: Address, auth: set<Address>) returns (r: Result<()>)
      requires Valid()
      modifies this
      ensures Valid()
      ensures var t := DenyPublisherStep(old(State()), publisher, auth); r == t.result && State() == t.next
    {
      r := RequireAdminAuth(State(), auth);
      if r.Err? {
        return;
      }
      publishers := publishers - {publisher};
      r := Ok(());
    }

    method OnSubscribe(topic: Bytes, envelope: Envelope, auth: set<Address>, accepted: set<Transfer>)
      returns (r: Result<Option<Bytes>>)
      requires Valid()
      modifies this
      ensures Valid()
      ensures var t := SubscribeStep(old(State()), address, topic, envelope, auth, accepted);
        r == t.result && State() == t.next
    {
      var envelopes := if topic in pending then pending[topic] else [];
      if envelope.subscriber !in auth {
        return Err(NotAuthorized(envelope.subscriber));
      }
      if Transfer(envelope.subscriber, address, SubscriptionFee) !in accepted {
        return Err(FeeNotTransferred);
      }
      if topic in cache {
        return Ok(Some(cache[topic]));
      }
      envelopes := envelopes + [envelope];
      pending := pending[topic := envelopes];
      r := Ok(None);
    }

    method OnPublish(topic: Bytes, data: Bytes, publisher: Address) returns (r: Result<seq<Envelope>>)
      requires Valid()
      modifies this
      ensures Valid()
      ensures var t := PublishStep(old(State()), topic, data, publisher); r == t.result && State() == t.next
    {
      var whitelisted := RequirePublisherWhitelisted(State(), publisher);
      if whitelisted.Err? {
        return Err(whitelisted.error);
      }
      // The cache write is staged and committed only if the queue exists.
      var staged := cache[topic := data];
      if topic !in pending {
        return Err(NoPendingEnvelopes);
      }
      var envelopes := pending[topic];
      cache := staged;
      pending := pending - {topic};
      r := Ok(envelopes);
    }
  }
}
