/** What a broker means, without its indexes: one relation of live subscriptions. */
module BrokerSpec {
  import opened Wamp

  datatype Subscription = Subscription(session: Session, topic: Uri)

  type Live = map<Id, Subscription>

  function Owners(live: Live): map<Id, Session> {
    map id | id in live :: live[id].session
  }

  /** Live subscriptions that are left once `s` has no part in the relation. */
  function Without(live: Live, s: Session): Live {
    map id | id in live && live[id].session != s :: live[id]
  }

  predicate ExcludesPublisher(options: Options) {
    BoolOption(options, "exclude_me") != Some(false)
  }

  predicate WantsAck(options: Options) {
    BoolOption(options, "acknowledge") == Some(true)
  }

  /** The subscriptions a publication reaches. */
  predicate IsTarget(live: Live, pub: Session, m: Message, id: Id)
    requires m.Publish?
  {
    && id in live
    && live[id].topic == m.topic
    && !(live[id].session == pub && ExcludesPublisher(m.options))
  }

  function Delivery(live: Live, m: Message, publication: Id, id: Id): Envelope
    requires m.Publish? && id in live
  {
    Envelope(live[id].session, Event(id, publication, m.payload))
  }

  /** One EVENT for every reached subscription. */
  function Deliveries(live: Live, pub: Session, m: Message, publication: Id): set<Envelope>
    requires m.Publish?
  {
    set id | id in live && IsTarget(live, pub, m, id) :: Delivery(live, m, publication, id)
  }

  function Ack(pub: Session, m: Message, publication: Id): seq<Envelope>
    requires m.Publish?
  {
    if WantsAck(m.options) then [Envelope(pub, Published(m.request, publication))] else []
  }

  /** `outs` is a run of the EVENTs of one publication in some order, then the
      acknowledgement when the publisher asked for it. */
  ghost predicate IsMulticast(live: Live, pub: Session, m: Message, publication: Id, outs: seq<Envelope>)
    requires m.Publish?
  {
    var ack := Ack(pub, m, publication);
    && |outs| >= |ack|
    && outs[|outs| - |ack|..] == ack
    && multiset(outs[..|outs| - |ack|]) == multiset(Deliveries(live, pub, m, publication))
  }

  /** The one reply to UNSUBSCRIBE. */
  function UnsubscribeReply(live: Live, m: Message): Message
    requires m.Unsubscribe?
  {
    if m.subscription in live then Unsubscribed(m.request)
    else ErrorReply(UNSUBSCRIBE, m.request, ERR_NO_SUCH_SUBSCRIPTION)
  }

  predicate IsEventFor(e: Envelope, id: Id) {
    e.msg.Event? && e.msg.subscription == id
  }

  /** The number of EVENTs for subscription `id` in `outs`. */
  ghost function EventCount(outs: seq<Envelope>, id: Id): nat {
    Count(outs, e => IsEventFor(e, id))
  }

  /** A multicast holds exactly one EVENT for each reached subscription and none for any
      other, whatever the order in which the map of routes was walked; every EVENT carries
      the publication's id and its arguments. */
  lemma MulticastIsExact(live: Live, pub: Session, m: Message, publication: Id, outs: seq<Envelope>, id: Id)
    requires m.Publish? && IsMulticast(live, pub, m, publication, outs)
    ensures EventCount(outs, id) == if IsTarget(live, pub, m, id) then 1 else 0
    ensures forall o :: o in outs && IsEventFor(o, id) ==>
              id in live && o == Envelope(live[id].session, Event(id, publication, m.payload))
  {
    var ack := Ack(pub, m, publication);
    var events := outs[..|outs| - |ack|];
    var all := Deliveries(live, pub, m, publication);
    assert outs == events + ack;
    forall o | o in outs && IsEventFor(o, id)
      ensures IsTarget(live, pub, m, id) && o == Delivery(live, m, publication, id)
    {
      assert o in events;
      assert o in multiset(events);
      assert o in all;
    }
    if IsTarget(live, pub, m, id) {
      var e := Delivery(live, m, publication, id);
      CountOne(outs, o => IsEventFor(o, id), e);
      assert e in all;
      assert multiset(outs) == multiset(events) + multiset(ack);
      assert e !in ack;
      assert multiset(all)[e] == 1;
    } else {
      CountNone(outs, o => IsEventFor(o, id));
    }
  }

  /** In terms of the option itself: the publisher's own subscriptions are reached only if
      `exclude_me` is false. */
  lemma EachReachedOnce(live: Live, pub: Session, m: Message, publication: Id, outs: seq<Envelope>)
    requires m.Publish? && IsMulticast(live, pub, m, publication, outs)
    ensures forall id :: EventCount(outs, id)
              == if id in live && live[id].topic == m.topic
                    && (live[id].session == pub ==>
                          "exclude_me" in m.options && m.options["exclude_me"] == GoBool(false))
                 then 1 else 0
  {
    forall id ensures EventCount(outs, id) == if IsTarget(live, pub, m, id) then 1 else 0 {
      MulticastIsExact(live, pub, m, publication, outs, id);
    }
  }

  /** Once a session is gone a publication reaches the others exactly as before. */
  lemma OthersStillReached(live: Live, s: Session, pub: Session, m: Message, publication: Id)
    requires m.Publish?
    ensures Deliveries(Without(live, s), pub, m, publication)
         == set e | e in Deliveries(live, pub, m, publication) && e.to != s
  {
    var some, all := Deliveries(Without(live, s), pub, m, publication), Deliveries(live, pub, m, publication);
    forall e | e in all && e.to != s ensures e in some {
      var id :| id in live && IsTarget(live, pub, m, id) && e == Delivery(live, m, publication, id);
      assert IsTarget(Without(live, s), pub, m, id);
    }
    forall e | e in some ensures e in all && e.to != s {
      var id :| id in Without(live, s) && IsTarget(Without(live, s), pub, m, id)
                && e == Delivery(Without(live, s), m, publication, id);
      assert IsTarget(live, pub, m, id);
    }
  }

  /** The EVENTs of a publication for the subscriptions visited so far. */
  ghost function Reached(live: Live, pub: Session, m: Message, publication: Id, visited: set<Id>): set<Envelope>
    requires m.Publish?
  {
    set id | id in visited && IsTarget(live, pub, m, id) :: Delivery(live, m, publication, id)
  }

  lemma ReachedGrows(live: Live, pub: Session, m: Message, publication: Id, visited: set<Id>, id: Id)
    requires m.Publish? && id !in visited
    ensures Reached(live, pub, m, publication, visited + {id})
         == Reached(live, pub, m, publication, visited)
            + if IsTarget(live, pub, m, id) then {Delivery(live, m, publication, id)} else {}
    ensures IsTarget(live, pub, m, id) ==>
              Delivery(live, m, publication, id) !in Reached(live, pub, m, publication, visited)
  {}

  /** When every subscription of the topic was visited, what was sent is a multicast. */
  lemma AllReached(live: Live, pub: Session, m: Message, publication: Id, visited: set<Id>,
                   before: seq<Envelope>, sent: seq<Envelope>)
    requires m.Publish? && forall id :: id in live && live[id].topic == m.topic ==> id in visited
    requires multiset(sent) == multiset(Reached(live, pub, m, publication, visited))
    ensures var log := before + sent + Ack(pub, m, publication);
            before <= log && IsMulticast(live, pub, m, publication, log[|before|..])
  {
    var ack := Ack(pub, m, publication);
    assert (before + sent + ack)[|before|..] == sent + ack;
    assert (sent + ack)[..|sent|] == sent && (sent + ack)[|sent|..] == ack;
    assert Reached(live, pub, m, publication, visited) == Deliveries(live, pub, m, publication);
  }
}
