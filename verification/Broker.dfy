/** The default broker: three maps that together represent one relation. */
module Brokers {
  import opened Wamp
  import opened BrokerSpec
  import opened SessionIndex

  type Routes = map<Uri, map<Id, Session>>

  predicate Routed(routes: Routes, topic: Uri, id: Id) {
    topic in routes && id in routes[topic]
  }

  /** No topic is kept without a route. */
  predicate Kept(routes: Routes, topic: Uri) {
    topic in routes ==> routes[topic] != map[]
  }

  /** `routes` and `subscriptions` both say what `live` says, and no inner map is empty. */
  ghost predicate Represent(routes: Routes, subscriptions: map<Id, Uri>, live: Live) {
    && (forall t :: Kept(routes, t))
    && (forall t, id :: Routed(routes, t, id) <==> id in live && live[id].topic == t)
    && (forall t, id :: Routed(routes, t, id) ==> routes[t][id] == live[id].session)
    && subscriptions.Keys == live.Keys
    && (forall id :: id in live ==> subscriptions[id] == live[id].topic)
  }

  function AddRoute(routes: Routes, topic: Uri, id: Id, sub: Session): Routes {
    var r := if topic in routes then routes[topic] else map[];
    routes[topic := r[id := sub]]
  }

  /** `routes` after the route of `id` under `topic` is cleaned up. */
  function DropRoute(routes: Routes, topic: Uri, id: Id): Routes {
    if topic !in routes || id !in routes[topic] then routes
    else
      var r := routes[topic] - {id};
      if |r| == 0 then routes - {topic} else routes[topic := r]
  }

  lemma AddRouteRoutes(routes: Routes, topic: Uri, id: Id, sub: Session)
    ensures forall t, i ::
              Routed(AddRoute(routes, topic, id, sub), t, i) <==> Routed(routes, t, i) || (t == topic && i == id)
    ensures forall t, i :: Routed(AddRoute(routes, topic, id, sub), t, i) ==>
              AddRoute(routes, topic, id, sub)[t][i] == if t == topic && i == id then sub else routes[t][i]
  {}

  lemma AddRouteRepresents(routes: Routes, subscriptions: map<Id, Uri>, live: Live, topic: Uri, id: Id, sub: Session)
    requires Represent(routes, subscriptions, live) && id !in live
    ensures Represent(AddRoute(routes, topic, id, sub), subscriptions[id := topic],
                      live[id := Subscription(sub, topic)])
  {
    AddRouteRoutes(routes, topic, id, sub);
    assert !Routed(routes, topic, id);
    var after := AddRoute(routes, topic, id, sub);
    forall t ensures Kept(after, t) {
      assert Kept(routes, t);
      if t == topic {
        assert id in after[topic];
      }
    }
  }

  lemma DropRouteRepresents(routes: Routes, subscriptions: map<Id, Uri>, live: Live, id: Id)
    requires Represent(routes, subscriptions, live) && id in live
    ensures Represent(DropRoute(routes, live[id].topic, id), subscriptions - {id}, live - {id})
  {
    var topic := live[id].topic;
    assert Routed(routes, topic, id);
    var after := DropRoute(routes, topic, id);
    forall t, i ensures Routed(after, t, i) <==> Routed(routes, t, i) && i != id {
      if Routed(routes, t, i) && t == topic && i != id {
        assert i in routes[topic] - {id};
      }
    }
    forall t, i | Routed(after, t, i) ensures after[t][i] == routes[t][i] {}
    forall t ensures Kept(after, t) {
      assert Kept(routes, t);
    }
  }

  lemma SubscribeIndexed(sessions: Index, live: Live, used: set<Id>, sub: Session, topic: Uri, id: Id)
    requires Indexed(sessions, Owners(live), used) && id !in used
    ensures id !in live
    ensures var live' := live[id := Subscription(sub, topic)];
            && Indexed(AddEntry(sessions, sub, id), Owners(live'), used + {id})
            && (NoStale(AddEntry(sessions, sub, id), Owners(live')) <==> NoStale(sessions, Owners(live)))
  {
    AddEntryIndexed(sessions, Owners(live), used, sub, id);
    assert Owners(live)[id := sub] == Owners(live[id := Subscription(sub, topic)]);
  }

  lemma UnsubscribeIndexed(sessions: Index, live: Live, used: set<Id>, sub: Session, id: Id)
    requires Indexed(sessions, Owners(live), used) && id in live
    ensures Indexed(RemoveEntry(sessions, sub, id), Owners(live - {id}), used)
    ensures NoStale(sessions, Owners(live)) ==>
              (NoStale(RemoveEntry(sessions, sub, id), Owners(live - {id})) <==> live[id].session == sub)
  {
    RemoveEntryIndexed(sessions, Owners(live), used, sub, id);
    assert Owners(live) - {id} == Owners(live - {id});
  }

  lemma LeaveIndexed(sessions: Index, live: Live, used: set<Id>, sub: Session)
    requires Indexed(sessions, Owners(live), used)
    ensures live - Entries(sessions, sub) == Without(live, sub)
    ensures Indexed(sessions - {sub}, Owners(Without(live, sub)), used)
    ensures NoStale(sessions, Owners(live)) ==> NoStale(sessions - {sub}, Owners(Without(live, sub)))
  {
    DropSessionIndexed(sessions, Owners(live), used, sub);
    assert Owners(Without(live, sub)) == Disowned(Owners(live), sub);
    assert forall id :: id in live ==> (id in Disowned(Owners(live), sub) <==> id !in Entries(sessions, sub));
  }

  class Broker {
    var routes: Routes
    var subscriptions: map<Id, Uri>
    var sessions: Index
    const net: Network

    // the relation the three maps represent
    ghost var live: Live
    // every id this broker has handed out
    ghost var used: set<Id>

    ghost predicate Valid()
      reads this
    {
      Represent(routes, subscriptions, live) && Indexed(sessions, Owners(live), used)
    }

    /** No stale ids: a session's set is exactly the set of its live subscriptions. */
    ghost predicate Exact()
      reads this
    {
      NoStale(sessions, Owners(live))
    }

    constructor (net: Network)
      ensures Valid() && Exact() && this.net == net
      ensures live == map[] && used == {}
    {
      routes, subscriptions, sessions := map[], map[], map[];
      this.net := net;
      live, used := map[], {};
    }

    /** The loop of `Publish` over the routes of the topic. */
    method Multicast(pub: Session, msg: Message, publication: Id, excludePublisher: bool, targets: map<Id, Session>)
      returns (ghost sent: seq<Envelope>)
      requires msg.Publish? && excludePublisher == ExcludesPublisher(msg.options)
      requires forall id :: id in targets ==> id in live && live[id] == Subscription(targets[id], msg.topic)
      modifies net
      ensures net.log == old(net.log) + sent
      ensures multiset(sent) == multiset(Reached(live, pub, msg, publication, targets.Keys))
    {
      sent := [];
      var todo := targets.Keys;
      ghost var visited: set<Id> := {};
      while todo != {}
        invariant todo <= targets.Keys && visited == targets.Keys - todo
        invariant net.log == old(net.log) + sent
        invariant multiset(sent) == multiset(Reached(live, pub, msg, publication, visited))
        decreases todo
      {
        var id :| id in todo;
        ReachedGrows(live, pub, msg, publication, visited, id);
        if !(targets[id] == pub && excludePublisher) {
          net.Send(targets[id], Event(id, publication, msg.payload));
          sent := sent + [Delivery(live, msg, publication, id)];
        }
        todo, visited := todo - {id}, visited + {id};
      }
      assert visited == targets.Keys;
    }

    method Publish(pub: Session, msg: Message, publication: Id)
      requires Valid() && msg.Publish?
      modifies net
      ensures Valid()
      ensures old(net.log) <= net.log
      ensures IsMulticast(live, pub, msg, publication, net.log[|old(net.log)|..])
      // the publisher's own subscription is reached only if exclude_me is false
      ensures forall id :: EventCount(net.log[|old(net.log)|..], id)
                == if id in live && live[id].topic == msg.topic
                      && (live[id].session == pub ==>
                            "exclude_me" in msg.options && msg.options["exclude_me"] == GoBool(false))
                   then 1 else 0
    {
      var excludePublisher := true;
      match BoolOption(msg.options, "exclude_me") {
        case Some(exclude) => excludePublisher := exclude;
        case None =>
      }
      var targets := if msg.topic in routes then routes[msg.topic] else map[];
      assert forall id :: id in targets <==> Routed(routes, msg.topic, id);
      ghost var sent := Multicast(pub, msg, publication, excludePublisher, targets);
      AllReached(live, pub, msg, publication, targets.Keys, old(net.log), sent);
      if BoolOption(msg.options, "acknowledge") == Some(true) {
        net.Send(pub, Published(msg.request, publication));
      }
      assert net.log == old(net.log) + sent + Ack(pub, msg, publication);
      EachReachedOnce(live, pub, msg, publication, net.log[|old(net.log)|..]);
    }

    method Subscribe(sub: Session, msg: Message, id: Id)
      requires Valid() && msg.Subscribe?
      requires id !in used
      modifies this, net
      ensures Valid() && used == old(used) + {id}
      ensures live == old(live)[id := Subscription(sub, msg.topic)]
      ensures net.log == old(net.log) + [Envelope(sub, Subscribed(msg.request, id))]
      ensures Exact() <==> old(Exact())
    {
      SubscribeIndexed(sessions, live, used, sub, msg.topic, id);
      AddRouteRepresents(routes, subscriptions, live, msg.topic, id, sub);
      routes := AddRoute(routes, msg.topic, id, sub);
      sessions := AddEntry(sessions, sub, id);
      subscriptions := subscriptions[id := msg.topic];
      live, used := live[id := Subscription(sub, msg.topic)], used + {id};
      net.Send(sub, Subscribed(msg.request, id));
    }

    method Unsubscribe(sub: Session, msg: Message)
      requires Valid() && msg.Unsubscribe?
      modifies this, net
      ensures Valid() && used == old(used)
      ensures live == old(live) - {msg.subscription}
      ensures net.log == old(net.log) + [Envelope(sub,
                if msg.subscription in old(live) then Unsubscribed(msg.request)
                else Error(34, msg.request, "wamp.error.no_such_subscription", Payload(None, None)))]
      // exactness is lost precisely when the subscription belongs to another session
      ensures old(Exact()) ==>
                (Exact() <==> (msg.subscription in old(live) ==> old(live)[msg.subscription].session == sub))
    {
      if msg.subscription !in subscriptions {
        net.Send(sub, ErrorReply(UNSUBSCRIBE, msg.request, ERR_NO_SUCH_SUBSCRIPTION));
        return;
      }
      var topic := subscriptions[msg.subscription];
      DropRouteRepresents(routes, subscriptions, live, msg.subscription);
      subscriptions := subscriptions - {msg.subscription};
      routes := DropRoute(routes, topic, msg.subscription);
      UnsubscribeIndexed(sessions, live, used, sub, msg.subscription);
      sessions := RemoveEntry(sessions, sub, msg.subscription);
      live := live - {msg.subscription};
      net.Send(sub, Unsubscribed(msg.request));
    }

    /** The body of the loop of `RemoveSession`: a stale id is skipped. */
    method Forget(id: Id)
      requires Represent(routes, subscriptions, live)
      modifies this`routes, this`subscriptions, this`live
      ensures Represent(routes, subscriptions, live)
      ensures live == old(live) - {id}
    {
      if id in subscriptions {
        var topic := subscriptions[id];
        DropRouteRepresents(routes, subscriptions, live, id);
        subscriptions := subscriptions - {id};
        routes := DropRoute(routes, topic, id);
        live := live - {id};
      }
    }

    method RemoveSession(sub: Session)
      requires Valid()
      modifies this
      ensures Valid() && used == old(used)
      ensures live == Without(old(live), sub)
      ensures forall t, id :: Routed(routes, t, id) ==> routes[t][id] != sub
      ensures sessions == old(sessions) - {sub}
      ensures old(Exact()) ==> Exact()
    {
      var todo := Entries(sessions, sub);
      ghost var owned, was := todo, live;
      LeaveIndexed(sessions, live, used, sub);
      while todo != {}
        invariant todo <= owned
        invariant Represent(routes, subscriptions, live)
        invariant live == was - (owned - todo)
        modifies this`routes, this`subscriptions, this`live
        decreases todo
      {
        var id :| id in todo;
        Forget(id);
        todo := todo - {id};
      }
      assert owned - todo == owned;
      sessions := sessions - {sub};
    }
  }
}
