/** What each message of a session makes the router do, in the terms of the protocol: option
    values, type codes and error URIs as they are written on the wire. */
module Protocol {
  import opened Wamp
  import opened RealmSpec
  import B = BrokerSpec
  import D = DealerSpec

  // ---------- broker messages ----------

  /** A publication reaches a live subscription of the topic once, that of the publisher only
      if `exclude_me` is false, and no other subscription. */
  lemma PublishReaches(pre: RouterState, post: RouterState, s: Session, m: Message, draw: Id, outs: seq<Envelope>,
                       id: Id)
    requires m.Publish? && Serves(pre, post, s, Incoming(m, Authorized, draw), outs)
    ensures post == pre
    ensures B.EventCount(outs, id)
         == if id in pre.live && pre.live[id].topic == m.topic
               && (pre.live[id].session == s ==> "exclude_me" in m.options && m.options["exclude_me"] == GoBool(false))
            then 1 else 0
    ensures forall e :: e in outs && e.msg.Event? && e.msg.subscription == id ==>
              id in pre.live && e == Envelope(pre.live[id].session, Event(id, draw, m.payload))
  {
    B.MulticastIsExact(pre.live, s, m, draw, outs, id);
    assert forall e :: e in outs && e.msg.Event? && e.msg.subscription == id ==> B.IsEventFor(e, id);
  }

  /** Beside EVENTs a publication sends PUBLISHED, last and once, exactly when `acknowledge`
      is true. */
  lemma PublishAcknowledges(pre: RouterState, post: RouterState, s: Session, m: Message, draw: Id,
                            outs: seq<Envelope>)
    requires m.Publish? && Serves(pre, post, s, Incoming(m, Authorized, draw), outs)
    ensures var ack := if "acknowledge" in m.options && m.options["acknowledge"] == GoBool(true) then 1 else 0;
            && |outs| >= ack
            && (forall i :: 0 <= i < |outs| - ack ==> outs[i].msg.Event?)
            && (ack == 1 ==> outs[|outs| - 1] == Envelope(s, Published(m.request, draw)))
  {
    var ack := B.Ack(s, m, draw);
    var events := outs[..|outs| - |ack|];
    assert outs == events + ack;
    forall i | 0 <= i < |events| ensures outs[i].msg.Event? {
      assert outs[i] == events[i] && events[i] in multiset(events);
      assert events[i] in B.Deliveries(pre.live, s, m, draw);
    }
  }

  lemma SubscribeMeans(pre: RouterState, post: RouterState, s: Session, m: Message, draw: Id, outs: seq<Envelope>)
    requires m.Subscribe? && Serves(pre, post, s, Incoming(m, Authorized, draw), outs)
    ensures outs == [Envelope(s, Subscribed(m.request, draw))]
    ensures post == RouterState(pre.live[draw := B.Subscription(s, m.topic)], pre.dealer)
  {}

  lemma UnsubscribeMeans(pre: RouterState, post: RouterState, s: Session, m: Message, draw: Id, outs: seq<Envelope>)
    requires m.Unsubscribe? && Serves(pre, post, s, Incoming(m, Authorized, draw), outs)
    ensures outs == [Envelope(s, if m.subscription in pre.live then Unsubscribed(m.request)
                                 else Error(34, m.request, "wamp.error.no_such_subscription", Payload(None, None)))]
    ensures post == RouterState(pre.live - {m.subscription}, pre.dealer)
  {}

  // ---------- dealer messages ----------

  /** REGISTERED exactly when no registration has the URI. */
  lemma RegisterMeans(pre: RouterState, post: RouterState, s: Session, m: Message, draw: Id, outs: seq<Envelope>)
    requires m.Register? && Serves(pre, post, s, Incoming(m, Authorized, draw), outs)
    ensures var taken := exists id :: id in pre.dealer.procedures && pre.dealer.procedures[id].procedure == m.procedure;
            && outs == [Envelope(s, if taken then
                 Error(64, m.request, "wamp.error.procedure_already_exists", Payload(None, None))
               else Registered(m.request, draw))]
            && post == if taken then pre else
                 RouterState(pre.live, D.DealerState(
                   pre.dealer.procedures[draw := D.RemoteProcedure(s, m.procedure)],
                   pre.dealer.calls, pre.dealer.invocations))
  {}

  lemma UnregisterMeans(pre: RouterState, post: RouterState, s: Session, m: Message, draw: Id, outs: seq<Envelope>)
    requires m.Unregister? && Serves(pre, post, s, Incoming(m, Authorized, draw), outs)
    ensures outs == [Envelope(s, if m.registration in pre.dealer.procedures then Unregistered(m.request)
                                 else Error(66, m.request, "wamp.error.no_such_registration", Payload(None, None)))]
    ensures post == RouterState(pre.live, D.DealerState(
              pre.dealer.procedures - {m.registration}, pre.dealer.calls, pre.dealer.invocations))
  {
    if m.registration !in pre.dealer.procedures {
      assert pre.dealer.procedures - {m.registration} == pre.dealer.procedures;
    }
  }

  /** A CALL of a registered procedure becomes an INVOCATION for the session that holds it,
      with the caller's id in the details if and only if `disclose_me` is true. */
  lemma CallMeans(pre: RouterState, post: RouterState, s: Session, m: Message, draw: Id, outs: seq<Envelope>)
    requires m.Call? && Serves(pre, post, s, Incoming(m, Authorized, draw), outs)
    ensures var procs := pre.dealer.procedures;
            if exists id :: id in procs && procs[id].procedure == m.procedure then
              && |outs| == 1 && outs[0].msg.Invocation?
              && var reg := outs[0].msg.registration;
                 var details: Options :=
                   if "disclose_me" in m.options && m.options["disclose_me"] == GoBool(true)
                   then map["caller" := GoInt(TId, s.id)] else map[];
                 && reg in procs && procs[reg].procedure == m.procedure
                 && outs[0] == Envelope(procs[reg].endpoint, Invocation(draw, reg, details, m.payload))
                 && post == RouterState(pre.live, D.DealerState(
                      procs, pre.dealer.calls[m.request := s], pre.dealer.invocations[draw := m.request]))
            else
              && outs == [Envelope(s, Error(48, m.request, "wamp.error.no_such_procedure", Payload(None, None)))]
              && post == pre
  {}

  /** A YIELD, or an ERROR about an invocation, ends the invocation it names, and is relayed to
      the session that waits for it, as RESULT or as ERROR about the call. */
  lemma AnswerMeans(pre: RouterState, post: RouterState, s: Session, m: Message, draw: Id, outs: seq<Envelope>)
    requires m.Yield? || (m.Error? && m.typ == 68)
    requires Serves(pre, post, s, Incoming(m, Authorized, draw), outs)
    ensures var st := pre.dealer;
            if m.request !in st.invocations then post == pre && outs == []
            else
              var call := st.invocations[m.request];
              && post == RouterState(pre.live, D.DealerState(
                   st.procedures, st.calls - {call}, st.invocations - {m.request}))
              && outs == if call !in st.calls then [] else
                   [Envelope(st.calls[call],
                             if m.Yield? then Result(call, m.payload) else Error(48, call, m.error, m.payload))]
  {
    if m.request in pre.dealer.invocations && pre.dealer.invocations[m.request] !in pre.dealer.calls {
      assert pre.dealer.calls - {pre.dealer.invocations[m.request]} == pre.dealer.calls;
    }
  }

  // ---------- everything else ----------

  lemma FarewellMeans(pre: RouterState, post: RouterState, s: Session, a: Arrival, outs: seq<Envelope>)
    requires Serves(pre, post, s, a, outs) && (a.Kill? || (a.verdict == Authorized && a.m.Goodbye?))
    ensures post == pre
    ensures outs == [Envelope(s, Goodbye(if a.Kill? then a.reason else "wamp.error.goodbye_and_out"))]
  {}

  /** Messages that a router does not expect are dropped, ERRORs of other types among them. */
  lemma OthersAreIgnored(pre: RouterState, post: RouterState, s: Session, m: Message, draw: Id, outs: seq<Envelope>)
    requires Serves(pre, post, s, Incoming(m, Authorized, draw), outs)
    requires !m.Publish? && !m.Subscribe? && !m.Unsubscribe? && !m.Register? && !m.Unregister? && !m.Call?
    requires !m.Yield? && !m.Goodbye? && (m.Error? ==> m.typ != 68)
    ensures post == pre && outs == []
  {}

  /** An unauthorized message changes nothing and gets an ERROR with its type code, and with its
      request id if it is one of seven types. */
  lemma RefusalMeans(pre: RouterState, post: RouterState, s: Session, m: Message, verdict: Verdict, draw: Id,
                     outs: seq<Envelope>)
    requires verdict != Authorized && Serves(pre, post, s, Incoming(m, verdict, draw), outs)
    ensures var typ := match m
              case Hello => 1 case Welcome => 2 case Abort => 3 case Challenge => 4 case Authenticate => 5
              case Goodbye(_) => 6 case Error(_, _, _, _) => 8 case Publish(_, _, _, _) => 16
              case Published(_, _) => 17 case Subscribe(_, _, _) => 32 case Subscribed(_, _) => 33
              case Unsubscribe(_, _) => 34 case Unsubscribed(_) => 35 case Event(_, _, _) => 36
              case Call(_, _, _, _) => 48 case Cancel => 49 case Result(_, _) => 50 case Register(_, _, _) => 64
              case Registered(_, _) => 65 case Unregister(_, _) => 66 case Unregistered(_) => 67
              case Invocation(_, _, _, _) => 68 case Interrupt => 69 case Yield(_, _, _) => 70;
            var request := if m.Publish? || m.Subscribe? || m.Unsubscribe? || m.Register? || m.Unregister? || m.Call?
                              || m.Yield? then m.request else 0;
            var uri := if verdict == Failed then "wamp.error.authorization_failed" else "wamp.error.not_authorized";
            post == pre && outs == [Envelope(s, Error(typ, request, uri, Payload(None, None)))]
  {}

  /** The replies that are counted for a session and a request id, and the requests. */
  lemma RepliesAndRequests(e: Envelope, a: Arrival, s: Session, r: Id)
    ensures IsReply(e, s, r) <==>
              && e.to == s
              && (|| e.msg.Subscribed? || e.msg.Unsubscribed? || e.msg.Registered? || e.msg.Unregistered?
                  || (e.msg.Error? && e.msg.typ in {32, 34, 64, 66}))
              && e.msg.request == r
    ensures Requests(a, r) <==>
              && a.Incoming? && (a.m.Subscribe? || a.m.Unsubscribe? || a.m.Register? || a.m.Unregister?)
              && a.m.request == r
  {}

  /** A session that leaves takes its own subscriptions and registrations along, no others,
      and no pending call or invocation. */
  lemma LeaveMeans(st: RouterState, s: Session, id: Id)
    ensures var after := Leave(st, s);
            && (id in after.live <==> id in st.live && st.live[id].session != s)
            && (id in after.live ==> after.live[id] == st.live[id])
            && (id in after.dealer.procedures <==>
                  id in st.dealer.procedures && st.dealer.procedures[id].endpoint != s)
            && (id in after.dealer.procedures ==> after.dealer.procedures[id] == st.dealer.procedures[id])
            && after.dealer.calls == st.dealer.calls && after.dealer.invocations == st.dealer.invocations
  {}
}
