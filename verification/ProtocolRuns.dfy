/** What the completed messages of a session got, in every interleaving, in the terms of the
    protocol: each at one moment of the sequential history of the shared maps. */
module ProtocolRuns {
  import opened Wamp
  import opened RealmSpec
  import opened RouterMachine
  import opened RouterSafety
  import opened RouterTheorems
  import B = BrokerSpec
  import D = DealerSpec
  import Protocol

  /** Message number `k` of `s` passed the authorizer and is dealt with. */
  ghost predicate Dealt(tr: Trace, s: Session, k: nat) {
    && Possible(tr) && s in Final(tr).threads
    && var t := Final(tr).threads[s];
       k < |t.done| && k < |t.ops| && t.ops[k].Incoming? && t.ops[k].verdict == Authorized
  }

  /** The maps that a completed message found, and left. */
  ghost predicate AtItsMoment(tr: Trace, s: Session, k: nat, pre: RouterState, post: RouterState)
    requires Possible(tr) && s in Final(tr).threads && k < |Final(tr).threads[s].ops|
  {
    Turned(s, k, Final(tr).threads[s].ops[k], pre, post) in Final(tr).hist
  }

  /** A completed PUBLISH has sent exactly one EVENT to every subscription of its topic that
      was live at its moment (its own only if `exclude_me` is false), and none to any other.
      PUBLISHED came last, and exactly when `acknowledge` is true. */
  lemma {:induction false} PublishIsExact(tr: Trace, s: Session, k: nat, id: Id) returns (pre: RouterState)
    requires Dealt(tr, s, k) && Final(tr).threads[s].ops[k].m.Publish?
    ensures AtItsMoment(tr, s, k, pre, pre)
    ensures var m, draw := Final(tr).threads[s].ops[k].m, Final(tr).threads[s].ops[k].draw;
            var sent := Tagged(Final(tr).log, s, k);
            && B.EventCount(sent, id) == (
                 if id in pre.live && pre.live[id].topic == m.topic
                    && (pre.live[id].session == s ==>
                          "exclude_me" in m.options && m.options["exclude_me"] == GoBool(false))
                 then 1 else 0)
            && (forall e :: e in sent && e.msg.Event? && e.msg.subscription == id ==>
                  id in pre.live && e == Envelope(pre.live[id].session, Event(id, draw, m.payload)))
    ensures var m, draw := Final(tr).threads[s].ops[k].m, Final(tr).threads[s].ops[k].draw;
            var sent := Tagged(Final(tr).log, s, k);
            if "acknowledge" in m.options && m.options["acknowledge"] == GoBool(true) then
              && sent != [] && sent[|sent| - 1] == Envelope(s, Published(m.request, draw))
              && forall i :: 0 <= i < |sent| - 1 ==> sent[i].msg.Event?
            else forall i :: 0 <= i < |sent| ==> sent[i].msg.Event?
  {
    Linearizable(tr, s, k);
    var a, turn := Final(tr).threads[s].ops[k], Final(tr).threads[s].done[k];
    Protocol.PublishReaches(turn.pre, turn.post, s, a.m, a.draw, turn.outs, id);
    Protocol.PublishAcknowledges(turn.pre, turn.post, s, a.m, a.draw, turn.outs);
    pre := turn.pre;
  }

  lemma {:induction false} SubscribeIsGranted(tr: Trace, s: Session, k: nat) returns (pre: RouterState)
    requires Dealt(tr, s, k) && Final(tr).threads[s].ops[k].m.Subscribe?
    ensures var m, draw := Final(tr).threads[s].ops[k].m, Final(tr).threads[s].ops[k].draw;
            && AtItsMoment(tr, s, k, pre, RouterState(pre.live[draw := B.Subscription(s, m.topic)], pre.dealer))
            && Tagged(Final(tr).log, s, k) == [Envelope(s, Subscribed(m.request, draw))]
  {
    Linearizable(tr, s, k);
    var a, turn := Final(tr).threads[s].ops[k], Final(tr).threads[s].done[k];
    Protocol.SubscribeMeans(turn.pre, turn.post, s, a.m, a.draw, turn.outs);
    pre := turn.pre;
  }

  /** A completed UNSUBSCRIBE was answered UNSUBSCRIBED if and only if its subscription was
      live at its moment, and ended it. */
  lemma {:induction false} UnsubscribedIffLive(tr: Trace, s: Session, k: nat) returns (pre: RouterState)
    requires Dealt(tr, s, k) && Final(tr).threads[s].ops[k].m.Unsubscribe?
    ensures var m := Final(tr).threads[s].ops[k].m;
            && AtItsMoment(tr, s, k, pre, RouterState(pre.live - {m.subscription}, pre.dealer))
            && Tagged(Final(tr).log, s, k) == [Envelope(s,
                 if m.subscription in pre.live then Unsubscribed(m.request)
                 else Error(34, m.request, "wamp.error.no_such_subscription", Payload(None, None)))]
  {
    Linearizable(tr, s, k);
    var a, turn := Final(tr).threads[s].ops[k], Final(tr).threads[s].done[k];
    Protocol.UnsubscribeMeans(turn.pre, turn.post, s, a.m, a.draw, turn.outs);
    pre := turn.pre;
  }

  /** A completed REGISTER was answered REGISTERED if and only if no registration had its URI
      at its moment, and then added one. */
  lemma {:induction false} RegisteredIffFree(tr: Trace, s: Session, k: nat) returns (pre: RouterState)
    requires Dealt(tr, s, k) && Final(tr).threads[s].ops[k].m.Register?
    ensures var m, draw := Final(tr).threads[s].ops[k].m, Final(tr).threads[s].ops[k].draw;
            var procs := pre.dealer.procedures;
            if exists id :: id in procs && procs[id].procedure == m.procedure then
              && AtItsMoment(tr, s, k, pre, pre)
              && Tagged(Final(tr).log, s, k) == [Envelope(s,
                   Error(64, m.request, "wamp.error.procedure_already_exists", Payload(None, None)))]
            else
              && AtItsMoment(tr, s, k, pre, RouterState(pre.live, D.DealerState(
                   procs[draw := D.RemoteProcedure(s, m.procedure)], pre.dealer.calls, pre.dealer.invocations)))
              && Tagged(Final(tr).log, s, k) == [Envelope(s, Registered(m.request, draw))]
  {
    Linearizable(tr, s, k);
    var a, turn := Final(tr).threads[s].ops[k], Final(tr).threads[s].done[k];
    Protocol.RegisterMeans(turn.pre, turn.post, s, a.m, a.draw, turn.outs);
    pre := turn.pre;
  }

  /** A completed UNREGISTER was answered UNREGISTERED if and only if its registration was
      live at its moment, and ended it. */
  lemma {:induction false} UnregisteredIffLive(tr: Trace, s: Session, k: nat) returns (pre: RouterState)
    requires Dealt(tr, s, k) && Final(tr).threads[s].ops[k].m.Unregister?
    ensures var m := Final(tr).threads[s].ops[k].m;
            && AtItsMoment(tr, s, k, pre, RouterState(pre.live, D.DealerState(
                 pre.dealer.procedures - {m.registration}, pre.dealer.calls, pre.dealer.invocations)))
            && Tagged(Final(tr).log, s, k) == [Envelope(s,
                 if m.registration in pre.dealer.procedures then Unregistered(m.request)
                 else Error(66, m.request, "wamp.error.no_such_registration", Payload(None, None)))]
  {
    Linearizable(tr, s, k);
    var a, turn := Final(tr).threads[s].ops[k], Final(tr).threads[s].done[k];
    Protocol.UnregisterMeans(turn.pre, turn.post, s, a.m, a.draw, turn.outs);
    pre := turn.pre;
  }

  /** A completed CALL went as one INVOCATION to the session that held the procedure at its
      moment, or was refused because nobody did. */
  lemma {:induction false} CallIsDispatched(tr: Trace, s: Session, k: nat) returns (pre: RouterState)
    requires Dealt(tr, s, k) && Final(tr).threads[s].ops[k].m.Call?
    ensures var m, draw := Final(tr).threads[s].ops[k].m, Final(tr).threads[s].ops[k].draw;
            var procs := pre.dealer.procedures;
            var sent := Tagged(Final(tr).log, s, k);
            if exists id :: id in procs && procs[id].procedure == m.procedure then
              && AtItsMoment(tr, s, k, pre, RouterState(pre.live, D.DealerState(
                   procs, pre.dealer.calls[m.request := s], pre.dealer.invocations[draw := m.request])))
              && |sent| == 1 && sent[0].msg.Invocation?
              && var reg := sent[0].msg.registration;
                 var details: Options :=
                   if "disclose_me" in m.options && m.options["disclose_me"] == GoBool(true)
                   then map["caller" := GoInt(TId, s.id)] else map[];
                 && reg in procs && procs[reg].procedure == m.procedure
                 && sent[0] == Envelope(procs[reg].endpoint, Invocation(draw, reg, details, m.payload))
            else
              && AtItsMoment(tr, s, k, pre, pre)
              && sent == [Envelope(s, Error(48, m.request, "wamp.error.no_such_procedure", Payload(None, None)))]
  {
    Linearizable(tr, s, k);
    var a, turn := Final(tr).threads[s].ops[k], Final(tr).threads[s].done[k];
    Protocol.CallMeans(turn.pre, turn.post, s, a.m, a.draw, turn.outs);
    pre := turn.pre;
  }

  /** A completed YIELD, or ERROR about an invocation, was relayed to the session that waited
      at its moment for that invocation, and to nobody otherwise. */
  lemma {:induction false} AnswerIsRelayed(tr: Trace, s: Session, k: nat) returns (pre: RouterState)
    requires Dealt(tr, s, k)
    requires var m := Final(tr).threads[s].ops[k].m; m.Yield? || (m.Error? && m.typ == 68)
    ensures var m, st, sent := Final(tr).threads[s].ops[k].m, pre.dealer, Tagged(Final(tr).log, s, k);
            if m.request !in st.invocations then AtItsMoment(tr, s, k, pre, pre) && sent == []
            else
              var call := st.invocations[m.request];
              && AtItsMoment(tr, s, k, pre, RouterState(pre.live, D.DealerState(
                   st.procedures, st.calls - {call}, st.invocations - {m.request})))
              && sent == if call !in st.calls then [] else
                   [Envelope(st.calls[call],
                             if m.Yield? then Result(call, m.payload) else Error(48, call, m.error, m.payload))]
  {
    Linearizable(tr, s, k);
    var a, turn := Final(tr).threads[s].ops[k], Final(tr).threads[s].done[k];
    Protocol.AnswerMeans(turn.pre, turn.post, s, a.m, a.draw, turn.outs);
    pre := turn.pre;
  }
}
