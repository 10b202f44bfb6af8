/** Clients and router together: a request gets one response, so no receive loop blocks. The
    one way around it is the router's refusal of a YIELD or ERROR, which echoes an invocation
    id or zero, and which a client takes for a response to its request with that id. */
module RpcDelivery {
  import opened Wamp
  import opened ClientMachine
  import opened RpcSystem
  import opened RpcClientSteps
  import opened RpcInvariants
  import opened RpcRouterSteps
  import opened RpcTheorems
  import Correlation
  import R = RealmSpec
  import M = RouterMachine
  import D = DealerSpec

  // ---------- responses on their way ----------

  predicate Responds(m: Message, r: Id) {
    IsResponse(m) && m.request == r
  }

  /** The pipe holds a response to request `r`. */
  predicate Has(q: seq<Message>, r: Id) {
    exists m :: m in q && Responds(m, r)
  }

  /** The router thread is about to send session `s` a response to request `r`. */
  predicate HasFor(q: seq<Envelope>, s: Session, r: Id) {
    exists e :: e in q && e.to == s && Responds(e.msg, r)
  }

  predicate HasOnce(q: seq<Message>, r: Id) {
    forall i, j :: 0 <= i < j < |q| && Responds(q[i], r) ==> !Responds(q[j], r)
  }

  /** No response to request `r` is on its way to `s`. */
  ghost predicate Quiet(sys: System, s: Session, r: Id) {
    !Has(Queue(sys.down, s), r) && forall u :: !HasFor(Queue(sys.outbox, u), s, r)
  }

  ghost predicate AtMostOne(sys: System, s: Session, r: Id) {
    && HasOnce(Queue(sys.down, s), r)
    && (forall u :: HasFor(Queue(sys.outbox, u), s, r) ==> !Has(Queue(sys.down, s), r))
    && (forall u, v :: HasFor(Queue(sys.outbox, u), s, r) && HasFor(Queue(sys.outbox, v), s, r) ==> u == v)
  }

  /** A response is in the call's channel or about to be put there. */
  predicate Loaded(c: Client, t: Tid) {
    (t in c.chans && c.chans[t] != []) || (c.recv.Delivering? && c.recv.chan == t)
  }

  predicate Unanswered(h: History, r: Id) {
    r in h.stage && h.stage[r] != Answered
  }

  /** An unfinished call has at most one response, be it on its way or arrived, and none while
      its request is not answered. */
  ghost predicate CallSettles(sys: System, s: Session, t: Tid)
    requires s in sys.clients && t in sys.clients[s].callers
  {
    var c := sys.clients[s];
    var r := c.callers[t].id;
    !c.callers[t].pc.Done? ==>
      && AtMostOne(sys, s, r)
      && (Loaded(c, t) || Unanswered(sys.h, r) ==> Quiet(sys, s, r))
      && (Unanswered(sys.h, r) ==> !Loaded(c, t))
  }

  ghost predicate CallsSettle(sys: System) {
    forall s, t :: s in sys.clients && t in sys.clients[s].callers ==> CallSettles(sys, s, t)
  }

  ghost predicate AllDeliver(sys: System) {
    forall s :: s in sys.clients ==> Correlation.CanDeliver(sys.clients[s])
  }

  ghost predicate OneAtATime(sys: System) {
    forall u :: |Queue(sys.outbox, u)| <= 1
  }

  ghost predicate DeliveryInv(sys: System) {
    CallsSettle(sys) && AllDeliver(sys) && OneAtATime(sys)
  }

  /** The refusal of a YIELD or ERROR answers nothing; it echoes an id, of an invocation or zero. */
  predicate IsEcho(m: Message, verdict: R.Verdict, r: Id) {
    verdict != R.Authorized && D.IsAnswer(m) && R.RefusedRequest(m) == r
  }

  /** The router refuses a YIELD or ERROR of `s` and echoes the request id of `s`'s unfinished
      call `t`. */
  predicate Echoes(sys: System, s: Session, verdict: R.Verdict, t: Tid) {
    && Queue(sys.up, s) != [] && s in sys.clients && t in sys.clients[s].callers && !sys.clients[s].callers[t].pc.Done?
    && IsEcho(Queue(sys.up, s)[0], verdict, sys.clients[s].callers[t].id)
  }

  /** The call has a response, or its request is not answered yet. */
  ghost predicate Expects(sys: System, s: Session, t: Tid)
    requires s in sys.clients && t in sys.clients[s].callers
  {
    var r := sys.clients[s].callers[t].id;
    Loaded(sys.clients[s], t) || Unanswered(sys.h, r) || !Quiet(sys, s, r)
  }

  /** Such an echo is for a call that has a response, or is to get one. */
  ghost predicate Hits(sys: System, move: Move) {
    move.RouterTakes? && exists t :: Echoes(sys, move.s, move.verdict, t) && Expects(sys, move.s, t)
  }

  // ---------- a client moves ----------

  /** Nothing new for the call: it did not gain a response, and its request is not unanswered
      anew. */
  lemma SettlesStill(sys: System, sys': System, s: Session, t: Tid)
    requires s in sys.clients && t in sys.clients[s].callers && CallSettles(sys, s, t)
    requires s in sys'.clients && t in sys'.clients[s].callers
    requires sys'.clients[s].callers[t].id == sys.clients[s].callers[t].id
    requires sys.clients[s].callers[t].pc.Done? ==> sys'.clients[s].callers[t].pc.Done?
    requires Loaded(sys'.clients[s], t) ==> Loaded(sys.clients[s], t)
    requires Unanswered(sys'.h, sys.clients[s].callers[t].id) ==> Unanswered(sys.h, sys.clients[s].callers[t].id)
    requires sys'.outbox == sys.outbox
    requires || Queue(sys'.down, s) == Queue(sys.down, s)
             || (Queue(sys.down, s) != [] && Queue(sys'.down, s) == Queue(sys.down, s)[1..])
    ensures CallSettles(sys', s, t)
  {
    var r := sys.clients[s].callers[t].id;
    assert Has(Queue(sys'.down, s), r) ==> Has(Queue(sys.down, s), r);
  }

  /** A step takes nothing out of the finished state and unanswers no request in use. */
  lemma StepUnanswers(h: History, s: Session, c: Client, step: Step, r: Id)
    requires Enabled(c, step) && CallersGood(h, s, c)
    requires Unanswered(AfterClient(h, s, c, step), r)
    ensures Unanswered(h, r) || (step.Begin? && r == step.id)
  {
    if step.Transmit? {
      assert CallerGood(h, s, step.t, c.callers[step.t]);
    }
  }

  /** Only a response that finds the call's listener loads it. */
  lemma StepLoads(c: Client, step: Step, t: Tid)
    requires Enabled(c, step) && Loaded(Do(c, step), t)
    ensures Loaded(c, t) || (step.Accept? && RecvAfter(c, step.m) == Delivering(t, step.m))
  {}

  lemma DoneForever(c: Client, step: Step, t: Tid)
    requires Enabled(c, step) && t in c.callers
    ensures t in Do(c, step).callers && Do(c, step).callers[t].id == c.callers[t].id
    ensures c.callers[t].pc.Done? ==> Do(c, step).callers[t].pc.Done?
  {}

  lemma OthersSettle(sys: System, s: Session, step: Step, u: Session, t: Tid)
    requires CallsSettle(sys) && s in sys.clients && Enabled(sys.clients[s], step)
    requires step.Accept? ==> Queue(sys.down, s) != []
    requires u in sys.clients && u != s && t in sys.clients[u].callers
    requires Touches(sys.clients[s], step, sys.clients[u].callers[t].id) ==> sys.clients[u].callers[t].pc.Done?
    ensures CallSettles(DoClient(sys, s, step), u, t)
  {
    if !sys.clients[u].callers[t].pc.Done? {
      HistoryGrows(sys.h, s, sys.clients[s], step);
      SettlesStill(sys, DoClient(sys, s, step), u, t);
    }
  }

  /** A call that just began has no response. */
  lemma NewCallSettles(sys: System, s: Session, step: Step)
    requires StepsFreely(sys, s, step) && step.Begin?
    ensures CallSettles(DoClient(sys, s, step), s, step.t)
  {
    var c, r := sys.clients[s], step.id;
    assert Correlation.ChansOk(c) && Correlation.RecvOk(c);
    assert !Loaded(Do(c, step), step.t);
    assert Quiet(DoClient(sys, s, step), s, r);
  }

  /** The one response of a call arrives. */
  lemma AcceptedSettles(sys: System, s: Session, m: Message, t: Tid)
    requires CallsSettle(sys) && s in sys.clients && Correlation.ListenersOk(sys.clients[s])
    requires Correlation.OwnListeners(sys.clients[s]) && Enabled(sys.clients[s], Accept(m))
    requires Queue(sys.down, s) != [] && Queue(sys.down, s)[0] == m
    requires RecvAfter(sys.clients[s], m) == Delivering(t, m)
    ensures var c := sys.clients[s];
            && t in c.callers && t in c.chans && c.chans[t] == []
            && CallSettles(DoClient(sys, s, Accept(m)), s, t)
  {
    var c, q := sys.clients[s], Queue(sys.down, s);
    assert t in c.callers && c.callers[t].id == m.request && !c.callers[t].pc.Done?;
    assert CallSettles(sys, s, t);
    assert q[0] in q && Has(q, m.request);
    assert !Has(q[1..], m.request);
  }

  /** What a call of the client that moves needs to know. */
  ghost predicate Moves(sys: System, s: Session, step: Step) {
    && s in sys.clients && Enabled(sys.clients[s], step)
    && (step.Accept? ==> Queue(sys.down, s) != [] && Queue(sys.down, s)[0] == step.m)
    && CallersGood(sys.h, s, sys.clients[s]) && Correlation.ListenersOk(sys.clients[s])
    && Correlation.OwnListeners(sys.clients[s]) && Correlation.NewRequest(sys.clients[s], step)
  }

  lemma NothingNew(h: History, s: Session, c: Client, step: Step, t: Tid)
    requires Enabled(c, step) && CallersGood(h, s, c) && Correlation.NewRequest(c, step)
    requires t in c.callers && !c.callers[t].pc.Done?
    requires !(step.Accept? && RecvAfter(c, step.m) == Delivering(t, step.m))
    ensures Loaded(Do(c, step), t) ==> Loaded(c, t)
    ensures Unanswered(AfterClient(h, s, c, step), c.callers[t].id) ==> Unanswered(h, c.callers[t].id)
  {
    if Unanswered(AfterClient(h, s, c, step), c.callers[t].id) {
      StepUnanswers(h, s, c, step, c.callers[t].id);
    }
    if Loaded(Do(c, step), t) {
      StepLoads(c, step, t);
    }
  }

  lemma OwnCallSettles(sys: System, s: Session, step: Step, t: Tid)
    requires CallsSettle(sys) && Moves(sys, s, step) && t in sys.clients[s].callers
    ensures t in Do(sys.clients[s], step).callers && CallSettles(DoClient(sys, s, step), s, t)
  {
    var c := sys.clients[s];
    DoneForever(c, step, t);
    if !c.callers[t].pc.Done? {
      if step.Accept? && RecvAfter(c, step.m) == Delivering(t, step.m) {
        AcceptedSettles(sys, s, step.m, t);
      } else {
        NothingNew(sys.h, s, c, step, t);
        DoClientMoves(sys, s, step);
        SettlesStill(sys, DoClient(sys, s, step), s, t);
      }
    }
  }

  lemma ClientDelivers(sys: System, s: Session, step: Step)
    requires CallsSettle(sys) && Moves(sys, s, step) && Correlation.CanDeliver(sys.clients[s])
    ensures Correlation.CanDeliver(Do(sys.clients[s], step))
  {
    var c := sys.clients[s];
    if !step.Accept? {
      Correlation.DeliverStays(c, step);
    } else if RecvAfter(c, step.m).Delivering? {
      AcceptedSettles(sys, s, step.m, RecvAfter(c, step.m).chan);
    }
  }

  lemma NewCallers(c: Client, step: Step, t: Tid)
    requires Enabled(c, step) && t in Do(c, step).callers && t !in c.callers
    ensures step.Begin? && t == step.t
  {}

  lemma SettlesAfterClient(sys: System, s: Session, step: Step)
    requires DeliveryInv(sys) && StepsFreely(sys, s, step)
    requires step.Accept? ==> Queue(sys.down, s)[0] == step.m
    ensures DeliveryInv(DoClient(sys, s, step))
  {
    var c, sys' := sys.clients[s], DoClient(sys, s, step);
    assert Moves(sys, s, step);
    forall u, t | u in sys'.clients && t in sys'.clients[u].callers ensures CallSettles(sys', u, t) {
      if u != s {
        if Touches(c, step, sys.clients[u].callers[t].id) && !sys.clients[u].callers[t].pc.Done? {
          assert Uses(sys.clients[u], sys.clients[u].callers[t].id);
          assert false;
        }
        OthersSettle(sys, s, step, u, t);
      } else if t in c.callers {
        OwnCallSettles(sys, s, step, t);
      } else {
        NewCallers(c, step, t);
        NewCallSettles(sys, s, step);
      }
    }
    ClientDelivers(sys, s, step);
    assert OneAtATime(sys');
  }

  // ---------- the router moves ----------

  /** What a message makes the router thread send. */
  ghost function Outs(st: R.RouterState, s: Session, m: Message, verdict: R.Verdict, draw: Id): seq<Envelope> {
    if verdict != R.Authorized then [Envelope(s, R.Refusal(m, verdict))]
    else if Routable(m) then M.LockedOuts(st, s, Arrived(m, draw))
    else []
  }

  /** The history after the message. */
  ghost function Later(h: History, st: R.RouterState, s: Session, m: Message, verdict: R.Verdict, draw: Id): History {
    if verdict != R.Authorized then AfterRefusal(h, m)
    else if Routable(m) then AfterMessage(h, st, s, m, draw)
    else h
  }

  /** What a message changes. */
  ghost predicate Routed(sys: System, sys': System, s: Session, m: Message, verdict: R.Verdict, draw: Id) {
    && sys'.clients == sys.clients && sys'.down == sys.down
    && Queue(sys.outbox, s) == [] && Queue(sys'.outbox, s) == Outs(sys.router, s, m, verdict, draw)
    && (forall u :: u != s ==> Queue(sys'.outbox, u) == Queue(sys.outbox, u))
    && sys'.h == Later(sys.h, sys.router, s, m, verdict, draw)
  }

  lemma RefusalIs(sys: System, s: Session, verdict: R.Verdict, draw: Id)
    requires CanMove(sys, RouterTakes(s, verdict, draw)) && verdict != R.Authorized
    ensures Routed(sys, DoRoute(sys, s, verdict, draw), s, Queue(sys.up, s)[0], verdict, draw)
  {}

  lemma PassageIs(sys: System, s: Session, draw: Id)
    requires CanMove(sys, RouterTakes(s, R.Authorized, draw))
    ensures Routed(sys, DoRoute(sys, s, R.Authorized, draw), s, Queue(sys.up, s)[0], R.Authorized, draw)
  {}

  lemma RouteIs(sys: System, s: Session, verdict: R.Verdict, draw: Id)
    requires CanMove(sys, RouterTakes(s, verdict, draw))
    ensures Routed(sys, DoRoute(sys, s, verdict, draw), s, Queue(sys.up, s)[0], verdict, draw)
  {
    if verdict == R.Authorized {
      PassageIs(sys, s, draw);
    } else {
      RefusalIs(sys, s, verdict, draw);
    }
  }

  lemma OutsAreShort(st: R.RouterState, s: Session, m: Message, verdict: R.Verdict, draw: Id)
    ensures |Outs(st, s, m, verdict, draw)| <= 1
  {}

  /** A request that is unanswered after a message was so before. */
  lemma RouteUnanswers(h: History, st: R.RouterState, s: Session, m: Message, verdict: R.Verdict, draw: Id, r: Id)
    requires UpGood(h, s, m) && PendingGood(h, st.dealer)
    requires Unanswered(Later(h, st, s, m, verdict, draw), r)
    ensures Unanswered(h, r)
  {
    if verdict == R.Authorized && D.IsAnswer(m) && m.request in st.dealer.invocations {
      assert InvocationGood(h, st.dealer, m.request);
    }
  }

  /** A response that the router decides on answers a request that was not answered yet, unless
      it is an echo. */
  lemma RouteAnswers(h: History, st: R.RouterState, s: Session, m: Message, verdict: R.Verdict,
                     draw: Id, e: Envelope, r: Id)
    requires UpGood(h, s, m) && PendingGood(h, st.dealer)
    requires e in Outs(st, s, m, verdict, draw) && Responds(e.msg, r) && !IsEcho(m, verdict, r)
    ensures Unanswered(h, r) && !Unanswered(Later(h, st, s, m, verdict, draw), r)
  {
    if verdict == R.Authorized && D.IsAnswer(m) {
      assert InvocationGood(h, st.dealer, m.request);
    }
  }

  /** The call's request is not what the message answers. */
  lemma SettlesUnmoved(sys: System, s: Session, verdict: R.Verdict, draw: Id, u: Session, t: Tid)
    requires CanMove(sys, RouterTakes(s, verdict, draw)) && CallsSettle(sys)
    requires u in sys.clients && t in sys.clients[u].callers
    requires var r, sys' := sys.clients[u].callers[t].id, DoRoute(sys, s, verdict, draw);
             && (Unanswered(sys'.h, r) ==> Unanswered(sys.h, r))
             && !HasFor(Queue(sys'.outbox, s), u, r)
    ensures CallSettles(DoRoute(sys, s, verdict, draw), u, t)
  {
    var r, sys' := sys.clients[u].callers[t].id, DoRoute(sys, s, verdict, draw);
    RouteIs(sys, s, verdict, draw);
    assert CallSettles(sys, u, t);
    forall v | HasFor(Queue(sys'.outbox, v), u, r) ensures HasFor(Queue(sys.outbox, v), u, r) {}
  }

  /** The message answers the call's request, which had no response. */
  lemma SettlesAnswered(sys: System, s: Session, verdict: R.Verdict, draw: Id, u: Session, t: Tid)
    requires CanMove(sys, RouterTakes(s, verdict, draw)) && CallsSettle(sys)
    requires u in sys.clients && t in sys.clients[u].callers
    requires var r, sys' := sys.clients[u].callers[t].id, DoRoute(sys, s, verdict, draw);
             Unanswered(sys.h, r) && !Unanswered(sys'.h, r)
    ensures CallSettles(DoRoute(sys, s, verdict, draw), u, t)
  {
    var r, sys' := sys.clients[u].callers[t].id, DoRoute(sys, s, verdict, draw);
    RouteIs(sys, s, verdict, draw);
    assert CallSettles(sys, u, t);
    if !sys.clients[u].callers[t].pc.Done? {
      assert Quiet(sys, u, r);
      forall v | v != s ensures !HasFor(Queue(sys'.outbox, v), u, r) {}
    }
  }

  /** What the router does when it echoes `r`. */
  lemma EchoIs(sys: System, s: Session, verdict: R.Verdict, draw: Id, t: Tid)
    requires CanMove(sys, RouterTakes(s, verdict, draw)) && Echoes(sys, s, verdict, t)
    ensures var sys', r := DoRoute(sys, s, verdict, draw), sys.clients[s].callers[t].id;
            && sys'.clients == sys.clients && sys'.down == sys.down && sys'.h == sys.h
            && Queue(sys.outbox, s) == [] && HasFor(Queue(sys'.outbox, s), s, r)
            && forall u :: u != s ==> Queue(sys'.outbox, u) == Queue(sys.outbox, u)
  {
    var m, out := Queue(sys.up, s)[0], Queue(DoRoute(sys, s, verdict, draw).outbox, s);
    RouteIs(sys, s, verdict, draw);
    assert out == [Envelope(s, R.Refusal(m, verdict))] && out[0] in out;
  }

  /** The call has no response and its request was answered: the echo is all it has. */
  lemma EchoSettles(sys: System, s: Session, verdict: R.Verdict, draw: Id, t: Tid)
    requires CanMove(sys, RouterTakes(s, verdict, draw)) && Echoes(sys, s, verdict, t) && !Expects(sys, s, t)
    ensures CallSettles(DoRoute(sys, s, verdict, draw), s, t)
  {
    EchoIs(sys, s, verdict, draw, t);
  }

  /** A hit gives a call a second response, or a response to a request that was not answered. */
  lemma HitBreaks(sys: System, move: Move)
    requires CanMove(sys, move) && CallsSettle(sys) && Hits(sys, move)
    ensures !CallsSettle(After(sys, move))
  {
    var s := move.s;
    var t :| Echoes(sys, s, move.verdict, t) && Expects(sys, s, t);
    var r, sys' := sys.clients[s].callers[t].id, After(sys, move);
    EchoIs(sys, s, move.verdict, move.draw, t);
    assert HasFor(Queue(sys'.outbox, s), s, r) && !Quiet(sys', s, r);
    if !Has(Queue(sys.down, s), r) && !Quiet(sys, s, r) {
      var u :| HasFor(Queue(sys.outbox, u), s, r);
      assert u != s && HasFor(Queue(sys'.outbox, u), s, r);
    }
    assert !CallSettles(sys', s, t);
  }

  /** The messages that a refusal does not echo. */
  lemma RouteSettles(sys: System, s: Session, verdict: R.Verdict, draw: Id, u: Session, t: Tid)
    requires PipesGood(sys) && PendingGood(sys.h, sys.router.dealer) && CallsSettle(sys)
    requires CanMove(sys, RouterTakes(s, verdict, draw))
    requires u in sys.clients && t in sys.clients[u].callers
    requires u == s ==> !Echoes(sys, s, verdict, t)
    ensures CallSettles(DoRoute(sys, s, verdict, draw), u, t)
  {
    var m, sys', r := Queue(sys.up, s)[0], DoRoute(sys, s, verdict, draw), sys.clients[u].callers[t].id;
    HeadIsGood(sys, s);
    RouteIs(sys, s, verdict, draw);
    if !sys.clients[u].callers[t].pc.Done? {
      if Unanswered(sys'.h, r) {
        RouteUnanswers(sys.h, sys.router, s, m, verdict, draw, r);
      }
      if HasFor(Queue(sys'.outbox, s), u, r) {
        var e :| e in Queue(sys'.outbox, s) && e.to == u && Responds(e.msg, r);
        RouteAnswers(sys.h, sys.router, s, m, verdict, draw, e, r);
        SettlesAnswered(sys, s, verdict, draw, u, t);
      } else {
        SettlesUnmoved(sys, s, verdict, draw, u, t);
      }
    }
  }

  lemma SettlesAfterRoute(sys: System, s: Session, verdict: R.Verdict, draw: Id)
    requires Inv(sys) && DeliveryInv(sys)
    requires CanMove(sys, RouterTakes(s, verdict, draw)) && !Hits(sys, RouterTakes(s, verdict, draw))
    ensures DeliveryInv(DoRoute(sys, s, verdict, draw))
  {
    var sys' := DoRoute(sys, s, verdict, draw);
    RouteIs(sys, s, verdict, draw);
    OutsAreShort(sys.router, s, Queue(sys.up, s)[0], verdict, draw);
    forall u, t | u in sys'.clients && t in sys'.clients[u].callers ensures CallSettles(sys', u, t) {
      if u == s && Echoes(sys, s, verdict, t) {
        EchoSettles(sys, s, verdict, draw, t);
      } else {
        RouteSettles(sys, s, verdict, draw, u, t);
      }
    }
  }

  /** A response leaves its thread and enters the pipe. */
  lemma SentSettles(sys: System, s: Session, u: Session, t: Tid)
    requires CallsSettle(sys) && OneAtATime(sys) && Queue(sys.outbox, s) != []
    requires u in sys.clients && t in sys.clients[u].callers
    ensures CallSettles(DoSend(sys, s), u, t)
  {
    var sys', e, r := DoSend(sys, s), Queue(sys.outbox, s)[0], sys.clients[u].callers[t].id;
    var q, q' := Queue(sys.down, u), Queue(sys'.down, u);
    assert CallSettles(sys, u, t);
    assert Queue(sys'.outbox, s) == [];
    forall v | v != s ensures Queue(sys'.outbox, v) == Queue(sys.outbox, v) {}
    if e.to == u && Responds(e.msg, r) {
      assert e in Queue(sys.outbox, s) && HasFor(Queue(sys.outbox, s), u, r);
      assert q' == q + [e.msg];
    } else {
      assert q' == q || q' == q + [e.msg];
      assert Has(q', r) ==> Has(q, r);
    }
  }

  lemma SettlesAfterSend(sys: System, s: Session)
    requires DeliveryInv(sys) && Queue(sys.outbox, s) != []
    ensures DeliveryInv(DoSend(sys, s))
  {
    var sys' := DoSend(sys, s);
    forall u, t | u in sys'.clients && t in sys'.clients[u].callers ensures CallSettles(sys', u, t) {
      SentSettles(sys, s, u, t);
    }
    forall u ensures |Queue(sys'.outbox, u)| <= 1 {
      assert |Queue(sys.outbox, u)| <= 1;
    }
  }

  lemma SettlesAfterConnect(sys: System, s: Session)
    requires DeliveryInv(sys)
    ensures DeliveryInv(sys.(clients := sys.clients[s := NEW]))
  {
    var sys' := sys.(clients := sys.clients[s := NEW]);
    forall u, t | u in sys'.clients && t in sys'.clients[u].callers ensures CallSettles(sys', u, t) {
      assert u != s && CallSettles(sys, u, t);
    }
  }

  lemma SettlesAfterEnd(sys: System, s: Session)
    requires DeliveryInv(sys)
    ensures DeliveryInv(DoEnd(sys, s))
  {
    var sys' := DoEnd(sys, s);
    forall u, t | u in sys'.clients && t in sys'.clients[u].callers ensures CallSettles(sys', u, t) {
      SettlesStill(sys, sys', u, t);
    }
    assert CallsSettle(sys');
    assert AllDeliver(sys');
    assert OneAtATime(sys');
  }

  // ---------- every run ----------

  lemma MoveSettles(sys: System, move: Move)
    requires Inv(sys) && DeliveryInv(sys) && CanMove(sys, move) && !Hits(sys, move)
    ensures DeliveryInv(After(sys, move))
  {
    match move
    case Connect(s) => SettlesAfterConnect(sys, s);
    case ClientStep(s, step) =>
      ClientStepsFreely(sys, s, step);
      SettlesAfterClient(sys, s, step);
    case RouterTakes(s, verdict, draw) => SettlesAfterRoute(sys, s, verdict, draw);
    case RouterSends(s) => SettlesAfterSend(sys, s);
    case End(s) => SettlesAfterEnd(sys, s);
  }

  /** No move of the run is a hit. */
  ghost predicate NoHits(tr: Trace)
    requires Possible(tr)
  {
    tr.Then? ==> NoHits(tr.before) && !Hits(Final(tr.before), tr.move)
  }

  /** All along the run every unfinished call has at most one response, and none while its
      request is not answered. */
  ghost predicate AlwaysSettles(tr: Trace)
    requires Possible(tr)
  {
    CallsSettle(Final(tr)) && (tr.Then? ==> AlwaysSettles(tr.before))
  }

  lemma {:induction false} Delivery(tr: Trace)
    requires Possible(tr) && NoHits(tr)
    ensures DeliveryInv(Final(tr))
  {
    match tr
    case Start =>
    case Then(before, move) =>
      Delivery(before);
      Invariant(before);
      MoveSettles(Final(before), move);
  }

  /** In every run of clients and router, every unfinished call has at most one response at any
      time, on its way or in its channel, and none while its request is not answered, if and
      only if the router never refuses a YIELD or ERROR with the request id of a call of the
      same session that has a response or is not answered yet. */
  lemma {:induction false} SettlesIffNoHits(tr: Trace)
    requires Possible(tr)
    ensures AlwaysSettles(tr) <==> NoHits(tr)
  {
    match tr
    case Start =>
    case Then(before, move) =>
      SettlesIffNoHits(before);
      if NoHits(tr) {
        Delivery(tr);
      } else if AlwaysSettles(before) {
        HitBreaks(Final(before), move);
      }
  }

  /** Then every client's receive loop can deliver whatever response it holds. */
  lemma {:induction false} ReceiveLoopsNeverBlock(tr: Trace, s: Session)
    requires Possible(tr) && NoHits(tr) && s in Final(tr).clients
    ensures Final(tr).clients[s].recv.Delivering? ==> Enabled(Final(tr).clients[s], Deliver)
  {
    Delivery(tr);
    assert Correlation.CanDeliver(Final(tr).clients[s]);
  }

  /** The authorizer refuses no YIELD and no ERROR. */
  ghost predicate AnswersPass(tr: Trace)
    requires Possible(tr)
  {
    tr.Then? ==>
      && AnswersPass(tr.before)
      && (tr.move.RouterTakes? && D.IsAnswer(Queue(Final(tr.before).up, tr.move.s)[0]) ==>
            tr.move.verdict == R.Authorized)
  }

  /** No unfinished call uses a request id that the router drew, or zero. */
  ghost predicate Apart(sys: System) {
    forall s, t :: s in sys.clients && t in sys.clients[s].callers && !sys.clients[s].callers[t].pc.Done? ==>
      sys.clients[s].callers[t].id !in sys.used + {0}
  }

  ghost predicate AlwaysApart(tr: Trace)
    requires Possible(tr)
  {
    Apart(Final(tr)) && (tr.Then? ==> AlwaysApart(tr.before))
  }

  /** While ids are apart, an echo is for nobody. */
  lemma ApartMissesAll(sys: System, move: Move)
    requires PipesGood(sys) && IdsUsed(sys.h, sys.used) && Apart(sys) && CanMove(sys, move)
    ensures !Hits(sys, move)
  {
    if move.RouterTakes? {
      HeadIsGood(sys, move.s);
    }
  }

  lemma PassMissesAll(sys: System, move: Move)
    requires CanMove(sys, move)
    requires move.RouterTakes? && D.IsAnswer(Queue(sys.up, move.s)[0]) ==> move.verdict == R.Authorized
    ensures !Hits(sys, move)
  {}

  /** Whatever the ids, there is no hit when answers are not refused, as by turnpike's default
      authorizer. */
  lemma {:induction false} NoHitsWhenAnswersPass(tr: Trace)
    requires Possible(tr) && AnswersPass(tr)
    ensures NoHits(tr)
  {
    match tr
    case Start =>
    case Then(before, move) =>
      NoHitsWhenAnswersPass(before);
      PassMissesAll(Final(before), move);
  }

  /** Whatever is refused, there is no hit while request ids and drawn ids are apart. */
  lemma {:induction false} NoHitsWhenApart(tr: Trace)
    requires Possible(tr) && AlwaysApart(tr)
    ensures NoHits(tr)
  {
    match tr
    case Start =>
    case Then(before, move) =>
      NoHitsWhenApart(before);
      Invariant(before);
      ApartMissesAll(Final(before), move);
  }
}
