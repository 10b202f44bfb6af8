/** Every run of clients and router together, and what it guarantees. */
module RpcTheorems {
  import opened Wamp
  import opened ClientMachine
  import opened RpcSystem
  import opened RpcInvariants
  import opened RpcClientSteps
  import opened RpcRouterSteps
  import opened SessionIndex
  import ClientMeaning
  import Correlation
  import R = RealmSpec
  import B = BrokerSpec
  import D = DealerSpec

  // ---------- a client moves ----------

  lemma ClientIsReady(sys: System, s: Session, step: Step)
    requires ClientsGood(sys) && PipesGood(sys) && DispatchesGood(sys.h) && CanMove(sys, ClientStep(s, step))
    ensures Ready(sys.h, s, sys.clients[s], step)
  {}

  /** The request id that a client's step gives a new meaning or a new stage. */
  predicate Touches(c: Client, step: Step, r: Id)
    requires Enabled(c, step)
  {
    (step.Begin? && r == step.id) || (step.Transmit? && r == c.callers[step.t].id)
  }

  /** An unfinished call of client `c` has request id `r`. */
  predicate Uses(c: Client, r: Id) {
    exists t :: t in c.callers && !c.callers[t].pc.Done? && c.callers[t].id == r
  }

  /** Nobody but client `s` uses request id `r`. */
  ghost predicate Private(sys: System, s: Session, r: Id) {
    && r !in sys.router.dealer.calls
    && (forall u, m :: m in Queue(sys.up, u) && IsCallerMessage(m) ==> m.request != r)
    && (forall u :: u in sys.clients && u != s ==> !Uses(sys.clients[u], r))
  }

  /** An unsent request is pending nowhere, and no message on its way up has its id. */
  lemma UnsentIsUnseen(sys: System, r: Id)
    requires PipesGood(sys) && PendingGood(sys.h, sys.router.dealer)
    requires r in sys.h.stage && sys.h.stage[r] == Unsent
    ensures r !in sys.router.dealer.calls
    ensures forall u, m :: m in Queue(sys.up, u) && IsCallerMessage(m) ==> m.request != r
  {
    forall u, m | m in Queue(sys.up, u) && IsCallerMessage(m) ensures m.request != r {
      assert UpGood(sys.h, u, m);
    }
  }

  /** Whoever uses a request id asked with it. */
  lemma UsersAsked(h: History, u: Session, c: Client, r: Id)
    requires CallersGood(h, u, c) && Uses(c, r)
    ensures r in h.asked && h.asked[r].session == u
  {
    var t :| t in c.callers && !c.callers[t].pc.Done? && c.callers[t].id == r;
    assert CallerGood(h, u, t, c.callers[t]);
  }

  lemma UnsentIsPrivate(sys: System, s: Session, t: Tid)
    requires ClientsGood(sys) && PipesGood(sys) && PendingGood(sys.h, sys.router.dealer)
    requires s in sys.clients && At(sys.clients[s], t, Listening)
    ensures Private(sys, s, sys.clients[s].callers[t].id)
  {
    var r := sys.clients[s].callers[t].id;
    assert CallersGood(sys.h, s, sys.clients[s]);
    assert CallerGood(sys.h, s, t, sys.clients[s].callers[t]);
    UnsentIsUnseen(sys, r);
    forall u | u in sys.clients && u != s ensures !Uses(sys.clients[u], r) {
      assert CallersGood(sys.h, u, sys.clients[u]);
      if Uses(sys.clients[u], r) {
        UsersAsked(sys.h, u, sys.clients[u], r);
      }
    }
  }

  /** No response to request `r` is on its way. */
  ghost predicate NobodyAwaits(sys: System, r: Id) {
    && (forall u, m :: m in Queue(sys.down, u) && IsResponse(m) ==> m.request != r)
    && (forall u, e :: e in Queue(sys.outbox, u) && IsResponse(e.msg) ==> e.msg.request != r)
  }

  /** What a client's step needs to know of the system. */
  ghost predicate StepsFreely(sys: System, s: Session, step: Step) {
    && s in sys.clients && Ready(sys.h, s, sys.clients[s], step)
    && (step.Accept? ==> Queue(sys.down, s) != [])
    && (step.Begin? ==> NobodyAwaits(sys, step.id))
    && (forall r :: Touches(sys.clients[s], step, r) ==> Private(sys, s, r))
  }

  lemma ClientStepsFreely(sys: System, s: Session, step: Step)
    requires ClientsGood(sys) && PipesGood(sys) && PendingGood(sys.h, sys.router.dealer) && DispatchesGood(sys.h)
    requires CanMove(sys, ClientStep(s, step))
    ensures StepsFreely(sys, s, step)
  {
    ClientIsReady(sys, s, step);
    if step.Transmit? {
      UnsentIsPrivate(sys, s, step.t);
    }
  }

  lemma OtherClientKept(h: History, s: Session, c: Client, step: Step, u: Session, other: Client)
    requires Enabled(c, step) && ClientGood(h, u, other)
    requires forall r :: Touches(c, step, r) ==> !Uses(other, r)
    ensures ClientGood(AfterClient(h, s, c, step), u, other)
  {
    HistoryGrows(h, s, c, step);
    forall t | t in other.callers && !other.callers[t].pc.Done? ensures !Touches(c, step, other.callers[t].id) {
      assert Uses(other, other.callers[t].id);
    }
    ClientGoodKept(h, AfterClient(h, s, c, step), u, other);
  }

  lemma ClientsAfterClient(sys: System, s: Session, step: Step)
    requires ClientsGood(sys) && StepsFreely(sys, s, step)
    ensures ClientsGood(DoClient(sys, s, step))
  {
    var c, sys' := sys.clients[s], DoClient(sys, s, step);
    forall u | u in sys'.clients ensures ClientGood(sys'.h, u, sys'.clients[u]) {
      if u == s {
        SelfStays(sys.h, s, c, step);
      } else {
        OtherClientKept(sys.h, s, c, step, u, sys.clients[u]);
      }
    }
  }

  lemma UpKept(h: History, s: Session, c: Client, step: Step, u: Session, m: Message)
    requires Enabled(c, step) && UpGood(h, u, m)
    requires IsCallerMessage(m) ==> !Touches(c, step, m.request)
    ensures UpGood(AfterClient(h, s, c, step), u, m)
  {}

  lemma DownKept(h: History, s: Session, c: Client, step: Step, u: Session, m: Message)
    requires Enabled(c, step) && DownGood(h, u, m)
    requires IsResponse(m) && step.Begin? ==> m.request != step.id
    ensures DownGood(AfterClient(h, s, c, step), u, m)
  {
    HistoryGrows(h, s, c, step);
    DownGoodKept(h, AfterClient(h, s, c, step), u, m);
  }

  /** What a client's step does to the system. */
  lemma DoClientMoves(sys: System, s: Session, step: Step)
    requires s in sys.clients && Enabled(sys.clients[s], step) && (step.Accept? ==> Queue(sys.down, s) != [])
    ensures var c, sys' := sys.clients[s], DoClient(sys, s, step);
            && sys'.clients == sys.clients[s := Do(c, step)] && sys'.h == AfterClient(sys.h, s, c, step)
            && sys'.outbox == sys.outbox
            && Queue(sys'.down, s) == (if step.Accept? then Queue(sys.down, s)[1..] else Queue(sys.down, s))
            && (forall u :: u != s ==> Queue(sys'.up, u) == Queue(sys.up, u))
            && Queue(sys'.up, s)
               == match Output(c, step) case None => Queue(sys.up, s) case Some(m) => Queue(sys.up, s) + [m]
  {}

  lemma UntouchedUp(sys: System, s: Session, step: Step, u: Session, m: Message)
    requires StepsFreely(sys, s, step) && m in Queue(sys.up, u) && IsCallerMessage(m)
    ensures !Touches(sys.clients[s], step, m.request)
  {
    assert Touches(sys.clients[s], step, m.request) ==> Private(sys, s, m.request);
  }

  lemma OldUpAfterClient(sys: System, s: Session, step: Step, u: Session, m: Message)
    requires StepsFreely(sys, s, step) && m in Queue(sys.up, u) && UpGood(sys.h, u, m)
    ensures UpGood(AfterClient(sys.h, s, sys.clients[s], step), u, m)
  {
    if IsCallerMessage(m) {
      UntouchedUp(sys, s, step, u, m);
    }
    UpKept(sys.h, s, sys.clients[s], step, u, m);
  }

  lemma UpAfterClient(sys: System, s: Session, step: Step, u: Session, m: Message)
    requires PipesGood(sys) && StepsFreely(sys, s, step) && m in Queue(DoClient(sys, s, step).up, u)
    ensures UpGood(AfterClient(sys.h, s, sys.clients[s], step), u, m)
  {
    if m in Queue(sys.up, u) {
      OldUpAfterClient(sys, s, step, u, m);
    } else {
      DoClientMoves(sys, s, step);
      OutputGood(sys.h, s, sys.clients[s], step);
    }
  }

  lemma DistinctAppended(q: seq<Message>, m: Message)
    requires UpDistinct(q)
    requires IsCallerMessage(m) ==> forall o :: o in q && IsCallerMessage(o) ==> o.request != m.request
    ensures UpDistinct(q + [m])
  {}

  lemma OnlyTransmitAsks(h: History, s: Session, c: Client, step: Step)
    requires HandGood(h, s, c) && Enabled(c, step) && Output(c, step).Some? && IsCallerMessage(Output(c, step).value)
    ensures Touches(c, step, Output(c, step).value.request)
  {}

  lemma OutputIsDistinct(sys: System, s: Session, step: Step)
    requires UpDistinct(Queue(sys.up, s)) && StepsFreely(sys, s, step) && Output(sys.clients[s], step).Some?
    ensures UpDistinct(Queue(sys.up, s) + [Output(sys.clients[s], step).value])
  {
    var m := Output(sys.clients[s], step).value;
    if IsCallerMessage(m) {
      OnlyTransmitAsks(sys.h, s, sys.clients[s], step);
      assert Private(sys, s, m.request);
    }
    DistinctAppended(Queue(sys.up, s), m);
  }

  lemma DistinctAfterClient(sys: System, s: Session, step: Step, u: Session)
    requires PipesGood(sys) && StepsFreely(sys, s, step)
    ensures UpDistinct(Queue(DoClient(sys, s, step).up, u))
  {
    assert UpDistinct(Queue(sys.up, u));
    DoClientMoves(sys, s, step);
    if u == s && Output(sys.clients[s], step).Some? {
      OutputIsDistinct(sys, s, step);
    }
  }

  lemma PipesAfterClient(sys: System, s: Session, step: Step)
    requires PipesGood(sys) && StepsFreely(sys, s, step)
    ensures PipesGood(DoClient(sys, s, step))
  {
    var c, sys' := sys.clients[s], DoClient(sys, s, step);
    forall u, m | m in Queue(sys'.up, u) ensures UpGood(sys'.h, u, m) {
      UpAfterClient(sys, s, step, u, m);
    }
    forall u ensures UpDistinct(Queue(sys'.up, u)) {
      DistinctAfterClient(sys, s, step, u);
    }
    forall u, m | m in Queue(sys'.down, u) ensures DownGood(sys'.h, u, m) {
      assert m in Queue(sys.down, u);
      DownKept(sys.h, s, c, step, u, m);
    }
    forall u, e | e in Queue(sys'.outbox, u) ensures DownGood(sys'.h, e.to, e.msg) {
      assert e in Queue(sys.outbox, u);
      DownKept(sys.h, s, c, step, e.to, e.msg);
    }
  }

  lemma PendingAfterClient(h: History, s: Session, c: Client, step: Step, st: D.DealerState)
    requires Enabled(c, step) && PendingGood(h, st)
    requires forall r :: Touches(c, step, r) ==> r !in st.calls
    ensures PendingGood(AfterClient(h, s, c, step), st)
  {
    HistoryGrows(h, s, c, step);
    forall inv | inv in st.invocations ensures InvocationGood(AfterClient(h, s, c, step), st, inv) {
      assert InvocationGood(h, st, inv);
    }
  }

  /** A client's step leaves the router's part of the history good. */
  lemma GrantsAfterClient(h: History, s: Session, c: Client, step: Step, st: R.RouterState, ended: set<Session>,
                          used: set<Id>)
    requires Enabled(c, step) && CallersGood(h, s, c)
    requires GrantsGood(h, st, ended) && DispatchesGood(h) && IdsUsed(h, used)
    ensures var h' := AfterClient(h, s, c, step);
            GrantsGood(h', st, ended) && DispatchesGood(h') && IdsUsed(h', used)
  {}

  lemma ExecutionsAfterClient(h: History, s: Session, clients: map<Session, Client>, step: Step)
    requires s in clients && Enabled(clients[s], step) && ExecutionsGood(h, clients) && MapsGood(h, s, clients[s])
    ensures ExecutionsGood(AfterClient(h, s, clients[s], step), clients[s := Do(clients[s], step)])
  {
    var c, h' := clients[s], AfterClient(h, s, clients[s], step);
    forall e | e in h'.executed
      ensures e.callee in clients
      ensures HasRegistered(clients[s := Do(c, step)][e.callee], e.registration, e.desc)
    {
      if e !in h.executed {
        assert step.Finish? && JobGood(h, s, c, step.job);
      }
      if e.callee == s {
        RegisteredStays(c, step, e.registration, e.desc);
      }
    }
  }

  lemma InvAfterClient(sys: System, s: Session, step: Step)
    requires Inv(sys) && CanMove(sys, ClientStep(s, step))
    ensures Inv(DoClient(sys, s, step))
  {
    var c := sys.clients[s];
    assert ClientGood(sys.h, s, c);
    ClientStepsFreely(sys, s, step);
    ClientsAfterClient(sys, s, step);
    PipesAfterClient(sys, s, step);
    PendingAfterClient(sys.h, s, c, step, sys.router.dealer);
    GrantsAfterClient(sys.h, s, c, step, sys.router, sys.ended, sys.used);
    ExecutionsAfterClient(sys.h, s, sys.clients, step);
  }

  // ---------- the router moves ----------

  /** The history after the router took a message, as the clients and the pipes see it. */
  ghost predicate SeenUnchanged(h: History, h': History, q: seq<Message>) {
    && Grows(h, h') && h'.asked == h.asked && q != []
    && forall r :: r in h.stage
         && (h.stage[r] == Unsent || (h.stage[r] == Up && (IsCallerMessage(q[0]) ==> r != q[0].request)))
         ==> SameStage(h, h', r)
  }

  lemma ClientsAfterRouter(sys: System, h': History, q: seq<Message>)
    requires ClientsGood(sys) && SeenUnchanged(sys.h, h', q)
    ensures forall u :: u in sys.clients ==> ClientGood(h', u, sys.clients[u])
  {
    forall u | u in sys.clients ensures ClientGood(h', u, sys.clients[u]) {
      var c := sys.clients[u];
      assert CallersGood(sys.h, u, c);
      forall t | t in c.callers && (c.callers[t].pc.Begun? || c.callers[t].pc.Listening?)
        ensures SameStage(sys.h, h', c.callers[t].id)
      {
        assert CallerGood(sys.h, u, t, c.callers[t]);
      }
      ClientGoodKept(sys.h, h', u, c);
    }
  }

  /** A message that stays in its pipe while the router takes the head of `s`'s pipe. */
  lemma UpStays(sys: System, s: Session, h': History, u: Session, m: Message)
    requires PipesGood(sys) && SeenUnchanged(sys.h, h', Queue(sys.up, s))
    requires if u == s then m in Queue(sys.up, s)[1..] else m in Queue(sys.up, u)
    ensures UpGood(h', u, m)
  {
    var q := Queue(sys.up, s);
    assert m in Queue(sys.up, u) && UpGood(sys.h, u, m);
    if IsCallerMessage(m) && IsCallerMessage(q[0]) {
      assert q[0] in q && UpGood(sys.h, s, q[0]);
      if u == s {
        var i :| 1 <= i < |q| && q[i] == m;
        assert UpDistinct(q) && q[0].request != q[i].request;
      }
    }
    UpGoodKept(sys.h, h', u, m);
  }

  lemma PipesAfterTake(sys: System, sys': System, s: Session)
    requires PipesGood(sys) && SeenUnchanged(sys.h, sys'.h, Queue(sys.up, s))
    requires sys'.up == sys.up[s := Queue(sys.up, s)[1..]] && sys'.down == sys.down
    requires s in sys'.outbox && sys'.outbox == sys.outbox[s := sys'.outbox[s]]
    requires forall e :: e in sys'.outbox[s] ==> DownGood(sys'.h, e.to, e.msg)
    ensures PipesGood(sys')
  {
    forall u, m | m in Queue(sys'.up, u) ensures UpGood(sys'.h, u, m) {
      UpStays(sys, s, sys'.h, u, m);
    }
    forall u ensures UpDistinct(Queue(sys'.up, u)) {
      assert UpDistinct(Queue(sys.up, u));
    }
    forall u, m | m in Queue(sys'.down, u) ensures DownGood(sys'.h, u, m) {
      assert m in Queue(sys.down, u);
      DownGoodKept(sys.h, sys'.h, u, m);
    }
    forall u, e | e in Queue(sys'.outbox, u) ensures DownGood(sys'.h, e.to, e.msg) {
      if u != s {
        assert e in Queue(sys.outbox, u);
        DownGoodKept(sys.h, sys'.h, e.to, e.msg);
      }
    }
  }

  lemma HeadIsGood(sys: System, s: Session)
    requires PipesGood(sys) && Queue(sys.up, s) != []
    ensures UpGood(sys.h, s, Queue(sys.up, s)[0]) && Routable(Queue(sys.up, s)[0])
  {}

  lemma RefusalSeen(sys: System, s: Session)
    requires PipesGood(sys) && Queue(sys.up, s) != []
    ensures SeenUnchanged(sys.h, AfterRefusal(sys.h, Queue(sys.up, s)[0]), Queue(sys.up, s))
  {
    HeadIsGood(sys, s);
  }

  lemma RefusalPending(h: History, st: R.RouterState, s: Session, m: Message)
    requires UpGood(h, s, m) && PendingGood(h, st.dealer)
    ensures PendingGood(AfterRefusal(h, m), st.dealer)
  {}

  /** The refusal of a CALL is the router's own answer to it. */
  lemma RefusalGood(h: History, s: Session, m: Message, verdict: R.Verdict)
    requires UpGood(h, s, m) && verdict != R.Authorized
    ensures DownGood(AfterRefusal(h, m), s, R.Refusal(m, verdict))
  {}

  lemma PipesAfterRefusal(sys: System, s: Session, verdict: R.Verdict, draw: Id)
    requires PipesGood(sys) && ClientsGood(sys) && Queue(sys.up, s) != [] && verdict != R.Authorized
    ensures PipesGood(DoRoute(sys, s, verdict, draw)) && ClientsGood(DoRoute(sys, s, verdict, draw))
  {
    var sys' := DoRoute(sys, s, verdict, draw);
    HeadIsGood(sys, s);
    RefusalSeen(sys, s);
    RefusalGood(sys.h, s, Queue(sys.up, s)[0], verdict);
    ClientsAfterRouter(sys, sys'.h, Queue(sys.up, s));
    PipesAfterTake(sys, sys', s);
  }

  lemma HistoryAfterRefusal(h: History, st: R.RouterState, ended: set<Session>, clients: map<Session, Client>,
                            m: Message)
    requires GrantsGood(h, st, ended) && DispatchesGood(h) && ExecutionsGood(h, clients)
    ensures var h' := AfterRefusal(h, m);
            GrantsGood(h', st, ended) && DispatchesGood(h') && ExecutionsGood(h', clients)
  {}

  lemma IndexesWiden(sys: System, sys': System)
    requires IndexesExact(sys) && sys'.subs == sys.subs && sys'.regs == sys.regs && sys'.router == sys.router
    requires sys.used <= sys'.used
    ensures IndexesExact(sys')
  {}

  lemma InvAfterRefusal(sys: System, s: Session, verdict: R.Verdict, draw: Id)
    requires Inv(sys) && CanMove(sys, RouterTakes(s, verdict, draw)) && verdict != R.Authorized
    ensures Inv(DoRoute(sys, s, verdict, draw))
  {
    HeadIsGood(sys, s);
    PipesAfterRefusal(sys, s, verdict, draw);
    RefusalPending(sys.h, sys.router, s, Queue(sys.up, s)[0]);
    HistoryAfterRefusal(sys.h, sys.router, sys.ended, sys.clients, Queue(sys.up, s)[0]);
    IndexesWiden(sys, DoRoute(sys, s, verdict, draw));
  }

  lemma MessageSeen(sys: System, s: Session, draw: Id)
    requires PipesGood(sys) && Queue(sys.up, s) != []
    requires Takes(sys.h, sys.router, sys.ended, sys.used, s, Queue(sys.up, s)[0], draw)
    ensures SeenUnchanged(sys.h, AfterMessage(sys.h, sys.router, s, Queue(sys.up, s)[0], draw), Queue(sys.up, s))
  {
    var m := Queue(sys.up, s)[0];
    MessageGrows(sys.h, sys.router, sys.ended, sys.used, s, m, draw);
    forall r | r in sys.h.stage
      && (sys.h.stage[r] == Unsent || (sys.h.stage[r] == Up && (IsCallerMessage(m) ==> r != m.request)))
      ensures SameStage(sys.h, AfterMessage(sys.h, sys.router, s, m, draw), r)
    {
      MessageStages(sys.h, sys.router, sys.ended, sys.used, s, m, draw, r);
    }
  }

  lemma PipesAfterMessage(sys: System, s: Session, draw: Id)
    requires PipesGood(sys) && Queue(sys.up, s) != []
    requires Takes(sys.h, sys.router, sys.ended, sys.used, s, Queue(sys.up, s)[0], draw)
    ensures PipesGood(DoRoute(sys, s, R.Authorized, draw))
  {
    var m, sys' := Queue(sys.up, s)[0], DoRoute(sys, s, R.Authorized, draw);
    MessageSeen(sys, s, draw);
    forall e | e in sys'.outbox[s] ensures DownGood(sys'.h, e.to, e.msg) {
      OutsGood(sys.h, sys.router, sys.ended, sys.used, s, m, draw, e);
    }
    PipesAfterTake(sys, sys', s);
  }

  lemma ExactWidens(index: Index, owner: map<Id, Session>, used: set<Id>, used': set<Id>)
    requires used <= used'
    ensures Exact(index, owner, used) ==> Exact(index, owner, used')
  {}

  lemma IndexesAfterMessage(sys: System, s: Session, m: Message, draw: Id)
    requires Takes(sys.h, sys.router, sys.ended, sys.used, s, m, draw) && IndexesExact(sys)
    ensures var st' := R.Effect(sys.router, s, m, draw);
            && Exact(SubsAfter(sys, s, m, draw), B.Owners(st'.live), sys.used + {draw})
            && Exact(RegsAfter(sys, s, m, draw), D.Owners(st'.dealer.procedures), sys.used + {draw})
  {
    OwnTarget(sys.h, sys.router, sys.ended, sys.used, s, m, draw);
    SubsAfterExact(sys, s, m, draw);
    RegsAfterExact(sys, s, m, draw);
    ExactWidens(SubsAfter(sys, s, m, draw), B.Owners(R.Effect(sys.router, s, m, draw).live), sys.used,
                sys.used + {draw});
  }

  lemma ExecutionsUntouched(h: History, st: R.RouterState, s: Session, m: Message, draw: Id,
                            clients: map<Session, Client>)
    requires ExecutionsGood(h, clients) && Routable(m)
    ensures ExecutionsGood(AfterMessage(h, st, s, m, draw), clients)
  {}

  lemma InvAfterMessage(sys: System, s: Session, draw: Id)
    requires Inv(sys) && CanMove(sys, RouterTakes(s, R.Authorized, draw))
    ensures Inv(DoRoute(sys, s, R.Authorized, draw))
  {
    var m, sys' := Queue(sys.up, s)[0], DoRoute(sys, s, R.Authorized, draw);
    HeadIsGood(sys, s);
    assert Takes(sys.h, sys.router, sys.ended, sys.used, s, m, draw);
    MessageSeen(sys, s, draw);
    ClientsAfterRouter(sys, sys'.h, Queue(sys.up, s));
    PipesAfterMessage(sys, s, draw);
    GrantsAfter(sys.h, sys.router, sys.ended, sys.used, s, m, draw);
    PendingAfter(sys.h, sys.router, sys.ended, sys.used, s, m, draw);
    DispatchesAfter(sys.h, sys.router, sys.ended, sys.used, s, m, draw);
    IndexesAfterMessage(sys, s, m, draw);
    ExecutionsUntouched(sys.h, sys.router, s, m, draw, sys.clients);
  }

  lemma InvAfterSend(sys: System, s: Session)
    requires Inv(sys) && CanMove(sys, RouterSends(s))
    ensures Inv(DoSend(sys, s))
  {
    var e, sys' := Queue(sys.outbox, s)[0], DoSend(sys, s);
    assert e in Queue(sys.outbox, s);
    forall u, m | m in Queue(sys'.down, u) ensures DownGood(sys'.h, u, m) {
      assert m in Queue(sys.down, u) || (u == e.to && m == e.msg);
    }
    forall u, o | o in Queue(sys'.outbox, u) ensures DownGood(sys'.h, o.to, o.msg) {
      assert o in Queue(sys.outbox, u);
    }
    assert ClientsGood(sys');
  }

  lemma IndexesAfterEnd(sys: System, s: Session)
    requires IndexesExact(sys)
    ensures IndexesExact(DoEnd(sys, s))
  {
    var sys' := DoEnd(sys, s);
    ExactDropped(sys.subs, B.Owners(sys.router.live), sys.used, s);
    assert Disowned(B.Owners(sys.router.live), s) == B.Owners(sys'.router.live);
    ExactDropped(sys.regs, D.Owners(sys.router.dealer.procedures), sys.used, s);
    assert Disowned(D.Owners(sys.router.dealer.procedures), s) == D.Owners(sys'.router.dealer.procedures);
  }

  /** Removing a session leaves pending calls and invocations alone. */
  lemma PendingAfterEnd(h: History, st: D.DealerState, s: Session)
    requires PendingGood(h, st)
    ensures PendingGood(h, D.OnRemove(st, s))
  {}

  lemma GrantsAfterEnd(h: History, st: R.RouterState, ended: set<Session>, s: Session)
    requires GrantsGood(h, st, ended)
    ensures GrantsGood(h, R.Leave(st, s), ended + {s})
  {}

  lemma {:induction false} InvAfterEnd(sys: System, s: Session)
    requires Inv(sys) && CanMove(sys, End(s))
    ensures Inv(DoEnd(sys, s))
  {
    IndexesAfterEnd(sys, s);
    PendingAfterEnd(sys.h, sys.router.dealer, s);
    GrantsAfterEnd(sys.h, sys.router, sys.ended, s);
    assert PipesGood(DoEnd(sys, s)) && ClientsGood(DoEnd(sys, s));
  }

  lemma ExecutionsAfterConnect(h: History, clients: map<Session, Client>, s: Session)
    requires ExecutionsGood(h, clients) && s !in clients
    ensures ExecutionsGood(h, clients[s := NEW])
  {}

  lemma ClientsAfterConnect(sys: System, s: Session)
    requires ClientsGood(sys)
    ensures ClientsGood(sys.(clients := sys.clients[s := NEW]))
  {}

  lemma InvAfterConnect(sys: System, s: Session)
    requires Inv(sys) && CanMove(sys, Connect(s))
    ensures Inv(sys.(clients := sys.clients[s := NEW]))
  {
    ClientsAfterConnect(sys, s);
    ExecutionsAfterConnect(sys.h, sys.clients, s);
    assert PipesGood(sys.(clients := sys.clients[s := NEW]));
  }

  // ---------- every run ----------

  lemma InvStart()
    ensures Inv(INIT)
  {}

  lemma {:induction false} Invariant(tr: Trace)
    requires Possible(tr)
    ensures Inv(Final(tr))
  {
    match tr
    case Start => InvStart();
    case Then(before, move) =>
      Invariant(before);
      var sys := Final(before);
      match move {
        case Connect(s) => InvAfterConnect(sys, s);
        case ClientStep(s, step) => InvAfterClient(sys, s, step);
        case RouterTakes(s, verdict, draw) =>
          if verdict == R.Authorized {
            InvAfterMessage(sys, s, draw);
          } else {
            InvAfterRefusal(sys, s, verdict, draw);
          }
        case RouterSends(s) => InvAfterSend(sys, s);
        case End(s) => InvAfterEnd(sys, s);
      }
  }

  /** What the record says of a call that ended with what `result` says: the dealer dispatched
      it, as invocation `inv`, under a registration that the callee held for the called
      procedure, and the handler that the callee's client registered under just that
      registration ran on the call's arguments and returned `result`. */
  ghost predicate Explains(sys: System, s: Session, caller: Caller, result: HandlerResult, inv: Id, e: Execution) {
    && caller.request.WantCall? && DispatchedFor(sys.h, s, caller.request, caller.id, inv)
    && var d := sys.h.dispatched[inv];
       && GrantedTo(sys.h, d.registration, Grant(false, d.callee, d.procedure))
       && e in sys.h.executed && Runs(e, inv, d, result)
       && d.callee in sys.clients && HasRegistered(sys.clients[d.callee], d.registration, e.desc)
  }

  lemma ExecutionExplains(sys: System, s: Session, caller: Caller, inv: Id, result: HandlerResult)
    returns (e: Execution)
    requires DispatchesGood(sys.h) && ExecutionsGood(sys.h, sys.clients)
    requires caller.request.WantCall? && ResultOf(sys.h, s, caller.request, caller.id, inv, result)
    ensures Explains(sys, s, caller, result, inv, e)
  {
    e :| e in sys.h.executed && Runs(e, inv, sys.h.dispatched[inv], result);
  }

  lemma ResultExplained(sys: System, s: Session, caller: Caller, m: Message) returns (inv: Id, e: Execution)
    requires DispatchesGood(sys.h) && ExecutionsGood(sys.h, sys.clients)
    requires caller.request.WantCall? && m.Result? && GoodFor(sys.h, s, caller.request, caller.id, m)
    ensures Explains(sys, s, caller, HandlerResult(m.payload, ""), inv, e)
  {
    inv :| ResultOf(sys.h, s, caller.request, caller.id, inv, HandlerResult(m.payload, ""));
    e := ExecutionExplains(sys, s, caller, inv, HandlerResult(m.payload, ""));
  }

  /** Where an ERROR about a call comes from: it is the router's own answer, or that of a
      callee without a handler, or what the handler returned for this very call. */
  ghost predicate ErrorExplained(sys: System, s: Session, caller: Caller, m: Message)
    requires caller.request.WantCall? && m.Error?
  {
    || IsRouterRefusal(m)
    || (exists inv :: DispatchedFor(sys.h, s, caller.request, caller.id, inv) && IsNoHandler(m))
    || (m.error != "" && exists inv, e :: Explains(sys, s, caller, HandlerResult(m.payload, m.error), inv, e))
  }

  lemma ErrorIsExplained(sys: System, s: Session, caller: Caller, m: Message)
    requires DispatchesGood(sys.h) && ExecutionsGood(sys.h, sys.clients)
    requires caller.request.WantCall? && m.Error? && m.typ == CALL && GoodFor(sys.h, s, caller.request, caller.id, m)
    ensures ErrorExplained(sys, s, caller, m)
  {
    if !IsRouterRefusal(m) {
      var inv :| ErrorOf(sys.h, s, caller.request, caller.id, inv, m);
      if !IsNoHandler(m) {
        var e := ExecutionExplains(sys, s, caller, inv, HandlerResult(m.payload, m.error));
      }
    }
  }

  /** What the invariants say of a call that is done. */
  lemma OutcomeGood(sys: System, s: Session, t: Tid)
    requires ClientsGood(sys) && s in sys.clients && t in sys.clients[s].callers
    requires var pc := sys.clients[s].callers[t].pc; pc.Done? && (pc.outcome.Fulfilled? || pc.outcome.Refused?)
    ensures var caller := sys.clients[s].callers[t];
            && Correlation.Answer(caller.pc.outcome.m, caller)
            && (caller.pc.outcome.Fulfilled? ==> Fulfils(caller.pc.outcome.m, caller.request))
            && GoodFor(sys.h, s, caller.request, caller.id, caller.pc.outcome.m)
  {
    var c := sys.clients[s];
    assert Correlation.CallersOk(c) && CallerGood(sys.h, s, t, c.callers[t]);
  }

  lemma ClientMoves(sys: System, move: Move, s: Session)
    requires CanMove(sys, move) && s in After(sys, move).clients
    ensures if move == Connect(s) then After(sys, move).clients[s] == NEW
            else s in sys.clients && After(sys, move).clients[s]
                 == if move.ClientStep? && move.s == s then Do(sys.clients[s], move.step) else sys.clients[s]
  {}

  /** In every client an outcome is a success exactly when it holds the response asked for. */
  lemma {:induction false} OutcomesFit(tr: Trace, s: Session)
    requires Possible(tr) && s in Final(tr).clients
    ensures forall t :: t in Final(tr).clients[s].callers ==> ClientMeaning.OutcomeFits(Final(tr).clients[s].callers[t])
  {
    var before := Final(tr.before);
    ClientMoves(before, tr.move, s);
    if tr.move != Connect(s) {
      OutcomesFit(tr.before, s);
      if tr.move.ClientStep? && tr.move.s == s {
        ClientMeaning.OutcomesFitStep(before.clients[s], tr.move.step);
      }
    }
  }

  /** A RESULT that a `Client.Call` holds when it is done is its success, and was produced for
      this very call: the dealer dispatched it as invocation `inv` to a session that it had
      granted the called procedure, and a handler that this session's client had registered
      under just that registration ran on the call's arguments and returned it. */
  lemma {:induction false} EndToEndRpc(tr: Trace, s: Session, t: Tid) returns (inv: Id, e: Execution)
    requires Possible(tr) && s in Final(tr).clients && t in Final(tr).clients[s].callers
    requires var caller := Final(tr).clients[s].callers[t];
             && caller.request.WantCall? && caller.pc.Done?
             && (caller.pc.outcome.Fulfilled?
                 || ((caller.pc.outcome.Refused? || caller.pc.outcome.Unexpected?) && caller.pc.outcome.m.Result?))
    ensures var sys := Final(tr);
            var caller := sys.clients[s].callers[t];
            var call := caller.request;
            && caller.pc.outcome.Fulfilled?
            && caller.pc.outcome.m == Result(caller.id, e.result.payload) && e.result.err == ""
            && e in sys.h.executed && e.invocation == inv && e.desc.name == call.procedure && e.args == call.payload
            && inv in sys.h.dispatched
            && sys.h.dispatched[inv] == Dispatch(s, caller.id, call.procedure, call.payload, e.callee, e.registration)
            && e.registration in sys.h.granted
            && sys.h.granted[e.registration] == Grant(false, e.callee, call.procedure)
            && e.callee in sys.clients
            && exists u :: u in sys.clients[e.callee].callers
                 && var registering := sys.clients[e.callee].callers[u];
                    && registering.request == WantRegister(call.procedure, e.desc.handler)
                    && registering.pc.Done? && registering.pc.outcome.Fulfilled?
                    && registering.pc.outcome.m.Registered?
                    && registering.pc.outcome.m.registration == e.registration
  {
    Invariant(tr);
    OutcomesFit(tr, s);
    var caller := Final(tr).clients[s].callers[t];
    assert ClientMeaning.OutcomeFits(caller);
    OutcomeGood(Final(tr), s, t);
    inv, e := ResultExplained(Final(tr), s, caller, caller.pc.outcome.m);
  }

  /** What that means: an error URI of the router or of a client without the handler, or what
      a handler of the called procedure returned on the arguments of just this call. */
  lemma ErrorExplainedMeans(sys: System, s: Session, caller: Caller, m: Message)
    requires caller.request.WantCall? && m.Error? && ErrorExplained(sys, s, caller, m)
    ensures var h, call := sys.h, caller.request;
            || (m.payload == Payload(None, None)
                && m.error in {"wamp.error.no_such_procedure", "wamp.error.not_authorized",
                               "wamp.error.authorization_failed"})
            || exists inv :: inv in h.dispatched
                 && var d := h.dispatched[inv];
                    && d == Dispatch(s, caller.id, call.procedure, call.payload, d.callee, d.registration)
                    && (|| (m.payload == Payload(None, None) && m.error == "no handler for registration")
                        || exists e :: e in h.executed && e.invocation == inv && e.callee == d.callee
                             && e.registration == d.registration && e.desc.name == call.procedure
                             && e.args == call.payload && e.result == HandlerResult(m.payload, m.error))
  {}

  /** Nor does an ERROR about the call come from anywhere else; it is the call's failure. */
  lemma {:induction false} EndToEndError(tr: Trace, s: Session, t: Tid)
    requires Possible(tr) && s in Final(tr).clients && t in Final(tr).clients[s].callers
    requires var caller := Final(tr).clients[s].callers[t];
             && caller.request.WantCall? && caller.pc.Done?
             && (caller.pc.outcome.Refused? || caller.pc.outcome.Fulfilled? || caller.pc.outcome.Unexpected?)
             && caller.pc.outcome.m.Error? && caller.pc.outcome.m.typ == CALL
    ensures var caller := Final(tr).clients[s].callers[t];
            && caller.pc.outcome.Refused? && caller.pc.outcome.m.request == caller.id
            && ErrorExplained(Final(tr), s, caller, caller.pc.outcome.m)
  {
    Invariant(tr);
    OutcomesFit(tr, s);
    var caller := Final(tr).clients[s].callers[t];
    assert ClientMeaning.OutcomeFits(caller);
    OutcomeGood(Final(tr), s, t);
    ErrorIsExplained(Final(tr), s, caller, caller.pc.outcome.m);
  }

  /** `m` is the CALL of `d`, and the callee of `d` holds the procedure. */
  predicate IsCallOf(procs: D.Procedures, s: Session, m: Message, d: Dispatch) {
    && m.Call? && s == d.caller && m.request == d.request && m.procedure == d.procedure && m.payload == d.payload
    && d.registration in procs && procs[d.registration] == D.RemoteProcedure(d.callee, d.procedure)
  }

  /** The router is about to take the CALL of `d`. */
  ghost predicate Dispatches(sys: System, d: Dispatch) {
    && Queue(sys.up, d.caller) != []
    && IsCallOf(sys.router.dealer.procedures, d.caller, Queue(sys.up, d.caller)[0], d)
  }

  lemma CallIsDispatched(st: R.RouterState, s: Session, m: Message, draw: Id, inv: Id)
    requires inv in DispatchesOf(st, s, m, draw)
    ensures IsCallOf(st.dealer.procedures, s, m, DispatchesOf(st, s, m, draw)[inv])
  {}

  lemma OthersDispatchNothing(sys: System, move: Move)
    requires CanMove(sys, move) && !move.RouterTakes?
    ensures After(sys, move).h.dispatched == sys.h.dispatched
  {}

  lemma RoutingDispatches(sys: System, s: Session, verdict: R.Verdict, draw: Id)
    requires CanMove(sys, RouterTakes(s, verdict, draw))
    ensures var m := Queue(sys.up, s)[0];
            DoRoute(sys, s, verdict, draw).h.dispatched
            == sys.h.dispatched
               + if verdict == R.Authorized && Routable(m) then DispatchesOf(sys.router, s, m, draw) else map[]
  {
    assert sys.h.dispatched + map[] == sys.h.dispatched;
  }

  /** Every invocation was dispatched, at some moment of the run, to the session that held
      the called procedure at that moment. */
  lemma {:induction false} DispatchedToHolder(tr: Trace, inv: Id) returns (early: Trace)
    requires Possible(tr) && inv in Final(tr).h.dispatched
    ensures Continues(tr, early) && Possible(early) && Dispatches(Final(early), Final(tr).h.dispatched[inv])
  {
    var sys := Final(tr.before);
    if inv in sys.h.dispatched && Final(tr).h.dispatched[inv] == sys.h.dispatched[inv] {
      early := DispatchedToHolder(tr.before, inv);
    } else {
      early := tr.before;
      if tr.move.RouterTakes? {
        RoutingDispatches(sys, tr.move.s, tr.move.verdict, tr.move.draw);
        CallIsDispatched(sys.router, tr.move.s, Queue(sys.up, tr.move.s)[0], tr.move.draw, inv);
      } else {
        OthersDispatchNothing(sys, tr.move);
      }
    }
  }

  /** Every handler entry of a client is live at the router under the same name and for the
      same session, unless the client has sent the message that gives it up or its session
      has ended. */
  lemma {:induction false} ClientAndRouterAgree(tr: Trace, s: Session, id: Id)
    requires Possible(tr) && s in Final(tr).clients
    ensures var sys := Final(tr);
            var c := sys.clients[s];
            && (id in c.events && id !in sys.h.released && s !in sys.ended ==>
                  id in sys.router.live && sys.router.live[id] == B.Subscription(s, c.events[id].name))
            && (id in c.procedures && id !in sys.h.released && s !in sys.ended ==>
                  && id in sys.router.dealer.procedures
                  && sys.router.dealer.procedures[id] == D.RemoteProcedure(s, c.procedures[id].name))
  {
    Invariant(tr);
    assert ClientGood(Final(tr).h, s, Final(tr).clients[s]);
  }

  lemma ExactMeans(index: Index, owner: map<Id, Session>, used: set<Id>, s: Session, id: Id)
    requires Exact(index, owner, used)
    ensures id in Entries(index, s) <==> id in owner && owner[id] == s
  {}

  /** The router's per-session sets hold exactly the live ids of each session. */
  lemma {:induction false} SessionSetsAreExact(tr: Trace, s: Session, id: Id)
    requires Possible(tr)
    ensures var sys := Final(tr);
            && (id in Entries(sys.subs, s) <==> id in sys.router.live && sys.router.live[id].session == s)
            && (id in Entries(sys.regs, s) <==>
                  id in sys.router.dealer.procedures && sys.router.dealer.procedures[id].endpoint == s)
  {
    Invariant(tr);
    ExactMeans(Final(tr).subs, B.Owners(Final(tr).router.live), Final(tr).used, s, id);
    ExactMeans(Final(tr).regs, D.Owners(Final(tr).router.dealer.procedures), Final(tr).used, s, id);
  }

  lemma OwnRemoval(h: History, st: R.RouterState, ended: set<Session>, s: Session, m: Message)
    requires UpGood(h, s, m) && GrantsGood(h, st, ended)
    ensures m.Unsubscribe? && m.subscription in st.live ==> st.live[m.subscription].session == s
    ensures m.Unregister? && m.registration in st.dealer.procedures ==>
              st.dealer.procedures[m.registration].endpoint == s
  {}

  /** Whatever UNSUBSCRIBE or UNREGISTER is on its way, it removes nothing of another session. */
  lemma {:induction false} RemovalsAreOwn(tr: Trace, s: Session, m: Message)
    requires Possible(tr) && m in Queue(Final(tr).up, s)
    ensures var st := Final(tr).router;
            && (m.Unsubscribe? && m.subscription in st.live ==> st.live[m.subscription].session == s)
            && (m.Unregister? && m.registration in st.dealer.procedures ==>
                  st.dealer.procedures[m.registration].endpoint == s)
  {
    Invariant(tr);
    OwnRemoval(Final(tr).h, Final(tr).router, Final(tr).ended, s, m);
  }
}
