/** A run in which a router-drawn id meets a request id: a refused YIELD blocks the receive
    loop of the client that sent it. */
module RpcCollision {
  import opened Wamp
  import opened ClientMachine
  import opened RpcSystem
  import opened RpcDelivery
  import opened RpcInvariants
  import opened RpcTheorems
  import Correlation
  import R = RealmSpec
  import D = DealerSpec

  /** Client `c` of session `s` is the only one, and these are its pipes. */
  ghost predicate Alone(sys: System, s: Session, c: Client, up: seq<Message>, down: seq<Message>, out: seq<Envelope>) {
    && sys.clients == map[s := c] && s !in sys.ended
    && Queue(sys.up, s) == up && Queue(sys.down, s) == down && Queue(sys.outbox, s) == out
    && forall u :: u != s ==> Queue(sys.up, u) == [] && Queue(sys.down, u) == [] && Queue(sys.outbox, u) == []
  }

  ghost predicate SameRouter(sys: System, sys': System) {
    sys'.router == sys.router && sys'.used == sys.used
  }

  /** One step of the client that neither sends nor receives. */
  lemma Steps(tr: Trace, s: Session, c: Client, step: Step) returns (tr': Trace)
    requires Possible(tr) && Alone(Final(tr), s, c, [], [], [])
    requires Enabled(c, step) && !step.Begin? && !step.Accept? && Output(c, step).None?
    ensures Possible(tr') && Alone(Final(tr'), s, Do(c, step), [], [], []) && SameRouter(Final(tr), Final(tr'))
  {
    tr' := Then(tr, ClientStep(s, step));
  }

  lemma SaysAlone(sys: System, s: Session, c: Client, step: Step, m: Message)
    requires Alone(sys, s, c, [], [], []) && Enabled(c, step) && !step.Accept? && Output(c, step) == Some(m)
    ensures Alone(DoClient(sys, s, step), s, Do(c, step), [m], [], []) && SameRouter(sys, DoClient(sys, s, step))
  {
    var sys' := DoClient(sys, s, step);
    DoClientMoves(sys, s, step);
    assert sys'.clients == map[s := Do(c, step)];
    assert sys'.up == sys.up[s := [] + [m]] && Queue(sys'.up, s) == [m];
    forall u | u != s ensures Queue(sys'.up, u) == Queue(sys.up, u) {}
  }

  lemma Says(tr: Trace, s: Session, c: Client, step: Step, m: Message) returns (tr': Trace)
    requires Possible(tr) && Alone(Final(tr), s, c, [], [], [])
    requires Enabled(c, step) && !step.Begin? && !step.Accept? && Output(c, step) == Some(m)
    ensures Possible(tr') && Alone(Final(tr'), s, Do(c, step), [m], [], []) && SameRouter(Final(tr), Final(tr'))
  {
    SaysAlone(Final(tr), s, c, step, m);
    tr' := Then(tr, ClientStep(s, step));
  }

  lemma Reads(tr: Trace, s: Session, c: Client, m: Message) returns (tr': Trace)
    requires Possible(tr) && Alone(Final(tr), s, c, [], [m], []) && Enabled(c, Accept(m))
    ensures Possible(tr') && Alone(Final(tr'), s, Do(c, Accept(m)), [], [], []) && SameRouter(Final(tr), Final(tr'))
  {
    tr' := Then(tr, ClientStep(s, Accept(m)));
  }

  // ---------- a call is made ----------

  /** No call has the request id, in the client or at the router. */
  ghost predicate NewId(sys: System, c: Client, id: Id) {
    && (forall u :: u in c.callers ==> c.callers[u].id != id)
    && id !in sys.router.dealer.calls
    && forall inv :: inv in sys.router.dealer.invocations ==> sys.router.dealer.invocations[inv] != id
  }

  function Beginning(c: Client, t: Tid, request: Request, id: Id): Client {
    c.(callers := c.callers[t := Caller(request, id, Begun)])
  }

  function Listened(c: Client, t: Tid, request: Request, id: Id, pc: Pc): Client {
    c.(callers := c.callers[t := Caller(request, id, pc)], listeners := c.listeners[id := t], chans := c.chans[t := []])
  }

  /** The client whose call `t` has sent its request. */
  function Asking(c: Client, t: Tid, request: Request, id: Id): Client {
    Listened(c, t, request, id, Sent)
  }

  lemma Begins(tr: Trace, s: Session, c: Client, t: Tid, request: Request, id: Id) returns (tr': Trace)
    requires Possible(tr) && Alone(Final(tr), s, c, [], [], []) && NewId(Final(tr), c, id)
    requires Enabled(c, Begin(t, request, id))
    ensures Possible(tr') && Alone(Final(tr'), s, Beginning(c, t, request, id), [], [], [])
    ensures SameRouter(Final(tr), Final(tr'))
  {
    tr' := Then(tr, ClientStep(s, Begin(t, request, id)));
  }

  lemma ListenIs(c: Client, t: Tid, request: Request, id: Id)
    ensures var c' := Beginning(c, t, request, id);
            Enabled(c', Listen(t)) && Do(c', Listen(t)) == Listened(c, t, request, id, Listening)
  {}

  lemma TransmitIs(c: Client, t: Tid, request: Request, id: Id)
    ensures var c' := Listened(c, t, request, id, Listening);
            && Enabled(c', Transmit(t)) && Output(c', Transmit(t)) == Some(Wire(request, id))
            && Do(c', Transmit(t)) == Asking(c, t, request, id)
  {}

  lemma Asks(tr: Trace, s: Session, c: Client, t: Tid, request: Request, id: Id) returns (tr': Trace)
    requires Possible(tr) && Alone(Final(tr), s, c, [], [], []) && NewId(Final(tr), c, id)
    requires Enabled(c, Begin(t, request, id))
    ensures Possible(tr') && Alone(Final(tr'), s, Asking(c, t, request, id), [Wire(request, id)], [], [])
    ensures SameRouter(Final(tr), Final(tr'))
  {
    var tr1 := Begins(tr, s, c, t, request, id);
    ListenIs(c, t, request, id);
    var tr2 := Steps(tr1, s, Beginning(c, t, request, id), Listen(t));
    TransmitIs(c, t, request, id);
    tr' := Says(tr2, s, Listened(c, t, request, id, Listening), Transmit(t), Wire(request, id));
  }

  // ---------- the router answers ----------

  lemma TakesAlone(sys: System, s: Session, c: Client, m: Message, verdict: R.Verdict, draw: Id)
    requires Alone(sys, s, c, [m], [], []) && draw !in sys.used
    ensures var sys' := DoRoute(sys, s, verdict, draw);
            && Alone(sys', s, c, [], [], Outs(sys.router, s, m, verdict, draw)) && sys'.used == sys.used + {draw}
            && (verdict == R.Authorized && Routable(m) ==> sys'.router == R.Effect(sys.router, s, m, draw))
  {
    var sys' := DoRoute(sys, s, verdict, draw);
    assert CanMove(sys, RouterTakes(s, verdict, draw));
    RouteIs(sys, s, verdict, draw);
    assert Queue(sys'.up, s) == [] && sys'.ended == sys.ended;
    forall u | u != s ensures Queue(sys'.up, u) == Queue(sys.up, u) {}
  }

  lemma Takes(tr: Trace, s: Session, c: Client, m: Message, verdict: R.Verdict, draw: Id) returns (tr': Trace)
    requires Possible(tr) && Alone(Final(tr), s, c, [m], [], []) && draw !in Final(tr).used
    ensures Possible(tr') && Alone(Final(tr'), s, c, [], [], Outs(Final(tr).router, s, m, verdict, draw))
    ensures Final(tr').used == Final(tr).used + {draw}
    ensures verdict == R.Authorized && Routable(m) ==> Final(tr').router == R.Effect(Final(tr).router, s, m, draw)
  {
    TakesAlone(Final(tr), s, c, m, verdict, draw);
    tr' := Then(tr, RouterTakes(s, verdict, draw));
  }

  lemma Passes(tr: Trace, s: Session, c: Client, reply: Message) returns (tr': Trace)
    requires Possible(tr) && Alone(Final(tr), s, c, [], [], [Envelope(s, reply)])
    ensures Possible(tr') && Alone(Final(tr'), s, c, [], [reply], []) && SameRouter(Final(tr), Final(tr'))
  {
    tr' := Then(tr, RouterSends(s));
  }

  /** The router takes the message and sends its one reply. */
  lemma Replies(tr: Trace, s: Session, c: Client, m: Message, verdict: R.Verdict, draw: Id, reply: Message)
    returns (tr': Trace)
    requires Possible(tr) && Alone(Final(tr), s, c, [m], [], []) && draw !in Final(tr).used
    requires Outs(Final(tr).router, s, m, verdict, draw) == [Envelope(s, reply)]
    ensures Possible(tr') && Alone(Final(tr'), s, c, [], [reply], [])
    ensures Final(tr').used == Final(tr).used + {draw}
    ensures verdict == R.Authorized && Routable(m) ==> Final(tr').router == R.Effect(Final(tr).router, s, m, draw)
  {
    var tr1 := Takes(tr, s, c, m, verdict, draw);
    tr' := Passes(tr1, s, c, reply);
  }

  /** The client whose call `t` has got its response. */
  function Hearing(c: Client, t: Tid, m: Message): Client {
    c.(chans := c.chans[t := [m]])
  }

  /** A response is read and delivered. */
  lemma Hears(tr: Trace, s: Session, c: Client, m: Message, t: Tid) returns (tr': Trace)
    requires Possible(tr) && Alone(Final(tr), s, c, [], [m], []) && c.recv.Polling?
    requires IsResponse(m) && m.request in c.listeners && c.listeners[m.request] == t
    requires t in c.chans && c.chans[t] == []
    ensures Possible(tr') && Alone(Final(tr'), s, Hearing(c, t, m), [], [], []) && SameRouter(Final(tr), Final(tr'))
  {
    var tr1 := Reads(tr, s, c, m);
    tr' := Steps(tr1, s, Do(c, Accept(m)), Deliver);
    assert Do(Do(c, Accept(m)), Deliver) == Hearing(c, t, m);
  }

  // ---------- the call takes its response ----------

  /** The client whose call `t` is at `pc`, with `q` in its channel. */
  function Taking(c: Client, t: Tid, pc: Pc, q: seq<Message>): Client
    requires t in c.callers
  {
    c.(callers := c.callers[t := c.callers[t].(pc := pc)], chans := c.chans[t := q])
  }

  /** The client after call `t` was answered with `m`. */
  function Concluded(c: Client, t: Tid, m: Message): Client
    requires t in c.callers
  {
    var caller := c.callers[t];
    c.(callers := c.callers[t := caller.(pc := Done(OutcomeOf(m, caller.request)))],
       listeners := c.listeners - {caller.id}, chans := c.chans[t := []],
       events := EventsAfter(c.events, caller.request, m),
       procedures := ProceduresAfter(c.procedures, caller.request, m))
  }

  lemma FetchIs(c: Client, t: Tid, m: Message)
    requires At(c, t, Sent) && c.callers[t].id in c.listeners && c.listeners[c.callers[t].id] == t
    requires t in c.chans && c.chans[t] == [m]
    ensures Enabled(c, Fetch(t)) && Do(c, Fetch(t)) == Taking(c, t, Waiting(t), [m])
  {
    assert c.chans[t := [m]] == c.chans;
  }

  lemma TakeIs(c: Client, t: Tid, m: Message)
    requires t in c.callers
    ensures var c' := Taking(c, t, Waiting(t), [m]);
            Enabled(c', Take(t)) && Do(c', Take(t)) == Taking(c, t, Holding(m), [])
  {}

  lemma DropIs(c: Client, t: Tid, m: Message)
    requires t in c.callers
    ensures var c' := Taking(c, t, Holding(m), []);
            && Enabled(c', Drop(t))
            && Do(c', Drop(t)) == Taking(c, t, Settled(m), []).(listeners := c.listeners - {c.callers[t].id})
  {}

  lemma SettleIs(c: Client, t: Tid, m: Message)
    requires t in c.callers
    ensures var c' := Taking(c, t, Settled(m), []).(listeners := c.listeners - {c.callers[t].id});
            Enabled(c', Settle(t)) && Do(c', Settle(t)) == Concluded(c, t, m)
  {}

  lemma Finishes(tr: Trace, s: Session, c: Client, t: Tid, m: Message) returns (tr': Trace)
    requires Possible(tr) && Alone(Final(tr), s, c, [], [], [])
    requires At(c, t, Sent) && c.callers[t].id in c.listeners && c.listeners[c.callers[t].id] == t
    requires t in c.chans && c.chans[t] == [m]
    ensures Possible(tr') && Alone(Final(tr'), s, Concluded(c, t, m), [], [], []) && SameRouter(Final(tr), Final(tr'))
  {
    FetchIs(c, t, m);
    var tr1 := Steps(tr, s, c, Fetch(t));
    TakeIs(c, t, m);
    var tr2 := Steps(tr1, s, Taking(c, t, Waiting(t), [m]), Take(t));
    DropIs(c, t, m);
    var tr3 := Steps(tr2, s, Taking(c, t, Holding(m), []), Drop(t));
    SettleIs(c, t, m);
    tr' := Steps(tr3, s, Taking(c, t, Settled(m), []).(listeners := c.listeners - {c.callers[t].id}), Settle(t));
  }

  // ---------- the run ----------

  const SESSION := Session(1, 1)
  const REGISTER_P := WantRegister("p", 0)
  const SUBSCRIBE_Q := WantSubscribe("q", 0)
  const CALL_P := WantCall("p", map[], NO_PAYLOAD)
  const JOB := Job(8, 7, Desc("p", 0), NO_PAYLOAD)
  const DEALER := D.DealerState(map[7 := D.RemoteProcedure(SESSION, "p")], map[], map[])

  /** The client that has registered "p". */
  const CALLEE := Client(map[], map[1 := []], map[], map[7 := Desc("p", 0)],
                         map[1 := Caller(REGISTER_P, 1, Done(Fulfilled(Registered(1, 7))))], Polling, multiset{})

  /** Its SUBSCRIBE with request id 8 is answered, which it has not noticed yet. */
  const SUBSCRIBER := Client(map[8 := 2], map[1 := [], 2 := [Subscribed(8, 9)]], map[], CALLEE.procedures,
                             CALLEE.callers[2 := Caller(SUBSCRIBE_Q, 8, Sent)], Polling, multiset{})

  /** It runs its handler for invocation 8 of its own call. */
  const WORKING := Client(SUBSCRIBER.listeners[2 := 3], SUBSCRIBER.chans[3 := []], map[], CALLEE.procedures,
                          SUBSCRIBER.callers[3 := Caller(CALL_P, 2, Sent)], Polling, multiset{JOB})

  lemma RegisterIsAnswered(st: R.RouterState)
    requires st.dealer == D.EMPTY
    ensures Outs(st, SESSION, Register(1, map[], "p"), R.Authorized, 7) == [Envelope(SESSION, Registered(1, 7))]
    ensures R.Effect(st, SESSION, Register(1, map[], "p"), 7).dealer == DEALER
  {}

  /** The call's request goes up, and its answer comes down. */
  lemma AsksAnswered(tr: Trace, c: Client, t: Tid, request: Request, id: Id, draw: Id, reply: Message)
    returns (tr': Trace)
    requires Possible(tr) && Alone(Final(tr), SESSION, c, [], [], []) && NewId(Final(tr), c, id)
    requires Enabled(c, Begin(t, request, id)) && draw !in Final(tr).used && Routable(Wire(request, id))
    requires Outs(Final(tr).router, SESSION, Wire(request, id), R.Authorized, draw) == [Envelope(SESSION, reply)]
    ensures Possible(tr') && Alone(Final(tr'), SESSION, Asking(c, t, request, id), [], [reply], [])
    ensures Final(tr').used == Final(tr).used + {draw}
    ensures Final(tr').router == R.Effect(Final(tr).router, SESSION, Wire(request, id), draw)
  {
    var tr1 := Asks(tr, SESSION, c, t, request, id);
    tr' := Replies(tr1, SESSION, Asking(c, t, request, id), Wire(request, id), R.Authorized, draw, reply);
  }

  lemma RegisteredIs()
    ensures var m := Registered(1, 7);
            var c := Asking(NEW, 1, REGISTER_P, 1);
            && c.recv.Polling? && 1 in c.listeners && c.listeners[1] == 1 && 1 in c.chans && c.chans[1] == []
            && At(Hearing(c, 1, m), 1, Sent) && Concluded(Hearing(c, 1, m), 1, m) == CALLEE
  {}

  lemma RunRegister() returns (tr: Trace)
    ensures Possible(tr) && Alone(Final(tr), SESSION, CALLEE, [], [], [])
    ensures Final(tr).router.dealer == DEALER && Final(tr).used == {7}
  {
    var m, c1 := Registered(1, 7), Asking(NEW, 1, REGISTER_P, 1);
    var tr0 := Then(Start, Connect(SESSION));
    RegisterIsAnswered(Final(tr0).router);
    var tr1 := AsksAnswered(tr0, NEW, 1, REGISTER_P, 1, 7, m);
    RegisteredIs();
    var tr2 := Hears(tr1, SESSION, c1, m, 1);
    tr := Finishes(tr2, SESSION, Hearing(c1, 1, m), 1, m);
  }

  lemma SubscribeIsAnswered(st: R.RouterState)
    requires st.dealer == DEALER
    ensures Outs(st, SESSION, Subscribe(8, map[], "q"), R.Authorized, 9) == [Envelope(SESSION, Subscribed(8, 9))]
    ensures R.Effect(st, SESSION, Subscribe(8, map[], "q"), 9).dealer == DEALER
  {}

  lemma SubscriberIs()
    ensures var c := Asking(CALLEE, 2, SUBSCRIBE_Q, 8);
            && Hearing(c, 2, Subscribed(8, 9)) == SUBSCRIBER && c.recv.Polling?
            && 8 in c.listeners && c.listeners[8] == 2 && 2 in c.chans && c.chans[2] == []
  {}

  lemma RunSubscribe() returns (tr: Trace)
    ensures Possible(tr) && Alone(Final(tr), SESSION, SUBSCRIBER, [], [], [])
    ensures Final(tr).router.dealer == DEALER && Final(tr).used == {7, 9}
  {
    var tr0 := RunRegister();
    SubscribeIsAnswered(Final(tr0).router);
    assert NewId(Final(tr0), CALLEE, 8);
    var tr1 := AsksAnswered(tr0, CALLEE, 2, SUBSCRIBE_Q, 8, 9, Subscribed(8, 9));
    SubscriberIs();
    tr := Hears(tr1, SESSION, Asking(CALLEE, 2, SUBSCRIBE_Q, 8), Subscribed(8, 9), 2);
  }

  lemma CallIsInvoked(st: R.RouterState)
    requires st.dealer == DEALER
    ensures Outs(st, SESSION, Call(2, map[], "p", NO_PAYLOAD), R.Authorized, 8)
         == [Envelope(SESSION, Invocation(8, 7, map[], NO_PAYLOAD))]
  {
    assert 7 in DEALER.procedures && D.IsRegistered(DEALER.procedures, "p");
  }

  lemma InvocationIsRead()
    ensures var c, m := Asking(SUBSCRIBER, 3, CALL_P, 2), Invocation(8, 7, map[], NO_PAYLOAD);
            Enabled(c, Accept(m)) && Do(c, Accept(m)) == WORKING
  {}

  lemma RunCall() returns (tr: Trace)
    ensures Possible(tr) && Alone(Final(tr), SESSION, WORKING, [], [], []) && Final(tr).used == {7, 9, 8}
  {
    var m := Invocation(8, 7, map[], NO_PAYLOAD);
    var tr0 := RunSubscribe();
    CallIsInvoked(Final(tr0).router);
    assert NewId(Final(tr0), SUBSCRIBER, 2);
    var tr1 := AsksAnswered(tr0, SUBSCRIBER, 3, CALL_P, 2, 8, m);
    InvocationIsRead();
    tr := Reads(tr1, SESSION, Asking(SUBSCRIBER, 3, CALL_P, 2), m);
  }

  /** It has sent its YIELD. */
  const YIELDED := WORKING.(jobs := multiset{})

  lemma YieldIsSent()
    ensures var finish := Finish(JOB, HandlerResult(NO_PAYLOAD, ""));
            && Enabled(WORKING, finish) && Output(WORKING, finish) == Some(Yield(8, map[], NO_PAYLOAD))
            && Do(WORKING, finish) == YIELDED
  {}

  lemma RunYield() returns (tr: Trace)
    ensures Possible(tr) && Alone(Final(tr), SESSION, YIELDED, [Yield(8, map[], NO_PAYLOAD)], [], [])
    ensures Final(tr).used == {7, 9, 8}
  {
    var tr0 := RunCall();
    YieldIsSent();
    tr := Says(tr0, SESSION, WORKING, Finish(JOB, HandlerResult(NO_PAYLOAD, "")), Yield(8, map[], NO_PAYLOAD));
  }

  const REFUSAL := ErrorReply(YIELD, 8, ERR_NOT_AUTHORIZED)

  lemma RefusalIsRead()
    ensures Enabled(YIELDED, Accept(REFUSAL))
    ensures Do(YIELDED, Accept(REFUSAL)) == YIELDED.(recv := Delivering(2, REFUSAL))
  {}

  lemma YieldIsRefused(st: R.RouterState)
    ensures Outs(st, SESSION, Yield(8, map[], NO_PAYLOAD), R.Denied, 10) == [Envelope(SESSION, REFUSAL)]
  {}

  lemma RunRefusal() returns (tr: Trace)
    ensures Possible(tr) && Alone(Final(tr), SESSION, YIELDED, [], [REFUSAL], [])
  {
    var tr0 := RunYield();
    YieldIsRefused(Final(tr0).router);
    tr := Replies(tr0, SESSION, YIELDED, Yield(8, map[], NO_PAYLOAD), R.Denied, 10, REFUSAL);
  }

  /** The client whose receive loop holds the refusal, while call 2 has given up waiting. */
  const LATE := YIELDED.(recv := Delivering(2, REFUSAL),
                         callers := YIELDED.callers[2 := Caller(SUBSCRIBE_Q, 8, Expired)])

  /** The receive loop holds a response for call `t`, whose channel is full and which will take
      nothing from it any more. */
  predicate Stuck(c: Client, t: Tid) {
    && c.recv.Delivering? && c.recv.chan == t && t in c.chans && c.chans[t] != []
    && t in c.callers && (c.callers[t].pc.Expired? || c.callers[t].pc.Done?)
  }

  lemma ExpiryIs()
    ensures var c := YIELDED.(recv := Delivering(2, REFUSAL));
            && Enabled(c, Fetch(2)) && Enabled(Do(c, Fetch(2)), Expire(2)) && Do(Do(c, Fetch(2)), Expire(2)) == LATE
    ensures Stuck(LATE, 2)
  {}

  lemma StuckStays(c: Client, step: Step, t: Tid)
    requires Correlation.OwnListeners(c) && Stuck(c, t) && Enabled(c, step)
    ensures Stuck(Do(c, step), t)
  {}

  lemma StuckMeans(c: Client, t: Tid)
    requires Stuck(c, t)
    ensures !Enabled(c, Deliver) && forall m :: !Enabled(c, Accept(m))
  {}

  lemma OthersLeaveClient(sys: System, move: Move, s: Session)
    requires CanMove(sys, move) && s in sys.clients && !(move.ClientStep? && move.s == s)
    ensures s in After(sys, move).clients && After(sys, move).clients[s] == sys.clients[s]
  {}

  lemma MoveStuck(sys: System, move: Move, s: Session, t: Tid)
    requires ClientsGood(sys) && CanMove(sys, move) && s in sys.clients && Stuck(sys.clients[s], t)
    ensures s in After(sys, move).clients && Stuck(After(sys, move).clients[s], t)
  {
    if move.ClientStep? && move.s == s {
      assert ClientGood(sys.h, s, sys.clients[s]);
      StuckStays(sys.clients[s], move.step, t);
      DoClientMoves(sys, s, move.step);
    } else {
      OthersLeaveClient(sys, move, s);
    }
  }

  /** Nothing that may happen later gets the receive loop going again. */
  lemma {:induction false} StuckForever(early: Trace, tr: Trace, s: Session, t: Tid)
    requires Continues(tr, early) && Possible(tr) && Possible(early)
    requires s in Final(early).clients && Stuck(Final(early).clients[s], t)
    ensures s in Final(tr).clients && Stuck(Final(tr).clients[s], t)
  {
    if tr == early {
    } else {
      StuckForever(early, tr.before, s, t);
      Invariant(tr.before);
      MoveStuck(Final(tr.before), tr.move, s, t);
    }
  }

  lemma RunExpiry() returns (tr: Trace)
    ensures Possible(tr) && Alone(Final(tr), SESSION, LATE, [], [], []) && Stuck(LATE, 2)
  {
    var c := YIELDED.(recv := Delivering(2, REFUSAL));
    var tr0 := RunRefusal();
    RefusalIsRead();
    var tr1 := Reads(tr0, SESSION, YIELDED, REFUSAL);
    ExpiryIs();
    var tr2 := Steps(tr1, SESSION, c, Fetch(2));
    tr := Steps(tr2, SESSION, Do(c, Fetch(2)), Expire(2));
  }

  /** The authorizer refuses the YIELD of invocation 8 while call 2, with request id 8, has its
      response in its channel, and the call times out at that moment: the refusal goes to the
      full channel, and however the run goes on the receive loop neither delivers nor reads. */
  lemma RefusedYieldBlocks() returns (tr: Trace)
    ensures Possible(tr) && SESSION in Final(tr).clients && Stuck(Final(tr).clients[SESSION], 2)
    ensures forall later :: Continues(later, tr) && Possible(later) ==>
              && SESSION in Final(later).clients
              && !Enabled(Final(later).clients[SESSION], Deliver)
              && forall m :: !Enabled(Final(later).clients[SESSION], Accept(m))
  {
    tr := RunExpiry();
    forall later | Continues(later, tr) && Possible(later)
      ensures SESSION in Final(later).clients && !Enabled(Final(later).clients[SESSION], Deliver)
      ensures forall m :: !Enabled(Final(later).clients[SESSION], Accept(m))
    {
      StuckForever(tr, later, SESSION, 2);
      StuckMeans(Final(later).clients[SESSION], 2);
    }
  }
}
