/** What holds in every run of clients and router together. */
module RpcInvariants {
  import opened Wamp
  import opened ClientMachine
  import opened RpcSystem
  import opened SessionIndex
  import Correlation
  import R = RealmSpec
  import B = BrokerSpec
  import D = DealerSpec

  // ---------- what messages may say ----------

  predicate GrantedTo(h: History, id: Id, g: Grant) {
    id in h.granted && h.granted[id] == g
  }

  /** A client removes only what the router granted to it. */
  predicate TargetOk(h: History, s: Session, request: Request) {
    match request
    case WantUnsubscribe(topic, target) => GrantedTo(h, target, Grant(true, s, topic))
    case WantUnregister(procedure, target) => GrantedTo(h, target, Grant(false, s, procedure))
    case _ => true
  }

  predicate Runs(e: Execution, inv: Id, d: Dispatch, result: HandlerResult) {
    && e.invocation == inv && e.callee == d.callee && e.registration == d.registration
    && e.desc.name == d.procedure && e.args == d.payload && e.result == result
  }

  /** The callee of invocation `inv` ran a handler of the called procedure on the call's
      arguments and got `result`. */
  ghost predicate Produced(h: History, inv: Id, result: HandlerResult) {
    inv in h.dispatched && exists e :: e in h.executed && Runs(e, inv, h.dispatched[inv], result)
  }

  /** Invocation `inv` was made for this call. */
  predicate DispatchedFor(h: History, s: Session, call: Request, id: Id, inv: Id)
    requires call.WantCall?
  {
    && inv in h.dispatched
    && h.dispatched[inv].caller == s && h.dispatched[inv].request == id
    && h.dispatched[inv].procedure == call.procedure && h.dispatched[inv].payload == call.payload
  }

  /** `result` is what invocation `inv` of the call produced. */
  ghost predicate ResultOf(h: History, s: Session, call: Request, id: Id, inv: Id, result: HandlerResult)
    requires call.WantCall?
  {
    DispatchedFor(h, s, call, id, inv) && Produced(h, inv, result)
  }

  /** The router's own answer to a CALL that it does not dispatch. */
  predicate IsRouterRefusal(m: Message)
    requires m.Error?
  {
    m.payload == NO_PAYLOAD && m.error in {ERR_NO_SUCH_PROCEDURE, ERR_NOT_AUTHORIZED, ERR_AUTHORIZATION_FAILED}
  }

  /** The answer of a client that has no handler for the registration. */
  predicate IsNoHandler(m: Message)
    requires m.Error?
  {
    m.payload == NO_PAYLOAD && m.error == NO_HANDLER
  }

  /** What the callee of invocation `inv` answers with the error of `m`. */
  ghost predicate Fails(h: History, inv: Id, m: Message)
    requires m.Error?
  {
    inv in h.dispatched && (IsNoHandler(m) || (m.error != "" && Produced(h, inv, HandlerResult(m.payload, m.error))))
  }

  /** `m` is an error that invocation `inv` of the call ended with. */
  ghost predicate ErrorOf(h: History, s: Session, call: Request, id: Id, inv: Id, m: Message)
    requires call.WantCall? && m.Error?
  {
    DispatchedFor(h, s, call, id, inv) && Fails(h, inv, m)
  }

  /** A response that fulfils a request says the truth about it. */
  ghost predicate GoodFor(h: History, s: Session, request: Request, id: Id, m: Message) {
    match request
    case WantSubscribe(topic, _) => m.Subscribed? ==> GrantedTo(h, m.subscription, Grant(true, s, topic))
    case WantRegister(procedure, _) => m.Registered? ==> GrantedTo(h, m.registration, Grant(false, s, procedure))
    case WantCall(_, _, _) =>
      && (m.Result? ==> exists inv :: ResultOf(h, s, request, id, inv, HandlerResult(m.payload, "")))
      && (m.Error? && m.typ == CALL ==> IsRouterRefusal(m) || exists inv :: ErrorOf(h, s, request, id, inv, m))
    case _ => true
  }

  /** A message in the pipe from client `s` to the router. */
  ghost predicate UpGood(h: History, s: Session, m: Message) {
    if IsCallerMessage(m) then
      && m.request in h.asked && h.asked[m.request].session == s
      && m == Wire(h.asked[m.request].request, m.request)
      && m.request in h.stage && h.stage[m.request] == Up
      && TargetOk(h, s, h.asked[m.request].request)
      && Released(h.asked[m.request].request) <= h.released
    else if m.Yield? then Produced(h, m.request, HandlerResult(m.payload, "")) && h.dispatched[m.request].callee == s
    else m.Error? && m.typ == INVOCATION && Fails(h, m.request, m) && h.dispatched[m.request].callee == s
  }

  /** A response other than the refusal of a request, which may carry any request id. */
  predicate IsOutcome(m: Message) {
    IsResponse(m) && (m.Error? ==> m.typ == CALL)
  }

  /** A message on its way from the router to client `s`. */
  ghost predicate DownGood(h: History, s: Session, m: Message) {
    if IsOutcome(m) then
      && m.request in h.asked && h.asked[m.request].session == s
      && GoodFor(h, s, h.asked[m.request].request, m.request, m)
    else if m.Invocation? then
      && m.request in h.dispatched
      && var d := h.dispatched[m.request];
         d.callee == s && d.registration == m.registration && d.payload == m.payload
    else true
  }

  ghost predicate UpDistinct(q: seq<Message>) {
    forall i, j :: 0 <= i < j < |q| && IsCallerMessage(q[i]) && IsCallerMessage(q[j]) ==> q[i].request != q[j].request
  }

  // ---------- what a client knows ----------

  /** The call registered handler `desc` and got registration `id` for it. */
  predicate Registers(caller: Caller, id: Id, desc: Desc) {
    && caller.request == WantRegister(desc.name, desc.handler)
    && caller.pc.Done? && caller.pc.outcome.Fulfilled?
    && caller.pc.outcome.m.Registered? && caller.pc.outcome.m.registration == id
  }

  predicate HasRegistered(c: Client, id: Id, desc: Desc) {
    exists t :: t in c.callers && Registers(c.callers[t], id, desc)
  }

  ghost predicate CallerGood(h: History, s: Session, t: Tid, caller: Caller) {
    && TargetOk(h, s, caller.request)
    && (!caller.pc.Done? ==> caller.id in h.asked && h.asked[caller.id] == Asked(s, t, caller.request))
    && (caller.pc.Begun? || caller.pc.Listening? ==> caller.id in h.stage && h.stage[caller.id] == Unsent)
    && match caller.pc
       case Holding(m) => GoodFor(h, s, caller.request, caller.id, m)
       case Settled(m) => GoodFor(h, s, caller.request, caller.id, m)
       case Done(Fulfilled(m)) => Fulfils(m, caller.request) && GoodFor(h, s, caller.request, caller.id, m)
       case Done(Refused(m)) => GoodFor(h, s, caller.request, caller.id, m)
       case _ => true
  }

  ghost predicate JobGood(h: History, s: Session, c: Client, job: Job) {
    && job.invocation in h.dispatched
    && var d := h.dispatched[job.invocation];
       && d.callee == s && d.payload == job.payload
       && d.procedure == job.desc.name && d.registration == job.registration
       && HasRegistered(c, job.registration, job.desc)
  }

  ghost predicate CallersGood(h: History, s: Session, c: Client) {
    forall t :: t in c.callers ==> CallerGood(h, s, t, c.callers[t])
  }

  ghost predicate ChansGood(h: History, s: Session, c: Client) {
    forall t :: t in c.chans && t in c.callers && |c.chans[t]| == 1 ==>
      GoodFor(h, s, c.callers[t].request, c.callers[t].id, c.chans[t][0])
  }

  /** The message in the receive loop's hand. */
  ghost predicate HandGood(h: History, s: Session, c: Client) {
    && (c.recv.Delivering? && c.recv.chan in c.callers ==>
          GoodFor(h, s, c.callers[c.recv.chan].request, c.callers[c.recv.chan].id, c.recv.m))
    && (c.recv.Refusing? ==>
          && c.recv.m.Error? && c.recv.m.typ == INVOCATION && IsNoHandler(c.recv.m)
          && c.recv.m.request in h.dispatched && h.dispatched[c.recv.m.request].callee == s)
  }

  ghost predicate MapsGood(h: History, s: Session, c: Client) {
    && (forall id :: id in c.events ==> GrantedTo(h, id, Grant(true, s, c.events[id].name)))
    && (forall id :: id in c.procedures ==>
          && GrantedTo(h, id, Grant(false, s, c.procedures[id].name))
          && HasRegistered(c, id, c.procedures[id]))
    && (forall job :: job in c.jobs ==> JobGood(h, s, c, job))
  }

  ghost predicate ClientGood(h: History, s: Session, c: Client) {
    && Correlation.ClientInv(c) && Correlation.OwnListeners(c)
    && CallersGood(h, s, c) && ChansGood(h, s, c) && HandGood(h, s, c) && MapsGood(h, s, c)
  }

  // ---------- what the router knows ----------

  /** Live entries are granted, and a granted id stays live until its owner gives it up or
      its session ends. */
  ghost predicate GrantsGood(h: History, st: R.RouterState, ended: set<Session>) {
    && (forall id :: id in st.live ==> GrantedTo(h, id, Grant(true, st.live[id].session, st.live[id].topic)))
    && (forall id :: id in st.dealer.procedures ==>
          GrantedTo(h, id, Grant(false, st.dealer.procedures[id].endpoint, st.dealer.procedures[id].procedure)))
    && (forall id :: id in h.granted && id !in h.released && h.granted[id].session !in ended ==>
          var g := h.granted[id];
          if g.ofTopic then id in st.live && st.live[id] == B.Subscription(g.session, g.uri)
          else id in st.dealer.procedures && st.dealer.procedures[id] == D.RemoteProcedure(g.session, g.uri))
  }

  /** Invocation `inv` is pending for a call that is pending. */
  ghost predicate InvocationGood(h: History, st: D.DealerState, inv: Id)
    requires inv in st.invocations
  {
    var r := st.invocations[inv];
    && inv in h.dispatched && h.dispatched[inv].request == r
    && r in st.calls && st.calls[r] == h.dispatched[inv].caller
    && r in h.asked && h.asked[r].session == h.dispatched[inv].caller && h.asked[r].request.WantCall?
    && h.asked[r].request.procedure == h.dispatched[inv].procedure
    && h.asked[r].request.payload == h.dispatched[inv].payload
  }

  ghost predicate PendingGood(h: History, st: D.DealerState) {
    && (forall r :: r in st.calls ==> r in h.stage && h.stage[r] == Pending)
    && (forall inv :: inv in st.invocations ==> InvocationGood(h, st, inv))
    && (forall a, b :: a in st.invocations && b in st.invocations && st.invocations[a] == st.invocations[b] ==> a == b)
  }

  ghost predicate DispatchesGood(h: History) {
    forall inv :: inv in h.dispatched ==>
      GrantedTo(h, h.dispatched[inv].registration, Grant(false, h.dispatched[inv].callee, h.dispatched[inv].procedure))
  }

  ghost predicate ExecutionsGood(h: History, clients: map<Session, Client>) {
    forall e :: e in h.executed ==>
      e.callee in clients && HasRegistered(clients[e.callee], e.registration, e.desc)
  }

  ghost predicate IdsUsed(h: History, used: set<Id>) {
    h.granted.Keys <= used && h.dispatched.Keys <= used && h.released <= h.granted.Keys
  }

  ghost predicate IndexesExact(sys: System) {
    && Indexed(sys.subs, B.Owners(sys.router.live), sys.used) && NoStale(sys.subs, B.Owners(sys.router.live))
    && Indexed(sys.regs, D.Owners(sys.router.dealer.procedures), sys.used)
    && NoStale(sys.regs, D.Owners(sys.router.dealer.procedures))
  }

  ghost predicate PipesGood(sys: System) {
    && (forall s, m :: m in Queue(sys.up, s) ==> UpGood(sys.h, s, m))
    && (forall s :: UpDistinct(Queue(sys.up, s)))
    && (forall s, m :: m in Queue(sys.down, s) ==> DownGood(sys.h, s, m))
    && (forall s, e :: e in Queue(sys.outbox, s) ==> DownGood(sys.h, e.to, e.msg))
  }

  ghost predicate ClientsGood(sys: System) {
    forall s :: s in sys.clients ==> ClientGood(sys.h, s, sys.clients[s])
  }

  ghost predicate Inv(sys: System) {
    && ClientsGood(sys)
    && PipesGood(sys)
    && GrantsGood(sys.h, sys.router, sys.ended)
    && PendingGood(sys.h, sys.router.dealer)
    && DispatchesGood(sys.h)
    && ExecutionsGood(sys.h, sys.clients)
    && IdsUsed(sys.h, sys.used)
    && IndexesExact(sys)
  }

  // ---------- the history only grows ----------

  ghost predicate Grows(h: History, h': History) {
    && (forall id :: id in h.granted ==> id in h'.granted && h'.granted[id] == h.granted[id])
    && (forall inv :: inv in h.dispatched ==> inv in h'.dispatched && h'.dispatched[inv] == h.dispatched[inv])
    && h.executed <= h'.executed && h.released <= h'.released
  }

  /** The request id still means the same API call. */
  ghost predicate SameAsk(h: History, h': History, r: Id) {
    r in h.asked ==> r in h'.asked && h'.asked[r] == h.asked[r]
  }

  ghost predicate SameStage(h: History, h': History, r: Id) {
    r in h.stage ==> r in h'.stage && h'.stage[r] == h.stage[r]
  }

  lemma ProducedKept(h: History, h': History, inv: Id, result: HandlerResult)
    requires Produced(h, inv, result) && Grows(h, h')
    ensures Produced(h', inv, result)
  {}

  lemma FailsKept(h: History, h': History, inv: Id, m: Message)
    requires m.Error? && Fails(h, inv, m) && Grows(h, h')
    ensures Fails(h', inv, m)
  {
    if !IsNoHandler(m) {
      ProducedKept(h, h', inv, HandlerResult(m.payload, m.error));
    }
  }

  lemma GoodForKept(h: History, h': History, s: Session, request: Request, id: Id, m: Message)
    requires GoodFor(h, s, request, id, m) && Grows(h, h')
    ensures GoodFor(h', s, request, id, m)
  {
    if request.WantCall? && m.Result? {
      var inv :| ResultOf(h, s, request, id, inv, HandlerResult(m.payload, ""));
      ProducedKept(h, h', inv, HandlerResult(m.payload, ""));
      assert ResultOf(h', s, request, id, inv, HandlerResult(m.payload, ""));
    } else if request.WantCall? && m.Error? && m.typ == CALL && !IsRouterRefusal(m) {
      var inv :| ErrorOf(h, s, request, id, inv, m);
      FailsKept(h, h', inv, m);
      assert ErrorOf(h', s, request, id, inv, m);
    }
  }

  lemma UpGoodKept(h: History, h': History, s: Session, m: Message)
    requires UpGood(h, s, m) && Grows(h, h')
    requires IsCallerMessage(m) ==> SameAsk(h, h', m.request) && SameStage(h, h', m.request)
    ensures UpGood(h', s, m)
  {
    if m.Yield? {
      ProducedKept(h, h', m.request, HandlerResult(m.payload, ""));
    } else if m.Error? {
      FailsKept(h, h', m.request, m);
    }
  }

  lemma DownGoodKept(h: History, h': History, s: Session, m: Message)
    requires DownGood(h, s, m) && Grows(h, h')
    requires IsResponse(m) ==> SameAsk(h, h', m.request)
    ensures DownGood(h', s, m)
  {
    if IsOutcome(m) {
      GoodForKept(h, h', s, h.asked[m.request].request, m.request, m);
    }
  }

  lemma CallerGoodKept(h: History, h': History, s: Session, t: Tid, caller: Caller)
    requires CallerGood(h, s, t, caller) && Grows(h, h')
    requires !caller.pc.Done? ==> SameAsk(h, h', caller.id)
    requires caller.pc.Begun? || caller.pc.Listening? ==> SameStage(h, h', caller.id)
    ensures CallerGood(h', s, t, caller)
  {
    match caller.pc
    case Holding(m) => GoodForKept(h, h', s, caller.request, caller.id, m);
    case Settled(m) => GoodForKept(h, h', s, caller.request, caller.id, m);
    case Done(Fulfilled(m)) => GoodForKept(h, h', s, caller.request, caller.id, m);
    case Done(Refused(m)) => GoodForKept(h, h', s, caller.request, caller.id, m);
    case _ =>
  }

  lemma CallersGoodKept(h: History, h': History, s: Session, c: Client)
    requires CallersGood(h, s, c) && Grows(h, h')
    requires forall t :: t in c.callers && !c.callers[t].pc.Done? ==> SameAsk(h, h', c.callers[t].id)
    requires forall t :: t in c.callers && (c.callers[t].pc.Begun? || c.callers[t].pc.Listening?) ==>
               SameStage(h, h', c.callers[t].id)
    ensures CallersGood(h', s, c)
  {
    forall t | t in c.callers ensures CallerGood(h', s, t, c.callers[t]) {
      CallerGoodKept(h, h', s, t, c.callers[t]);
    }
  }

  lemma ChansGoodKept(h: History, h': History, s: Session, c: Client)
    requires ChansGood(h, s, c) && Grows(h, h')
    ensures ChansGood(h', s, c)
  {
    forall t | t in c.chans && t in c.callers && |c.chans[t]| == 1
      ensures GoodFor(h', s, c.callers[t].request, c.callers[t].id, c.chans[t][0])
    {
      GoodForKept(h, h', s, c.callers[t].request, c.callers[t].id, c.chans[t][0]);
    }
  }

  lemma HandGoodKept(h: History, h': History, s: Session, c: Client)
    requires HandGood(h, s, c) && Grows(h, h')
    ensures HandGood(h', s, c)
  {
    if c.recv.Delivering? && c.recv.chan in c.callers {
      GoodForKept(h, h', s, c.callers[c.recv.chan].request, c.callers[c.recv.chan].id, c.recv.m);
    }
  }

  lemma MapsGoodKept(h: History, h': History, s: Session, c: Client)
    requires MapsGood(h, s, c) && Grows(h, h')
    ensures MapsGood(h', s, c)
  {}

  /** A client that does not move stays good while the others move. */
  lemma ClientGoodKept(h: History, h': History, s: Session, c: Client)
    requires ClientGood(h, s, c) && Grows(h, h')
    requires forall t :: t in c.callers && !c.callers[t].pc.Done? ==> SameAsk(h, h', c.callers[t].id)
    requires forall t :: t in c.callers && (c.callers[t].pc.Begun? || c.callers[t].pc.Listening?) ==>
               SameStage(h, h', c.callers[t].id)
    ensures ClientGood(h', s, c)
  {
    CallersGoodKept(h, h', s, c);
    ChansGoodKept(h, h', s, c);
    HandGoodKept(h, h', s, c);
    MapsGoodKept(h, h', s, c);
  }
}
