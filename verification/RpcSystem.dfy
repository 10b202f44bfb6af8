/** Any number of clients connected to one router by FIFO pipes. Each session's thread in the
    router takes a message, goes through its critical section, and sends afterwards. */
module RpcSystem {
  import opened Wamp
  import opened ClientMachine
  import opened SessionIndex
  import R = RealmSpec
  import M = RouterMachine
  import D = DealerSpec

  /** A subscription (`ofTopic`) or registration that the router handed out. */
  datatype Grant = Grant(ofTopic: bool, session: Session, uri: Uri)

  /** The API call that used a request id last. */
  datatype Asked = Asked(session: Session, t: Tid, request: Request)

  /** Where a request id is: not sent yet, on its way up, pending in the dealer, or answered. */
  datatype Stage = Unsent | Up | Pending | Answered

  /** An INVOCATION as the dealer made it. */
  datatype Dispatch = Dispatch(caller: Session, request: Id, procedure: Uri, payload: Payload,
                               callee: Session, registration: Id)

  /** A handler's run, with the result or the error it returned. */
  datatype Execution = Execution(invocation: Id, callee: Session, registration: Id, desc: Desc,
                                 args: Payload, result: HandlerResult)

  /** What happened, kept only to state properties. */
  datatype History = History(
    granted: map<Id, Grant>,
    asked: map<Id, Asked>,
    stage: map<Id, Stage>,
    dispatched: map<Id, Dispatch>,
    executed: set<Execution>,
    released: set<Id>)                        // ids whose UNSUBSCRIBE or UNREGISTER was sent

  datatype System = System(
    clients: map<Session, Client>,
    up: map<Session, seq<Message>>,
    down: map<Session, seq<Message>>,
    outbox: map<Session, seq<Envelope>>,      // what a session's router thread is about to send
    router: R.RouterState,
    subs: Index,                              // the broker's `sessions`
    regs: Index,                              // the dealer's `callees`
    ended: set<Session>,                      // sessions the router has removed
    used: set<Id>,                            // ids the router has drawn
    h: History)

  const INIT := System(map[], map[], map[], map[], M.EMPTY, map[], map[], {}, {},
                       History(map[], map[], map[], map[], {}, {}))

  function Queue<T>(m: map<Session, seq<T>>, s: Session): seq<T> {
    if s in m then m[s] else []
  }

  datatype Move =
    | Connect(s: Session)
    | ClientStep(s: Session, step: Step)
    | RouterTakes(s: Session, verdict: R.Verdict, draw: Id)
    | RouterSends(s: Session)
    | End(s: Session)

  predicate IsCallerMessage(m: Message) {
    m.Subscribe? || m.Unsubscribe? || m.Register? || m.Unregister? || m.Call?
  }

  /** Someone still refers to request id `r`. */
  ghost predicate Outstanding(sys: System, r: Id) {
    || (exists s, t :: s in sys.clients && t in sys.clients[s].callers
          && sys.clients[s].callers[t].id == r && !sys.clients[s].callers[t].pc.Done?)
    || r in sys.router.dealer.calls
    || (exists inv :: inv in sys.router.dealer.invocations && sys.router.dealer.invocations[inv] == r)
    || (exists s, m :: m in Queue(sys.up, s) && IsCallerMessage(m) && m.request == r)
    || (exists s, m :: m in Queue(sys.down, s) && IsResponse(m) && m.request == r)
    || (exists s, e :: e in Queue(sys.outbox, s) && IsResponse(e.msg) && e.msg.request == r)
  }

  ghost predicate CanMove(sys: System, move: Move) {
    match move
    case Connect(s) => s !in sys.clients
    case ClientStep(s, step) =>
      && s in sys.clients && Enabled(sys.clients[s], step)
      // request ids are distinct while they are outstanding
      && (step.Begin? ==> !Outstanding(sys, step.id))
      && (step.Accept? ==> Queue(sys.down, s) != [] && Queue(sys.down, s)[0] == step.m)
    case RouterTakes(s, _, draw) =>
      s !in sys.ended && Queue(sys.up, s) != [] && Queue(sys.outbox, s) == [] && draw !in sys.used
    case RouterSends(s) => Queue(sys.outbox, s) != []
    case End(s) => s !in sys.ended && Queue(sys.outbox, s) == []
  }

  // ---------- steps of a client ----------

  /** The subscription or registration a sent message gives up. */
  function Released(request: Request): set<Id> {
    match request
    case WantUnsubscribe(_, target) => {target}
    case WantUnregister(_, target) => {target}
    case _ => {}
  }

  function AfterClient(h: History, s: Session, c: Client, step: Step): History
    requires Enabled(c, step)
  {
    match step
    case Begin(t, request, id) => h.(asked := h.asked[id := Asked(s, t, request)], stage := h.stage[id := Unsent])
    case Transmit(t) =>
      h.(stage := h.stage[c.callers[t].id := Up], released := h.released + Released(c.callers[t].request))
    case Finish(job, result) =>
      h.(executed := h.executed + {Execution(job.invocation, s, job.registration, job.desc, job.payload, result)})
    case _ => h
  }

  function DoClient(sys: System, s: Session, step: Step): System
    requires s in sys.clients && Enabled(sys.clients[s], step)
    requires step.Accept? ==> Queue(sys.down, s) != []
  {
    var c := sys.clients[s];
    sys.(clients := sys.clients[s := Do(c, step)],
         up := match Output(c, step) case None => sys.up case Some(m) => sys.up[s := Queue(sys.up, s) + [m]],
         down := if step.Accept? then sys.down[s := Queue(sys.down, s)[1..]] else sys.down,
         h := AfterClient(sys.h, s, c, step))
  }

  // ---------- steps of the router ----------

  predicate Routable(m: Message) {
    m.Subscribe? || m.Unsubscribe? || R.IsDealerMessage(m)
  }

  /** The request id that a YIELD or ERROR answers. */
  function AnsweredBy(st: D.DealerState, m: Message): set<Id>
    requires D.IsAnswer(m)
  {
    if m.request in st.invocations then {st.invocations[m.request]} else {}
  }

  /** What the router hands out for a message. */
  ghost function GrantsOf(st: R.RouterState, s: Session, m: Message, draw: Id): map<Id, Grant> {
    if m.Subscribe? then map[draw := Grant(true, s, m.topic)]
    else if m.Register? && !D.IsRegistered(st.dealer.procedures, m.procedure) then
      map[draw := Grant(false, s, m.procedure)]
    else map[]
  }

  /** The invocation the dealer makes of a message. */
  ghost function DispatchesOf(st: R.RouterState, s: Session, m: Message, draw: Id): map<Id, Dispatch> {
    if m.Call? && D.IsRegistered(st.dealer.procedures, m.procedure) then
      var reg := D.RegistrationOf(st.dealer.procedures, m.procedure);
      map[draw := Dispatch(s, m.request, m.procedure, m.payload, st.dealer.procedures[reg].endpoint, reg)]
    else map[]
  }

  /** The request ids that a message brings to a new stage. */
  ghost function StagesOf(st: R.RouterState, m: Message): map<Id, Stage>
    requires Routable(m)
  {
    if D.IsAnswer(m) then map r | r in AnsweredBy(st.dealer, m) :: Answered
    else if m.Call? && D.IsRegistered(st.dealer.procedures, m.procedure) then map[m.request := Pending]
    else map[m.request := Answered]
  }

  ghost function AfterMessage(h: History, st: R.RouterState, s: Session, m: Message, draw: Id): History
    requires Routable(m)
  {
    h.(granted := h.granted + GrantsOf(st, s, m, draw),
       dispatched := h.dispatched + DispatchesOf(st, s, m, draw),
       stage := h.stage + StagesOf(st, m))
  }

  function AfterRefusal(h: History, m: Message): History {
    if IsCallerMessage(m) then h.(stage := h.stage[m.request := Answered]) else h
  }

  ghost function SubsAfter(sys: System, s: Session, m: Message, draw: Id): Index {
    if m.Subscribe? then AddEntry(sys.subs, s, draw)
    else if m.Unsubscribe? && m.subscription in sys.router.live then RemoveEntry(sys.subs, s, m.subscription)
    else sys.subs
  }

  ghost function RegsAfter(sys: System, s: Session, m: Message, draw: Id): Index {
    if m.Register? && !D.IsRegistered(sys.router.dealer.procedures, m.procedure) then AddEntry(sys.regs, s, draw)
    else if m.Unregister? && m.registration in sys.router.dealer.procedures then
      RemoveEntry(sys.regs, s, m.registration)
    else sys.regs
  }

  ghost function DoRoute(sys: System, s: Session, verdict: R.Verdict, draw: Id): System
    requires Queue(sys.up, s) != []
  {
    var m := Queue(sys.up, s)[0];
    var sys1 := sys.(up := sys.up[s := Queue(sys.up, s)[1..]], used := sys.used + {draw});
    if verdict != R.Authorized then
      sys1.(outbox := sys.outbox[s := [Envelope(s, R.Refusal(m, verdict))]], h := AfterRefusal(sys.h, m))
    else if !Routable(m) then sys1
    else
      sys1.(router := R.Effect(sys.router, s, m, draw),
            outbox := sys.outbox[s := M.LockedOuts(sys.router, s, R.Incoming(m, verdict, draw))],
            subs := SubsAfter(sys, s, m, draw), regs := RegsAfter(sys, s, m, draw),
            h := AfterMessage(sys.h, sys.router, s, m, draw))
  }

  function DoSend(sys: System, s: Session): System
    requires Queue(sys.outbox, s) != []
  {
    var e := Queue(sys.outbox, s)[0];
    sys.(outbox := sys.outbox[s := Queue(sys.outbox, s)[1..]],
         down := sys.down[e.to := Queue(sys.down, e.to) + [e.msg]])
  }

  function DoEnd(sys: System, s: Session): System {
    sys.(router := R.Leave(sys.router, s), ended := sys.ended + {s}, subs := sys.subs - {s}, regs := sys.regs - {s})
  }

  ghost function After(sys: System, move: Move): System
    requires CanMove(sys, move)
  {
    match move
    case Connect(s) => sys.(clients := sys.clients[s := NEW])
    case ClientStep(s, step) => DoClient(sys, s, step)
    case RouterTakes(s, verdict, draw) => DoRoute(sys, s, verdict, draw)
    case RouterSends(s) => DoSend(sys, s)
    case End(s) => DoEnd(sys, s)
  }

  datatype Trace = Start | Then(before: Trace, move: Move)

  ghost predicate Possible(tr: Trace)
    decreases tr, 0
  {
    match tr
    case Start => true
    case Then(before, move) => Possible(before) && CanMove(Final(before), move)
  }

  ghost function Final(tr: Trace): System
    requires Possible(tr)
    decreases tr, 1
  {
    match tr
    case Start => INIT
    case Then(before, move) => After(Final(before), move)
  }

  /** Run `tr` goes on from where `early` ends. */
  ghost predicate Continues(tr: Trace, early: Trace) {
    tr == early || (tr.Then? && Continues(tr.before, early))
  }
}
