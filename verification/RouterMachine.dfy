/** The router as its goroutines interleave: one thread per session loop, the realm's `run`
    goroutine, the broker's read-write lock and the dealer's mutex, and one log of what is
    sent. Every atomic step is at most one lock operation, one critical section body, or
    one send. */
module RouterMachine {
  import opened Wamp
  import opened RealmSpec
  import B = BrokerSpec
  import D = DealerSpec

  datatype Pc =
    | Ready                                   // waiting for the next arrival
    | Wants                                   // blocked on Lock()
    | Holds                                   // inside the critical section
    | Leaving(turn: Turn)                     // critical section done, lock still held
    | WantsRead                               // blocked on RLock()
    | Publishing(snap: RouterState,           // holds the read lock; `next` is the event at hand
                 visited: set<Id>, next: seq<Envelope>, sent: seq<Envelope>)
    | Sending(turn: Turn, n: nat)             // no lock held; `n` messages are out
    | Ended                                   // the loop has returned
    | Gone                                    // the removal act is done

  /** `ops` are the arrivals received so far, `done` the turns completed. */
  datatype Thread = Thread(ops: seq<Arrival>, done: seq<Turn>, pc: Pc)

  datatype Owner = Loop(s: Session) | Runner

  /** The realm's `run` goroutine: between acts, or removing a session. */
  datatype RunnerPc =
    | Idle
    | ToDealer(s: Session) | InDealer(s: Session) | OutDealer(s: Session)
    | ToBroker(s: Session) | InBroker(s: Session) | OutBroker(s: Session)

  /** A sent message, with the thread, the index of its arrival and the arrival itself. */
  datatype Entry = Entry(env: Envelope, from: Session, op: nat, a: Arrival)

  /** The moments at which the shared maps were read or changed. */
  datatype Moment =
    | Turned(s: Session, op: nat, a: Arrival, pre: RouterState, post: RouterState)
    | DealerLost(s: Session, pre: RouterState, post: RouterState)
    | BrokerLost(s: Session, pre: RouterState, post: RouterState)

  datatype Router = Router(
    st: RouterState,
    used: set<Id>,                            // every id drawn
    dead: set<Id>,                            // subscriptions that were live and are not any more
    readers: set<Session>,
    writer: Option<Owner>,
    mutex: Option<Owner>,
    clients: map<Id, Session>,
    threads: map<Session, Thread>,
    runner: RunnerPc,
    log: seq<Entry>,
    hist: seq<Moment>)

  const EMPTY := RouterState(map[], D.EMPTY)

  const INIT := Router(EMPTY, {}, {}, {}, None, None, map[], map[], Idle, [], [])

  function Current(t: Thread): Arrival
    requires t.ops != []
  {
    t.ops[|t.ops| - 1]
  }

  /** The message is handled in a critical section. */
  predicate NeedsLock(a: Arrival) {
    a.Incoming? && a.verdict == Authorized && (IsBrokerMessage(a.m) || IsDealerMessage(a.m))
  }

  /** What an arrival that needs no lock makes the thread send. */
  function PlainOuts(s: Session, a: Arrival): seq<Envelope>
    requires !NeedsLock(a)
  {
    match a
    case Kill(reason) => [Envelope(s, Goodbye(reason))]
    case Incoming(m, verdict, _) =>
      if verdict != Authorized then [Envelope(s, Refusal(m, verdict))]
      else if m.Goodbye? then [Envelope(s, Goodbye(ERR_GOODBYE_AND_OUT))]
      else []
  }

  /** What the critical section of an exclusive lock makes the thread send. */
  ghost function LockedOuts(st: RouterState, s: Session, a: Arrival): seq<Envelope>
    requires NeedsLock(a) && !a.m.Publish?
  {
    if a.m.Subscribe? then [Envelope(s, Subscribed(a.m.request, a.draw))]
    else if a.m.Unsubscribe? then [Envelope(s, B.UnsubscribeReply(st.live, a.m))]
    else D.Handle(st.dealer, s, a.m, a.draw).out
  }

  /** The thread after `n` messages of its turn are out. */
  function Advance(t: Thread, turn: Turn, n: nat): Thread
    requires t.ops != []
  {
    if n < |turn.outs| then t.(pc := Sending(turn, n))
    else t.(done := t.done + [turn], pc := if Ends(Current(t)) then Ended else Ready)
  }

  datatype Step =
    | Join(s: Session)
    | Receive(s: Session, a: Arrival)
    | Lose(s: Session)
    | Lock(s: Session)
    | Body(s: Session)
    | Unlock(s: Session)
    | RLock(s: Session)
    | Pick(s: Session, id: Id)
    | Emit(s: Session)
    | RUnlock(s: Session)
    | Send(s: Session)
    | Leave(s: Session)
    | Run

  /** Subscriptions that exist under the topic of the current PUBLISH. */
  predicate OnTopic(r: Router, t: Thread, id: Id)
    requires t.ops != [] && Current(t).Incoming? && Current(t).m.Publish?
  {
    id in r.st.live && r.st.live[id].topic == Current(t).m.topic
  }

  predicate Serving(r: Router, s: Session) {
    s in r.threads && r.threads[s].ops != []
  }

  predicate ServingMessage(r: Router, s: Session) {
    Serving(r, s) && NeedsLock(Current(r.threads[s]))
  }

  predicate ServingPublish(r: Router, s: Session) {
    ServingMessage(r, s) && Current(r.threads[s]).m.Publish?
  }

  predicate ServingLocked(r: Router, s: Session) {
    ServingMessage(r, s) && !Current(r.threads[s]).m.Publish?
  }

  ghost predicate Enabled(r: Router, step: Step) {
    match step
    case Join(s) =>
      // session ids are unique
      r.runner.Idle? && s !in r.threads && forall t :: t in r.threads ==> t.id != s.id
    case Receive(s, a) =>
      // drawn ids are new
      s in r.threads && r.threads[s].pc.Ready? && (a.Incoming? ==> a.draw !in r.used)
    case Lose(s) => s in r.threads && r.threads[s].pc.Ready?
    case Lock(s) =>
      && ServingLocked(r, s) && r.threads[s].pc.Wants?
      && (if IsBrokerMessage(Current(r.threads[s]).m) then r.writer == None && r.readers == {} else r.mutex == None)
    case Body(s) => ServingLocked(r, s) && r.threads[s].pc.Holds?
    case Unlock(s) => ServingLocked(r, s) && r.threads[s].pc.Leaving?
    case RLock(s) => ServingPublish(r, s) && r.threads[s].pc.WantsRead? && r.writer == None
    case Pick(s, id) =>
      && ServingPublish(r, s) && r.threads[s].pc.Publishing? && r.threads[s].pc.next == []
      && OnTopic(r, r.threads[s], id) && id !in r.threads[s].pc.visited
    case Emit(s) => ServingPublish(r, s) && r.threads[s].pc.Publishing? && r.threads[s].pc.next != []
    case RUnlock(s) =>
      && ServingPublish(r, s) && r.threads[s].pc.Publishing? && r.threads[s].pc.next == []
      && forall id :: OnTopic(r, r.threads[s], id) ==> id in r.threads[s].pc.visited
    case Send(s) => Serving(r, s) && r.threads[s].pc.Sending? && r.threads[s].pc.n < |r.threads[s].pc.turn.outs|
    case Leave(s) => r.runner.Idle? && s in r.threads && r.threads[s].pc.Ended?
    case Run =>
      match r.runner
      case Idle => false
      case ToDealer(_) => r.mutex == None
      case ToBroker(_) => r.writer == None && r.readers == {}
      case _ => true
  }

  /** The router with thread `s` replaced. */
  function With(r: Router, s: Session, t: Thread): Router {
    r.(threads := r.threads[s := t])
  }

  function DoReceive(r: Router, s: Session, a: Arrival): Router
    requires s in r.threads
  {
    var t := r.threads[s].(ops := r.threads[s].ops + [a]);
    var r1 := r.(used := r.used + if a.Incoming? then {a.draw} else {});
    if NeedsLock(a) then With(r1, s, t.(pc := if a.m.Publish? then WantsRead else Wants))
    else With(r1, s, Advance(t, Turn(r.st, r.st, PlainOuts(s, a)), 0))
         .(hist := r.hist + [Turned(s, |r.threads[s].ops|, a, r.st, r.st)])
  }

  function DoLock(r: Router, s: Session): Router
    requires ServingLocked(r, s)
  {
    var r1 := With(r, s, r.threads[s].(pc := Holds));
    if IsBrokerMessage(Current(r.threads[s]).m) then r1.(writer := Some(Loop(s))) else r1.(mutex := Some(Loop(s)))
  }

  ghost function DoBody(r: Router, s: Session): Router
    requires ServingLocked(r, s)
  {
    var t := r.threads[s];
    var a := Current(t);
    var post := Effect(r.st, s, a.m, a.draw);
    With(r, s, t.(pc := Leaving(Turn(r.st, post, LockedOuts(r.st, s, a)))))
    .(st := post, dead := r.dead + (r.st.live.Keys - post.live.Keys),
      hist := r.hist + [Turned(s, |t.ops| - 1, a, r.st, post)])
  }

  function DoUnlock(r: Router, s: Session): Router
    requires ServingLocked(r, s) && r.threads[s].pc.Leaving?
  {
    var t := r.threads[s];
    var r1 := With(r, s, Advance(t, t.pc.turn, 0));
    if IsBrokerMessage(Current(t).m) then r1.(writer := None) else r1.(mutex := None)
  }

  function DoRLock(r: Router, s: Session): Router
    requires ServingPublish(r, s)
  {
    var t := r.threads[s];
    With(r, s, t.(pc := Publishing(r.st, {}, [], [])))
    .(readers := r.readers + {s}, hist := r.hist + [Turned(s, |t.ops| - 1, Current(t), r.st, r.st)])
  }

  function DoPick(r: Router, s: Session, id: Id): Router
    requires ServingPublish(r, s) && r.threads[s].pc.Publishing? && OnTopic(r, r.threads[s], id)
  {
    var t := r.threads[s];
    var a := Current(t);
    var next := if B.IsTarget(r.st.live, s, a.m, id) then [B.Delivery(r.st.live, a.m, a.draw, id)] else [];
    With(r, s, t.(pc := t.pc.(visited := t.pc.visited + {id}, next := next)))
  }

  function Logged(r: Router, s: Session, env: Envelope): Router
    requires Serving(r, s)
  {
    r.(log := r.log + [Entry(env, s, |r.threads[s].ops| - 1, Current(r.threads[s]))])
  }

  function DoEmit(r: Router, s: Session): Router
    requires ServingPublish(r, s) && r.threads[s].pc.Publishing? && r.threads[s].pc.next != []
  {
    var t := r.threads[s];
    With(Logged(r, s, t.pc.next[0]), s, t.(pc := t.pc.(next := t.pc.next[1..], sent := t.pc.sent + [t.pc.next[0]])))
  }

  function DoRUnlock(r: Router, s: Session): Router
    requires ServingPublish(r, s) && r.threads[s].pc.Publishing?
  {
    var t := r.threads[s];
    var a := Current(t);
    With(r, s, Advance(t, Turn(t.pc.snap, t.pc.snap, t.pc.sent + B.Ack(s, a.m, a.draw)), |t.pc.sent|))
    .(readers := r.readers - {s})
  }

  function DoSend(r: Router, s: Session): Router
    requires Serving(r, s) && r.threads[s].pc.Sending? && r.threads[s].pc.n < |r.threads[s].pc.turn.outs|
  {
    var t := r.threads[s];
    With(Logged(r, s, t.pc.turn.outs[t.pc.n]), s, Advance(t, t.pc.turn, t.pc.n + 1))
  }

  /** One step of the removal act of realm.go. */
  function DoRun(r: Router): Router {
    match r.runner
    case Idle => r
    case ToDealer(s) => r.(mutex := Some(Runner), runner := InDealer(s))
    case InDealer(s) =>
      var post := r.st.(dealer := D.OnRemove(r.st.dealer, s));
      r.(st := post, runner := OutDealer(s), hist := r.hist + [DealerLost(s, r.st, post)])
    case OutDealer(s) => r.(mutex := None, runner := ToBroker(s))
    case ToBroker(s) => r.(writer := Some(Runner), runner := InBroker(s))
    case InBroker(s) =>
      var post := r.st.(live := B.Without(r.st.live, s));
      r.(st := post, runner := OutBroker(s), dead := r.dead + (r.st.live.Keys - post.live.Keys),
         hist := r.hist + [BrokerLost(s, r.st, post)])
    case OutBroker(s) =>
      r.(writer := None, runner := Idle,
         threads := if s in r.threads then r.threads[s := r.threads[s].(pc := Gone)] else r.threads)
  }

  ghost function Do(r: Router, step: Step): Router
    requires Enabled(r, step)
  {
    match step
    case Join(s) => With(r, s, Thread([], [], Ready)).(clients := r.clients[s.id := s])
    case Receive(s, a) => DoReceive(r, s, a)
    case Lose(s) => With(r, s, r.threads[s].(pc := Ended))
    case Lock(s) => DoLock(r, s)
    case Body(s) => DoBody(r, s)
    case Unlock(s) => DoUnlock(r, s)
    case RLock(s) => DoRLock(r, s)
    case Pick(s, id) => DoPick(r, s, id)
    case Emit(s) => DoEmit(r, s)
    case RUnlock(s) => DoRUnlock(r, s)
    case Send(s) => DoSend(r, s)
    case Leave(s) => r.(clients := r.clients - {s.id}, runner := ToDealer(s))
    case Run => DoRun(r)
  }

  /** An interleaving: any sequence of enabled steps. */
  datatype Trace = Start | Then(before: Trace, step: Step)

  ghost predicate Possible(tr: Trace)
    decreases tr, 0
  {
    match tr
    case Start => true
    case Then(before, step) => Possible(before) && Enabled(Final(before), step)
  }

  ghost function Final(tr: Trace): Router
    requires Possible(tr)
    decreases tr, 1
  {
    match tr
    case Start => INIT
    case Then(before, step) => Do(Final(before), step)
  }
}
