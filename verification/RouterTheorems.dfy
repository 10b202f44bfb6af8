/** Order, ids and membership in every interleaving, and the theorems about the router. */
module RouterTheorems {
  import opened Wamp
  import opened RealmSpec
  import opened RouterMachine
  import opened RouterSafety
  import B = BrokerSpec
  import D = DealerSpec

  // ---------- order of sends ----------

  /** Every sent message belongs to an arrival of its thread, and the messages of one thread
      go out in the order of its arrivals. */
  ghost predicate InOrder(threads: map<Session, Thread>, log: seq<Entry>) {
    && (forall i :: 0 <= i < |log| ==>
          && log[i].from in threads && log[i].op < |threads[log[i].from].ops|
          && log[i].a == threads[log[i].from].ops[log[i].op])
    && (forall i, j :: 0 <= i < j < |log| && log[i].from == log[j].from ==> log[i].op <= log[j].op)
  }

  ghost predicate OrderInv(r: Router) {
    InOrder(r.threads, r.log)
  }

  ghost predicate Grown(threads: map<Session, Thread>, threads': map<Session, Thread>) {
    forall s :: s in threads ==> s in threads' && threads[s].ops <= threads'[s].ops
  }

  lemma OrderKept(threads: map<Session, Thread>, threads': map<Session, Thread>, log: seq<Entry>)
    requires InOrder(threads, log) && Grown(threads, threads')
    ensures InOrder(threads', log)
  {}

  lemma OrderAppended(threads: map<Session, Thread>, log: seq<Entry>, e: Entry)
    requires InOrder(threads, log) && e.from in threads
    requires e.op == |threads[e.from].ops| - 1 && e.a == threads[e.from].ops[e.op]
    ensures InOrder(threads, log + [e])
  {}

  /** Nobody received anything. */
  ghost predicate SameOps(threads: map<Session, Thread>, threads': map<Session, Thread>) {
    && (forall s :: s in threads ==> s in threads' && threads'[s].ops == threads[s].ops)
    && (forall s :: s in threads' && s !in threads ==> threads'[s].ops == [])
  }

  lemma LockedStepKeepsOps(r: Router, step: Step)
    requires Enabled(r, step) && (step.Lock? || step.Body? || step.Unlock? || step.Send?)
    ensures SameOps(r.threads, Do(r, step).threads) && Do(r, step).used == r.used
  {}

  lemma PublishStepKeepsOps(r: Router, step: Step)
    requires Enabled(r, step) && (step.RLock? || step.Pick? || step.Emit? || step.RUnlock?)
    ensures SameOps(r.threads, Do(r, step).threads) && Do(r, step).used == r.used
  {}

  /** Only receiving adds an arrival and draws an id. */
  lemma StepKeepsOps(r: Router, step: Step)
    requires Enabled(r, step) && !step.Receive?
    ensures SameOps(r.threads, Do(r, step).threads) && Do(r, step).used == r.used
  {
    if step.Lock? || step.Body? || step.Unlock? || step.Send? {
      LockedStepKeepsOps(r, step);
    } else if step.RLock? || step.Pick? || step.Emit? || step.RUnlock? {
      PublishStepKeepsOps(r, step);
    }
  }

  lemma StepGrows(r: Router, step: Step)
    requires Enabled(r, step)
    ensures Grown(r.threads, Do(r, step).threads)
  {
    if !step.Receive? {
      StepKeepsOps(r, step);
    }
  }

  lemma StepLogs(r: Router, step: Step)
    requires Enabled(r, step)
    ensures if step.Emit? then Do(r, step).log == Logged(r, step.s, r.threads[step.s].pc.next[0]).log
            else if step.Send? then
              Do(r, step).log == Logged(r, step.s, r.threads[step.s].pc.turn.outs[r.threads[step.s].pc.n]).log
            else Do(r, step).log == r.log
  {}

  lemma OrderStep(r: Router, step: Step)
    requires OrderInv(r) && Enabled(r, step)
    ensures OrderInv(Do(r, step))
  {
    StepLogs(r, step);
    StepGrows(r, step);
    var log := Do(r, step).log;
    if log != r.log {
      OrderAppended(r.threads, r.log, log[|r.log|]);
    }
    OrderKept(r.threads, Do(r, step).threads, log);
  }

  // ---------- the sequential history ----------

  /** The state part of a turn of the sequential loop, or of a removal. */
  ghost predicate Lawful(m: Moment) {
    match m
    case Turned(s, _, a, pre, post) =>
      post == if a.Incoming? && a.verdict == Authorized then Effect(pre, s, a.m, a.draw) else pre
    case DealerLost(s, pre, post) => post == pre.(dealer := D.OnRemove(pre.dealer, s))
    case BrokerLost(s, pre, post) => post == pre.(live := B.Without(pre.live, s))
  }

  /** `hist` leads from the empty router to `st`, one lawful moment after the other. */
  ghost predicate LeadsTo(hist: seq<Moment>, st: RouterState) {
    if hist == [] then st == EMPTY
    else
      var m := hist[|hist| - 1];
      m.post == st && Lawful(m) && LeadsTo(hist[..|hist| - 1], m.pre)
  }

  /** The thread's current arrival has not taken effect yet. */
  predicate Blocked(t: Thread) {
    t.pc.Wants? || t.pc.Holds? || t.pc.WantsRead?
  }

  /** The moments of a thread are moments of its arrivals, one each and in their order. */
  ghost predicate ProgramOrder(threads: map<Session, Thread>, hist: seq<Moment>) {
    && (forall m :: m in hist && m.Turned? ==>
          && m.s in threads && m.op < |threads[m.s].ops| && m.a == threads[m.s].ops[m.op]
          && (Blocked(threads[m.s]) ==> m.op + 1 < |threads[m.s].ops|))
    && (forall i, j :: 0 <= i < j < |hist| && hist[i].Turned? && hist[j].Turned? && hist[i].s == hist[j].s ==>
          hist[i].op < hist[j].op)
  }

  ghost predicate HistInv(r: Router) {
    LeadsTo(r.hist, r.st) && ProgramOrder(r.threads, r.hist)
  }

  lemma ProgramOrderKept(threads: map<Session, Thread>, threads': map<Session, Thread>, hist: seq<Moment>)
    requires ProgramOrder(threads, hist) && Grown(threads, threads')
    requires forall s :: s in threads && Blocked(threads'[s]) ==>
               Blocked(threads[s]) || |threads[s].ops| < |threads'[s].ops|
    ensures ProgramOrder(threads', hist)
  {}

  lemma MomentAppended(threads: map<Session, Thread>, threads': map<Session, Thread>, hist: seq<Moment>, m: Moment)
    requires ProgramOrder(threads, hist) && ProgramOrder(threads', hist)
    requires m.Turned? ==>
               && m.s in threads' && m.op + 1 == |threads'[m.s].ops| && m.a == threads'[m.s].ops[m.op]
               && !Blocked(threads'[m.s])
               && (m.s in threads && (Blocked(threads[m.s]) || |threads[m.s].ops| < |threads'[m.s].ops|))
    requires Grown(threads, threads')
    ensures ProgramOrder(threads', hist + [m])
  {}

  lemma {:induction false} LeadsFurther(hist: seq<Moment>, m: Moment)
    requires LeadsTo(hist, m.pre) && Lawful(m)
    ensures LeadsTo(hist + [m], m.post)
  {}

  lemma StepBlocks(r: Router, step: Step)
    requires LockInv(r) && Enabled(r, step)
    ensures Grown(r.threads, Do(r, step).threads)
    ensures forall s :: s in r.threads && Blocked(Do(r, step).threads[s]) ==>
              Blocked(r.threads[s]) || |r.threads[s].ops| < |Do(r, step).threads[s].ops|
  {
    StepGrows(r, step);
  }

  ghost predicate MomentOf(r: Router, r': Router, m: Moment) {
    && m.pre == r.st && m.post == r'.st && Lawful(m)
    && (m.Turned? ==>
          && m.s in r.threads && m.s in r'.threads && m.op + 1 == |r'.threads[m.s].ops|
          && m.a == r'.threads[m.s].ops[m.op] && !Blocked(r'.threads[m.s])
          && (Blocked(r.threads[m.s]) || |r.threads[m.s].ops| < |r'.threads[m.s].ops|))
  }

  /** The step adds one moment, or leaves history and state alone. */
  ghost predicate AtMostOneMoment(r: Router, r': Router) {
    || (r'.hist == r.hist && r'.st == r.st)
    || (|r'.hist| == |r.hist| + 1 && r'.hist == r.hist + [r'.hist[|r.hist|]] && MomentOf(r, r', r'.hist[|r.hist|]))
  }

  lemma ThreadMoment(r: Router, step: Step)
    requires LockInv(r) && Enabled(r, step) && (step.Receive? || step.Body? || step.RLock?)
    ensures AtMostOneMoment(r, Do(r, step))
  {}

  lemma RunMoment(r: Router)
    requires LockInv(r) && Enabled(r, Run)
    ensures AtMostOneMoment(r, DoRun(r))
  {}

  /** A step adds at most one moment, and only then does the state change. */
  lemma StepMoment(r: Router, step: Step)
    requires LockInv(r) && Enabled(r, step)
    ensures AtMostOneMoment(r, Do(r, step))
  {
    if step.Run? {
      RunMoment(r);
    } else if step.Receive? || step.Body? || step.RLock? {
      ThreadMoment(r, step);
    }
  }

  lemma HistStep(r: Router, step: Step)
    requires LockInv(r) && HistInv(r) && Enabled(r, step)
    ensures HistInv(Do(r, step))
  {
    var r' := Do(r, step);
    StepBlocks(r, step);
    ProgramOrderKept(r.threads, r'.threads, r.hist);
    StepMoment(r, step);
    if r'.hist != r.hist {
      var m := r'.hist[|r.hist|];
      LeadsFurther(r.hist, m);
      MomentAppended(r.threads, r'.threads, r.hist, m);
    }
  }

  // ---------- subscriptions that are gone ----------

  /** The thread is about to add a subscription under its drawn id. */
  predicate Subscribing(t: Thread) {
    (t.pc.Wants? || t.pc.Holds?) && t.ops != [] && Current(t).Incoming? && Current(t).m.Subscribe?
  }

  /** An UNSUBSCRIBED answers an UNSUBSCRIBE for a subscription that is gone. */
  predicate Acknowledges(a: Arrival, dead: set<Id>) {
    a.Incoming? && a.m.Unsubscribe? && a.m.subscription in dead
  }

  ghost predicate TurnClean(a: Arrival, turn: Turn, n: nat, dead: set<Id>) {
    && (forall o :: o in turn.outs && o.msg.Unsubscribed? ==> Acknowledges(a, dead))
    && (forall i :: n <= i < |turn.outs| ==> !turn.outs[i].msg.Event?)
  }

  /** What a thread may still send about subscriptions, and the id it may still add. */
  ghost predicate ThreadClean(t: Thread, live: B.Live, used: set<Id>, dead: set<Id>)
    requires Shape(t)
  {
    && (Subscribing(t) ==> Current(t).draw in used && Current(t).draw !in live && Current(t).draw !in dead)
    && match t.pc
       case Leaving(turn) => TurnClean(Current(t), turn, 0, dead)
       case Sending(turn, n) => TurnClean(Current(t), turn, n, dead)
       case Publishing(snap, _, next, sent) =>
         && (forall o :: o in next ==> o.msg.Event? && o.msg.subscription in snap.live)
         && (forall o :: o in sent ==> o.msg.Event?)
       case _ => true
  }

  ghost predicate LogClean(log: seq<Entry>, dead: set<Id>) {
    && (forall i :: 0 <= i < |log| && log[i].env.msg.Unsubscribed? ==> Acknowledges(log[i].a, dead))
    && (forall i, j :: 0 <= i < j < |log| && log[i].env.msg.Unsubscribed? && log[j].env.msg.Event? ==>
          Acknowledges(log[i].a, dead) && log[j].env.msg.subscription != log[i].a.m.subscription)
  }

  ghost predicate SubscribersDiffer(threads: map<Session, Thread>) {
    forall s, t :: s in threads && t in threads && s != t && Subscribing(threads[s]) && Subscribing(threads[t]) ==>
      Current(threads[s]).draw != Current(threads[t]).draw
  }

  ghost predicate GoneInv(r: Router) {
    && (forall s :: s in r.threads ==> Shape(r.threads[s]) && ThreadClean(r.threads[s], r.st.live, r.used, r.dead))
    && SubscribersDiffer(r.threads)
    && r.dead <= r.used && r.st.live.Keys <= r.used && r.st.live.Keys !! r.dead
    && LogClean(r.log, r.dead)
  }

  /** No turn but that of an UNSUBSCRIBE sends an UNSUBSCRIBED, and only PUBLISH sends EVENTs. */
  lemma PlainClean(s: Session, a: Arrival, st: RouterState, dead: set<Id>)
    requires !NeedsLock(a)
    ensures TurnClean(a, Turn(st, st, PlainOuts(s, a)), 0, dead)
  {}

  lemma LockedClean(st: RouterState, s: Session, a: Arrival, dead: set<Id>)
    requires NeedsLock(a) && !a.m.Publish?
    ensures var post := Effect(st, s, a.m, a.draw);
            TurnClean(a, Turn(st, post, LockedOuts(st, s, a)), 0, dead + (st.live.Keys - post.live.Keys))
  {}

  lemma LogCleanAppended(log: seq<Entry>, dead: set<Id>, e: Entry)
    requires LogClean(log, dead)
    requires e.env.msg.Unsubscribed? ==> Acknowledges(e.a, dead)
    requires e.env.msg.Event? ==> e.env.msg.subscription !in dead
    ensures LogClean(log + [e], dead)
  {}

  /** Thread `s` took a step that keeps itself, the ids and the log clean. */
  lemma GoneMoved(r: Router, r': Router, s: Session)
    requires GoneInv(r) && s in r.threads && s in r'.threads && r'.threads == r.threads[s := r'.threads[s]]
    requires Shape(r'.threads[s]) && ThreadClean(r'.threads[s], r'.st.live, r'.used, r'.dead)
    requires r.used <= r'.used && r.dead <= r'.dead <= r.dead + r.st.live.Keys
    requires r'.st.live.Keys !! r'.dead
    requires forall id :: id in r'.st.live ==>
               id in r.st.live || (Subscribing(r.threads[s]) && id == Current(r.threads[s]).draw)
    requires Subscribing(r'.threads[s]) ==>
               Current(r'.threads[s]).draw !in r.used
               || (Subscribing(r.threads[s]) && Current(r'.threads[s]).draw == Current(r.threads[s]).draw)
    requires LogClean(r'.log, r'.dead)
    ensures GoneInv(r')
  {}

  lemma GoneReceive(r: Router, s: Session, a: Arrival)
    requires LockInv(r) && GoneInv(r) && Enabled(r, Receive(s, a))
    ensures GoneInv(DoReceive(r, s, a))
  {
    if !NeedsLock(a) {
      PlainClean(s, a, r.st, r.dead);
    }
    GoneMoved(r, DoReceive(r, s, a), s);
  }

  lemma LogCleanKept(log: seq<Entry>, dead: set<Id>, dead': set<Id>)
    requires LogClean(log, dead) && dead <= dead'
    ensures LogClean(log, dead')
  {}

  lemma GoneBody(r: Router, s: Session)
    requires LockInv(r) && GoneInv(r) && Enabled(r, Body(s))
    ensures GoneInv(DoBody(r, s))
  {
    var a := Current(r.threads[s]);
    LockedClean(r.st, s, a, r.dead);
    LogCleanKept(r.log, r.dead, DoBody(r, s).dead);
    GoneMoved(r, DoBody(r, s), s);
  }

  lemma GoneEmit(r: Router, s: Session)
    requires LockInv(r) && GoneInv(r) && SnapInv(r) && Enabled(r, Emit(s))
    ensures GoneInv(DoEmit(r, s))
  {
    var t := r.threads[s];
    assert t.pc.next[0] in t.pc.next;
    LogCleanAppended(r.log, r.dead, Entry(t.pc.next[0], s, |t.ops| - 1, Current(t)));
    GoneMoved(r, DoEmit(r, s), s);
  }

  lemma GoneSend(r: Router, s: Session)
    requires LockInv(r) && GoneInv(r) && Enabled(r, Send(s))
    ensures GoneInv(DoSend(r, s))
  {
    var t := r.threads[s];
    assert t.pc.turn.outs[t.pc.n] in t.pc.turn.outs;
    LogCleanAppended(r.log, r.dead, Entry(t.pc.turn.outs[t.pc.n], s, |t.ops| - 1, Current(t)));
    GoneMoved(r, DoSend(r, s), s);
  }

  lemma GoneRUnlock(r: Router, s: Session)
    requires LockInv(r) && GoneInv(r) && Enabled(r, RUnlock(s))
    ensures GoneInv(DoRUnlock(r, s))
  {
    var t := r.threads[s];
    var turn := Turn(t.pc.snap, t.pc.snap, t.pc.sent + B.Ack(s, Current(t).m, Current(t).draw));
    assert TurnClean(Current(t), turn, |t.pc.sent|, r.dead);
    GoneMoved(r, DoRUnlock(r, s), s);
  }

  lemma GoneQuiet(r: Router, step: Step)
    requires LockInv(r) && GoneInv(r) && SnapInv(r) && Enabled(r, step)
    requires step.Lose? || step.Lock? || step.Unlock? || step.RLock? || step.Pick?
    ensures GoneInv(Do(r, step))
  {
    GoneMoved(r, Do(r, step), step.s);
  }

  lemma GoneRun(r: Router)
    requires LockInv(r) && GoneInv(r) && Enabled(r, Run)
    ensures GoneInv(DoRun(r))
  {
    LogCleanKept(r.log, r.dead, DoRun(r).dead);
    GoneMoved(r, DoRun(r), r.runner.s);
  }

  lemma GoneJoin(r: Router, s: Session)
    requires GoneInv(r) && Enabled(r, Join(s))
    ensures GoneInv(Do(r, Join(s)))
  {}

  lemma GoneLeave(r: Router, s: Session)
    requires GoneInv(r) && Enabled(r, Leave(s))
    ensures GoneInv(Do(r, Leave(s)))
  {}

  lemma GoneStep(r: Router, step: Step)
    requires LockInv(r) && GoneInv(r) && SnapInv(r) && Enabled(r, step)
    ensures GoneInv(Do(r, step))
  {
    match step
    case Join(s) => GoneJoin(r, s);
    case Leave(s) => GoneLeave(r, s);
    case Receive(s, a) => GoneReceive(r, s, a);
    case Body(s) => GoneBody(r, s);
    case Emit(s) => GoneEmit(r, s);
    case Send(s) => GoneSend(r, s);
    case RUnlock(s) => GoneRUnlock(r, s);
    case Run => GoneRun(r);
    case _ => GoneQuiet(r, step);
  }

  // ---------- membership ----------

  predicate BeingRemoved(runner: RunnerPc, s: Session) {
    !runner.Idle? && runner.s == s
  }

  /** The session's thread exists and its removal act is not done. */
  predicate Present(threads: map<Session, Thread>, s: Session) {
    s in threads && !threads[s].pc.Gone?
  }

  ghost predicate ClientsAgree(threads: map<Session, Thread>, clients: map<Id, Session>, runner: RunnerPc) {
    && (forall s, t :: s in threads && t in threads && s.id == t.id ==> s == t)
    && (forall id :: id in clients ==>
          clients[id].id == id && Present(threads, clients[id]) && !BeingRemoved(runner, clients[id]))
    && (forall s :: Present(threads, s) && !BeingRemoved(runner, s) ==> s.id in clients && clients[s.id] == s)
  }

  ghost predicate SubscribersPresent(threads: map<Session, Thread>, live: B.Live, runner: RunnerPc) {
    forall id :: id in live ==>
      Present(threads, live[id].session) && !(runner.OutBroker? && runner.s == live[id].session)
  }

  ghost predicate CalleesPresent(threads: map<Session, Thread>, procedures: D.Procedures, runner: RunnerPc) {
    forall id :: id in procedures ==>
      && Present(threads, procedures[id].endpoint)
      && (BeingRemoved(runner, procedures[id].endpoint) ==> runner.ToDealer? || runner.InDealer?)
  }

  /** A session is in `clients` from its joining act to its removal act, and only between
      them do the router's maps name it. */
  ghost predicate MemberInv(r: Router) {
    && ClientsAgree(r.threads, r.clients, r.runner)
    && SubscribersPresent(r.threads, r.st.live, r.runner)
    && CalleesPresent(r.threads, r.st.dealer.procedures, r.runner)
  }

  /** A message adds at most entries that name its own session. */
  lemma EffectNamesSender(st: RouterState, s: Session, m: Message, draw: Id)
    ensures var post := Effect(st, s, m, draw);
            && (forall id :: id in post.live ==>
                  (id in st.live && post.live[id] == st.live[id]) || post.live[id].session == s)
            && (forall id :: id in post.dealer.procedures ==>
                  (id in st.dealer.procedures && post.dealer.procedures[id] == st.dealer.procedures[id])
                  || post.dealer.procedures[id].endpoint == s)
  {}

  /** Thread `s` moved on; the maps gained at most entries that name `s`. */
  lemma MemberMoved(r: Router, r': Router, s: Session)
    requires MemberInv(r) && Present(r.threads, s) && !BeingRemoved(r.runner, s)
    requires s in r'.threads && r'.threads == r.threads[s := r'.threads[s]] && !r'.threads[s].pc.Gone?
    requires forall id :: id in r'.st.live ==>
               (id in r.st.live && r'.st.live[id] == r.st.live[id]) || r'.st.live[id].session == s
    requires forall id :: id in r'.st.dealer.procedures ==>
               || (id in r.st.dealer.procedures && r'.st.dealer.procedures[id] == r.st.dealer.procedures[id])
               || r'.st.dealer.procedures[id].endpoint == s
    requires r'.clients == r.clients && r'.runner == r.runner
    ensures MemberInv(r')
  {
    forall t | Present(r'.threads, t) ensures Present(r.threads, t) {}
    forall t | Present(r.threads, t) ensures Present(r'.threads, t) {}
  }

  lemma ThreadStepMembers(r: Router, step: Step)
    requires LockInv(r) && MemberInv(r) && Enabled(r, step)
    requires !step.Join? && !step.Leave? && !step.Run?
    ensures MemberInv(Do(r, step))
  {
    var s := step.s;
    if step.Body? {
      var a := Current(r.threads[s]);
      EffectNamesSender(r.st, s, a.m, a.draw);
    }
    MemberMoved(r, Do(r, step), s);
  }

  lemma JoinMembers(r: Router, s: Session)
    requires MemberInv(r) && Enabled(r, Join(s))
    ensures MemberInv(With(r, s, Thread([], [], Ready)).(clients := r.clients[s.id := s]))
  {
    var threads := r.threads[s := Thread([], [], Ready)];
    forall t | Present(threads, t) ensures t == s || Present(r.threads, t) {}
    forall t | Present(r.threads, t) ensures Present(threads, t) {}
  }

  lemma LeaveMembers(r: Router, s: Session)
    requires MemberInv(r) && Enabled(r, Leave(s))
    ensures MemberInv(r.(clients := r.clients - {s.id}, runner := ToDealer(s)))
  {}

  lemma RunMembers(r: Router)
    requires LockInv(r) && MemberInv(r) && Enabled(r, Run)
    ensures MemberInv(DoRun(r))
  {
    if r.runner.OutBroker? {
      var threads := DoRun(r).threads;
      forall t | Present(threads, t) ensures t != r.runner.s && Present(r.threads, t) {}
      forall t | Present(r.threads, t) && t != r.runner.s ensures Present(threads, t) {}
    }
  }

  lemma MemberStep(r: Router, step: Step)
    requires LockInv(r) && MemberInv(r) && Enabled(r, step)
    ensures MemberInv(Do(r, step))
  {
    match step
    case Join(s) => JoinMembers(r, s);
    case Leave(s) => LeaveMembers(r, s);
    case Run => RunMembers(r);
    case _ => ThreadStepMembers(r, step);
  }

  // ---------- all reachable states ----------

  ghost predicate Inv(r: Router) {
    LockInv(r) && TurnInv(r) && SnapInv(r) && OrderInv(r) && HistInv(r) && GoneInv(r) && MemberInv(r)
  }

  lemma InvStep(r: Router, step: Step)
    requires Inv(r) && Enabled(r, step)
    ensures Inv(Do(r, step))
  {
    LockStep(r, step);
    TurnStep(r, step);
    SnapStep(r, step);
    OrderStep(r, step);
    HistStep(r, step);
    GoneStep(r, step);
    MemberStep(r, step);
  }

  lemma {:induction false} Invariant(tr: Trace)
    requires Possible(tr)
    ensures Inv(Final(tr))
  {
    match tr
    case Start =>
    case Then(before, step) =>
      Invariant(before);
      InvStep(Final(before), step);
  }

  /** No two threads are in critical sections of the broker, none is while another publishes
      under the read lock, and no two are in critical sections of the dealer. */
  lemma {:induction false} MutualExclusion(tr: Trace, s: Session, t: Session)
    requires Possible(tr) && s != t && s in Final(tr).threads && t in Final(tr).threads
    ensures var a, b := Final(tr).threads[s], Final(tr).threads[t];
            && !(InExclusive(a, true) && (InExclusive(b, true) || b.pc.Publishing?))
            && !(InExclusive(a, false) && InExclusive(b, false))
  {
    Invariant(tr);
  }

  /** Every interleaving is explained by one sequential history of the shared maps: from the
      empty router, one turn of a session's loop or one removal after the other, each
      thread's turns in the order of its arrivals and at most once. Whatever a completed
      arrival sent, it sent as a turn of the sequential loop at its moment in that history. */
  lemma {:induction false} Linearizable(tr: Trace, s: Session, k: nat)
    requires Possible(tr)
    ensures var r := Final(tr);
            && LeadsTo(r.hist, r.st) && ProgramOrder(r.threads, r.hist)
            && (s in r.threads && k < |r.threads[s].done| ==>
                  && |r.threads[s].done| <= |r.threads[s].ops|
                  && var turn, a := r.threads[s].done[k], r.threads[s].ops[k];
                     && Turned(s, k, a, turn.pre, turn.post) in r.hist
                     && Serves(turn.pre, turn.post, s, a, turn.outs)
                     && Tagged(r.log, s, k) == turn.outs)
  {
    Invariant(tr);
    var r := Final(tr);
    if s in r.threads && k < |r.threads[s].done| {
      assert Completed(s, r.threads[s], k, r.log, r.hist);
    }
  }

  ghost predicate IsPrefix(early: Trace, tr: Trace) {
    early == tr || (tr.Then? && IsPrefix(early, tr.before))
  }

  /** History is never rewritten. */
  lemma {:induction false} HistGrows(early: Trace, tr: Trace)
    requires IsPrefix(early, tr) && Possible(tr) && Possible(early)
    ensures Final(early).hist <= Final(tr).hist
  {
    if early == tr {
    } else {
      HistGrows(early, tr.before);
      Invariant(tr.before);
      StepMoment(Final(tr.before), tr.step);
    }
  }

  /** The moment of arrival number `k` of `s`. */
  predicate IsTurn(m: Moment, s: Session, k: nat) {
    m.Turned? && m.s == s && m.op == k
  }

  /** A completed turn is in the history, the turn of an arrival to come is not. */
  lemma TurnComesFirst(r: Router, threads': map<Session, Thread>, hist': seq<Moment>, s: Session, k: nat, u: Session,
                       n: nat, i: nat, j: nat)
    requires TurnInv(r) && ProgramOrder(r.threads, r.hist) && r.hist <= hist' && ProgramOrder(threads', hist')
    requires s in r.threads && k < |r.threads[s].done| && (u in r.threads ==> |r.threads[u].ops| <= n)
    requires i < |hist'| && j < |hist'| && IsTurn(hist'[i], s, k) && IsTurn(hist'[j], u, n)
    ensures i < j
  {
    var t := r.threads[s];
    assert Completed(s, t, k, r.log, r.hist);
    var i' :| 0 <= i' < |r.hist| && r.hist[i'] == Turned(s, k, t.ops[k], t.done[k].pre, t.done[k].post);
    assert hist'[i'] == r.hist[i'] && i' == i;
  }

  /** The sequential history respects real time: what was completed before another message was
      received comes before it. */
  lemma {:induction false} RealTimeOrder(early: Trace, tr: Trace, s: Session, k: nat, u: Session, n: nat, i: nat,
                                         j: nat)
    requires IsPrefix(early, tr) && Possible(tr) && Possible(early)
    requires s in Final(early).threads && k < |Final(early).threads[s].done|
    requires u in Final(early).threads ==> |Final(early).threads[u].ops| <= n
    requires i < |Final(tr).hist| && j < |Final(tr).hist|
    requires IsTurn(Final(tr).hist[i], s, k) && IsTurn(Final(tr).hist[j], u, n)
    ensures i < j
  {
    Invariant(early);
    Invariant(tr);
    HistGrows(early, tr);
    TurnComesFirst(Final(early), Final(tr).threads, Final(tr).hist, s, k, u, n, i, j);
  }

  /** After UNSUBSCRIBED for a subscription is sent, no EVENT for it is. */
  lemma {:induction false} NoEventAfterUnsubscribed(tr: Trace, i: nat, j: nat)
    requires Possible(tr) && i < j < |Final(tr).log|
    requires Final(tr).log[i].env.msg.Unsubscribed? && Final(tr).log[j].env.msg.Event?
    ensures var log := Final(tr).log;
            && log[i].a.Incoming? && log[i].a.m.Unsubscribe?
            && log[j].env.msg.subscription != log[i].a.m.subscription
  {
    Invariant(tr);
  }

  /** What one session causes goes out in the order of its messages: all EVENTs of one
      PUBLISH before all EVENTs of a later one, and the INVOCATION of one CALL before that
      of a later one. */
  lemma {:induction false} SessionOrder(tr: Trace, i: nat, j: nat)
    requires Possible(tr) && i < |Final(tr).log| && j < |Final(tr).log|
    requires Final(tr).log[i].from == Final(tr).log[j].from && Final(tr).log[i].op < Final(tr).log[j].op
    ensures i < j
  {
    Invariant(tr);
  }

  /** A completed SUBSCRIBE, UNSUBSCRIBE, REGISTER or UNREGISTER has been answered exactly
      once, authorized or not. */
  lemma {:induction false} RequestAnsweredOnce(tr: Trace, s: Session, k: nat)
    requires Possible(tr) && s in Final(tr).threads && k < |Final(tr).threads[s].done| <= |Final(tr).threads[s].ops|
    requires Final(tr).threads[s].ops[k].Incoming? && IsRequest(Final(tr).threads[s].ops[k].m)
    ensures var r := Final(tr);
            var sent := Tagged(r.log, s, k);
            |sent| == 1 && sent[0].to == s && IsReplyTo(sent[0].msg, r.threads[s].ops[k].m)
  {
    Linearizable(tr, s, k);
    var turn := Final(tr).threads[s].done[k];
    OneReply(turn.pre, turn.post, s, Final(tr).threads[s].ops[k], turn.outs);
  }

  predicate IsGone(r: Router, s: Session) {
    s in r.threads && r.threads[s].pc.Gone?
  }

  lemma GoneStays(r: Router, step: Step, s: Session)
    requires LockInv(r) && Enabled(r, step) && IsGone(r, s)
    ensures IsGone(Do(r, step), s)
  {}

  lemma {:induction false} GoneForever(early: Trace, tr: Trace, s: Session)
    requires IsPrefix(early, tr) && Possible(tr) && Possible(early) && IsGone(Final(early), s)
    ensures IsGone(Final(tr), s)
  {
    if early == tr {
    } else {
      GoneForever(early, tr.before, s);
      Invariant(tr.before);
      GoneStays(Final(tr.before), tr.step, s);
    }
  }

  /** Between acts, every session the router's maps name is a client of the realm. A session
      whose removal act was done at some moment of the run is not named and is no client, and
      its id is nobody's, from then on. */
  lemma {:induction false} NoDanglingSessions(early: Trace, tr: Trace, s: Session)
    requires IsPrefix(early, tr) && Possible(tr) && Possible(early)
    ensures var r := Final(tr);
            var names := (set id | id in r.st.live :: r.st.live[id].session)
                         + set id | id in r.st.dealer.procedures :: r.st.dealer.procedures[id].endpoint;
            && (r.runner.Idle? && s in names ==> s.id in r.clients && r.clients[s.id] == s)
            && (s in Final(early).threads && Final(early).threads[s].pc.Gone? ==>
                  s in r.threads && r.threads[s].pc.Gone? && s !in names && s.id !in r.clients)
  {
    Invariant(tr);
    if IsGone(Final(early), s) {
      GoneForever(early, tr, s);
    }
  }
}
