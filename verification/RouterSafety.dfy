/** What holds in every interleaving of the router. */
module RouterSafety {
  import opened Wamp
  import opened RealmSpec
  import opened RouterMachine
  import B = BrokerSpec

  // ---------- locks ----------

  /** Where a thread is in its arrivals, from its program counter. */
  ghost predicate Shape(t: Thread) {
    match t.pc
    case Ready => |t.done| == |t.ops|
    case Ended => |t.done| == |t.ops|
    case Gone => |t.done| == |t.ops|
    case Sending(turn, n) => |t.done| + 1 == |t.ops| && n < |turn.outs|
    case WantsRead => |t.done| + 1 == |t.ops| && NeedsLock(Current(t)) && Current(t).m.Publish?
    case Publishing(_, _, _, _) => |t.done| + 1 == |t.ops| && NeedsLock(Current(t)) && Current(t).m.Publish?
    case _ => |t.done| + 1 == |t.ops| && NeedsLock(Current(t)) && !Current(t).m.Publish?
  }

  predicate InExclusive(t: Thread, ofBroker: bool) {
    && (t.pc.Holds? || t.pc.Leaving?) && t.ops != []
    && Current(t).Incoming? && IsBrokerMessage(Current(t).m) == ofBroker
  }

  /** Who holds what, read off the program counters. */
  ghost predicate Locks(threads: map<Session, Thread>, readers: set<Session>, writer: Option<Owner>,
                        mutex: Option<Owner>, runner: RunnerPc)
  {
    && (forall s :: s in threads ==> Shape(threads[s]))
    && (forall s :: s in readers <==> s in threads && threads[s].pc.Publishing?)
    && (forall s :: writer == Some(Loop(s)) <==> s in threads && InExclusive(threads[s], true))
    && (forall s :: mutex == Some(Loop(s)) <==> s in threads && InExclusive(threads[s], false))
    && (writer == Some(Runner) <==> runner.InBroker? || runner.OutBroker?)
    && (mutex == Some(Runner) <==> runner.InDealer? || runner.OutDealer?)
    && (readers != {} ==> writer == None)
    && (!runner.Idle? ==> runner.s in threads && threads[runner.s].pc.Ended?)
  }

  ghost predicate LockInv(r: Router) {
    Locks(r.threads, r.readers, r.writer, r.mutex, r.runner)
  }

  /** The step of the thread touches no lock. */
  predicate SamePhase(t: Thread, t': Thread) {
    && t.pc.Publishing? == t'.pc.Publishing?
    && InExclusive(t, true) == InExclusive(t', true)
    && InExclusive(t, false) == InExclusive(t', false)
    && !t.pc.Ended?
  }

  lemma SameLocks(r: Router, s: Session, t': Thread)
    requires LockInv(r) && s in r.threads && SamePhase(r.threads[s], t') && Shape(t')
    ensures LockInv(With(r, s, t'))
  {}

  lemma LockAcquire(r: Router, s: Session)
    requires LockInv(r) && Enabled(r, Lock(s))
    ensures LockInv(DoLock(r, s))
  {}

  lemma BrokerRelease(r: Router, s: Session)
    requires LockInv(r) && ServingLocked(r, s) && r.threads[s].pc.Leaving?
    requires IsBrokerMessage(Current(r.threads[s]).m)
    ensures LockInv(DoUnlock(r, s))
  {}

  lemma DealerRelease(r: Router, s: Session)
    requires LockInv(r) && ServingLocked(r, s) && r.threads[s].pc.Leaving?
    requires !IsBrokerMessage(Current(r.threads[s]).m)
    ensures LockInv(DoUnlock(r, s))
  {}

  lemma LockRelease(r: Router, s: Session)
    requires LockInv(r) && ServingLocked(r, s) && r.threads[s].pc.Leaving?
    ensures LockInv(DoUnlock(r, s))
  {
    if IsBrokerMessage(Current(r.threads[s]).m) {
      BrokerRelease(r, s);
    } else {
      DealerRelease(r, s);
    }
  }

  lemma ReadAcquire(r: Router, s: Session)
    requires LockInv(r) && ServingPublish(r, s) && r.threads[s].pc.WantsRead? && r.writer == None
    ensures LockInv(DoRLock(r, s))
  {}

  lemma ReadRelease(r: Router, s: Session)
    requires LockInv(r) && ServingPublish(r, s) && r.threads[s].pc.Publishing?
    ensures LockInv(DoRUnlock(r, s))
  {}

  lemma RunnerLocks(r: Router)
    requires LockInv(r) && Enabled(r, Run)
    ensures LockInv(DoRun(r))
  {}

  lemma JoinLocks(r: Router, s: Session)
    requires LockInv(r) && s !in r.threads
    ensures LockInv(With(r, s, Thread([], [], Ready)))
  {}

  lemma OutsideLockStep(r: Router, step: Step)
    requires LockInv(r) && Enabled(r, step) && (step.Receive? || step.Lose? || step.Send?)
    ensures LockInv(Do(r, step))
  {
    SameLocks(r, step.s, Do(r, step).threads[step.s]);
  }

  lemma InsideLockStep(r: Router, step: Step)
    requires LockInv(r) && Enabled(r, step) && (step.Body? || step.Pick? || step.Emit?)
    ensures LockInv(Do(r, step))
  {
    SameLocks(r, step.s, Do(r, step).threads[step.s]);
  }

  lemma LockStep(r: Router, step: Step)
    requires LockInv(r) && Enabled(r, step)
    ensures LockInv(Do(r, step))
  {
    match step
    case Join(s) => JoinLocks(r, s);
    case Lock(s) => LockAcquire(r, s);
    case Unlock(s) => LockRelease(r, s);
    case RLock(s) => ReadAcquire(r, s);
    case RUnlock(s) => ReadRelease(r, s);
    case Leave(s) =>
    case Run => RunnerLocks(r);
    case Body(_) => InsideLockStep(r, step);
    case Pick(_, _) => InsideLockStep(r, step);
    case Emit(_) => InsideLockStep(r, step);
    case _ => OutsideLockStep(r, step);
  }

  // ---------- what each thread sends ----------

  /** What thread `s` has sent for its arrival number `k`. */
  ghost function Tagged(log: seq<Entry>, s: Session, k: nat): seq<Envelope> {
    if log == [] then []
    else
      var e := log[|log| - 1];
      Tagged(log[..|log| - 1], s, k) + if e.from == s && e.op == k then [e.env] else []
  }

  lemma {:induction false} TaggedSnoc(log: seq<Entry>, e: Entry, s: Session, k: nat)
    ensures Tagged(log + [e], s, k) == Tagged(log, s, k) + if e.from == s && e.op == k then [e.env] else []
  {}

  /** Turn `turn` of thread `s` for arrival `a`, its number `k`, is one that the sequential
      loop could take, and the history has it. */
  ghost predicate Recorded(s: Session, k: nat, a: Arrival, turn: Turn, hist: seq<Moment>) {
    && Serves(turn.pre, turn.post, s, a, turn.outs)
    && Turned(s, k, a, turn.pre, turn.post) in hist
  }

  ghost predicate Completed(s: Session, t: Thread, k: nat, log: seq<Entry>, hist: seq<Moment>)
    requires k < |t.done| <= |t.ops|
  {
    Recorded(s, k, t.ops[k], t.done[k], hist) && Tagged(log, s, k) == t.done[k].outs
  }

  /** The turn the thread is in the middle of. */
  ghost predicate InTurn(s: Session, t: Thread, log: seq<Entry>, hist: seq<Moment>)
    requires Shape(t) && |t.done| < |t.ops|
  {
    var k, a := |t.done|, Current(t);
    match t.pc
    case Leaving(turn) => Recorded(s, k, a, turn, hist) && Tagged(log, s, k) == []
    case Sending(turn, n) => Recorded(s, k, a, turn, hist) && Tagged(log, s, k) == turn.outs[..n]
    case Publishing(snap, visited, next, sent) =>
      && Turned(s, k, a, snap, snap) in hist
      && Tagged(log, s, k) == sent
      && multiset(sent + next) == multiset(B.Reached(snap.live, s, a.m, a.draw, visited))
    case _ => Tagged(log, s, k) == []
  }

  /** The completed turns of a thread, and silence about arrivals to come. */
  ghost predicate PastTurns(s: Session, t: Thread, log: seq<Entry>, hist: seq<Moment>) {
    && |t.done| <= |t.ops|
    && (forall k :: 0 <= k < |t.done| ==> Completed(s, t, k, log, hist))
    && (forall k: nat :: |t.ops| <= k ==> Tagged(log, s, k) == [])
  }

  ghost predicate ThreadTurns(s: Session, t: Thread, log: seq<Entry>, hist: seq<Moment>) {
    && Shape(t)
    && PastTurns(s, t, log, hist)
    && (|t.done| < |t.ops| ==> InTurn(s, t, log, hist))
  }

  ghost predicate TurnInv(r: Router) {
    && (forall s :: s in r.threads ==> ThreadTurns(s, r.threads[s], r.log, r.hist))
    && (forall s, k: nat :: s !in r.threads ==> Tagged(r.log, s, k) == [])
  }

  /** While it holds the read lock, a publisher sees the subscriptions it found. */
  ghost predicate SnapInv(r: Router) {
    forall s :: s in r.threads && r.threads[s].pc.Publishing? ==> r.threads[s].pc.snap.live == r.st.live
  }

  ghost predicate Extends(log': seq<Entry>, log: seq<Entry>, s: Session) {
    log' == log || (|log'| == |log| + 1 && log'[..|log|] == log && log'[|log|].from == s)
  }

  lemma TaggedFrame(s: Session, log: seq<Entry>, log': seq<Entry>, by': Session)
    requires Extends(log', log, by') && by' != s
    ensures forall k: nat :: Tagged(log', s, k) == Tagged(log, s, k)
  {}

  /** A thread's turns do not depend on what another thread `by'` sends and does. */
  lemma TurnsFrame(s: Session, t: Thread, log: seq<Entry>, log': seq<Entry>, hist: seq<Moment>, hist': seq<Moment>,
                   by': Session)
    requires ThreadTurns(s, t, log, hist)
    requires Extends(log', log, by') && by' != s
    requires forall m :: m in hist ==> m in hist'
    ensures ThreadTurns(s, t, log', hist')
  {
    TaggedFrame(s, log, log', by');
    forall k | 0 <= k < |t.done| ensures Completed(s, t, k, log', hist') {
      assert Completed(s, t, k, log, hist);
    }
  }

  /** A finished turn joins the completed ones. */
  lemma {:induction false} DoneTurns(s: Session, t: Thread, turn: Turn, log: seq<Entry>, hist: seq<Moment>, pc: Pc)
    requires PastTurns(s, t, log, hist) && |t.done| + 1 == |t.ops|
    requires Recorded(s, |t.done|, Current(t), turn, hist) && Tagged(log, s, |t.done|) == turn.outs
    requires pc.Ended? || pc.Ready?
    ensures ThreadTurns(s, t.(done := t.done + [turn], pc := pc), log, hist)
  {
    var t' := t.(done := t.done + [turn], pc := pc);
    forall k | 0 <= k < |t'.done| ensures Completed(s, t', k, log, hist) {
      if k < |t.done| {
        assert Completed(s, t, k, log, hist);
      }
    }
  }

  /** `PastTurns` is kept while the thread's history grows or its next arrival comes in. */
  lemma PastKept(s: Session, t: Thread, t': Thread, log: seq<Entry>, hist: seq<Moment>, hist': seq<Moment>)
    requires PastTurns(s, t, log, hist) && t'.done == t.done && t.ops <= t'.ops
    requires forall m :: m in hist ==> m in hist'
    ensures PastTurns(s, t', log, hist')
  {
    forall k | 0 <= k < |t'.done| ensures Completed(s, t', k, log, hist') {
      assert Completed(s, t, k, log, hist);
    }
  }

  /** The thread has sent `n` messages of its current turn. */
  lemma {:induction false} AdvanceTurns(s: Session, t: Thread, turn: Turn, n: nat, log: seq<Entry>, hist: seq<Moment>)
    requires PastTurns(s, t, log, hist) && |t.done| + 1 == |t.ops|
    requires Recorded(s, |t.done|, Current(t), turn, hist)
    requires n <= |turn.outs| && Tagged(log, s, |t.done|) == turn.outs[..n]
    ensures ThreadTurns(s, Advance(t, turn, n), log, hist)
  {
    if n < |turn.outs| {
      PastKept(s, t, t.(pc := Sending(turn, n)), log, hist, hist);
    } else {
      assert turn.outs[..n] == turn.outs;
      DoneTurns(s, t, turn, log, hist, if Ends(Current(t)) then Ended else Ready);
    }
  }

  /** An arrival that needs no lock is a turn of its own. */
  lemma TurnPlain(s: Session, t: Thread, a: Arrival, st: RouterState, log: seq<Entry>, hist: seq<Moment>)
    requires ThreadTurns(s, t, log, hist) && t.pc.Ready? && !NeedsLock(a)
    ensures ThreadTurns(s, Advance(t.(ops := t.ops + [a]), Turn(st, st, PlainOuts(s, a)), 0),
                        log, hist + [Turned(s, |t.ops|, a, st, st)])
  {
    var t' := t.(ops := t.ops + [a]);
    var hist' := hist + [Turned(s, |t.ops|, a, st, st)];
    PastKept(s, t, t', log, hist, hist');
    assert hist'[|hist|] in hist';
    AdvanceTurns(s, t', Turn(st, st, PlainOuts(s, a)), 0, log, hist');
  }

  lemma TurnWait(s: Session, t: Thread, a: Arrival, log: seq<Entry>, hist: seq<Moment>)
    requires ThreadTurns(s, t, log, hist) && t.pc.Ready? && NeedsLock(a)
    ensures ThreadTurns(s, t.(ops := t.ops + [a], pc := if a.m.Publish? then WantsRead else Wants), log, hist)
  {
    PastKept(s, t, t.(ops := t.ops + [a], pc := if a.m.Publish? then WantsRead else Wants), log, hist, hist);
    assert Tagged(log, s, |t.ops|) == [];
  }

  /** The body of a critical section is a turn of the sequential loop. */
  lemma LockedOutsServe(st: RouterState, s: Session, a: Arrival)
    requires NeedsLock(a) && !a.m.Publish?
    ensures Serves(st, Effect(st, s, a.m, a.draw), s, a, LockedOuts(st, s, a))
  {}

  lemma TurnBody(s: Session, t: Thread, st: RouterState, log: seq<Entry>, hist: seq<Moment>)
    requires ThreadTurns(s, t, log, hist) && t.pc.Holds?
    ensures var a := Current(t);
            var post := Effect(st, s, a.m, a.draw);
            ThreadTurns(s, t.(pc := Leaving(Turn(st, post, LockedOuts(st, s, a)))),
                        log, hist + [Turned(s, |t.ops| - 1, a, st, post)])
  {
    var a := Current(t);
    var post := Effect(st, s, a.m, a.draw);
    var hist' := hist + [Turned(s, |t.ops| - 1, a, st, post)];
    LockedOutsServe(st, s, a);
    PastKept(s, t, t.(pc := Leaving(Turn(st, post, LockedOuts(st, s, a)))), log, hist, hist');
    assert hist'[|hist|] in hist';
  }

  lemma PastSend(s: Session, t: Thread, log: seq<Entry>, hist: seq<Moment>, e: Entry)
    requires PastTurns(s, t, log, hist) && |t.done| + 1 == |t.ops| && e.from == s && e.op == |t.done|
    ensures PastTurns(s, t, log + [e], hist)
  {
    forall k: nat | k != |t.done| ensures Tagged(log + [e], s, k) == Tagged(log, s, k) {
      TaggedSnoc(log, e, s, k);
    }
    forall k | 0 <= k < |t.done| ensures Completed(s, t, k, log + [e], hist) {
      assert Completed(s, t, k, log, hist);
    }
  }

  lemma {:induction false} TurnSend(s: Session, t: Thread, log: seq<Entry>, hist: seq<Moment>, e: Entry)
    requires ThreadTurns(s, t, log, hist) && t.pc.Sending?
    requires e == Entry(t.pc.turn.outs[t.pc.n], s, |t.ops| - 1, Current(t))
    ensures ThreadTurns(s, Advance(t, t.pc.turn, t.pc.n + 1), log + [e], hist)
  {
    PastSend(s, t, log, hist, e);
    TaggedSnoc(log, e, s, |t.done|);
    AdvanceTurns(s, t, t.pc.turn, t.pc.n + 1, log + [e], hist);
  }

  lemma TurnRLock(s: Session, t: Thread, st: RouterState, log: seq<Entry>, hist: seq<Moment>)
    requires ThreadTurns(s, t, log, hist) && t.pc.WantsRead?
    ensures ThreadTurns(s, t.(pc := Publishing(st, {}, [], [])), log,
                        hist + [Turned(s, |t.ops| - 1, Current(t), st, st)])
  {
    var hist' := hist + [Turned(s, |t.ops| - 1, Current(t), st, st)];
    PastKept(s, t, t.(pc := Publishing(st, {}, [], [])), log, hist, hist');
    assert hist'[|hist|] in hist';
    assert B.Reached(st.live, s, Current(t).m, Current(t).draw, {}) == {};
  }

  lemma BagGrows(live: B.Live, s: Session, a: Arrival, visited: set<Id>, id: Id, sent: seq<Envelope>,
                 next: seq<Envelope>)
    requires a.Incoming? && a.m.Publish? && id !in visited
    requires multiset(sent) == multiset(B.Reached(live, s, a.m, a.draw, visited))
    requires next == if B.IsTarget(live, s, a.m, id) then [B.Delivery(live, a.m, a.draw, id)] else []
    ensures multiset(sent + next) == multiset(B.Reached(live, s, a.m, a.draw, visited + {id}))
  {}

  lemma TurnPick(s: Session, t: Thread, log: seq<Entry>, hist: seq<Moment>, id: Id)
    requires ThreadTurns(s, t, log, hist) && t.pc.Publishing? && t.pc.next == [] && id !in t.pc.visited
    ensures var a, live := Current(t), t.pc.snap.live;
            var next := if B.IsTarget(live, s, a.m, id) then [B.Delivery(live, a.m, a.draw, id)] else [];
            ThreadTurns(s, t.(pc := t.pc.(visited := t.pc.visited + {id}, next := next)), log, hist)
  {
    var a, live := Current(t), t.pc.snap.live;
    var next := if B.IsTarget(live, s, a.m, id) then [B.Delivery(live, a.m, a.draw, id)] else [];
    PastKept(s, t, t.(pc := t.pc.(visited := t.pc.visited + {id}, next := next)), log, hist, hist);
    BagGrows(live, s, a, t.pc.visited, id, t.pc.sent, next);
  }

  lemma TurnEmit(s: Session, t: Thread, log: seq<Entry>, hist: seq<Moment>, e: Entry)
    requires ThreadTurns(s, t, log, hist) && t.pc.Publishing? && t.pc.next != []
    requires e == Entry(t.pc.next[0], s, |t.ops| - 1, Current(t))
    ensures ThreadTurns(s, t.(pc := t.pc.(next := t.pc.next[1..], sent := t.pc.sent + [t.pc.next[0]])), log + [e], hist)
  {
    PastSend(s, t, log, hist, e);
    PastKept(s, t, t.(pc := t.pc.(next := t.pc.next[1..], sent := t.pc.sent + [t.pc.next[0]])), log + [e], hist, hist);
    TaggedSnoc(log, e, s, |t.done|);
    assert t.pc.sent + t.pc.next == t.pc.sent + [t.pc.next[0]] + t.pc.next[1..];
  }

  /** A publication whose loop is over, with its acknowledgement, is a turn of the
      sequential loop at the state the read lock protected. */
  lemma MulticastDone(snap: RouterState, s: Session, a: Arrival, visited: set<Id>, sent: seq<Envelope>)
    requires NeedsLock(a) && a.m.Publish?
    requires multiset(sent) == multiset(B.Reached(snap.live, s, a.m, a.draw, visited))
    requires forall id :: id in snap.live && snap.live[id].topic == a.m.topic ==> id in visited
    ensures Serves(snap, snap, s, a, sent + B.Ack(s, a.m, a.draw))
    ensures (sent + B.Ack(s, a.m, a.draw))[..|sent|] == sent
  {}

  lemma TurnRUnlock(s: Session, t: Thread, log: seq<Entry>, hist: seq<Moment>)
    requires ThreadTurns(s, t, log, hist) && t.pc.Publishing? && t.pc.next == []
    requires forall id :: id in t.pc.snap.live && t.pc.snap.live[id].topic == Current(t).m.topic ==> id in t.pc.visited
    ensures var a := Current(t);
            ThreadTurns(s, Advance(t, Turn(t.pc.snap, t.pc.snap, t.pc.sent + B.Ack(s, a.m, a.draw)), |t.pc.sent|),
                        log, hist)
  {
    var a, sent, snap := Current(t), t.pc.sent, t.pc.snap;
    assert sent + t.pc.next == sent;
    MulticastDone(snap, s, a, t.pc.visited, sent);
    AdvanceTurns(s, t, Turn(snap, snap, sent + B.Ack(s, a.m, a.draw)), |sent|, log, hist);
  }

  /** Thread `s` (or the runner, on an ended thread `s`) took a step that leaves its own
      turns in order. */
  lemma ThreadMoved(r: Router, r': Router, s: Session)
    requires TurnInv(r) && s in r'.threads && r'.threads == r.threads[s := r'.threads[s]]
    requires ThreadTurns(s, r'.threads[s], r'.log, r'.hist)
    requires Extends(r'.log, r.log, s) && forall m :: m in r.hist ==> m in r'.hist
    ensures TurnInv(r')
  {
    forall t | t in r'.threads && t != s ensures ThreadTurns(t, r'.threads[t], r'.log, r'.hist) {
      TurnsFrame(t, r.threads[t], r.log, r'.log, r.hist, r'.hist, s);
    }
    forall t, k: nat | t !in r'.threads ensures Tagged(r'.log, t, k) == [] {
      TaggedFrame(t, r.log, r'.log, s);
    }
  }

  /** The step changes neither the log nor the past of any thread. */
  lemma NobodyMoved(r: Router, r': Router)
    requires TurnInv(r) && r'.threads == r.threads && r'.log == r.log && forall m :: m in r.hist ==> m in r'.hist
    ensures TurnInv(r')
  {
    forall t | t in r'.threads ensures ThreadTurns(t, r'.threads[t], r'.log, r'.hist) {
      var other := Session(t.handle + 1, t.id);
      TurnsFrame(t, r.threads[t], r.log, r'.log, r.hist, r'.hist, other);
    }
  }

  lemma NewPc(s: Session, t: Thread, pc: Pc, log: seq<Entry>, hist: seq<Moment>)
    requires ThreadTurns(s, t, log, hist)
    requires (t.pc.Wants? && pc == Holds) || ((t.pc.Ready? || t.pc.Ended?) && (pc == Ended || pc == Gone))
    ensures ThreadTurns(s, t.(pc := pc), log, hist)
  {
    PastKept(s, t, t.(pc := pc), log, hist, hist);
  }

  lemma LockTurns(r: Router, s: Session)
    requires TurnInv(r) && Enabled(r, Lock(s))
    ensures TurnInv(DoLock(r, s))
  {
    NewPc(s, r.threads[s], Holds, r.log, r.hist);
    ThreadMoved(r, DoLock(r, s), s);
  }

  lemma BodyTurns(r: Router, s: Session)
    requires TurnInv(r) && Enabled(r, Body(s))
    ensures TurnInv(DoBody(r, s))
  {
    TurnBody(s, r.threads[s], r.st, r.log, r.hist);
    ThreadMoved(r, DoBody(r, s), s);
  }

  lemma UnlockTurns(r: Router, s: Session)
    requires TurnInv(r) && Enabled(r, Unlock(s))
    ensures TurnInv(DoUnlock(r, s))
  {
    var t := r.threads[s];
    AdvanceTurns(s, t, t.pc.turn, 0, r.log, r.hist);
    ThreadMoved(r, DoUnlock(r, s), s);
  }

  lemma SendTurns(r: Router, s: Session)
    requires TurnInv(r) && Enabled(r, Send(s))
    ensures TurnInv(DoSend(r, s))
  {
    var t := r.threads[s];
    TurnSend(s, t, r.log, r.hist, Entry(t.pc.turn.outs[t.pc.n], s, |t.ops| - 1, Current(t)));
    ThreadMoved(r, DoSend(r, s), s);
  }

  lemma TurnStepPublish(r: Router, step: Step)
    requires LockInv(r) && TurnInv(r) && SnapInv(r) && Enabled(r, step)
    requires step.RLock? || step.Pick? || step.Emit? || step.RUnlock?
    ensures TurnInv(Do(r, step))
  {
    var s := step.s;
    var t := r.threads[s];
    match step {
      case RLock(_) => TurnRLock(s, t, r.st, r.log, r.hist);
      case Pick(_, id) => TurnPick(s, t, r.log, r.hist, id);
      case Emit(_) => TurnEmit(s, t, r.log, r.hist, Entry(t.pc.next[0], s, |t.ops| - 1, Current(t)));
      case RUnlock(_) =>
        assert forall id :: id in t.pc.snap.live && t.pc.snap.live[id].topic == Current(t).m.topic ==>
          OnTopic(r, t, id);
        TurnRUnlock(s, t, r.log, r.hist);
    }
    ThreadMoved(r, Do(r, step), s);
  }

  lemma TurnStepIdle(r: Router, step: Step)
    requires LockInv(r) && TurnInv(r) && Enabled(r, step)
    requires step.Join? || step.Receive? || step.Lose? || step.Leave?
    ensures TurnInv(Do(r, step))
  {
    match step
    case Join(s) => ThreadMoved(r, Do(r, step), s);
    case Receive(s, a) =>
      if NeedsLock(a) {
        TurnWait(s, r.threads[s], a, r.log, r.hist);
      } else {
        TurnPlain(s, r.threads[s], a, r.st, r.log, r.hist);
      }
      ThreadMoved(r, Do(r, step), s);
    case Lose(s) =>
      NewPc(s, r.threads[s], Ended, r.log, r.hist);
      ThreadMoved(r, Do(r, step), s);
    case Leave(_) => NobodyMoved(r, Do(r, step));
  }

  lemma TurnStepRunner(r: Router)
    requires LockInv(r) && TurnInv(r) && Enabled(r, Run)
    ensures TurnInv(DoRun(r))
  {
    if r.runner.OutBroker? {
      var s := r.runner.s;
      NewPc(s, r.threads[s], Gone, r.log, r.hist);
      ThreadMoved(r, DoRun(r), s);
    } else {
      NobodyMoved(r, DoRun(r));
    }
  }

  lemma TurnStep(r: Router, step: Step)
    requires LockInv(r) && TurnInv(r) && SnapInv(r) && Enabled(r, step)
    ensures TurnInv(Do(r, step))
  {
    match step
    case Lock(s) => LockTurns(r, s);
    case Body(s) => BodyTurns(r, s);
    case Unlock(s) => UnlockTurns(r, s);
    case Send(s) => SendTurns(r, s);
    case RLock(_) => TurnStepPublish(r, step);
    case Pick(_, _) => TurnStepPublish(r, step);
    case Emit(_) => TurnStepPublish(r, step);
    case RUnlock(_) => TurnStepPublish(r, step);
    case Run => TurnStepRunner(r);
    case _ => TurnStepIdle(r, step);
  }

  /** Only the holder of the write lock changes the subscriptions, and then nobody publishes. */
  lemma SnapStep(r: Router, step: Step)
    requires LockInv(r) && SnapInv(r) && Enabled(r, step)
    ensures SnapInv(Do(r, step))
  {
    match step
    case Body(s) =>
      var a := Current(r.threads[s]);
      if IsBrokerMessage(a.m) {
        assert r.writer == Some(Loop(s));
      } else {
        assert Effect(r.st, s, a.m, a.draw).live == r.st.live;
      }
    case Run =>
    case _ =>
  }
}
