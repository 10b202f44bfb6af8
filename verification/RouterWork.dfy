/** The work that the router has received always comes to an end: no step of it can be taken
    for ever, and from every state it can all be finished. */
module RouterWork {
  import opened Wamp
  import opened RealmSpec
  import opened RouterMachine
  import opened RouterSafety
  import opened RouterTheorems
  import opened RouterLife

  // ---------- sums over threads ----------

  ghost function Sum(threads: map<Session, Thread>, f: Thread -> nat): nat
    decreases |threads|
  {
    if threads == map[] then 0
    else
      var s :| s in threads;
      f(threads[s]) + Sum(threads - {s}, f)
  }

  lemma {:induction false} SumWithout(threads: map<Session, Thread>, f: Thread -> nat, s: Session)
    requires s in threads
    ensures Sum(threads, f) == f(threads[s]) + Sum(threads - {s}, f)
    decreases |threads|
  {
    var u :| u in threads && Sum(threads, f) == f(threads[u]) + Sum(threads - {u}, f);
    if u != s {
      SumWithout(threads - {u}, f, s);
      SumWithout(threads - {s}, f, u);
      assert threads - {u} - {s} == threads - {s} - {u};
    }
  }

  lemma SumMoved(threads: map<Session, Thread>, f: Thread -> nat, s: Session, t: Thread)
    requires s in threads
    ensures Sum(threads[s := t], f) == Sum(threads, f) - f(threads[s]) + f(t)
  {
    SumWithout(threads, f, s);
    SumWithout(threads[s := t], f, s);
    assert threads[s := t] - {s} == threads - {s};
  }

  // ---------- how much is left ----------

  /** The phases a thread still has to go through with its message. */
  function Phases(t: Thread): nat {
    match t.pc
    case Wants => 4
    case WantsRead => 4
    case Holds => 3
    case Leaving(_) => 2
    case Publishing(_, _, _, _) => 2
    case Sending(_, _) => 1
    case _ => 0
  }

  /** The routes of the topic that a publisher has not come to yet. */
  function Unvisited(t: Thread): set<Id>
    requires t.pc.Publishing?
  {
    set id | id in t.pc.snap.live && id !in t.pc.visited && t.ops != [] && Current(t).Incoming?
             && Current(t).m.Publish? && t.pc.snap.live[id].topic == Current(t).m.topic
  }

  /** The steps left in a phase that has several. */
  function Rounds(t: Thread): nat {
    match t.pc
    case Publishing(_, _, next, _) => 2 * |Unvisited(t)| + |next|
    case Sending(turn, n) => if n < |turn.outs| then |turn.outs| - n else 0
    case _ => 0
  }

  function RunnerPhases(pc: RunnerPc): nat {
    match pc
    case Idle => 0
    case ToDealer(_) => 6
    case InDealer(_) => 5
    case OutDealer(_) => 4
    case ToBroker(_) => 3
    case InBroker(_) => 2
    case OutBroker(_) => 1
  }

  ghost function AllPhases(r: Router): nat {
    Sum(r.threads, Phases) + RunnerPhases(r.runner)
  }

  ghost function AllRounds(r: Router): nat {
    Sum(r.threads, Rounds)
  }

  /** `t'` has less left to do than `t`. */
  predicate Less(t': Thread, t: Thread) {
    Phases(t') < Phases(t) || (Phases(t') == Phases(t) && Rounds(t') < Rounds(t))
  }

  lemma PickIsLess(r: Router, s: Session, id: Id)
    requires LockInv(r) && SnapInv(r) && Enabled(r, Pick(s, id))
    ensures Less(DoPick(r, s, id).threads[s], r.threads[s])
  {
    var t, t' := r.threads[s], DoPick(r, s, id).threads[s];
    assert t.pc.snap.live == r.st.live;
    assert Unvisited(t') == Unvisited(t) - {id} && id in Unvisited(t);
  }

  lemma EmitIsLess(r: Router, s: Session)
    requires LockInv(r) && Enabled(r, Emit(s))
    ensures Less(DoEmit(r, s).threads[s], r.threads[s])
  {
    var t, t' := r.threads[s], DoEmit(r, s).threads[s];
    assert Unvisited(t') == Unvisited(t);
  }

  lemma LockStepIsLess(r: Router, step: Step)
    requires Enabled(r, step) && (step.Lock? || step.Body? || step.RLock?)
    ensures Less(Do(r, step).threads[step.s], r.threads[step.s])
  {}

  lemma SendingIsLess(r: Router, step: Step)
    requires Enabled(r, step) && (step.Unlock? || step.RUnlock? || step.Send?)
    ensures Less(Do(r, step).threads[step.s], r.threads[step.s])
  {}

  lemma ThreadIsLess(r: Router, step: Step)
    requires LockInv(r) && SnapInv(r) && Enabled(r, step) && OfThread(step) && !step.Receive? && !step.Lose?
    ensures Less(Do(r, step).threads[step.s], r.threads[step.s])
  {
    match step
    case Pick(s, id) => PickIsLess(r, s, id);
    case Emit(s) => EmitIsLess(r, s);
    case Unlock(s) => SendingIsLess(r, step);
    case RUnlock(s) => SendingIsLess(r, step);
    case Send(s) => SendingIsLess(r, step);
    case _ => LockStepIsLess(r, step);
  }

  lemma ThreadStepIs(r: Router, step: Step)
    requires LockInv(r) && Enabled(r, step) && OfThread(step)
    ensures step.s in r.threads && step.s in Do(r, step).threads
    ensures Do(r, step).threads == r.threads[step.s := Do(r, step).threads[step.s]] && Do(r, step).runner == r.runner
  {}

  lemma RunStepIs(r: Router)
    requires !r.runner.Idle? && r.runner.s in r.threads
    ensures RunnerPhases(DoRun(r).runner) < RunnerPhases(r.runner)
    ensures DoRun(r).threads
         == if r.runner.OutBroker? then r.threads[r.runner.s := r.threads[r.runner.s].(pc := Gone)] else r.threads
  {}

  lemma RunnerHasThread(r: Router)
    requires LockInv(r) && !r.runner.Idle?
    ensures r.runner.s in r.threads && r.threads[r.runner.s].pc.Ended?
  {}

  lemma RunIsLess(r: Router)
    requires LockInv(r) && Enabled(r, Run)
    ensures AllPhases(DoRun(r)) < AllPhases(r)
  {
    RunnerHasThread(r);
    RunStepIs(r);
    SumMoved(r.threads, Phases, r.runner.s, r.threads[r.runner.s].(pc := Gone));
  }

  /** Every step of the work that the router has leaves less of it, whatever is next. */
  lemma WorkEnds(r: Router, step: Step)
    requires LockInv(r) && SnapInv(r) && Enabled(r, step) && GoesOn(r, step)
    ensures var r' := Do(r, step);
            AllPhases(r') < AllPhases(r) || (AllPhases(r') == AllPhases(r) && AllRounds(r') < AllRounds(r))
  {
    if step.Run? {
      RunIsLess(r);
    } else {
      var s := step.s;
      ThreadStepIs(r, step);
      ThreadIsLess(r, step);
      SumMoved(r.threads, Phases, s, Do(r, step).threads[s]);
      SumMoved(r.threads, Rounds, s, Do(r, step).threads[s]);
    }
  }

  // ---------- every run can be finished ----------

  lemma {:induction false} WorkInvariants(tr: Trace)
    requires Possible(tr)
    ensures LockInv(Final(tr)) && SnapInv(Final(tr))
  {
    Invariant(tr);
  }

  lemma {:induction false} PrefixGoesOn(tr: Trace, step: Step, later: Trace)
    requires IsPrefix(Trace.Then(tr, step), later)
    ensures IsPrefix(tr, later)
  {
    if later != Trace.Then(tr, step) {
      PrefixGoesOn(tr, step, later.before);
    }
  }

  /** The same messages are received in both states. */
  ghost predicate SameMessages(r: Router, r': Router) {
    r'.threads.Keys == r.threads.Keys && forall s :: s in r.threads ==> r'.threads[s].ops == r.threads[s].ops
  }

  lemma WorkReceivesNothing(r: Router, step: Step)
    requires LockInv(r) && Enabled(r, step) && GoesOn(r, step)
    ensures SameMessages(r, Do(r, step))
  {
    StepKeepsOps(r, step);
    if !step.Run? {
      ThreadStepIs(r, step);
    }
  }

  /** From every state of every interleaving the router can finish all messages that it has
      received, and the removal it is at, without receiving anything more; and as each step of
      that work leaves less of it, no schedule of its threads can put this off for ever. */
  lemma {:induction false} AllIsFinished(tr: Trace) returns (later: Trace)
    requires Possible(tr)
    ensures IsPrefix(tr, later) && Possible(later) && SameMessages(Final(tr), Final(later))
    ensures Final(later).runner.Idle?
    ensures forall s :: s in Final(later).threads ==>
              |Final(later).threads[s].done| == |Final(later).threads[s].ops|
    decreases AllPhases(Final(tr)), AllRounds(Final(tr))
  {
    var r := Final(tr);
    WorkInvariants(tr);
    if !r.runner.Idle? || exists s :: Busy(r, s) {
      var step := WorkMoves(r);
      var next := Trace.Then(tr, step);
      WorkEnds(r, step);
      WorkReceivesNothing(r, step);
      later := AllIsFinished(next);
      PrefixGoesOn(tr, step, later);
    } else {
      later := tr;
      forall s | s in r.threads ensures |r.threads[s].done| == |r.threads[s].ops| {
        assert Shape(r.threads[s]) && !Busy(r, s);
      }
    }
  }
}
