/** When session loops end, and that the router's locks never leave it stuck. */
module RouterLife {
  import opened Wamp
  import opened RealmSpec
  import opened RouterMachine
  import opened RouterSafety
  import opened RouterTheorems

  // ---------- the end of a loop ----------

  lemma {:induction false} LocksHold(tr: Trace)
    requires Possible(tr)
    ensures LockInv(Final(tr))
  {
    Invariant(tr);
  }

  predicate Over(t: Thread) {
    t.pc.Ended? || t.pc.Gone?
  }

  /** The last arrival made the loop return. */
  predicate Closed(t: Thread) {
    |t.done| == |t.ops| && t.ops != [] && Ends(Current(t))
  }

  /** Only the last arrival can end the loop, and then the thread is not ready for another;
      the loop is over when its last arrival or a `lost` connection ended it. */
  ghost predicate LifeOk(t: Thread, lost: bool) {
    && (forall k :: 0 <= k < |t.ops| - 1 ==> !Ends(t.ops[k]))
    && (t.pc.Ready? && t.ops != [] ==> !Ends(Current(t)))
    && (Over(t) ==> lost || Closed(t))
    && (lost ==> Over(t))
  }

  /** The thread is still busy with its last arrival, or has just done with it. */
  predicate Proceeds(t: Thread, t': Thread) {
    && t.ops != [] && t'.ops == t.ops
    && (t'.pc.Ready? || Over(t') ==> |t'.done| == |t'.ops| && t'.pc == if Ends(Current(t)) then Ended else Ready)
  }

  lemma LockedStepProceeds(r: Router, step: Step)
    requires LockInv(r) && Enabled(r, step) && (step.Lock? || step.Body? || step.Unlock? || step.Send?)
    ensures Proceeds(r.threads[step.s], Do(r, step).threads[step.s]) && !Over(r.threads[step.s])
  {}

  lemma PublishStepProceeds(r: Router, step: Step)
    requires LockInv(r) && Enabled(r, step) && (step.RLock? || step.Pick? || step.Emit? || step.RUnlock?)
    ensures Proceeds(r.threads[step.s], Do(r, step).threads[step.s]) && !Over(r.threads[step.s])
  {}

  lemma ReceiveProceeds(r: Router, s: Session, a: Arrival)
    requires LockInv(r) && Enabled(r, Receive(s, a))
    ensures Proceeds(r.threads[s].(ops := r.threads[s].ops + [a]), Do(r, Receive(s, a)).threads[s])
  {}

  /** The step is one of a thread that has joined already. */
  predicate OfThread(step: Step) {
    !step.Join? && !step.Leave? && !step.Run?
  }

  lemma ProceedsLife(t: Thread, u: Thread, t': Thread)
    requires LifeOk(t, false) && Proceeds(u, t')
    requires (u.ops == t.ops && !Over(t)) || (t.pc.Ready? && u.ops[..|u.ops| - 1] == t.ops)
    ensures LifeOk(t', false)
  {}

  lemma ReceiveLife(r: Router, s: Session, a: Arrival)
    requires LockInv(r) && Enabled(r, Receive(s, a)) && LifeOk(r.threads[s], false)
    ensures LifeOk(Do(r, Receive(s, a)).threads[s], false)
  {
    var t := r.threads[s];
    ReceiveProceeds(r, s, a);
    ProceedsLife(t, t.(ops := t.ops + [a]), Do(r, Receive(s, a)).threads[s]);
  }

  lemma BusyLife(r: Router, step: Step)
    requires LockInv(r) && Enabled(r, step) && OfThread(step) && !step.Receive? && !step.Lose?
    requires LifeOk(r.threads[step.s], false)
    ensures LifeOk(Do(r, step).threads[step.s], false)
  {
    if step.Lock? || step.Body? || step.Unlock? || step.Send? {
      LockedStepProceeds(r, step);
    } else {
      PublishStepProceeds(r, step);
    }
    ProceedsLife(r.threads[step.s], r.threads[step.s], Do(r, step).threads[step.s]);
  }

  lemma NotOver(r: Router, step: Step)
    requires LockInv(r) && Enabled(r, step) && OfThread(step)
    ensures !Over(r.threads[step.s])
  {}

  lemma LifeMoves(r: Router, step: Step, lost: bool)
    requires LockInv(r) && Enabled(r, step) && OfThread(step) && LifeOk(r.threads[step.s], lost)
    ensures LifeOk(Do(r, step).threads[step.s], lost || step.Lose?)
  {
    NotOver(r, step);
    if step.Receive? {
      ReceiveLife(r, step.s, step.a);
    } else if !step.Lose? {
      BusyLife(r, step);
    }
  }

  /** A step leaves the threads of other sessions alone, or notes that one is gone. */
  lemma OthersStay(r: Router, step: Step, s: Session)
    requires LockInv(r) && Enabled(r, step) && s in r.threads && (OfThread(step) ==> s != step.s)
    ensures s in Do(r, step).threads
    ensures Do(r, step).threads[s] == r.threads[s]
         || (r.threads[s].pc.Ended? && Do(r, step).threads[s] == r.threads[s].(pc := Gone))
  {}

  lemma OnlyJoinAdds(r: Router, step: Step, s: Session)
    requires Enabled(r, step) && s in Do(r, step).threads && s !in r.threads
    ensures step == Join(s) && Do(r, step).threads[s] == Thread([], [], Ready)
  {
    StepGrows(r, step);
  }

  /** Session `s` lost its connection at some step of the run. */
  predicate LostIn(tr: Trace, s: Session) {
    tr.Then? && (tr.step == Lose(s) || LostIn(tr.before, s))
  }

  lemma {:induction false} LostWasThere(tr: Trace, s: Session)
    requires Possible(tr) && LostIn(tr, s)
    ensures s in Final(tr).threads
  {
    StepGrows(Final(tr.before), tr.step);
    if tr.step != Lose(s) {
      LostWasThere(tr.before, s);
    }
  }

  /** One step of the run, for a thread that was there before. */
  lemma LifeStep(r: Router, step: Step, s: Session, lost: bool)
    requires LockInv(r) && Enabled(r, step) && s in r.threads && LifeOk(r.threads[s], lost)
    ensures s in Do(r, step).threads && LifeOk(Do(r, step).threads[s], lost || step == Lose(s))
  {
    if OfThread(step) && step.s == s {
      LifeMoves(r, step, lost);
    } else {
      OthersStay(r, step, s);
    }
  }

  lemma {:induction false} AlwaysLifeOk(tr: Trace, s: Session)
    requires Possible(tr) && s in Final(tr).threads
    ensures LifeOk(Final(tr).threads[s], LostIn(tr, s))
  {
    var r := Final(tr.before);
    if s in r.threads {
      LocksHold(tr.before);
      AlwaysLifeOk(tr.before, s);
      LifeStep(r, tr.step, s, LostIn(tr.before, s));
    } else {
      OnlyJoinAdds(r, tr.step, s);
      if LostIn(tr.before, s) {
        LostWasThere(tr.before, s);
      }
    }
  }

  /** In every interleaving a session receives nothing after a kill request or an authorized
      GOODBYE, and its loop is over if and only if it is done with such an arrival, or has
      lost its connection. */
  lemma {:induction false} LoopEndsIff(tr: Trace, s: Session)
    requires Possible(tr) && s in Final(tr).threads
    ensures var t := Final(tr).threads[s];
            && (forall k :: 0 <= k < |t.ops| ==>
                  (t.ops[k].Kill? || (t.ops[k].verdict == Authorized && t.ops[k].m.Goodbye?) ==> |t.ops| == k + 1))
            && (t.pc.Ended? || t.pc.Gone? <==>
                  LostIn(tr, s)
                  || (t.ops != [] && |t.done| == |t.ops|
                      && var a := t.ops[|t.ops| - 1];
                         a.Kill? || (a.verdict == Authorized && a.m.Goodbye?)))
  {
    LocksHold(tr);
    AlwaysLifeOk(tr, s);
    var t := Final(tr).threads[s];
    assert Shape(t);
    forall k | 0 <= k < |t.ops| && (t.ops[k].Kill? || (t.ops[k].verdict == Authorized && t.ops[k].m.Goodbye?))
      ensures |t.ops| == k + 1
    {
      assert Ends(t.ops[k]);
    }
  }

  // ---------- no deadlock ----------

  /** Session `s` is in the middle of a message. */
  predicate Busy(r: Router, s: Session) {
    s in r.threads && |r.threads[s].done| < |r.threads[s].ops|
  }

  /** The step goes on with a message that was received, or with the removal act. */
  predicate GoesOn(r: Router, step: Step) {
    step.Run? || (OfThread(step) && !step.Receive? && !step.Lose? && Busy(r, step.s))
  }

  /** Whoever is past its lock can take a step. */
  lemma InsideMoves(r: Router, s: Session) returns (step: Step)
    requires LockInv(r) && s in r.threads
    requires var pc := r.threads[s].pc; pc.Holds? || pc.Leaving? || pc.Publishing? || pc.Sending?
    ensures GoesOn(r, step) && Enabled(r, step)
  {
    var t := r.threads[s];
    assert Shape(t);
    match t.pc
    case Holds => step := Body(s);
    case Leaving(_) => step := Unlock(s);
    case Sending(_, _) => step := Send(s);
    case Publishing(_, visited, next, _) =>
      if next != [] {
        step := Emit(s);
      } else if id :| OnTopic(r, t, id) && id !in visited {
        step := Pick(s, id);
      } else {
        step := RUnlock(s);
      }
  }

  /** Either the broker's lock is free, or its holder can take a step. */
  lemma BrokerHolderMoves(r: Router) returns (step: Step)
    requires LockInv(r) && (r.writer != None || r.readers != {})
    ensures GoesOn(r, step) && Enabled(r, step)
  {
    if r.writer == Some(Runner) {
      step := Run;
    } else if r.writer.Some? {
      step := InsideMoves(r, r.writer.value.s);
    } else {
      var s :| s in r.readers;
      step := InsideMoves(r, s);
    }
  }

  lemma DealerHolderMoves(r: Router) returns (step: Step)
    requires LockInv(r) && r.mutex != None
    ensures GoesOn(r, step) && Enabled(r, step)
  {
    if r.mutex == Some(Runner) {
      step := Run;
    } else {
      step := InsideMoves(r, r.mutex.value.s);
    }
  }

  lemma BlockedMoves(r: Router, s: Session) returns (step: Step)
    requires LockInv(r) && s in r.threads && (r.threads[s].pc.Wants? || r.threads[s].pc.WantsRead?)
    ensures GoesOn(r, step) && Enabled(r, step)
  {
    var t := r.threads[s];
    assert Shape(t);
    if IsBrokerMessage(Current(t).m) && (r.writer != None || r.readers != {}) {
      step := BrokerHolderMoves(r);
    } else if !IsBrokerMessage(Current(t).m) && r.mutex != None {
      step := DealerHolderMoves(r);
    } else {
      step := if t.pc.Wants? then Lock(s) else RLock(s);
    }
  }

  lemma RunnerMoves(r: Router) returns (step: Step)
    requires LockInv(r) && !r.runner.Idle?
    ensures GoesOn(r, step) && Enabled(r, step)
  {
    if r.runner.ToDealer? && r.mutex != None {
      step := DealerHolderMoves(r);
    } else if r.runner.ToBroker? && (r.writer != None || r.readers != {}) {
      step := BrokerHolderMoves(r);
    } else {
      step := Run;
    }
  }

  lemma WorkMoves(r: Router) returns (step: Step)
    requires LockInv(r) && (!r.runner.Idle? || exists s :: Busy(r, s))
    ensures GoesOn(r, step) && Enabled(r, step)
  {
    if !r.runner.Idle? {
      step := RunnerMoves(r);
    } else {
      var s :| Busy(r, s);
      assert Shape(r.threads[s]);
      if r.threads[s].pc.Wants? || r.threads[s].pc.WantsRead? {
        step := BlockedMoves(r, s);
      } else {
        step := InsideMoves(r, s);
      }
    }
  }

  /** In every interleaving, while a message is being served or a session is being removed,
      some step that goes on with such work can be taken. */
  lemma {:induction false} NoDeadlock(tr: Trace) returns (step: Step)
    requires Possible(tr) && (!Final(tr).runner.Idle? || exists s :: Busy(Final(tr), s))
    ensures Enabled(Final(tr), step) && !step.Join? && !step.Leave? && !step.Receive? && !step.Lose?
    ensures step.Run? || Busy(Final(tr), step.s)
  {
    LocksHold(tr);
    step := WorkMoves(Final(tr));
  }

  /** A session that is done with its messages and whose loop is not over can receive any
      arrival with a new id; when it is over and the runner is idle, it can be removed, and new
      sessions can join. */
  lemma {:induction false} AlwaysOpen(tr: Trace, s: Session, a: Arrival)
    requires Possible(tr)
    ensures var r := Final(tr);
            && (s in r.threads && |r.threads[s].done| == |r.threads[s].ops| && !r.threads[s].pc.Ended?
                && !r.threads[s].pc.Gone? && (a.Incoming? ==> a.draw !in r.used) ==>
                  Enabled(r, Receive(s, a)) && Enabled(r, Lose(s)))
            && (r.runner.Idle? && s in r.threads && r.threads[s].pc.Ended? ==> Enabled(r, Leave(s)))
            && (r.runner.Idle? && (forall t :: t in r.threads ==> t.id != s.id) ==> Enabled(r, Join(s)))
  {
    LocksHold(tr);
    if s in Final(tr).threads {
      assert Shape(Final(tr).threads[s]);
    }
  }
}
