/** Whatever the interleaving, the dealer goes through a run in the sense of `DealerRuns`, so
    what holds of every run holds of the concurrent router. */
module DealerInterleaved {
  import opened Wamp
  import opened RealmSpec
  import opened RouterMachine
  import opened RouterSafety
  import opened DealerRuns
  import T = RouterTheorems
  import D = DealerSpec

  /** The dealer's part of a moment. */
  function OpOf(m: Moment): seq<Op> {
    match m
    case Turned(s, _, a, _, _) => if NeedsLock(a) && IsDealerMessage(a.m) then [Handled(s, a.m, a.draw)] else []
    case DealerLost(s, _, _) => [Removed(s)]
    case BrokerLost(_, _, _) => []
  }

  function DealerOps(hist: seq<Moment>): Run {
    if hist == [] then [] else DealerOps(hist[..|hist| - 1]) + OpOf(hist[|hist| - 1])
  }

  lemma {:induction false} PrefixState(ops: Run, more: Run, n: nat)
    requires n <= |ops| && ops <= more
    ensures StateAt(more, n) == StateAt(ops, n)
  {
    if n == 0 {
    } else {
      PrefixState(ops, more, n - 1);
    }
  }

  lemma {:induction false} PrefixOps(hist: seq<Moment>, h: nat)
    requires h <= |hist|
    ensures DealerOps(hist[..h]) <= DealerOps(hist)
  {
    if h < |hist| {
      PrefixOps(hist[..|hist| - 1], h);
      assert hist[..|hist| - 1][..h] == hist[..h];
    } else {
      assert hist[..h] == hist;
    }
  }

  /** One moment does to the dealer what its operation does. */
  lemma {:induction false} MomentStep(ops: Run, m: Moment)
    requires T.Lawful(m) && StateAt(ops, |ops|) == m.pre.dealer
    ensures StateAt(ops + OpOf(m), |ops + OpOf(m)|) == m.post.dealer
  {
    PrefixState(ops, ops + OpOf(m), |ops|);
    if OpOf(m) == [] {
      assert ops + OpOf(m) == ops;
    }
  }

  lemma {:induction false} DealerFollows(hist: seq<Moment>, st: RouterState)
    requires T.LeadsTo(hist, st)
    ensures StateAt(DealerOps(hist), |DealerOps(hist)|) == st.dealer
  {
    if hist == [] {
    } else {
      var m := hist[|hist| - 1];
      DealerFollows(hist[..|hist| - 1], m.pre);
      MomentStep(DealerOps(hist[..|hist| - 1]), m);
    }
  }

  // ---------- draws ----------

  predicate Drew(threads: map<Session, Thread>, s: Session, i: nat, d: Id) {
    s in threads && i < |threads[s].ops| && threads[s].ops[i].Incoming? && threads[s].ops[i].draw == d
  }

  /** No id is drawn for two arrivals. */
  ghost predicate DrawnOnce(threads: map<Session, Thread>, used: set<Id>) {
    && (forall s, i, d :: Drew(threads, s, i, d) ==> d in used)
    && (forall s, i, t, j, d :: Drew(threads, s, i, d) && Drew(threads, t, j, d) ==> s == t && i == j)
  }

  lemma ReceiveDraws(r: Router, s: Session, a: Arrival)
    requires DrawnOnce(r.threads, r.used) && Enabled(r, Receive(s, a))
    ensures DrawnOnce(DoReceive(r, s, a).threads, DoReceive(r, s, a).used)
  {
    var threads, n := DoReceive(r, s, a).threads, |r.threads[s].ops|;
    assert threads[s].ops == r.threads[s].ops + [a];
    forall t, i, d | Drew(threads, t, i, d)
      ensures Drew(r.threads, t, i, d) || (t == s && i == n && a.Incoming? && d == a.draw)
    {}
  }

  lemma SameDraws(threads: map<Session, Thread>, threads': map<Session, Thread>, used: set<Id>)
    requires DrawnOnce(threads, used) && T.SameOps(threads, threads')
    ensures DrawnOnce(threads', used)
  {
    forall s, i, d | Drew(threads', s, i, d) ensures Drew(threads, s, i, d) {}
  }

  lemma {:induction false} AllDrawnOnce(tr: Trace)
    requires Possible(tr)
    ensures DrawnOnce(Final(tr).threads, Final(tr).used)
  {
    if tr.Start? {
    } else {
      var r := Final(tr.before);
      AllDrawnOnce(tr.before);
      if tr.step.Receive? {
        ReceiveDraws(r, tr.step.s, tr.step.a);
      } else {
        T.StepKeepsOps(r, tr.step);
        SameDraws(r.threads, Do(r, tr.step).threads, r.used);
      }
    }
  }

  predicate DrawOf(m: Moment, d: Id) {
    m.Turned? && m.a.Incoming? && m.a.draw == d
  }

  ghost predicate HistDraws(hist: seq<Moment>) {
    forall i, j, d :: 0 <= i < j < |hist| && DrawOf(hist[i], d) ==> !DrawOf(hist[j], d)
  }

  lemma HistDrawsOnce(r: Router)
    requires DrawnOnce(r.threads, r.used) && T.ProgramOrder(r.threads, r.hist)
    ensures HistDraws(r.hist)
  {
    forall i, j, d | 0 <= i < j < |r.hist| && DrawOf(r.hist[i], d) ensures !DrawOf(r.hist[j], d) {
      if DrawOf(r.hist[j], d) {
        assert r.hist[i] in r.hist && r.hist[j] in r.hist;
        assert Drew(r.threads, r.hist[i].s, r.hist[i].op, d) && Drew(r.threads, r.hist[j].s, r.hist[j].op, d);
        assert false;
      }
    }
  }

  ghost predicate OpDraws(ops: Run) {
    forall j, k :: 0 <= j < k < |ops| && ops[j].Handled? && ops[k].Handled? ==> ops[j].draw != ops[k].draw
  }

  lemma {:induction false} OpDrawsOnce(hist: seq<Moment>)
    requires HistDraws(hist)
    ensures OpDraws(DealerOps(hist))
    ensures forall k :: 0 <= k < |DealerOps(hist)| && DealerOps(hist)[k].Handled? ==>
              exists i :: 0 <= i < |hist| && DrawOf(hist[i], DealerOps(hist)[k].draw)
  {
    if hist == [] {
    } else {
      var n := |hist| - 1;
      var front, ops := DealerOps(hist[..n]), DealerOps(hist);
      OpDrawsOnce(hist[..n]);
      assert forall o :: o in OpOf(hist[n]) && o.Handled? ==> DrawOf(hist[n], o.draw);
      forall k | 0 <= k < |front| && front[k].Handled?
        ensures exists i :: 0 <= i < n && DrawOf(hist[i], front[k].draw)
      {
        var i :| 0 <= i < n && DrawOf(hist[..n][i], front[k].draw);
        assert DrawOf(hist[i], front[k].draw);
      }
    }
  }

  // ---------- theorems ----------

  /** The dealer's state in every interleaving is that of a run of the dealer, namely of the
      messages and removals in the order of their critical sections, and no invocation id of
      that run is drawn twice. */
  lemma {:induction false} DealerIsInARun(tr: Trace)
    requires Possible(tr)
    ensures var ops := DealerOps(Final(tr).hist);
            StateAt(ops, |ops|) == Final(tr).st.dealer && DistinctDraws(ops)
  {
    T.Invariant(tr);
    AllDrawnOnce(tr);
    DealerFollows(Final(tr).hist, Final(tr).st);
    HistDrawsOnce(Final(tr));
    OpDrawsOnce(Final(tr).hist);
  }

  /** Every pending call has a pending invocation, in every interleaving. */
  lemma {:induction false} ConcurrentPendingCalls(tr: Trace, r: Id)
    requires Possible(tr) && r in Final(tr).st.dealer.calls
    ensures exists inv :: inv in Final(tr).st.dealer.invocations && Final(tr).st.dealer.invocations[inv] == r
  {
    DealerIsInARun(tr);
    var ops := DealerOps(Final(tr).hist);
    PendingCallHasInvocation(ops, |ops|, r);
  }

  // ---------- conservation, up to the sent messages ----------

  /** The sent message is what a YIELD or an ERROR of a callee caused. */
  predicate IsFinalAnswer(e: Entry) {
    NeedsLock(e.a) && D.IsAnswer(e.a.m)
  }

  /** A RESULT or ERROR message under a request id, or under any. */
  predicate Under(m: Message, under: Option<Id>) {
    (m.Result? || m.Error?) && (under.Some? ==> m.request == under.value)
  }

  /** The number of final answers in the log. */
  ghost function Sent(log: seq<Entry>, under: Option<Id>): nat {
    if log == [] then 0
    else
      var e := log[|log| - 1];
      Sent(log[..|log| - 1], under) + if IsFinalAnswer(e) && Under(e.env.msg, under) then 1 else 0
  }

  /** The thread has decided on a final answer that it has not sent yet. */
  predicate Owes(t: Thread, under: Option<Id>) {
    && t.ops != [] && NeedsLock(Current(t)) && D.IsAnswer(Current(t).m)
    && (t.pc.Leaving? || (t.pc.Sending? && t.pc.n == 0))
    && t.pc.turn.outs != [] && Under(t.pc.turn.outs[0].msg, under)
  }

  function Owing(threads: map<Session, Thread>, under: Option<Id>): set<Session> {
    set s | s in threads && Owes(threads[s], under)
  }

  /** The answers decided so far. */
  ghost function Decided(hist: seq<Moment>, under: Option<Id>): nat {
    Tally(DealerOps(hist), |DealerOps(hist)|, AnswerKind, under)
  }

  /** The moment decides a final answer. */
  predicate Decides(m: Moment, under: Option<Id>) {
    && m.Turned? && NeedsLock(m.a) && D.IsAnswer(m.a.m)
    && var out := D.OnAnswer(m.pre.dealer, m.a.m).out;
       out != [] && Under(out[0].msg, under)
  }

  ghost predicate Balanced(r: Router, under: Option<Id>) {
    Sent(r.log, under) + |Owing(r.threads, under)| == Decided(r.hist, under)
  }

  lemma {:induction false} PrefixTally(ops: Run, more: Run, n: nat, kind: Kind, under: Option<Id>)
    requires n <= |ops| && ops <= more
    ensures Tally(more, n, kind, under) == Tally(ops, n, kind, under)
  {
    if n == 0 {
    } else {
      PrefixTally(ops, more, n - 1, kind, under);
      PrefixState(ops, more, n - 1);
    }
  }

  /** The last operation of a run is counted if it decides an answer. */
  lemma {:induction false} LastCounted(ops: Run, m: Moment, under: Option<Id>)
    requires |OpOf(m)| == 1 && StateAt(ops, |ops|) == m.pre.dealer
    ensures Counted(ops + OpOf(m), |ops|, AnswerKind, under) <==> Decides(m, under)
  {
    var more := ops + OpOf(m);
    PrefixState(ops, more, |ops|);
    if more[|ops|].Handled? && D.IsAnswer(more[|ops|].m) {
      AnswerSent(more, |ops|);
    }
  }

  lemma {:induction false} DecidedNext(hist: seq<Moment>, m: Moment, under: Option<Id>)
    requires T.LeadsTo(hist, m.pre)
    ensures Decided(hist + [m], under) == Decided(hist, under) + if Decides(m, under) then 1 else 0
  {
    var ops := DealerOps(hist);
    assert (hist + [m])[..|hist|] == hist;
    assert DealerOps(hist + [m]) == ops + OpOf(m);
    DealerFollows(hist, m.pre);
    PrefixTally(ops, ops + OpOf(m), |ops|, AnswerKind, under);
    if OpOf(m) != [] {
      LastCounted(ops, m, under);
    }
  }

  lemma {:induction false} SentNext(log: seq<Entry>, e: Entry, under: Option<Id>)
    ensures Sent(log + [e], under) == Sent(log, under) + if IsFinalAnswer(e) && Under(e.env.msg, under) then 1 else 0
  {
    assert (log + [e])[..|log|] == log;
  }

  function Owed(threads: map<Session, Thread>, s: Session, under: Option<Id>): nat {
    if s in threads && Owes(threads[s], under) then 1 else 0
  }

  /** Thread `s` moved on; what it owes more or less, the log has less or more. */
  lemma {:induction false} StaysBalanced(r: Router, r': Router, s: Session, under: Option<Id>)
    requires Balanced(r, under) && s in r'.threads && r'.threads == r.threads[s := r'.threads[s]]
    requires Sent(r'.log, under) + Owed(r'.threads, s, under) + Decided(r.hist, under)
          == Sent(r.log, under) + Owed(r.threads, s, under) + Decided(r'.hist, under)
    ensures Balanced(r', under)
  {
    var before, after := Owing(r.threads, under), Owing(r'.threads, under);
    assert before - {s} == after - {s};
    assert |before| == |before - {s}| + Owed(r.threads, s, under);
    assert |after| == |after - {s}| + Owed(r'.threads, s, under);
  }

  /** Steps that neither decide nor send an answer. */
  lemma QuietBalanced(r: Router, step: Step, under: Option<Id>)
    requires LockInv(r) && Balanced(r, under) && Enabled(r, step)
    requires step.Join? || step.Lose? || step.Lock? || step.Unlock?
    ensures Balanced(Do(r, step), under)
  {
    StaysBalanced(r, Do(r, step), step.s, under);
  }

  lemma PublishBalanced(r: Router, step: Step, under: Option<Id>)
    requires LockInv(r) && Balanced(r, under) && Enabled(r, step) && (step.Pick? || step.RUnlock?)
    ensures Balanced(Do(r, step), under)
  {
    StaysBalanced(r, Do(r, step), step.s, under);
  }

  lemma PlainBalanced(r: Router, s: Session, a: Arrival, under: Option<Id>)
    requires LockInv(r) && T.LeadsTo(r.hist, r.st) && Balanced(r, under) && Enabled(r, Receive(s, a)) && !NeedsLock(a)
    ensures Balanced(DoReceive(r, s, a), under)
  {
    DecidedNext(r.hist, Turned(s, |r.threads[s].ops|, a, r.st, r.st), under);
    StaysBalanced(r, DoReceive(r, s, a), s, under);
  }

  lemma ReceiveBalanced(r: Router, s: Session, a: Arrival, under: Option<Id>)
    requires LockInv(r) && T.LeadsTo(r.hist, r.st) && Balanced(r, under) && Enabled(r, Receive(s, a))
    ensures Balanced(DoReceive(r, s, a), under)
  {
    if NeedsLock(a) {
      StaysBalanced(r, DoReceive(r, s, a), s, under);
    } else {
      PlainBalanced(r, s, a, under);
    }
  }

  lemma RLockBalanced(r: Router, s: Session, under: Option<Id>)
    requires LockInv(r) && T.LeadsTo(r.hist, r.st) && Balanced(r, under) && Enabled(r, RLock(s))
    ensures Balanced(DoRLock(r, s), under)
  {
    DecidedNext(r.hist, Turned(s, |r.threads[s].ops| - 1, Current(r.threads[s]), r.st, r.st), under);
    StaysBalanced(r, DoRLock(r, s), s, under);
  }

  /** The body of a critical section makes the thread owe what it decides. */
  lemma BodyOwes(s: Session, t: Thread, k: nat, st: RouterState, post: RouterState, under: Option<Id>)
    requires t.ops != [] && NeedsLock(Current(t)) && !Current(t).m.Publish?
    ensures var a := Current(t);
            Owes(t.(pc := Leaving(Turn(st, post, LockedOuts(st, s, a)))), under)
            <==> Decides(Turned(s, k, a, st, post), under)
  {}

  lemma BodyBalanced(r: Router, s: Session, under: Option<Id>)
    requires LockInv(r) && T.LeadsTo(r.hist, r.st) && Balanced(r, under) && Enabled(r, Body(s))
    ensures Balanced(DoBody(r, s), under)
  {
    var t := r.threads[s];
    var a := Current(t);
    var post := Effect(r.st, s, a.m, a.draw);
    BodyOwes(s, t, |t.ops| - 1, r.st, post, under);
    DecidedNext(r.hist, Turned(s, |t.ops| - 1, a, r.st, post), under);
    StaysBalanced(r, DoBody(r, s), s, under);
  }

  lemma EmitBalanced(r: Router, s: Session, under: Option<Id>)
    requires LockInv(r) && Balanced(r, under) && Enabled(r, Emit(s))
    ensures Balanced(DoEmit(r, s), under)
  {
    var t := r.threads[s];
    SentNext(r.log, Entry(t.pc.next[0], s, |t.ops| - 1, Current(t)), under);
    StaysBalanced(r, DoEmit(r, s), s, under);
  }

  /** A turn for a message of a callee sends one message at most. */
  lemma OneOut(s: Session, k: nat, a: Arrival, turn: Turn, hist: seq<Moment>)
    requires Recorded(s, k, a, turn, hist) && NeedsLock(a) && D.IsAnswer(a.m)
    ensures |turn.outs| <= 1
  {}

  /** What a thread owes before and after it sends, and what it sends. */
  lemma SendPays(s: Session, t: Thread, log: seq<Entry>, hist: seq<Moment>, under: Option<Id>)
    requires ThreadTurns(s, t, log, hist) && t.pc.Sending? && t.ops != []
    ensures var e := Entry(t.pc.turn.outs[t.pc.n], s, |t.ops| - 1, Current(t));
            && !Owes(Advance(t, t.pc.turn, t.pc.n + 1), under)
            && (Owes(t, under) <==> IsFinalAnswer(e) && Under(e.env.msg, under))
  {
    assert InTurn(s, t, log, hist);
    if NeedsLock(Current(t)) && D.IsAnswer(Current(t).m) {
      OneOut(s, |t.done|, Current(t), t.pc.turn, hist);
    }
  }

  lemma SendBalanced(r: Router, s: Session, under: Option<Id>)
    requires TurnInv(r) && Balanced(r, under) && Enabled(r, Send(s))
    ensures Balanced(DoSend(r, s), under)
  {
    var t := r.threads[s];
    SendPays(s, t, r.log, r.hist, under);
    SentNext(r.log, Entry(t.pc.turn.outs[t.pc.n], s, |t.ops| - 1, Current(t)), under);
    StaysBalanced(r, DoSend(r, s), s, under);
  }

  lemma RemovalBalanced(r: Router, under: Option<Id>)
    requires LockInv(r) && T.LeadsTo(r.hist, r.st) && Balanced(r, under) && (r.runner.InDealer? || r.runner.InBroker?)
    ensures Balanced(DoRun(r), under)
  {
    DecidedNext(r.hist, DoRun(r).hist[|r.hist|], under);
  }

  lemma RunBalanced(r: Router, under: Option<Id>)
    requires LockInv(r) && T.LeadsTo(r.hist, r.st) && Balanced(r, under) && Enabled(r, Run)
    ensures Balanced(DoRun(r), under)
  {
    if r.runner.InDealer? || r.runner.InBroker? {
      RemovalBalanced(r, under);
    } else if r.runner.OutBroker? {
      StaysBalanced(r, DoRun(r), r.runner.s, under);
    }
  }

  lemma {:induction false} AlwaysBalanced(tr: Trace, under: Option<Id>)
    requires Possible(tr)
    ensures Balanced(Final(tr), under)
  {
    match tr
    case Start =>
    case Then(before, step) =>
      var r := Final(before);
      AlwaysBalanced(before, under);
      T.Invariant(before);
      match step {
        case Receive(s, a) => ReceiveBalanced(r, s, a, under);
        case Body(s) => BodyBalanced(r, s, under);
        case RLock(s) => RLockBalanced(r, s, under);
        case Emit(s) => EmitBalanced(r, s, under);
        case Send(s) => SendBalanced(r, s, under);
        case Run => RunBalanced(r, under);
        case Leave(_) =>
        case Pick(_, _) => PublishBalanced(r, step, under);
        case RUnlock(_) => PublishBalanced(r, step, under);
        case _ => QuietBalanced(r, step, under);
      }
  }

  /** In every interleaving, in total and under each request id, the accepted CALLs are the
      final answers in the log, those that a thread is about to send, the pending calls and
      the calls that were overwritten while they were pending. */
  lemma {:induction false} ConcurrentConservation(tr: Trace, under: Option<Id>)
    requires Possible(tr)
    ensures var r := Final(tr);
            var ops := DealerOps(r.hist);
            Tally(ops, |ops|, CallKind, under)
            == Sent(r.log, under) + |Owing(r.threads, under)| + Pending(r.st.dealer, under)
               + Tally(ops, |ops|, CollisionKind, under)
  {
    DealerIsInARun(tr);
    AlwaysBalanced(tr, under);
    var ops := DealerOps(Final(tr).hist);
    Conservation(ops, |ops|, under);
  }

  // ---------- at most one answer ----------

  lemma {:induction false} TaggedHas(log: seq<Entry>, i: nat)
    requires i < |log|
    ensures log[i].env in Tagged(log, log[i].from, log[i].op)
  {
    var n := |log| - 1;
    if i == n {
    } else {
      TaggedHas(log[..n], i);
    }
  }

  lemma {:induction false} TaggedTwo(log: seq<Entry>, i: nat, j: nat)
    requires i < j < |log| && log[i].from == log[j].from && log[i].op == log[j].op
    ensures |Tagged(log, log[i].from, log[i].op)| >= 2
  {
    var n := |log| - 1;
    if j < n {
      TaggedTwo(log[..n], i, j);
    } else {
      TaggedHas(log[..n], i);
    }
  }

  /** What a thread has sent for a message of a callee, it sent as a turn. */
  lemma TurnOf(s: Session, t: Thread, k: nat, log: seq<Entry>, hist: seq<Moment>) returns (turn: Turn)
    requires ThreadTurns(s, t, log, hist) && k < |t.ops| && Tagged(log, s, k) != []
    requires NeedsLock(t.ops[k]) && !t.ops[k].m.Publish?
    ensures Recorded(s, k, t.ops[k], turn, hist) && Tagged(log, s, k) <= turn.outs
  {
    if k < |t.done| {
      turn := t.done[k];
      assert Completed(s, t, k, log, hist);
    } else {
      turn := t.pc.turn;
    }
  }

  /** What was sent for an answer was sent by a turn at a moment of the history. */
  lemma SentAtMoment(r: Router, i: nat) returns (h: nat, turn: Turn)
    requires TurnInv(r) && T.OrderInv(r) && i < |r.log| && IsFinalAnswer(r.log[i])
    ensures var e := r.log[i];
            && h < |r.hist| && r.hist[h] == Turned(e.from, e.op, e.a, turn.pre, turn.post)
            && Serves(turn.pre, turn.post, e.from, e.a, turn.outs)
            && Tagged(r.log, e.from, e.op) <= turn.outs
  {
    var e := r.log[i];
    TaggedHas(r.log, i);
    turn := TurnOf(e.from, r.threads[e.from], e.op, r.log, r.hist);
    h :| 0 <= h < |r.hist| && r.hist[h] == Turned(e.from, e.op, e.a, turn.pre, turn.post);
  }

  lemma {:induction false} LedTo(hist: seq<Moment>, st: RouterState, h: nat)
    requires T.LeadsTo(hist, st) && h < |hist|
    ensures T.LeadsTo(hist[..h], hist[h].pre)
  {
    var n := |hist| - 1;
    if h < n {
      LedTo(hist[..n], hist[n].pre, h);
      assert hist[..n][..h] == hist[..h];
    }
  }

  /** Where the step of a moment is among the steps of the dealer's run. */
  lemma {:induction false} OpAtMoment(hist: seq<Moment>, h: nat)
    requires h < |hist| && OpOf(hist[h]) != []
    ensures var p := |DealerOps(hist[..h])|;
            && p < |DealerOps(hist)| && DealerOps(hist)[..p] == DealerOps(hist[..h])
            && DealerOps(hist)[p] == OpOf(hist[h])[0]
  {
    PrefixOps(hist, h + 1);
    assert hist[..h + 1][..h] == hist[..h];
  }

  /** The step of the dealer's run at a moment of the history. */
  lemma {:induction false} StepAtMoment(hist: seq<Moment>, st: RouterState, h: nat) returns (p: nat)
    requires T.LeadsTo(hist, st) && h < |hist| && OpOf(hist[h]) != []
    ensures p == |DealerOps(hist[..h])| < |DealerOps(hist)|
    ensures DealerOps(hist)[p] == OpOf(hist[h])[0] && StateAt(DealerOps(hist), p) == hist[h].pre.dealer
  {
    p := |DealerOps(hist[..h])|;
    LedTo(hist, st, h);
    DealerFollows(hist[..h], hist[h].pre);
    OpAtMoment(hist, h);
    PrefixState(DealerOps(hist[..h]), DealerOps(hist), p);
  }

  lemma {:induction false} OpsGrow(hist: seq<Moment>, h: nat, k: nat)
    requires h < k < |hist| && OpOf(hist[h]) != []
    ensures |DealerOps(hist[..h])| < |DealerOps(hist[..k])|
  {
    assert hist[..k][..h + 1] == hist[..h + 1] && hist[..h + 1][..h] == hist[..h];
    PrefixOps(hist[..k], h + 1);
  }

  lemma {:induction false} AnswersDiffer(r: Router, i: nat, j: nat)
    requires TurnInv(r) && T.OrderInv(r) && T.LeadsTo(r.hist, r.st) && DistinctDraws(DealerOps(r.hist))
    requires i < j < |r.log| && IsFinalAnswer(r.log[i]) && IsFinalAnswer(r.log[j])
    ensures r.log[i].a.m.request != r.log[j].a.m.request
  {
    var ops := DealerOps(r.hist);
    var h, turn := SentAtMoment(r, i);
    var k, turn' := SentAtMoment(r, j);
    TaggedHas(r.log, i);
    TaggedHas(r.log, j);
    var p := StepAtMoment(r.hist, r.st, h);
    var q := StepAtMoment(r.hist, r.st, k);
    AnswerSent(ops, p);
    AnswerSent(ops, q);
    assert |turn.outs| <= 1;
    if r.log[i].a.m.request == r.log[j].a.m.request {
      if h == k {
        TaggedTwo(r.log, i, j);
      } else if h < k {
        OpsGrow(r.hist, h, k);
        OnlyFirstAnswerCounts(ops, p, q);
      } else {
        OpsGrow(r.hist, k, h);
        OnlyFirstAnswerCounts(ops, q, p);
      }
    }
  }

  /** In every interleaving, no two messages that are sent answer the same invocation. */
  lemma {:induction false} OneAnswerPerInvocation(tr: Trace, i: nat, j: nat)
    requires Possible(tr) && i < j < |Final(tr).log|
    requires var a, b := Final(tr).log[i].a, Final(tr).log[j].a;
             && a.Incoming? && a.verdict == Authorized && (a.m.Yield? || (a.m.Error? && a.m.typ == 68))
             && b.Incoming? && b.verdict == Authorized && (b.m.Yield? || (b.m.Error? && b.m.typ == 68))
    ensures Final(tr).log[i].a.m.request != Final(tr).log[j].a.m.request
  {
    T.Invariant(tr);
    DealerIsInARun(tr);
    AnswersDiffer(Final(tr), i, j);
  }

  /** Whatever a turn sent for an answer, the step of the dealer's run sent. */
  lemma {:induction false} AnswerIsStep(ops: Run, p: nat, e: Entry, turn: Turn)
    requires IsFinalAnswer(e) && p < |ops| && ops[p] == Handled(e.from, e.a.m, e.a.draw)
    requires StateAt(ops, p) == turn.pre.dealer
    requires Serves(turn.pre, turn.post, e.from, e.a, turn.outs) && e.env in turn.outs
    ensures Answers(ops, p) && StepOf(ops, p).out == [e.env]
  {
    AnswerSent(ops, p);
  }

  /** A CALL accepted at step `j` made the invocation that step `p` answers, nothing named the
      invocation in between, and `env` carries the arguments of step `p`'s message under the
      request id of that CALL, to the session of the last CALL `c` under it. */
  ghost predicate IsAnswerOf(ops: Run, p: nat, j: nat, c: nat, env: Envelope) {
    && p < |ops| && Answers(ops, p) && j <= c < p
    && Made(ops, p, j, ops[p].m.request, RequestOf(ops, p)) && Opened(ops, p, c, RequestOf(ops, p))
    && ops[j].m.request == RequestOf(ops, p)
    && env == Envelope(ops[c].session,
                       if ops[p].m.Yield? then Result(ops[j].m.request, ops[p].m.payload)
                       else Error(48, ops[j].m.request, ops[p].m.error, ops[p].m.payload))
  }

  lemma TracedAnswer(ops: Run, p: nat, env: Envelope) returns (j: nat, c: nat)
    requires p < |ops| && Answers(ops, p) && StepOf(ops, p).out == [env]
    ensures IsAnswerOf(ops, p, j, c, env)
  {
    j, c := AnswerProvenance(ops, p);
  }

  /** Every sent final answer, in every interleaving, is the answer to its CALL, with the
      arguments of the first YIELD or ERROR that named the invocation. */
  lemma {:induction false} LoggedAnswer(tr: Trace, i: nat) returns (p: nat, j: nat, c: nat)
    requires Possible(tr) && i < |Final(tr).log|
    requires var a := Final(tr).log[i].a;
             a.Incoming? && a.verdict == Authorized && (a.m.Yield? || (a.m.Error? && a.m.typ == 68))
    ensures var e, ops := Final(tr).log[i], DealerOps(Final(tr).hist);
            && p < |ops| && ops[p] == Handled(e.from, e.a.m, e.a.draw)
            && IsAnswerOf(ops, p, j, c, e.env)
  {
    var r := Final(tr);
    T.Invariant(tr);
    var h, turn := SentAtMoment(r, i);
    TaggedHas(r.log, i);
    p := StepAtMoment(r.hist, r.st, h);
    AnswerIsStep(DealerOps(r.hist), p, r.log[i], turn);
    j, c := TracedAnswer(DealerOps(r.hist), p, r.log[i].env);
  }
}
