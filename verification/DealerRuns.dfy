/** Every run of a dealer: conservation of calls, and where answers come from and go to. */
module DealerRuns {
  import opened Wamp
  import opened DealerSpec

  /** A step of a run: a session's message with the id drawn for it, or a session's removal. */
  datatype Op = Handled(session: Session, m: Message, draw: Id) | Removed(session: Session)

  type Run = ops: seq<Op> | forall i :: 0 <= i < |ops| && ops[i].Handled? ==> IsDealerMessage(ops[i].m)

  /** The state after the first `n` steps. */
  ghost function StateAt(ops: Run, n: nat): DealerState
    requires n <= |ops|
    decreases n, 0
  {
    if n == 0 then EMPTY else StepOf(ops, n - 1).state
  }

  ghost function StepOf(ops: Run, i: nat): Outcome
    requires i < |ops|
    decreases i, 1
  {
    match ops[i]
    case Handled(s, m, draw) => Handle(StateAt(ops, i), s, m, draw)
    case Removed(s) => Outcome(OnRemove(StateAt(ops, i), s), [])
  }

  /** Step `i` is a CALL that is dispatched as an invocation. */
  ghost predicate Accepted(ops: Run, i: nat)
    requires i < |ops|
  {
    ops[i].Handled? && ops[i].m.Call? && IsRegistered(StateAt(ops, i).procedures, ops[i].m.procedure)
  }

  /** Step `i` is a YIELD or an ERROR that names invocation `inv`. */
  predicate Names(ops: Run, i: nat, inv: Id)
    requires i < |ops|
  {
    ops[i].Handled? && IsAnswer(ops[i].m) && ops[i].m.request == inv
  }

  /** Step `i` sends the caller a RESULT or an ERROR relayed from the callee. */
  ghost predicate Answers(ops: Run, i: nat)
    requires i < |ops|
  {
    && ops[i].Handled? && IsAnswer(ops[i].m)
    && ops[i].m.request in StateAt(ops, i).invocations
    && StateAt(ops, i).invocations[ops[i].m.request] in StateAt(ops, i).calls
  }

  /** The request id that step `i` is about. */
  ghost function RequestOf(ops: Run, i: nat): Id
    requires i < |ops| && (Accepted(ops, i) || Answers(ops, i))
  {
    if ops[i].m.Call? then ops[i].m.request else StateAt(ops, i).invocations[ops[i].m.request]
  }

  /** Step `i` accepts a CALL whose request id is still outstanding. */
  ghost predicate Collides(ops: Run, i: nat)
    requires i < |ops|
  {
    Accepted(ops, i) && ops[i].m.request in StateAt(ops, i).calls
  }

  // ---------- conservation ----------

  datatype Kind = CallKind | CollisionKind | AnswerKind

  ghost predicate Counted(ops: Run, i: nat, kind: Kind, under: Option<Id>)
    requires i < |ops|
  {
    && (match kind
        case CallKind => Accepted(ops, i)
        case CollisionKind => Collides(ops, i)
        case AnswerKind => Answers(ops, i))
    && (under.Some? ==> RequestOf(ops, i) == under.value)
  }

  /** The number of steps of a kind among the first `n`, under one request id or under all. */
  ghost function Tally(ops: Run, n: nat, kind: Kind, under: Option<Id>): nat
    requires n <= |ops|
  {
    if n == 0 then 0
    else Tally(ops, n - 1, kind, under) + if Counted(ops, n - 1, kind, under) then 1 else 0
  }

  function Pending(st: DealerState, under: Option<Id>): nat {
    match under
    case None => |st.calls|
    case Some(r) => if r in st.calls then 1 else 0
  }

  lemma PendingStep(ops: Run, i: nat, under: Option<Id>)
    requires i < |ops|
    ensures Pending(StateAt(ops, i + 1), under)
         == Pending(StateAt(ops, i), under)
            + (if Counted(ops, i, CallKind, under) && !Counted(ops, i, CollisionKind, under) then 1 else 0)
            - (if Counted(ops, i, AnswerKind, under) then 1 else 0)
  {}

  /** No accepted CALL disappears: it is answered, it is pending, or a CALL with the same
      request id overwrote it while it was pending. Holds of every run, under every request
      id and in total. */
  lemma {:induction false} Conservation(ops: Run, n: nat, under: Option<Id>)
    requires n <= |ops|
    ensures Tally(ops, n, CallKind, under)
         == Tally(ops, n, AnswerKind, under) + Pending(StateAt(ops, n), under) + Tally(ops, n, CollisionKind, under)
  {
    if n == 0 {
    } else {
      Conservation(ops, n - 1, under);
      PendingStep(ops, n - 1, under);
    }
  }

  /** How one step changes the pending calls. */
  lemma CallsStep(ops: Run, i: nat)
    requires i < |ops|
    ensures StateAt(ops, i + 1).calls
         == if Accepted(ops, i) then StateAt(ops, i).calls[ops[i].m.request := ops[i].session]
            else if Answers(ops, i) then StateAt(ops, i).calls - {RequestOf(ops, i)}
            else StateAt(ops, i).calls
    ensures Accepted(ops, i) ==> !Answers(ops, i)
  {}

  /** How one step changes the pending invocations. */
  lemma InvocationsStep(ops: Run, i: nat)
    requires i < |ops|
    ensures StateAt(ops, i + 1).invocations
         == if Accepted(ops, i) then StateAt(ops, i).invocations[ops[i].draw := ops[i].m.request]
            else if ops[i].Handled? && IsAnswer(ops[i].m) then StateAt(ops, i).invocations - {ops[i].m.request}
            else StateAt(ops, i).invocations
  {}

  lemma {:induction false} TallyZero(ops: Run, n: nat)
    requires n <= |ops|
    ensures Tally(ops, n, CollisionKind, None) == 0 <==> forall i :: 0 <= i < n ==> !Collides(ops, i)
  {
    if n > 0 {
      TallyZero(ops, n - 1);
      assert Counted(ops, n - 1, CollisionKind, None) <==> Collides(ops, n - 1);
    }
  }

  /** Answers and pending calls account for all accepted CALLs exactly when no CALL reused
      an outstanding request id. */
  lemma {:induction false} ConservationIff(ops: Run, n: nat)
    requires n <= |ops|
    ensures Tally(ops, n, CallKind, None) == Tally(ops, n, AnswerKind, None) + |StateAt(ops, n).calls|
       <==> forall i :: 0 <= i < n ==> !Collides(ops, i)
  {
    Conservation(ops, n, None);
    TallyZero(ops, n);
  }

  /** However request ids clash, a request id never gets more answers than it had CALLs. */
  lemma {:induction false} AnswersNeverExceedCalls(ops: Run, n: nat, r: Id)
    requires n <= |ops|
    ensures Tally(ops, n, AnswerKind, Some(r)) <= Tally(ops, n, CallKind, Some(r))
  {
    Conservation(ops, n, Some(r));
  }

  // ---------- the state is what the history says ----------

  /** Step `j` is the CALL that made `inv` what it is after `n` steps. */
  ghost predicate Made(ops: Run, n: nat, j: nat, inv: Id, r: Id)
    requires n <= |ops|
  {
    && j < n && Accepted(ops, j) && ops[j].draw == inv && ops[j].m.request == r
    && forall k :: j < k < n ==> !Names(ops, k, inv) && !(Accepted(ops, k) && ops[k].draw == inv)
  }

  /** Step `j` is the last accepted CALL under `r`, and no answer under `r` came after it. */
  ghost predicate Opened(ops: Run, n: nat, j: nat, r: Id)
    requires n <= |ops|
  {
    && j < n && Accepted(ops, j) && ops[j].m.request == r
    && forall k :: j < k < n ==> !((Accepted(ops, k) || Answers(ops, k)) && RequestOf(ops, k) == r)
  }

  /** An invocation is pending exactly when a CALL created it and no YIELD or ERROR has
      named it since; it answers that CALL's request id. */
  lemma {:induction false} InvocationHistory(ops: Run, n: nat, inv: Id, r: Id)
    requires n <= |ops|
    ensures inv in StateAt(ops, n).invocations && StateAt(ops, n).invocations[inv] == r
       <==> exists j: nat :: Made(ops, n, j, inv, r)
  {
    if n == 0 {
    } else {
      var p := n - 1;
      InvocationHistory(ops, p, inv, r);
      InvocationsStep(ops, p);
      if Accepted(ops, p) && ops[p].draw == inv && ops[p].m.request == r {
        assert Made(ops, n, p, inv, r);
      } else if exists j: nat :: Made(ops, n, j, inv, r) {
        var j: nat :| Made(ops, n, j, inv, r);
        assert Made(ops, p, j, inv, r);
      } else if exists j: nat :: Made(ops, p, j, inv, r) {
        var j: nat :| Made(ops, p, j, inv, r);
        assert !Made(ops, n, j, inv, r);
      }
    }
  }

  /** An earlier CALL is still the one that opened the request id unless step `p` closed or
      opened it. */
  lemma OpenedKept(ops: Run, p: nat, j: nat, r: Id)
    requires j < p < |ops|
    ensures Opened(ops, p + 1, j, r)
       <==> Opened(ops, p, j, r) && !((Accepted(ops, p) || Answers(ops, p)) && RequestOf(ops, p) == r)
  {}

  /** A request id is pending exactly when its last accepted CALL was not answered yet, and
      the answer is due to the session of that last CALL. */
  lemma {:induction false} CallHistory(ops: Run, n: nat, r: Id, s: Session)
    requires n <= |ops|
    ensures r in StateAt(ops, n).calls && StateAt(ops, n).calls[r] == s
       <==> exists j: nat :: Opened(ops, n, j, r) && ops[j].session == s
  {
    if n == 0 {
    } else {
      var p := n - 1;
      CallHistory(ops, p, r, s);
      CallsStep(ops, p);
      if Accepted(ops, p) && ops[p].m.request == r && ops[p].session == s {
        assert Opened(ops, n, p, r);
      } else if exists j: nat :: Opened(ops, n, j, r) && ops[j].session == s {
        var j: nat :| Opened(ops, n, j, r) && ops[j].session == s;
        OpenedKept(ops, p, j, r);
      } else if exists j: nat :: Opened(ops, p, j, r) && ops[j].session == s {
        var j: nat :| Opened(ops, p, j, r) && ops[j].session == s;
        OpenedKept(ops, p, j, r);
      }
    }
  }

  lemma MadeOnce(ops: Run, n: nat, j: nat, k: nat, inv: Id, r: Id)
    requires n <= |ops| && Made(ops, n, j, inv, r) && Made(ops, n, k, inv, r)
    ensures j == k
  {}

  // ---------- answers ----------

  /** What is sent to callers comes from these steps only. */
  lemma {:induction false} AnswerSent(ops: Run, i: nat)
    requires i < |ops| && ops[i].Handled? && IsAnswer(ops[i].m)
    ensures Answers(ops, i) ==>
              var r := RequestOf(ops, i);
              StepOf(ops, i).out == [Envelope(StateAt(ops, i).calls[r], Relayed(ops[i].m, r))]
    ensures !Answers(ops, i) ==> StepOf(ops, i).out == []
  {}

  /** An answer carries the arguments of the first YIELD or ERROR that names its invocation
      after step `j` created it, under the request id recorded by `j`; it goes to the session
      of the last CALL `c` under that request id. */
  lemma AnswerProvenance(ops: Run, i: nat) returns (j: nat, c: nat)
    requires i < |ops| && Answers(ops, i)
    ensures Made(ops, i, j, ops[i].m.request, RequestOf(ops, i))
    ensures Opened(ops, i, c, ops[j].m.request) && j <= c
    ensures StepOf(ops, i).out == [Envelope(ops[c].session, Relayed(ops[i].m, ops[j].m.request))]
  {
    var inv, r := ops[i].m.request, RequestOf(ops, i);
    var s := StateAt(ops, i).calls[r];
    InvocationHistory(ops, i, inv, r);
    CallHistory(ops, i, r, s);
    j :| Made(ops, i, j, inv, r);
    c :| Opened(ops, i, c, r) && ops[c].session == s;
    AnswerSent(ops, i);
  }

  /** No draw of `NewID` for an invocation is ever repeated. */
  ghost predicate DistinctDraws(ops: Run) {
    forall j, k :: 0 <= j < k < |ops| && Accepted(ops, j) && Accepted(ops, k) ==> ops[j].draw != ops[k].draw
  }

  /** Once a YIELD or ERROR has named an invocation that existed, every later one changes
      nothing and sends nothing; so an invocation yields at most one answer. */
  lemma {:induction false} OnlyFirstAnswerCounts(ops: Run, i: nat, k: nat)
    requires DistinctDraws(ops) && i < k < |ops|
    requires ops[i].Handled? && IsAnswer(ops[i].m) && ops[i].m.request in StateAt(ops, i).invocations
    requires Names(ops, k, ops[i].m.request)
    ensures StateAt(ops, k + 1) == StateAt(ops, k) && StepOf(ops, k).out == [] && !Answers(ops, k)
  {
    var inv := ops[i].m.request;
    var r := StateAt(ops, i).invocations[inv];
    InvocationHistory(ops, i, inv, r);
    var j: nat :| Made(ops, i, j, inv, r);
    if inv in StateAt(ops, k).invocations {
      var r' := StateAt(ops, k).invocations[inv];
      InvocationHistory(ops, k, inv, r');
      var j' :| Made(ops, k, j', inv, r');
      assert j' == j;
      assert Names(ops, i, inv);
      assert false;
    }
  }

  /** Step `k` is the last accepted CALL under `r` among the first `n` steps. */
  ghost predicate LastCall(ops: Run, n: nat, k: nat, r: Id)
    requires n <= |ops|
  {
    && k < n && Accepted(ops, k) && ops[k].m.request == r
    && forall l :: k < l < n ==> !(Accepted(ops, l) && ops[l].m.request == r)
  }

  lemma OpenedIsLastCall(ops: Run, n: nat, c: nat, r: Id)
    requires n <= |ops| && Opened(ops, n, c, r)
    ensures LastCall(ops, n, c, r) && forall k: nat :: LastCall(ops, n, k, r) ==> k == c
  {
    forall k | c < k < n ensures !(Accepted(ops, k) && ops[k].m.request == r) {
      assert Accepted(ops, k) ==> RequestOf(ops, k) == ops[k].m.request;
    }
  }

  /** An answer reaches the session whose CALL made the invocation exactly when the last
      accepted CALL under the request id came from that session. */
  lemma {:induction false} RightCallerIff(ops: Run, i: nat, j: nat)
    requires i < |ops| && Answers(ops, i) && Made(ops, i, j, ops[i].m.request, RequestOf(ops, i))
    ensures StepOf(ops, i).out == [Envelope(ops[j].session, Relayed(ops[i].m, ops[j].m.request))]
       <==> forall k: nat :: LastCall(ops, i, k, ops[j].m.request) ==> ops[k].session == ops[j].session
  {
    var j', c := AnswerProvenance(ops, i);
    MadeOnce(ops, i, j', j, ops[i].m.request, RequestOf(ops, i));
    OpenedIsLastCall(ops, i, c, ops[j].m.request);
  }

  // ---------- pending calls and pending invocations ----------

  lemma {:induction false} DrawIsNew(ops: Run, n: nat)
    requires DistinctDraws(ops) && n < |ops| && Accepted(ops, n)
    ensures ops[n].draw !in StateAt(ops, n).invocations
  {
    if ops[n].draw in StateAt(ops, n).invocations {
      var r := StateAt(ops, n).invocations[ops[n].draw];
      InvocationHistory(ops, n, ops[n].draw, r);
      assert false;
    }
  }

  /** Every pending call has a pending invocation, however request ids clash. */
  lemma {:induction false} PendingCallHasInvocation(ops: Run, n: nat, r: Id)
    requires DistinctDraws(ops) && n <= |ops| && r in StateAt(ops, n).calls
    ensures exists inv :: inv in StateAt(ops, n).invocations && StateAt(ops, n).invocations[inv] == r
  {
    var i := n - 1;
    CallsStep(ops, i);
    InvocationsStep(ops, i);
    if Accepted(ops, i) && ops[i].m.request == r {
      assert StateAt(ops, n).invocations[ops[i].draw] == r;
    } else {
      PendingCallHasInvocation(ops, i, r);
      var inv :| inv in StateAt(ops, i).invocations && StateAt(ops, i).invocations[inv] == r;
      if Accepted(ops, i) {
        DrawIsNew(ops, i);
      }
      assert inv in StateAt(ops, n).invocations && StateAt(ops, n).invocations[inv] == r;
    }
  }

  ghost predicate OneToOne(st: DealerState) {
    && (forall inv :: inv in st.invocations ==> st.invocations[inv] in st.calls)
    && (forall a, b :: a in st.invocations && b in st.invocations && st.invocations[a] == st.invocations[b] ==> a == b)
  }

  ghost predicate Bijection(st: DealerState) {
    && OneToOne(st)
    && (forall r :: r in st.calls ==> exists inv :: inv in st.invocations && st.invocations[inv] == r)
  }

  lemma OneToOneStep(ops: Run, i: nat)
    requires DistinctDraws(ops) && i < |ops| && !Collides(ops, i) && OneToOne(StateAt(ops, i))
    ensures OneToOne(StateAt(ops, i + 1))
  {
    CallsStep(ops, i);
    InvocationsStep(ops, i);
    if Accepted(ops, i) {
      DrawIsNew(ops, i);
    }
  }

  /** With distinct outstanding request ids, pending invocations and pending calls are in
      one-to-one correspondence. */
  lemma {:induction false} PendingBijection(ops: Run, n: nat)
    requires DistinctDraws(ops) && n <= |ops| && forall i :: 0 <= i < n ==> !Collides(ops, i)
    ensures Bijection(StateAt(ops, n))
  {
    if n == 0 {
    } else {
      PendingBijection(ops, n - 1);
      OneToOneStep(ops, n - 1);
      forall r | r in StateAt(ops, n).calls
        ensures exists inv :: inv in StateAt(ops, n).invocations && StateAt(ops, n).invocations[inv] == r
      {
        PendingCallHasInvocation(ops, n, r);
      }
    }
  }

  /** While an invocation is pending, a CALL with its request id collides. */
  lemma LaterCallCollides(ops: Run, i: nat, j: nat, c: nat)
    requires j < c < i <= |ops| && Accepted(ops, j) && Made(ops, i, j, ops[j].draw, ops[j].m.request)
    requires DistinctDraws(ops) && forall k :: 0 <= k < c ==> !Collides(ops, k)
    requires Accepted(ops, c) && ops[c].m.request == ops[j].m.request
    ensures Collides(ops, c)
  {
    PendingBijection(ops, c);
    assert Made(ops, c, j, ops[j].draw, ops[j].m.request);
    InvocationHistory(ops, c, ops[j].draw, ops[j].m.request);
  }

  /** So it does when no request id is reused while it is outstanding. */
  lemma {:induction false} RightCallerWithoutCollision(ops: Run, i: nat, j: nat)
    requires i < |ops| && Answers(ops, i) && Made(ops, i, j, ops[i].m.request, RequestOf(ops, i))
    requires DistinctDraws(ops) && forall k :: 0 <= k < i ==> !Collides(ops, k)
    ensures StepOf(ops, i).out == [Envelope(ops[j].session, Relayed(ops[i].m, ops[j].m.request))]
  {
    var j', c := AnswerProvenance(ops, i);
    MadeOnce(ops, i, j', j, ops[i].m.request, RequestOf(ops, i));
    if j < c {
      LaterCallCollides(ops, i, j, c);
      assert false;
    }
  }

  /** In every run a URI has at most one callee. */
  lemma {:induction false} AtMostOneCallee(ops: Run, n: nat)
    requires n <= |ops|
    ensures OneCallee(StateAt(ops, n).procedures)
  {
    if n == 0 {
    } else {
      AtMostOneCallee(ops, n - 1);
    }
  }

  /** Two callers that use the same request id: the first caller's answer goes to the second. */
  lemma ReusedRequestIsMisrouted(callee: Session, a: Session, b: Session)
    requires a != b
    ensures var ops: Run := [
              Handled(callee, Register(1, map[], "p"), 7),
              Handled(a, Call(5, map[], "p", NO_PAYLOAD), 8),
              Handled(b, Call(5, map[], "p", NO_PAYLOAD), 9),
              Handled(callee, Yield(8, map[], NO_PAYLOAD), 0)];
            && Made(ops, 3, 1, 8, 5) && ops[1].session == a
            && StepOf(ops, 3).out == [Envelope(b, Result(5, NO_PAYLOAD))]
  {
    var ops: Run := [
      Handled(callee, Register(1, map[], "p"), 7),
      Handled(a, Call(5, map[], "p", NO_PAYLOAD), 8),
      Handled(b, Call(5, map[], "p", NO_PAYLOAD), 9),
      Handled(callee, Yield(8, map[], NO_PAYLOAD), 0)];
    var procs: Procedures := map[7 := RemoteProcedure(callee, "p")];
    assert StateAt(ops, 0) == EMPTY;
    assert StateAt(ops, 1).procedures == procs;
    assert 7 in procs && IsRegistered(procs, "p");
    assert StateAt(ops, 2) == DealerState(procs, map[5 := a], map[8 := 5]);
    assert StateAt(ops, 3) == DealerState(procs, map[5 := b], map[8 := 5, 9 := 5]);
  }
}
