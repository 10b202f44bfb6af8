/** A step of one client keeps everything that holds of clients and router. */
module RpcClientSteps {
  import opened Wamp
  import opened ClientMachine
  import opened RpcSystem
  import opened RpcInvariants
  import Correlation

  /** What a client's step needs to know of the rest. */
  ghost predicate Ready(h: History, s: Session, c: Client, step: Step) {
    && ClientGood(h, s, c) && DispatchesGood(h) && Enabled(c, step)
    && (step.Begin? ==> Correlation.NewRequest(c, step))
    && (step.Accept? ==> DownGood(h, s, step.m))
  }

  lemma HistoryGrows(h: History, s: Session, c: Client, step: Step)
    requires Enabled(c, step)
    ensures Grows(h, AfterClient(h, s, c, step))
    ensures forall r :: (step.Begin? ==> r != step.id) ==> SameAsk(h, AfterClient(h, s, c, step), r)
    ensures forall r :: (step.Begin? ==> r != step.id) && (step.Transmit? ==> r != c.callers[step.t].id) ==>
              SameStage(h, AfterClient(h, s, c, step), r)
  {}

  /** Callers of this client that do not move. */
  lemma OtherCallersKept(h: History, s: Session, c: Client, step: Step, t: Tid)
    requires Ready(h, s, c, step) && t in c.callers && (!OthersMove(step) ==> t != step.t)
    ensures CallerGood(AfterClient(h, s, c, step), s, t, c.callers[t])
  {
    HistoryGrows(h, s, c, step);
    if step.Transmit? && !c.callers[t].pc.Done? {
      assert Correlation.Sole(c.callers, step.t, c.callers[step.t].id);
    }
    CallerGoodKept(h, AfterClient(h, s, c, step), s, t, c.callers[t]);
  }

  /** A call that begins removes only what the client's own map says was granted. */
  lemma NewCallerGood(h: History, s: Session, c: Client, t: Tid, request: Request, id: Id)
    requires MapsGood(h, s, c) && Enabled(c, Begin(t, request, id))
    ensures CallerGood(AfterClient(h, s, c, Begin(t, request, id)), s, t, Caller(request, id, Begun))
  {}

  /** What a waiting call takes from its channel fits its request. */
  lemma TakenFits(h: History, s: Session, c: Client, t: Tid)
    requires Correlation.ChansOk(c) && ChansGood(h, s, c) && Enabled(c, Take(t)) && c.callers[t].pc.chan == t
    ensures GoodFor(h, s, c.callers[t].request, c.callers[t].id, c.chans[t][0])
  {}

  /** The caller that moves. */
  lemma MovedCallerGood(h: History, s: Session, c: Client, step: Step)
    requires CallersGood(h, s, c) && Enabled(c, step) && !OthersMove(step) && !step.Begin?
    requires step.Take? ==>
               var caller := c.callers[step.t];
               caller.pc.chan == step.t && GoodFor(h, s, caller.request, caller.id, c.chans[step.t][0])
    ensures CallerGood(AfterClient(h, s, c, step), s, step.t, Do(c, step).callers[step.t])
  {}

  lemma CallersStay(h: History, s: Session, c: Client, step: Step)
    requires Ready(h, s, c, step)
    ensures CallersGood(AfterClient(h, s, c, step), s, Do(c, step))
  {
    var c', h' := Do(c, step), AfterClient(h, s, c, step);
    Correlation.WhoMoves(c, step);
    forall t | t in c'.callers ensures CallerGood(h', s, t, c'.callers[t]) {
      if !OthersMove(step) && t == step.t {
        if step.Begin? {
          NewCallerGood(h, s, c, t, step.request, step.id);
        } else {
          if step.Take? {
            TakenFits(h, s, c, t);
          }
          MovedCallerGood(h, s, c, step);
        }
      } else {
        OtherCallersKept(h, s, c, step, t);
      }
    }
  }

  /** What a step does to a channel. */
  lemma ChannelMoves(c: Client, step: Step, t: Tid)
    requires Correlation.ChansOk(c) && Enabled(c, step) && t in Do(c, step).chans
    ensures var q := Do(c, step).chans[t];
            || q == []
            || (t in c.chans && q == c.chans[t])
            || (step.Deliver? && c.recv.Delivering? && t == c.recv.chan && q == [c.recv.m])
  {}

  /** The messages in a client's channels. */
  lemma ChannelKept(h: History, s: Session, c: Client, step: Step, t: Tid)
    requires Correlation.ClientInv(c) && ChansGood(h, s, c) && HandGood(h, s, c) && Enabled(c, step)
    requires t in Do(c, step).chans && t in Do(c, step).callers && |Do(c, step).chans[t]| == 1
    ensures var caller := Do(c, step).callers[t];
            GoodFor(AfterClient(h, s, c, step), s, caller.request, caller.id, Do(c, step).chans[t][0])
  {
    var h' := AfterClient(h, s, c, step);
    HistoryGrows(h, s, c, step);
    ChannelMoves(c, step, t);
    Correlation.CallersKept(c, step);
    var m := Do(c, step).chans[t][0];
    assert t in c.callers && GoodFor(h, s, c.callers[t].request, c.callers[t].id, m);
    GoodForKept(h, h', s, c.callers[t].request, c.callers[t].id, m);
  }

  lemma HandKept(h: History, s: Session, c: Client, step: Step)
    requires Correlation.ClientInv(c) && HandGood(h, s, c) && Enabled(c, step) && !step.Accept?
    requires Do(c, step).recv.Delivering?
    ensures var c' := Do(c, step);
            && c'.recv.chan in c'.callers
            && GoodFor(AfterClient(h, s, c, step), s, c'.callers[c'.recv.chan].request,
                       c'.callers[c'.recv.chan].id, c'.recv.m)
  {
    HistoryGrows(h, s, c, step);
    Correlation.CallersKept(c, step);
    assert Do(c, step).recv == c.recv;
    var ch := c.recv.chan;
    GoodForKept(h, AfterClient(h, s, c, step), s, c.callers[ch].request, c.callers[ch].id, c.recv.m);
  }

  lemma ChansStay(h: History, s: Session, c: Client, step: Step)
    requires Correlation.ClientInv(c) && ChansGood(h, s, c) && HandGood(h, s, c) && Enabled(c, step)
    ensures ChansGood(AfterClient(h, s, c, step), s, Do(c, step))
  {
    var c', h' := Do(c, step), AfterClient(h, s, c, step);
    forall t | t in c'.chans && t in c'.callers && |c'.chans[t]| == 1
      ensures GoodFor(h', s, c'.callers[t].request, c'.callers[t].id, c'.chans[t][0])
    {
      ChannelKept(h, s, c, step, t);
    }
  }

  lemma HandAccepts(h: History, s: Session, c: Client, m: Message)
    requires CallersGood(h, s, c) && Correlation.OwnListeners(c) && DownGood(h, s, m) && Enabled(c, Accept(m))
    ensures HandGood(h, s, Do(c, Accept(m)))
  {}

  lemma HandStays(h: History, s: Session, c: Client, step: Step)
    requires Correlation.ClientInv(c) && HandGood(h, s, c) && Enabled(c, step) && !step.Accept?
    ensures HandGood(AfterClient(h, s, c, step), s, Do(c, step))
  {
    if Do(c, step).recv.Delivering? {
      HandKept(h, s, c, step);
    }
  }

  /** Calls that are done stay as they are. */
  lemma DoneStays(c: Client, step: Step, t: Tid)
    requires Enabled(c, step) && t in c.callers && c.callers[t].pc.Done?
    ensures t in Do(c, step).callers && Do(c, step).callers[t] == c.callers[t]
  {}

  lemma RegisteredStays(c: Client, step: Step, id: Id, desc: Desc)
    requires Enabled(c, step) && HasRegistered(c, id, desc)
    ensures HasRegistered(Do(c, step), id, desc)
  {
    var t :| t in c.callers && Registers(c.callers[t], id, desc);
    DoneStays(c, step, t);
    assert Registers(Do(c, step).callers[t], id, desc);
  }

  /** An invocation that finds a handler finds one registered under the called procedure. */
  lemma AcceptedJob(h: History, s: Session, c: Client, m: Message)
    requires MapsGood(h, s, c) && DispatchesGood(h) && DownGood(h, s, m)
    requires m.Invocation? && m.registration in c.procedures
    ensures JobGood(h, s, c, Job(m.request, m.registration, c.procedures[m.registration], m.payload))
  {}

  lemma JobKept(h: History, s: Session, c: Client, step: Step, job: Job)
    requires Enabled(c, step) && JobGood(h, s, c, job)
    ensures JobGood(AfterClient(h, s, c, step), s, Do(c, step), job)
  {
    HistoryGrows(h, s, c, step);
    RegisteredStays(c, step, job.registration, job.desc);
  }

  /** What a step does to the running handlers. */
  lemma JobsMove(c: Client, step: Step)
    requires Enabled(c, step)
    ensures forall job :: job in Do(c, step).jobs ==>
              || job in c.jobs
              || (step.Accept? && step.m.Invocation? && step.m.registration in c.procedures
                  && job == Job(step.m.request, step.m.registration, c.procedures[step.m.registration], step.m.payload))
  {}

  lemma JobsStay(h: History, s: Session, c: Client, step: Step, job: Job)
    requires MapsGood(h, s, c) && DispatchesGood(h) && Enabled(c, step) && job in Do(c, step).jobs
    requires step.Accept? ==> DownGood(h, s, step.m)
    ensures JobGood(AfterClient(h, s, c, step), s, Do(c, step), job)
  {
    JobsMove(c, step);
    if job !in c.jobs {
      AcceptedJob(h, s, c, step.m);
    }
    JobKept(h, s, c, step, job);
  }

  lemma ProcedureKept(h: History, s: Session, c: Client, step: Step, id: Id)
    requires MapsGood(h, s, c) && Enabled(c, step) && id in c.procedures
    ensures var desc := c.procedures[id];
            && GrantedTo(AfterClient(h, s, c, step), id, Grant(false, s, desc.name))
            && HasRegistered(Do(c, step), id, desc)
  {
    HistoryGrows(h, s, c, step);
    RegisteredStays(c, step, id, c.procedures[id]);
  }

  /** A settled call adds the entry it was granted, or removes the one it gave up. */
  lemma SettledMaps(h: History, s: Session, c: Client, t: Tid)
    requires Enabled(c, Settle(t)) && CallerGood(h, s, t, c.callers[t]) && MapsGood(h, s, c)
    ensures var c' := Do(c, Settle(t));
            && (forall id :: id in c'.events ==> GrantedTo(h, id, Grant(true, s, c'.events[id].name)))
            && (forall id :: id in c'.procedures ==>
                  && GrantedTo(h, id, Grant(false, s, c'.procedures[id].name))
                  && HasRegistered(c', id, c'.procedures[id]))
  {
    var caller, c' := c.callers[t], Do(c, Settle(t));
    assert t in c'.callers && c'.callers[t] == caller.(pc := Done(OutcomeOf(caller.pc.m, caller.request)));
    forall id | id in c'.procedures
      ensures GrantedTo(h, id, Grant(false, s, c'.procedures[id].name))
      ensures HasRegistered(c', id, c'.procedures[id])
    {
      if id in c.procedures && c'.procedures[id] == c.procedures[id] {
        RegisteredStays(c, Settle(t), id, c.procedures[id]);
      } else {
        assert Registers(c'.callers[t], id, c'.procedures[id]);
      }
    }
  }

  lemma MapsStay(h: History, s: Session, c: Client, step: Step)
    requires Ready(h, s, c, step)
    ensures MapsGood(AfterClient(h, s, c, step), s, Do(c, step))
  {
    var c', h' := Do(c, step), AfterClient(h, s, c, step);
    forall job | job in c'.jobs ensures JobGood(h', s, c', job) {
      JobsStay(h, s, c, step, job);
    }
    forall id | id in c.procedures
      ensures GrantedTo(h', id, Grant(false, s, c.procedures[id].name))
      ensures HasRegistered(c', id, c.procedures[id])
    {
      ProcedureKept(h, s, c, step, id);
    }
    if step.Settle? {
      assert CallerGood(h, s, step.t, c.callers[step.t]);
      SettledMaps(h, s, c, step.t);
    } else {
      HistoryGrows(h, s, c, step);
    }
  }

  /** The client that moves stays good. */
  lemma SelfStays(h: History, s: Session, c: Client, step: Step)
    requires Ready(h, s, c, step)
    ensures ClientGood(AfterClient(h, s, c, step), s, Do(c, step))
  {
    Correlation.ClientStep(c, step);
    Correlation.OwnListenersStep(c, step);
    CallersStay(h, s, c, step);
    ChansStay(h, s, c, step);
    if step.Accept? {
      HandAccepts(h, s, c, step.m);
    } else {
      HandStays(h, s, c, step);
    }
    MapsStay(h, s, c, step);
  }

  /** What a handler's goroutine sends says what the handler returned. */
  lemma FinishGood(h: History, s: Session, c: Client, job: Job, result: HandlerResult)
    requires JobGood(h, s, c, job) && Enabled(c, Finish(job, result))
    ensures UpGood(AfterClient(h, s, c, Finish(job, result)), s, JobAnswer(job, result))
  {
    var e := Execution(job.invocation, s, job.registration, job.desc, job.payload, result);
    assert Runs(e, job.invocation, h.dispatched[job.invocation], result);
    assert e in AfterClient(h, s, c, Finish(job, result)).executed;
  }

  /** What the client sends is a good message. */
  lemma OutputGood(h: History, s: Session, c: Client, step: Step)
    requires Ready(h, s, c, step) && Output(c, step).Some?
    ensures UpGood(AfterClient(h, s, c, step), s, Output(c, step).value)
  {
    match step
    case Transmit(t) => assert CallerGood(h, s, t, c.callers[t]);
    case Refuse =>
    case Finish(job, result) => FinishGood(h, s, c, job, result);
  }
}
