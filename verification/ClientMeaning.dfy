/** What API calls return, what a client sends and which handlers it has, in the terms of the
    protocol: message types, and error URIs and codes as they are on the wire. */
module ClientMeaning {
  import opened Wamp
  import opened ClientMachine
  import opened Correlation

  // ---------- one step ----------

  /** A call that got ERROR fails with it; one that got the response its request is for
      succeeds and brings its handler into place or out of it; any other response is an error. */
  lemma SettleMeans(c: Client, t: Tid)
    requires t in c.callers && c.callers[t].pc.Settled?
    ensures Enabled(c, Settle(t))
    ensures var request, m := c.callers[t].request, c.callers[t].pc.m;
            var asked := match request
              case WantSubscribe(_, _) => m.Subscribed?
              case WantUnsubscribe(_, _) => m.Unsubscribed?
              case WantRegister(_, _) => m.Registered?
              case WantUnregister(_, _) => m.Unregistered?
              case WantCall(_, _, _) => m.Result?;
            Do(c, Settle(t)) == c.(
              callers := c.callers[t := Caller(request, c.callers[t].id, Done(
                if m.Error? then Refused(m) else if asked then Fulfilled(m) else Unexpected(m)))],
              events :=
                if request.WantSubscribe? && m.Subscribed? then
                  c.events[m.subscription := Desc(request.topic, request.handler)]
                else if request.WantUnsubscribe? && m.Unsubscribed? then c.events - {request.target}
                else c.events,
              procedures :=
                if request.WantRegister? && m.Registered? then
                  c.procedures[m.registration := Desc(request.procedure, request.handler)]
                else if request.WantUnregister? && m.Unregistered? then c.procedures - {request.target}
                else c.procedures)
  {}

  /** Six types of messages go to the listener of their request id; an INVOCATION starts its
      handler or is refused. */
  lemma AcceptMeans(c: Client, m: Message)
    requires c.recv.Polling?
    ensures Enabled(c, Accept(m))
    ensures Do(c, Accept(m))
         == if m.Registered? || m.Subscribed? || m.Unsubscribed? || m.Unregistered? || m.Result? || m.Error? then
              if m.request in c.listeners then c.(recv := Delivering(c.listeners[m.request], m)) else c
            else if m.Invocation? then
              if m.registration in c.procedures then
                c.(jobs := c.jobs + multiset{Job(m.request, m.registration, c.procedures[m.registration], m.payload)})
              else c.(recv := Refusing(Error(68, m.request, "no handler for registration", Payload(None, None))))
            else c
  {}

  /** What each step of a client sends. */
  lemma OutputMeans(c: Client, step: Step)
    requires Enabled(c, step)
    ensures Output(c, step)
         == match step
            case Transmit(t) => Some(
              match c.callers[t].request
              case WantSubscribe(topic, _) => Message.Subscribe(c.callers[t].id, map[], topic)
              case WantUnsubscribe(_, target) => Message.Unsubscribe(c.callers[t].id, target)
              case WantRegister(procedure, _) => Message.Register(c.callers[t].id, map[], procedure)
              case WantUnregister(_, target) => Message.Unregister(c.callers[t].id, target)
              case WantCall(procedure, options, payload) =>
                Message.Call(c.callers[t].id, options, procedure, payload))
            case Finish(job, result) => Some(
              if result.err == "" then Message.Yield(job.invocation, map[], result.payload)
              else Message.Error(68, job.invocation, result.err, result.payload))
            case Refuse => Some(c.recv.m)
            case _ => None
  {}

  /** A call goes from place to place, and at each it can go on: a call that waits can take a
      message that is in its channel, or time out. */
  lemma CallAdvances(c: Client, t: Tid)
    requires t in c.callers && !c.callers[t].pc.Done?
    ensures var id := c.callers[t].id;
            match c.callers[t].pc
            case Begun =>
              && Enabled(c, Listen(t)) && At(Do(c, Listen(t)), t, Listening)
              && Do(c, Listen(t)).listeners == c.listeners[id := t] && Do(c, Listen(t)).chans == c.chans[t := []]
            case Listening => Enabled(c, Transmit(t)) && At(Do(c, Transmit(t)), t, Sent)
            case Sent =>
              && Enabled(c, Fetch(t))
              && At(Do(c, Fetch(t)), t, if id in c.listeners then Waiting(c.listeners[id]) else Done(NoListener))
            case Waiting(ch) =>
              && Enabled(c, Expire(t)) && At(Do(c, Expire(t)), t, Expired)
              && (ch in c.chans && c.chans[ch] != [] ==>
                    && Enabled(c, Take(t)) && At(Do(c, Take(t)), t, Holding(c.chans[ch][0]))
                    && Do(c, Take(t)).chans == c.chans[ch := c.chans[ch][1..]])
            case Holding(m) =>
              && Enabled(c, Drop(t)) && At(Do(c, Drop(t)), t, Settled(m))
              && Do(c, Drop(t)).listeners == c.listeners - {id}
            case Expired =>
              && Enabled(c, Drop(t)) && At(Do(c, Drop(t)), t, Done(TimedOut))
              && Do(c, Drop(t)).listeners == c.listeners - {id}
            case Settled(_) => Enabled(c, Settle(t)) && Do(c, Settle(t)).callers[t].pc.Done?
  {}

  /** A call can begin unless the client has nothing to give up under its topic or procedure;
      the receive loop can go on unless the channel is full; and a handler can always end. */
  lemma ClientIsOpen(c: Client, t: Tid, request: Request, id: Id, job: Job, result: HandlerResult)
    ensures t !in c.callers ==>
              var able := match request
                case WantUnsubscribe(topic, target) => target in c.events && c.events[target].name == topic
                case WantUnregister(procedure, target) =>
                  target in c.procedures && c.procedures[target].name == procedure
                case _ => true;
              && (Enabled(c, Begin(t, request, id)) <==> able)
              && (able ==> Do(c, Begin(t, request, id)) == c.(callers := c.callers[t := Caller(request, id, Begun)]))
    ensures c.recv.Refusing? ==> Enabled(c, Refuse) && Do(c, Refuse) == c.(recv := Polling)
    ensures c.recv.Delivering? && c.recv.chan in c.chans ==>
              && (Enabled(c, Deliver) <==> c.chans[c.recv.chan] == [])
              && (Enabled(c, Deliver) ==>
                    Do(c, Deliver) == c.(chans := c.chans[c.recv.chan := [c.recv.m]], recv := Polling))
    ensures job in c.jobs ==>
              && Enabled(c, Finish(job, result))
              && Do(c, Finish(job, result)) == c.(jobs := c.jobs - multiset{job})
  {}

  // ---------- what a call returns ----------

  /** A call's outcome is a success exactly when it holds the response its request is for. */
  ghost predicate OutcomeFits(caller: Caller) {
    match caller.pc
    case Done(Fulfilled(m)) => Fulfils(m, caller.request)
    case Done(Refused(m)) => m.Error?
    case Done(Unexpected(m)) => !m.Error? && !Fulfils(m, caller.request)
    case _ => true
  }

  lemma OutcomesFitStep(c: Client, step: Step)
    requires Enabled(c, step) && forall t :: t in c.callers ==> OutcomeFits(c.callers[t])
    ensures forall t :: t in Do(c, step).callers ==> OutcomeFits(Do(c, step).callers[t])
  {}

  lemma {:induction false} OutcomesFit(tr: Trace)
    requires Possible(tr)
    ensures forall t :: t in Final(tr).callers ==> OutcomeFits(Final(tr).callers[t])
  {
    if tr.Then? {
      OutcomesFit(tr.before);
      OutcomesFitStep(Final(tr.before), tr.step);
    }
  }

  /** The messages that the client has read from the router in a run. */
  function Read(tr: Trace): set<Message> {
    if tr.Start? then {} else Read(tr.before) + if tr.step.Accept? then {tr.step.m} else {}
  }

  /** The calls whose wait timed out in a run. */
  function OutOfTime(tr: Trace): set<Tid> {
    if tr.Start? then {} else OutOfTime(tr.before) + if tr.step.Expire? then {tr.step.t} else {}
  }

  /** The message in the hands of a call, if it has one. */
  function InHand(pc: Pc): Option<Message> {
    match pc
    case Holding(m) => Some(m)
    case Settled(m) => Some(m)
    case Done(Fulfilled(m)) => Some(m)
    case Done(Refused(m)) => Some(m)
    case Done(Unexpected(m)) => Some(m)
    case _ => None
  }

  /** Calls have messages that were read only, and are out of time when they timed out. */
  ghost predicate CallersExplained(callers: map<Tid, Caller>, read: set<Message>, late: set<Tid>) {
    && late <= callers.Keys
    && (forall t :: t in callers && InHand(callers[t].pc).Some? ==> InHand(callers[t].pc).value in read)
    && (forall t :: t in callers ==> (callers[t].pc.Expired? || callers[t].pc == Done(TimedOut) <==> t in late))
  }

  /** So do the channels and the receive loop. */
  ghost predicate ChansExplained(c: Client, read: set<Message>) {
    && (c.recv.Delivering? ==> c.recv.m in read)
    && (forall t, i :: t in c.chans && 0 <= i < |c.chans[t]| ==> c.chans[t][i] in read)
  }

  lemma CallersExplainedStep(c: Client, step: Step, read: set<Message>, late: set<Tid>)
    requires Enabled(c, step) && CallersExplained(c.callers, read, late) && ChansExplained(c, read)
    ensures CallersExplained(Do(c, step).callers, read, late + if step.Expire? then {step.t} else {})
  {
    WhoMoves(c, step);
  }

  lemma ChansExplainedStep(c: Client, step: Step, read: set<Message>)
    requires Enabled(c, step) && ChansExplained(c, read)
    ensures ChansExplained(Do(c, step), read + if step.Accept? then {step.m} else {})
  {}

  lemma {:induction false} AlwaysExplained(tr: Trace)
    requires Possible(tr)
    ensures CallersExplained(Final(tr).callers, Read(tr), OutOfTime(tr)) && ChansExplained(Final(tr), Read(tr))
  {
    if tr.Then? {
      AlwaysExplained(tr.before);
      CallersExplainedStep(Final(tr.before), tr.step, Read(tr.before), OutOfTime(tr.before));
      ChansExplainedStep(Final(tr.before), tr.step, Read(tr.before));
    }
  }

  /** A call that is the only one with its request id finds its listener. */
  lemma NeverUnheardStep(c: Client, step: Step, t: Tid)
    requires OwnListeners(c) && Enabled(c, step) && t in Do(c, step).callers
    requires t in c.callers ==> c.callers[t].pc != Done(NoListener)
    ensures Do(c, step).callers[t].pc != Done(NoListener)
  {}

  lemma {:induction false} NeverUnheard(tr: Trace, t: Tid)
    requires Possible(tr) && DistinctRequests(tr) && t in Final(tr).callers
    ensures Final(tr).callers[t].pc != Done(NoListener)
  {
    if tr.Then? {
      Invariant(tr.before);
      if t in Final(tr.before).callers {
        NeverUnheard(tr.before, t);
      }
      NeverUnheardStep(Final(tr.before), tr.step, t);
    }
  }

  /** What a call returned is what its request is for, in every run: ERROR is a failure, the
      response to the request a success, and any other message is unexpected. */
  lemma {:induction false} OutcomeIsRight(tr: Trace, t: Tid)
    requires Possible(tr) && t in Final(tr).callers && Final(tr).callers[t].pc.Done?
    ensures var request, outcome := Final(tr).callers[t].request, Final(tr).callers[t].pc.outcome;
            outcome.Fulfilled? || outcome.Refused? || outcome.Unexpected? ==>
              var m := outcome.m;
              var asked := match request
                case WantSubscribe(_, _) => m.Subscribed?
                case WantUnsubscribe(_, _) => m.Unsubscribed?
                case WantRegister(_, _) => m.Registered?
                case WantUnregister(_, _) => m.Unregistered?
                case WantCall(_, _, _) => m.Result?;
              outcome == if m.Error? then Refused(m) else if asked then Fulfilled(m) else Unexpected(m)
  {
    OutcomesFit(tr);
    assert OutcomeFits(Final(tr).callers[t]);
  }

  /** Where an outcome comes from, in every run: a returned message was read from the router,
      a call is out of time exactly when its wait timed out, and with distinct request ids it
      never misses its listener. */
  lemma {:induction false} OutcomeComesFrom(tr: Trace, t: Tid)
    requires Possible(tr) && t in Final(tr).callers && Final(tr).callers[t].pc.Done?
    ensures var outcome := Final(tr).callers[t].pc.outcome;
            && (outcome.Fulfilled? || outcome.Refused? || outcome.Unexpected? ==> outcome.m in Read(tr))
            && (outcome.TimedOut? <==> t in OutOfTime(tr))
            && (outcome.NoListener? ==> !DistinctRequests(tr))
  {
    AlwaysExplained(tr);
    if DistinctRequests(tr) {
      NeverUnheard(tr, t);
    }
    var pc := Final(tr).callers[t].pc;
    assert InHand(pc).Some? ==> InHand(pc).value in Read(tr);
  }

  // ---------- which handlers a client has ----------

  /** The step ends a call that got SUBSCRIBED with `id` for this topic and handler. */
  predicate Subscribes(c: Client, step: Step, id: Id, desc: Desc) {
    && step.Settle? && step.t in c.callers && c.callers[step.t].pc.Settled?
    && c.callers[step.t].request == WantSubscribe(desc.name, desc.handler)
    && c.callers[step.t].pc.m.Subscribed? && c.callers[step.t].pc.m.subscription == id
  }

  /** The step ends a call that got UNSUBSCRIBED for subscription `id`. */
  predicate Unsubscribes(c: Client, step: Step, id: Id) {
    && step.Settle? && step.t in c.callers && c.callers[step.t].pc.Settled?
    && c.callers[step.t].request.WantUnsubscribe? && c.callers[step.t].request.target == id
    && c.callers[step.t].pc.m.Unsubscribed?
  }

  /** The step ends a call that got REGISTERED with `id` for this procedure and handler. */
  predicate Registers(c: Client, step: Step, id: Id, desc: Desc) {
    && step.Settle? && step.t in c.callers && c.callers[step.t].pc.Settled?
    && c.callers[step.t].request == WantRegister(desc.name, desc.handler)
    && c.callers[step.t].pc.m.Registered? && c.callers[step.t].pc.m.registration == id
  }

  /** The step ends a call that got UNREGISTERED for registration `id`. */
  predicate Unregisters(c: Client, step: Step, id: Id) {
    && step.Settle? && step.t in c.callers && c.callers[step.t].pc.Settled?
    && c.callers[step.t].request.WantUnregister? && c.callers[step.t].request.target == id
    && c.callers[step.t].pc.m.Unregistered?
  }

  /** At some step of the run the client subscribed with `id` for `desc`, and since then it has
      neither unsubscribed from `id` nor got `id` for anything else. */
  ghost predicate Subscription(tr: Trace, id: Id, desc: Desc)
    requires Possible(tr)
  {
    && tr.Then?
    && var c := Final(tr.before);
       || Subscribes(c, tr.step, id, desc)
       || (&& Subscription(tr.before, id, desc) && !Unsubscribes(c, tr.step, id)
           && forall other :: other != desc ==> !Subscribes(c, tr.step, id, other))
  }

  /** The same for registrations. */
  ghost predicate Registration(tr: Trace, id: Id, desc: Desc)
    requires Possible(tr)
  {
    && tr.Then?
    && var c := Final(tr.before);
       || Registers(c, tr.step, id, desc)
       || (&& Registration(tr.before, id, desc) && !Unregisters(c, tr.step, id)
           && forall other :: other != desc ==> !Registers(c, tr.step, id, other))
  }

  lemma OnlySettlingChanges(c: Client, step: Step)
    requires Enabled(c, step) && !step.Settle?
    ensures Do(c, step).events == c.events && Do(c, step).procedures == c.procedures
  {}

  lemma EventsStep(c: Client, step: Step, id: Id, desc: Desc)
    requires Enabled(c, step)
    ensures id in Do(c, step).events && Do(c, step).events[id] == desc
       <==> || Subscribes(c, step, id, desc)
            || (&& id in c.events && c.events[id] == desc && !Unsubscribes(c, step, id)
                && forall other :: other != desc ==> !Subscribes(c, step, id, other))
  {
    if step.Settle? {
      SettleMeans(c, step.t);
      var request := c.callers[step.t].request;
      if request.WantSubscribe? {
        assert Subscribes(c, step, id, Desc(request.topic, request.handler))
          <==> c.callers[step.t].pc.m.Subscribed? && c.callers[step.t].pc.m.subscription == id;
      }
    } else {
      OnlySettlingChanges(c, step);
    }
  }

  lemma ProceduresStep(c: Client, step: Step, id: Id, desc: Desc)
    requires Enabled(c, step)
    ensures id in Do(c, step).procedures && Do(c, step).procedures[id] == desc
       <==> || Registers(c, step, id, desc)
            || (&& id in c.procedures && c.procedures[id] == desc && !Unregisters(c, step, id)
                && forall other :: other != desc ==> !Registers(c, step, id, other))
  {
    if step.Settle? {
      SettleMeans(c, step.t);
      var request := c.callers[step.t].request;
      if request.WantRegister? {
        assert Registers(c, step, id, Desc(request.procedure, request.handler))
          <==> c.callers[step.t].pc.m.Registered? && c.callers[step.t].pc.m.registration == id;
      }
    } else {
      OnlySettlingChanges(c, step);
    }
  }

  /** A handler for a topic is in place exactly since the client got SUBSCRIBED for it and
      until it gets UNSUBSCRIBED, and a procedure likewise, in every run. */
  lemma {:induction false} HandlersAreSubscribed(tr: Trace, id: Id, desc: Desc)
    requires Possible(tr)
    ensures id in Final(tr).events && Final(tr).events[id] == desc <==> Subscription(tr, id, desc)
    ensures id in Final(tr).procedures && Final(tr).procedures[id] == desc <==> Registration(tr, id, desc)
  {
    if tr.Then? {
      HandlersAreSubscribed(tr.before, id, desc);
      EventsStep(Final(tr.before), tr.step, id, desc);
      ProceduresStep(Final(tr.before), tr.step, id, desc);
    }
  }
}
