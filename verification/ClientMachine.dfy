/** A client as its goroutines interleave: one thread per API call in progress, the receive
    loop, the goroutines of invocation handlers, and the maps that only the closures sent
    on `acts` touch. Every step is one such closure, one channel operation or one send. */
module ClientMachine {
  import opened Wamp

  type Tid = nat
  type Handler = nat

  /** An API call. The two removals carry the id that the client's own map holds for the
      given topic or procedure. */
  datatype Request =
    | WantSubscribe(topic: Uri, handler: Handler)
    | WantUnsubscribe(topic: Uri, target: Id)
    | WantRegister(procedure: Uri, handler: Handler)
    | WantUnregister(procedure: Uri, target: Id)
    | WantCall(procedure: Uri, options: Options, payload: Payload)

  /** The message an API call sends. */
  function Wire(request: Request, id: Id): Message {
    match request
    case WantSubscribe(topic, _) => Subscribe(id, map[], topic)
    case WantUnsubscribe(_, target) => Unsubscribe(id, target)
    case WantRegister(procedure, _) => Register(id, map[], procedure)
    case WantUnregister(_, target) => Unregister(id, target)
    case WantCall(procedure, options, payload) => Call(id, options, procedure, payload)
  }

  predicate IsResponse(m: Message) {
    m.Registered? || m.Subscribed? || m.Unsubscribed? || m.Unregistered? || m.Result? || m.Error?
  }

  /** The response says that the request was carried out. */
  predicate Fulfils(m: Message, request: Request) {
    match request
    case WantSubscribe(_, _) => m.Subscribed?
    case WantUnsubscribe(_, _) => m.Unsubscribed?
    case WantRegister(_, _) => m.Registered?
    case WantUnregister(_, _) => m.Unregistered?
    case WantCall(_, _, _) => m.Result?
  }

  datatype Outcome =
    | Fulfilled(m: Message)
    | Refused(m: Message)                     // an ERROR message
    | Unexpected(m: Message)
    | TimedOut
    | NoListener

  datatype Pc =
    | Begun
    | Listening                               // registerListener has returned
    | Sent
    | Waiting(chan: Tid)                      // waitOnListener has fetched a channel
    | Holding(m: Message)                     // it has received m and still is to delete the listener
    | Expired                                 // likewise, after a timeout
    | Settled(m: Message)                     // waitOnListener has returned m
    | Done(outcome: Outcome)

  /** The thread of an API call. Its channel has the thread's own number. */
  datatype Caller = Caller(request: Request, id: Id, pc: Pc)

  datatype Recv =
    | Polling
    | Delivering(chan: Tid, m: Message)       // about to put m into a listener's channel
    | Refusing(m: Message)                    // about to answer an invocation nobody handles

  datatype Desc = Desc(name: Uri, handler: Handler)

  /** A goroutine that runs a handler. */
  datatype Job = Job(invocation: Id, registration: Id, desc: Desc, payload: Payload)

  datatype HandlerResult = HandlerResult(payload: Payload, err: Uri)

  datatype Client = Client(
    listeners: map<Id, Tid>,
    chans: map<Tid, seq<Message>>,            // each has capacity one
    events: map<Id, Desc>,
    procedures: map<Id, Desc>,
    callers: map<Tid, Caller>,
    recv: Recv,
    jobs: multiset<Job>)

  const NEW := Client(map[], map[], map[], map[], map[], Polling, multiset{})

  datatype Step =
    | Begin(t: Tid, request: Request, id: Id)
    | Listen(t: Tid)
    | Transmit(t: Tid)
    | Fetch(t: Tid)
    | Take(t: Tid)
    | Expire(t: Tid)
    | Drop(t: Tid)
    | Settle(t: Tid)
    | Accept(m: Message)                      // the receive loop reads m from the pipe
    | Deliver
    | Refuse
    | Finish(job: Job, result: HandlerResult)

  predicate At(c: Client, t: Tid, pc: Pc) {
    t in c.callers && c.callers[t].pc == pc
  }

  /** The id of the handler entry an UNSUBSCRIBE or UNREGISTER is about is looked up in the
      client's own map when the call begins. */
  predicate TargetFound(c: Client, request: Request) {
    match request
    case WantUnsubscribe(topic, target) => target in c.events && c.events[target].name == topic
    case WantUnregister(procedure, target) => target in c.procedures && c.procedures[target].name == procedure
    case _ => true
  }

  predicate Enabled(c: Client, step: Step) {
    match step
    case Begin(t, request, _) => t !in c.callers && TargetFound(c, request)
    case Listen(t) => At(c, t, Begun)
    case Transmit(t) => At(c, t, Listening)
    case Fetch(t) => At(c, t, Sent)
    case Take(t) =>
      && t in c.callers && c.callers[t].pc.Waiting?
      && c.callers[t].pc.chan in c.chans && c.chans[c.callers[t].pc.chan] != []
    case Expire(t) => t in c.callers && c.callers[t].pc.Waiting?
    case Drop(t) => t in c.callers && (c.callers[t].pc.Holding? || c.callers[t].pc.Expired?)
    case Settle(t) => t in c.callers && c.callers[t].pc.Settled?
    case Accept(_) => c.recv.Polling?
    case Deliver => c.recv.Delivering? && c.recv.chan in c.chans && c.chans[c.recv.chan] == []
    case Refuse => c.recv.Refusing?
    case Finish(job, _) => job in c.jobs
  }

  /** Steps of the receive loop and of handlers; all others are those of a caller. */
  predicate OthersMove(step: Step) {
    step.Accept? || step.Deliver? || step.Refuse? || step.Finish?
  }

  function OutcomeOf(m: Message, request: Request): Outcome {
    if m.Error? then Refused(m) else if Fulfils(m, request) then Fulfilled(m) else Unexpected(m)
  }

  /** Where a caller's step takes the caller. */
  function Next(c: Client, step: Step): Caller
    requires Enabled(c, step) && !OthersMove(step)
  {
    match step
    case Begin(_, request, id) => Caller(request, id, Begun)
    case Listen(t) => c.callers[t].(pc := Listening)
    case Transmit(t) => c.callers[t].(pc := Sent)
    case Fetch(t) =>
      var id := c.callers[t].id;
      c.callers[t].(pc := if id in c.listeners then Waiting(c.listeners[id]) else Done(NoListener))
    case Take(t) => c.callers[t].(pc := Holding(c.chans[c.callers[t].pc.chan][0]))
    case Expire(t) => c.callers[t].(pc := Expired)
    case Drop(t) => c.callers[t].(pc := if c.callers[t].pc.Holding? then Settled(c.callers[t].pc.m) else Done(TimedOut))
    case Settle(t) => c.callers[t].(pc := Done(OutcomeOf(c.callers[t].pc.m, c.callers[t].request)))
  }

  /** The event handlers after a call got the response `m`. */
  function EventsAfter(events: map<Id, Desc>, request: Request, m: Message): map<Id, Desc> {
    match request
    case WantSubscribe(topic, handler) =>
      if m.Subscribed? then events[m.subscription := Desc(topic, handler)] else events
    case WantUnsubscribe(_, target) => if m.Unsubscribed? then events - {target} else events
    case _ => events
  }

  /** The procedures after a call got the response `m`. */
  function ProceduresAfter(procedures: map<Id, Desc>, request: Request, m: Message): map<Id, Desc> {
    match request
    case WantRegister(procedure, handler) =>
      if m.Registered? then procedures[m.registration := Desc(procedure, handler)] else procedures
    case WantUnregister(_, target) => if m.Unregistered? then procedures - {target} else procedures
    case _ => procedures
  }

  function DoSettle(c: Client, t: Tid): Client
    requires t in c.callers && c.callers[t].pc.Settled?
  {
    var request, m := c.callers[t].request, c.callers[t].pc.m;
    c.(events := EventsAfter(c.events, request, m), procedures := ProceduresAfter(c.procedures, request, m))
  }

  /** What a caller's step does beside moving the caller. */
  function Touch(c: Client, step: Step): Client
    requires Enabled(c, step) && !OthersMove(step)
  {
    match step
    case Listen(t) => c.(listeners := c.listeners[c.callers[t].id := t], chans := c.chans[t := []])
    case Take(t) => var ch := c.callers[t].pc.chan; c.(chans := c.chans[ch := c.chans[ch][1..]])
    case Drop(t) => c.(listeners := c.listeners - {c.callers[t].id})
    case Settle(t) => DoSettle(c, t)
    case _ => c
  }

  const NO_HANDLER := "no handler for registration"

  function NoHandler(m: Message): Message
    requires m.Invocation?
  {
    Error(INVOCATION, m.request, NO_HANDLER, NO_PAYLOAD)
  }

  /** Where the receive loop gets to with a message. */
  function RecvAfter(c: Client, m: Message): Recv {
    if IsResponse(m) then
      if m.request in c.listeners then Delivering(c.listeners[m.request], m) else Polling
    else if m.Invocation? && m.registration !in c.procedures then Refusing(NoHandler(m))
    else Polling
  }

  /** The handlers that run once a message has been read: an invocation starts one. */
  function JobsAfter(c: Client, m: Message): multiset<Job> {
    if m.Invocation? && m.registration in c.procedures then
      c.jobs + multiset{Job(m.request, m.registration, c.procedures[m.registration], m.payload)}
    else c.jobs
  }

  function DoOther(c: Client, step: Step): Client
    requires Enabled(c, step) && OthersMove(step)
  {
    match step
    case Accept(m) => c.(recv := RecvAfter(c, m), jobs := JobsAfter(c, m))
    case Deliver => c.(chans := c.chans[c.recv.chan := [c.recv.m]], recv := Polling)
    case Refuse => c.(recv := Polling)
    case Finish(job, _) => c.(jobs := c.jobs - multiset{job})
  }

  function Do(c: Client, step: Step): Client
    requires Enabled(c, step)
  {
    if OthersMove(step) then DoOther(c, step)
    else Touch(c, step).(callers := c.callers[step.t := Next(c, step)])
  }

  function JobAnswer(job: Job, result: HandlerResult): Message {
    if result.err != "" then Error(INVOCATION, job.invocation, result.err, result.payload)
    else Yield(job.invocation, map[], result.payload)
  }

  /** What a step sends to the router. */
  function Output(c: Client, step: Step): Option<Message>
    requires Enabled(c, step)
  {
    match step
    case Transmit(t) => Some(Wire(c.callers[t].request, c.callers[t].id))
    case Refuse => Some(c.recv.m)
    case Finish(job, result) => Some(JobAnswer(job, result))
    case _ => None
  }
}
