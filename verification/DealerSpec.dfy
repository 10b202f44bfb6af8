/** What a dealer means, without its indexes. */
module DealerSpec {
  import opened Wamp

  datatype RemoteProcedure = RemoteProcedure(endpoint: Session, procedure: Uri)

  type Procedures = map<Id, RemoteProcedure>

  /** Live registrations, pending calls by the caller's request id, and pending
      invocations with the request id each one answers. */
  datatype DealerState = DealerState(
    procedures: Procedures,
    calls: map<Id, Session>,
    invocations: map<Id, Id>)

  const EMPTY := DealerState(map[], map[], map[])

  /** A new state and what is sent. */
  datatype Outcome = Outcome(state: DealerState, out: seq<Envelope>)

  function Owners(procedures: Procedures): map<Id, Session> {
    map id | id in procedures :: procedures[id].endpoint
  }

  predicate IsRegistered(procedures: Procedures, uri: Uri) {
    exists id :: id in procedures && procedures[id].procedure == uri
  }

  ghost function RegistrationOf(procedures: Procedures, uri: Uri): (id: Id)
    requires IsRegistered(procedures, uri)
    ensures id in procedures && procedures[id].procedure == uri
  {
    var id :| id in procedures && procedures[id].procedure == uri;
    id
  }

  /** A URI has at most one callee. */
  ghost predicate OneCallee(procedures: Procedures) {
    forall i, j :: i in procedures && j in procedures && procedures[i].procedure == procedures[j].procedure ==> i == j
  }

  function InvocationDetails(caller: Session, options: Options): Options {
    if BoolOption(options, "disclose_me") == Some(true) then map["caller" := GoInt(TId, caller.id)] else map[]
  }

  ghost function OnRegister(st: DealerState, callee: Session, m: Message, draw: Id): Outcome
    requires m.Register?
  {
    if IsRegistered(st.procedures, m.procedure) then
      Outcome(st, [Envelope(callee, ErrorReply(REGISTER, m.request, ERR_PROCEDURE_ALREADY_EXISTS))])
    else
      Outcome(st.(procedures := st.procedures[draw := RemoteProcedure(callee, m.procedure)]),
              [Envelope(callee, Registered(m.request, draw))])
  }

  function OnUnregister(st: DealerState, callee: Session, m: Message): Outcome
    requires m.Unregister?
  {
    if m.registration !in st.procedures then
      Outcome(st, [Envelope(callee, ErrorReply(UNREGISTER, m.request, ERR_NO_SUCH_REGISTRATION))])
    else
      Outcome(st.(procedures := st.procedures - {m.registration}), [Envelope(callee, Unregistered(m.request))])
  }

  ghost function OnCall(st: DealerState, caller: Session, m: Message, draw: Id): Outcome
    requires m.Call?
  {
    if !IsRegistered(st.procedures, m.procedure) then
      Outcome(st, [Envelope(caller, ErrorReply(CALL, m.request, ERR_NO_SUCH_PROCEDURE))])
    else
      var reg := RegistrationOf(st.procedures, m.procedure);
      Outcome(st.(calls := st.calls[m.request := caller], invocations := st.invocations[draw := m.request]),
              [Envelope(st.procedures[reg].endpoint,
                        Invocation(draw, reg, InvocationDetails(caller, m.options), m.payload))])
  }

  predicate IsAnswer(m: Message) {
    m.Yield? || m.Error?
  }

  /** What the caller gets for a YIELD or an ERROR of the callee. */
  function Relayed(m: Message, request: Id): Message
    requires IsAnswer(m)
  {
    match m
    case Yield(_, _, payload) => Result(request, payload)
    case Error(_, _, error, payload) => Error(CALL, request, error, payload)
  }

  function OnAnswer(st: DealerState, m: Message): Outcome
    requires IsAnswer(m)
  {
    if m.request !in st.invocations then Outcome(st, [])
    else
      var request := st.invocations[m.request];
      var st' := st.(invocations := st.invocations - {m.request});
      if request !in st.calls then Outcome(st', [])
      else Outcome(st'.(calls := st.calls - {request}), [Envelope(st.calls[request], Relayed(m, request))])
  }

  /** Registrations left once `s` has none; pending calls and invocations stay. */
  function Without(procedures: Procedures, s: Session): Procedures {
    map id | id in procedures && procedures[id].endpoint != s :: procedures[id]
  }

  function OnRemove(st: DealerState, s: Session): DealerState {
    st.(procedures := Without(st.procedures, s))
  }

  predicate IsDealerMessage(m: Message) {
    m.Register? || m.Unregister? || m.Call? || m.Yield? || m.Error?
  }

  /** One message of a session, handled inside the critical section and then answered. */
  ghost function Handle(st: DealerState, s: Session, m: Message, draw: Id): Outcome
    requires IsDealerMessage(m)
  {
    match m
    case Register(_, _, _) => OnRegister(st, s, m, draw)
    case Unregister(_, _) => OnUnregister(st, s, m)
    case Call(_, _, _, _) => OnCall(st, s, m, draw)
    case Yield(_, _, _) => OnAnswer(st, m)
    case Error(_, _, _, _) => OnAnswer(st, m)
  }
}
