/** What a realm does for one message of a session. */
module RealmSpec {
  import opened Wamp
  import B = BrokerSpec
  import D = DealerSpec

  datatype RouterState = RouterState(live: B.Live, dealer: D.DealerState)

  /** The authorizer's answer: `Denied` without an error, `Failed` with one. */
  datatype Verdict = Authorized | Denied | Failed

  /** What the loop of a session receives next: a message, with the authorizer's verdict
      and the id `NewID` draws for it, or a kill request. */
  datatype Arrival = Incoming(m: Message, verdict: Verdict, draw: Id) | Kill(reason: Uri)

  /** The request id an authorization error carries; zero for the other message types. */
  function RefusedRequest(m: Message): Id {
    match m
    case Publish(request, _, _, _) => request
    case Subscribe(request, _, _) => request
    case Unsubscribe(request, _) => request
    case Register(request, _, _) => request
    case Unregister(request, _) => request
    case Call(request, _, _, _) => request
    case Yield(request, _, _) => request
    case _ => 0
  }

  function Refusal(m: Message, verdict: Verdict): Message {
    ErrorReply(TypeCode(m), RefusedRequest(m),
               if verdict == Failed then ERR_AUTHORIZATION_FAILED else ERR_NOT_AUTHORIZED)
  }

  predicate IsBrokerMessage(m: Message) {
    m.Publish? || m.Subscribe? || m.Unsubscribe?
  }

  /** The only ERROR messages the router accepts are those about invocations. */
  predicate IsDealerMessage(m: Message) {
    D.IsDealerMessage(m) && (m.Error? ==> m.typ == INVOCATION)
  }

  /** The arrival makes the session's loop return. */
  predicate Ends(a: Arrival) {
    a.Kill? || (a.verdict == Authorized && a.m.Goodbye?)
  }

  /** The state after an authorized message. */
  ghost function Effect(st: RouterState, s: Session, m: Message, draw: Id): RouterState {
    match m
    case Subscribe(_, _, topic) => st.(live := st.live[draw := B.Subscription(s, topic)])
    case Unsubscribe(_, subscription) => st.(live := st.live - {subscription})
    case _ => if IsDealerMessage(m) then st.(dealer := D.Handle(st.dealer, s, m, draw).state) else st
  }

  /** `outs` is what an authorized message of `s` makes the router send in state `st`. */
  ghost predicate Sends(st: RouterState, s: Session, m: Message, draw: Id, outs: seq<Envelope>) {
    match m
    case Publish(_, _, _, _) => B.IsMulticast(st.live, s, m, draw, outs)
    case Subscribe(request, _, _) => outs == [Envelope(s, Subscribed(request, draw))]
    case Unsubscribe(_, _) => outs == [Envelope(s, B.UnsubscribeReply(st.live, m))]
    case Goodbye(_) => outs == [Envelope(s, Goodbye(ERR_GOODBYE_AND_OUT))]
    case _ => outs == if IsDealerMessage(m) then D.Handle(st.dealer, s, m, draw).out else []
  }

  /** One turn of the session's loop. */
  ghost predicate Serves(pre: RouterState, post: RouterState, s: Session, a: Arrival, outs: seq<Envelope>) {
    match a
    case Kill(reason) => post == pre && outs == [Envelope(s, Goodbye(reason))]
    case Incoming(m, verdict, draw) =>
      if verdict != Authorized then post == pre && outs == [Envelope(s, Refusal(m, verdict))]
      else post == Effect(pre, s, m, draw) && Sends(pre, s, m, draw, outs)
  }

  /** A turn as it happened: the state found, the state left, and everything sent. */
  datatype Turn = Turn(pre: RouterState, post: RouterState, outs: seq<Envelope>)

  predicate IsRequest(m: Message) {
    m.Subscribe? || m.Unsubscribe? || m.Register? || m.Unregister?
  }

  /** `reply` acknowledges or refuses the request `m`. */
  predicate IsReplyTo(reply: Message, m: Message)
    requires IsRequest(m)
  {
    && ((match m
         case Subscribe(_, _, _) => reply.Subscribed?
         case Unsubscribe(_, _) => reply.Unsubscribed?
         case Register(_, _, _) => reply.Registered?
         case Unregister(_, _) => reply.Unregistered?)
        || (reply.Error? && reply.typ == TypeCode(m)))
    && reply.request == m.request
  }

  /** Every SUBSCRIBE, UNSUBSCRIBE, REGISTER and UNREGISTER gets exactly one reply, to its
      sender and with its own request id, and an unauthorized message changes nothing. */
  lemma OneReply(pre: RouterState, post: RouterState, s: Session, a: Arrival, outs: seq<Envelope>)
    requires Serves(pre, post, s, a, outs) && a.Incoming? && IsRequest(a.m)
    ensures |outs| == 1 && outs[0].to == s && IsReplyTo(outs[0].msg, a.m)
    ensures a.verdict != Authorized ==> post == pre && outs[0].msg.Error?
  {}

  /** `e` answers some request of `s` with id `r`. */
  predicate IsReply(e: Envelope, s: Session, r: Id) {
    && e.to == s
    && match e.msg
       case Subscribed(request, _) => request == r
       case Unsubscribed(request) => request == r
       case Registered(request, _) => request == r
       case Unregistered(request) => request == r
       case Error(typ, request, _, _) => request == r && typ in {SUBSCRIBE, UNSUBSCRIBE, REGISTER, UNREGISTER}
       case _ => false
  }

  predicate Requests(a: Arrival, r: Id) {
    a.Incoming? && IsRequest(a.m) && a.m.request == r
  }

  ghost function Replies(outs: seq<Envelope>, s: Session, r: Id): nat {
    Count(outs, e => IsReply(e, s, r))
  }

  lemma MulticastSends(live: B.Live, pub: Session, m: Message, publication: Id, outs: seq<Envelope>, e: Envelope)
    requires m.Publish? && B.IsMulticast(live, pub, m, publication, outs) && e in outs
    ensures e.msg.Event? || e.msg.Published?
  {
    var ack := B.Ack(pub, m, publication);
    var events := outs[..|outs| - |ack|];
    assert outs == events + ack;
    if e in events {
      assert e in multiset(events);
      assert e in B.Deliveries(live, pub, m, publication);
    }
  }

  /** A turn sends one reply if it serves a request, and none otherwise. */
  lemma RepliesOfTurn(pre: RouterState, post: RouterState, s: Session, a: Arrival, outs: seq<Envelope>, r: Id)
    requires Serves(pre, post, s, a, outs)
    ensures Replies(outs, s, r) == if Requests(a, r) then 1 else 0
  {
    if a.Incoming? && a.verdict == Authorized && a.m.Publish? {
      forall e | e in outs ensures !IsReply(e, s, r) {
        MulticastSends(pre.live, s, a.m, a.draw, outs, e);
      }
      CountNone(outs, e => IsReply(e, s, r));
    } else if outs == [] {
    } else {
      assert outs == [outs[0]] && outs[..0] == [];
      assert Count(outs, e => IsReply(e, s, r)) == if IsReply(outs[0], s, r) then 1 else 0;
    }
  }

  /** The router state after a session is removed. */
  function Leave(st: RouterState, s: Session): RouterState {
    RouterState(B.Without(st.live, s), D.OnRemove(st.dealer, s))
  }
}
