/** The WAMP entities the router and the client exchange: identifiers, sessions,
    payloads and messages. */
module Wamp {
  datatype Option<+T> = None | Some(value: T)

  type Id = nat

  /** `NewID` draws ids below this. */
  const MAX_ID := 0x20_0000_0000_0000       // 1 << 53

  type Uri = string

  /** The Go types that fields and decoded values have. */
  datatype Type =
    | TBool | TInt | TInt64 | TUint64 | TFloat64 | TString
    | TId                                     // ID, a uint64
    | TCode                                   // MessageType, an int
    | TUri                                    // URI, a string
    | TAny                                    // interface{}
    | TSlice(elem: Type) | TMap(key: Type, elem: Type)

  /** A Go value in an interface, as options, details and payloads carry it. */
  datatype GoValue =
    | Nil
    | GoBool(b: bool)
    | GoInt(typ: Type, n: int)
    | GoFloat(x: real)
    | GoString(typ: Type, s: string)
    | NilSlice(elem: Type) | GoSlice(elem: Type, items: seq<GoValue>)
    | NilMap(key: Type, elem: Type) | GoMap(key: Type, elem: Type, entries: map<string, GoValue>)

  type Options = map<string, GoValue>

  /** Arguments and ArgumentsKw; `None` is Go's nil. */
  datatype Payload = Payload(args: Option<seq<GoValue>>, kwargs: Option<map<string, GoValue>>)

  const NO_PAYLOAD := Payload(None, None)

  /** A session of the router. `handle` stands for the pointer that the maps use as a
      key; `id` is the session's WAMP id. */
  datatype Session = Session(handle: nat, id: Id)

  datatype Message =
    | Publish(request: Id, options: Options, topic: Uri, payload: Payload)
    | Published(request: Id, publication: Id)
    | Subscribe(request: Id, options: Options, topic: Uri)
    | Subscribed(request: Id, subscription: Id)
    | Unsubscribe(request: Id, subscription: Id)
    | Unsubscribed(request: Id)
    | Event(subscription: Id, publication: Id, payload: Payload)
    | Call(request: Id, options: Options, procedure: Uri, payload: Payload)
    | Result(request: Id, payload: Payload)
    | Register(request: Id, options: Options, procedure: Uri)
    | Registered(request: Id, registration: Id)
    | Unregister(request: Id, registration: Id)
    | Unregistered(request: Id)
    | Invocation(request: Id, registration: Id, details: Options, payload: Payload)
    | Yield(request: Id, options: Options, payload: Payload)
    | Error(typ: nat, request: Id, error: Uri, payload: Payload)
    | Goodbye(reason: Uri)
    // the remaining types; what they carry makes no difference to a session's loop
    | Hello | Welcome | Abort | Challenge | Authenticate | Cancel | Interrupt

  const HELLO := 1
  const WELCOME := 2
  const ABORT := 3
  const CHALLENGE := 4
  const AUTHENTICATE := 5
  const GOODBYE := 6
  const ERROR := 8
  const PUBLISH := 16
  const PUBLISHED := 17
  const SUBSCRIBE := 32
  const SUBSCRIBED := 33
  const UNSUBSCRIBE := 34
  const UNSUBSCRIBED := 35
  const EVENT := 36
  const CALL := 48
  const CANCEL := 49
  const RESULT := 50
  const REGISTER := 64
  const REGISTERED := 65
  const UNREGISTER := 66
  const UNREGISTERED := 67
  const INVOCATION := 68
  const INTERRUPT := 69
  const YIELD := 70

  function TypeCode(m: Message): nat {
    match m
    case Publish(_, _, _, _) => PUBLISH
    case Published(_, _) => PUBLISHED
    case Subscribe(_, _, _) => SUBSCRIBE
    case Subscribed(_, _) => SUBSCRIBED
    case Unsubscribe(_, _) => UNSUBSCRIBE
    case Unsubscribed(_) => UNSUBSCRIBED
    case Event(_, _, _) => EVENT
    case Call(_, _, _, _) => CALL
    case Result(_, _) => RESULT
    case Register(_, _, _) => REGISTER
    case Registered(_, _) => REGISTERED
    case Unregister(_, _) => UNREGISTER
    case Unregistered(_) => UNREGISTERED
    case Invocation(_, _, _, _) => INVOCATION
    case Yield(_, _, _) => YIELD
    case Error(_, _, _, _) => ERROR
    case Goodbye(_) => GOODBYE
    case Hello => HELLO
    case Welcome => WELCOME
    case Abort => ABORT
    case Challenge => CHALLENGE
    case Authenticate => AUTHENTICATE
    case Cancel => CANCEL
    case Interrupt => INTERRUPT
  }

  const ERR_NO_SUCH_PROCEDURE := "wamp.error.no_such_procedure"
  const ERR_PROCEDURE_ALREADY_EXISTS := "wamp.error.procedure_already_exists"
  const ERR_NO_SUCH_REGISTRATION := "wamp.error.no_such_registration"
  const ERR_NO_SUCH_SUBSCRIPTION := "wamp.error.no_such_subscription"
  const ERR_NOT_AUTHORIZED := "wamp.error.not_authorized"
  const ERR_AUTHORIZATION_FAILED := "wamp.error.authorization_failed"
  const ERR_GOODBYE_AND_OUT := "wamp.error.goodbye_and_out"

  /** An ERROR message without arguments. */
  function ErrorReply(typ: nat, request: Id, error: Uri): Message {
    Error(typ, request, error, NO_PAYLOAD)
  }

  /** A message and the session it is sent to. */
  datatype Envelope = Envelope(to: Session, msg: Message)

  /** The entry `key` of an options map when it holds a boolean. */
  function BoolOption(options: Options, key: string): Option<bool> {
    if key in options && options[key].GoBool? then Some(options[key].b) else None
  }

  /** The number of entries of `xs` that satisfy `p`. */
  ghost function Count<T>(xs: seq<T>, p: T -> bool): nat {
    if xs == [] then 0 else Count(xs[..|xs| - 1], p) + if p(xs[|xs| - 1]) then 1 else 0
  }

  lemma {:induction false} CountConcat<T>(xs: seq<T>, ys: seq<T>, p: T -> bool)
    ensures Count(xs + ys, p) == Count(xs, p) + Count(ys, p)
  {
    if ys == [] {
      assert xs + ys == xs;
    } else {
      CountConcat(xs, ys[..|ys| - 1], p);
      assert (xs + ys)[..|xs + ys| - 1] == xs + ys[..|ys| - 1];
    }
  }

  lemma {:induction false} CountNone<T>(xs: seq<T>, p: T -> bool)
    requires forall x :: x in xs ==> !p(x)
    ensures Count(xs, p) == 0
  {
    if xs == [] {
    } else {
      assert forall x :: x in xs[..|xs| - 1] ==> x in xs;
      CountNone(xs[..|xs| - 1], p);
    }
  }

  /** When one value only satisfies `p`, counting is asking for its multiplicity. */
  lemma {:induction false} CountOne<T>(xs: seq<T>, p: T -> bool, x: T)
    requires p(x) && forall y :: y in xs && p(y) ==> y == x
    ensures Count(xs, p) == multiset(xs)[x]
  {
    if xs == [] {
    } else {
      var front, last := xs[..|xs| - 1], xs[|xs| - 1];
      assert xs == front + [last];
      CountOne(front, p, x);
    }
  }

  /** Everything the router has sent, in order. Sending cannot fail here. */
  class Network {
    var log: seq<Envelope>

    constructor ()
      ensures log == []
    {
      log := [];
    }

    method Send(to: Session, msg: Message)
      modifies this
      ensures log == old(log) + [Envelope(to, msg)]
    {
      log := log + [Envelope(to, msg)];
    }
  }
}
