/** The router's and the client's messages as structs and as lists: what goes over the wire for
    each type of message, and that the same message comes back. */
module MessageCodec {
  import opened Wamp
  import opened Codec
  import Binary64

  /** The type has payload fields. */
  predicate Carries(m: Message) {
    m.Publish? || m.Event? || m.Call? || m.Result? || m.Invocation? || m.Yield? || m.Error?
  }

  /** The remaining types are left to `StructType`. */
  predicate HasContent(m: Message) {
    !(m.Hello? || m.Welcome? || m.Abort? || m.Challenge? || m.Authenticate? || m.Cancel? || m.Interrupt?)
  }

  function IdValue(id: Id): GoValue {
    GoInt(TId, id)
  }

  function DictValue(d: Options): GoValue {
    GoMap(TString, TAny, d)
  }

  function UriValue(uri: Uri): GoValue {
    GoString(TUri, uri)
  }

  function ArgsValue(args: Option<seq<GoValue>>): GoValue {
    match args case None => NilSlice(TAny) case Some(items) => GoSlice(TAny, items)
  }

  function KwargsValue(kwargs: Option<map<string, GoValue>>): GoValue {
    match kwargs case None => NilMap(TString, TAny) case Some(entries) => GoMap(TString, TAny, entries)
  }

  /** The fields in front of the payload. Details that the model leaves out are empty. */
  function Head(m: Message): seq<GoValue>
    requires HasContent(m)
  {
    match m
    case Publish(request, options, topic, _) => [IdValue(request), DictValue(options), UriValue(topic)]
    case Published(request, publication) => [IdValue(request), IdValue(publication)]
    case Subscribe(request, options, topic) => [IdValue(request), DictValue(options), UriValue(topic)]
    case Subscribed(request, subscription) => [IdValue(request), IdValue(subscription)]
    case Unsubscribe(request, subscription) => [IdValue(request), IdValue(subscription)]
    case Unsubscribed(request) => [IdValue(request)]
    case Event(subscription, publication, _) => [IdValue(subscription), IdValue(publication), DictValue(map[])]
    case Call(request, options, procedure, _) => [IdValue(request), DictValue(options), UriValue(procedure)]
    case Result(request, _) => [IdValue(request), DictValue(map[])]
    case Register(request, options, procedure) => [IdValue(request), DictValue(options), UriValue(procedure)]
    case Registered(request, registration) => [IdValue(request), IdValue(registration)]
    case Unregister(request, registration) => [IdValue(request), IdValue(registration)]
    case Unregistered(request) => [IdValue(request)]
    case Invocation(request, registration, details, _) =>
      [IdValue(request), IdValue(registration), DictValue(details)]
    case Yield(request, options, _) => [IdValue(request), DictValue(options)]
    case Error(typ, request, error, _) => [GoInt(TCode, typ), IdValue(request), DictValue(map[]), UriValue(error)]
    case Goodbye(reason) => [DictValue(map[]), UriValue(reason)]
  }

  /** The message as a struct of its type. */
  function ToStruct(m: Message): Struct
    requires HasContent(m)
  {
    Struct(New(TypeCode(m)).value,
           Head(m) + if Carries(m) then [ArgsValue(m.payload.args), KwargsValue(m.payload.kwargs)] else [])
  }

  function PayloadAt(fields: seq<GoValue>, i: nat): Payload
    requires i + 2 == |fields|
  {
    Payload(if fields[i].GoSlice? then Some(fields[i].items) else None,
            if fields[i + 1].GoMap? then Some(fields[i + 1].entries) else None)
  }

  function DictAt(v: GoValue): Options {
    if v.GoMap? then v.entries else map[]
  }

  function IdAt(v: GoValue): Id {
    if v.GoInt? && v.n >= 0 then v.n else 0
  }

  function UriAt(v: GoValue): Uri {
    if v.GoString? then v.s else ""
  }

  /** The message that a struct is. */
  function FromStruct(s: Struct): Option<Message>
    requires New(s.typ.code) == Some(s.typ) && |s.fields| == |s.typ.fields|
  {
    var f, code := s.fields, s.typ.code;
    if code == PUBLISH then Some(Publish(IdAt(f[0]), DictAt(f[1]), UriAt(f[2]), PayloadAt(f, 3)))
    else if code == PUBLISHED then Some(Published(IdAt(f[0]), IdAt(f[1])))
    else if code == SUBSCRIBE then Some(Subscribe(IdAt(f[0]), DictAt(f[1]), UriAt(f[2])))
    else if code == SUBSCRIBED then Some(Subscribed(IdAt(f[0]), IdAt(f[1])))
    else if code == UNSUBSCRIBE then Some(Unsubscribe(IdAt(f[0]), IdAt(f[1])))
    else if code == UNSUBSCRIBED then Some(Unsubscribed(IdAt(f[0])))
    else if code == EVENT then Some(Event(IdAt(f[0]), IdAt(f[1]), PayloadAt(f, 3)))
    else if code == CALL then Some(Call(IdAt(f[0]), DictAt(f[1]), UriAt(f[2]), PayloadAt(f, 3)))
    else if code == RESULT then Some(Result(IdAt(f[0]), PayloadAt(f, 2)))
    else if code == REGISTER then Some(Register(IdAt(f[0]), DictAt(f[1]), UriAt(f[2])))
    else if code == REGISTERED then Some(Registered(IdAt(f[0]), IdAt(f[1])))
    else if code == UNREGISTER then Some(Unregister(IdAt(f[0]), IdAt(f[1])))
    else if code == UNREGISTERED then Some(Unregistered(IdAt(f[0])))
    else if code == INVOCATION then Some(Invocation(IdAt(f[0]), IdAt(f[1]), DictAt(f[2]), PayloadAt(f, 3)))
    else if code == YIELD then Some(Yield(IdAt(f[0]), DictAt(f[1]), PayloadAt(f, 2)))
    else if code == ERROR then Some(Error(IdAt(f[0]), IdAt(f[1]), UriAt(f[3]), PayloadAt(f, 4)))
    else if code == GOODBYE then Some(Goodbye(UriAt(f[1])))
    else None
  }

  /** The struct is one of its type, and it is message `m`. */
  ghost predicate IsStructOf(s: Struct, m: Message) {
    New(s.typ.code) == Some(s.typ) && |s.fields| == |s.typ.fields| && FromStruct(s) == Some(m)
  }

  lemma StructOfType(m: Message)
    requires HasContent(m)
    ensures IsMessageType(ToStruct(m).typ) && IsStructOf(ToStruct(m), m)
  {
    AllTypesAreGood(TypeCode(m));
  }

  // ---------- any struct with a head and perhaps a payload ----------

  /** The type has `h` fields that are never left out, and payload fields if it carries one. */
  ghost predicate IsSplit(t: StructType, h: nat, carries: bool) {
    && 1 <= h && |t.fields| == (if carries then h + 2 else h)
    && (forall i :: 0 <= i < h ==> !t.fields[i].omitEmpty)
    && (carries ==> t.fields[h] == Field(LIST, true) && t.fields[h + 1] == Field(DICT, true))
  }

  function PayloadValues(p: Payload): (r: seq<GoValue>)
    ensures |r| == 2
  {
    [ArgsValue(p.args), KwargsValue(p.kwargs)]
  }

  /** How many payload fields are kept. */
  function KeptValues(p: Payload): nat {
    if p.kwargs.Some? && p.kwargs.value != map[] then 2
    else if p.args.Some? && p.args.value != [] then 1
    else 0
  }

  lemma HeadIsKept(s: Struct, h: nat)
    requires WellTyped(s) && IsSplit(s.typ, h, false)
    ensures KeptOf(s) == h
  {
    ShortestIsUnique(s.typ.fields, s.fields, h, KeptOf(s));
  }

  lemma PayloadIsKept(s: Struct, h: nat, p: Payload)
    requires WellTyped(s) && IsSplit(s.typ, h, true) && s.fields[h..] == PayloadValues(p)
    ensures KeptOf(s) == h + KeptValues(p)
  {
    assert s.fields[h] == ArgsValue(p.args) && s.fields[h + 1] == KwargsValue(p.kwargs);
    assert IsShortest(s.typ.fields, s.fields, h + KeptValues(p));
    ShortestIsUnique(s.typ.fields, s.fields, h + KeptValues(p), KeptOf(s));
  }

  lemma HeadIsNormal(s: Struct, h: nat)
    requires WellTyped(s) && IsSplit(s.typ, h, false)
    ensures Normal(s) == s && Listed(s) == [GoInt(TInt, s.typ.code)] + s.fields
  {
    HeadIsKept(s, h);
    assert Normal(s).fields == s.fields;
  }

  /** The payload with trailing empty parts turned into nil. */
  function Bare(p: Payload): (r: Payload)
    ensures var none := p.kwargs.None? || p.kwargs.value == map[];
            r == Payload(if none && p.args == Some([]) then None else p.args, if none then None else p.kwargs)
  {
    if p.kwargs.Some? && p.kwargs.value != map[] then p
    else if p.args == Some([]) then NO_PAYLOAD
    else p.(kwargs := None)
  }

  lemma BareValues(p: Payload)
    ensures PayloadValues(Bare(p))[0] == if KeptValues(p) >= 1 then PayloadValues(p)[0] else NilSlice(TAny)
    ensures PayloadValues(Bare(p))[1] == if KeptValues(p) == 2 then PayloadValues(p)[1] else NilMap(TString, TAny)
  {}

  lemma PayloadIsNormal(s: Struct, h: nat, p: Payload)
    requires WellTyped(s) && IsSplit(s.typ, h, true) && s.fields[h..] == PayloadValues(p)
    ensures Normal(s) == s.(fields := s.fields[..h] + PayloadValues(Bare(p)))
  {
    PayloadIsKept(s, h, p);
    BareValues(p);
    assert s.fields[h] == PayloadValues(p)[0] && s.fields[h + 1] == PayloadValues(p)[1];
    assert Normal(s).fields == s.fields[..h] + PayloadValues(Bare(p));
  }

  lemma PayloadIsListed(s: Struct, h: nat, p: Payload)
    requires WellTyped(s) && IsSplit(s.typ, h, true) && s.fields[h..] == PayloadValues(p)
    ensures Listed(s) == [GoInt(TInt, s.typ.code)] + s.fields[..h] + PayloadValues(p)[..KeptValues(p)]
  {
    PayloadIsKept(s, h, p);
    assert s.fields[..h + KeptValues(p)] == s.fields[..h] + s.fields[h..][..KeptValues(p)];
  }

  // ---------- messages ----------

  lemma StructIsSplit(m: Message)
    requires HasContent(m)
    ensures IsSplit(ToStruct(m).typ, |Head(m)|, Carries(m)) && ToStruct(m).typ.code == TypeCode(m)
    ensures ToStruct(m).fields == Head(m) + if Carries(m) then PayloadValues(m.payload) else []
  {}

  /** The values have the types of the first fields, but for the ranges of numbers. */
  ghost predicate IsHeadOf(head: seq<GoValue>, t: StructType) {
    && |head| <= |t.fields|
    && forall i :: 0 <= i < |head| ==>
         && !head[i].Nil? && TypeOf(head[i]) == t.fields[i].typ && (head[i].GoString? ==> head[i].typ == TUri)
         && (head[i].GoInt? ==> head[i].typ in {TId, TCode} && 0 <= head[i].n)
  }

  lemma RequestIsTyped(m: Message)
    requires m.Publish? || m.Call? || m.Subscribe? || m.Register?
    ensures IsHeadOf(Head(m), ToStruct(m).typ)
  {}

  lemma NoticeIsTyped(m: Message)
    requires m.Event? || m.Invocation? || m.Error?
    ensures IsHeadOf(Head(m), ToStruct(m).typ)
  {}

  lemma AnswerIsTyped(m: Message)
    requires m.Result? || m.Yield?
    ensures IsHeadOf(Head(m), ToStruct(m).typ)
  {}

  lemma HeadIsTyped(m: Message)
    requires HasContent(m)
    ensures IsHeadOf(Head(m), ToStruct(m).typ)
  {
    if m.Publish? || m.Call? || m.Subscribe? || m.Register? {
      RequestIsTyped(m);
    } else if m.Event? || m.Invocation? || m.Error? {
      NoticeIsTyped(m);
    } else if m.Result? || m.Yield? {
      AnswerIsTyped(m);
    }
  }

  /** Ids are below `ids`, and type codes below `codes`. */
  ghost predicate Below(head: seq<GoValue>, ids: nat, codes: nat) {
    forall i :: 0 <= i < |head| && head[i].GoInt? ==> head[i].n < if head[i].typ == TId then ids else codes
  }

  lemma HeadDecides(s: Struct, head: seq<GoValue>, p: Option<Payload>)
    requires IsMessageType(s.typ) && IsSplit(s.typ, |head|, p.Some?) && IsHeadOf(head, s.typ)
    requires s.fields == head + if p.Some? then PayloadValues(p.value) else []
    ensures WellTyped(s) <==> Below(head, 0x1_0000_0000_0000_0000, 0x8000_0000_0000_0000)
  {
    assert forall i :: 0 <= i < |head| ==> s.fields[i] == head[i];
    if Below(head, 0x1_0000_0000_0000_0000, 0x8000_0000_0000_0000) {
      forall i | 0 <= i < |s.fields| ensures HasType(s.fields[i], s.typ.fields[i].typ) {}
    } else {
      var i :| 0 <= i < |head| && head[i].GoInt? && !InRange(head[i].n, head[i].typ);
      assert !HasType(s.fields[i], s.typ.fields[i].typ);
    }
  }

  /** A message fits into its struct exactly when its ids are below 2^64, and the type code that
      an ERROR carries below 2^63. */
  lemma StructIsTyped(m: Message)
    requires HasContent(m)
    ensures WellTyped(ToStruct(m)) <==> Below(Head(m), 0x1_0000_0000_0000_0000, 0x8000_0000_0000_0000)
  {
    StructOfType(m);
    StructIsSplit(m);
    HeadIsTyped(m);
    HeadDecides(ToStruct(m), Head(m), if Carries(m) then Some(m.payload) else None);
  }

  /** A message's list and its normal form, from its head and its payload. */
  lemma WireParts(m: Message)
    requires HasContent(m) && WellTyped(ToStruct(m))
    ensures Listed(ToStruct(m))
         == [GoInt(TInt, TypeCode(m))] + Head(m)
            + if Carries(m) then PayloadValues(m.payload)[..KeptValues(m.payload)] else []
    ensures Normal(ToStruct(m))
         == Struct(ToStruct(m).typ, Head(m) + if Carries(m) then PayloadValues(Bare(m.payload)) else [])
  {
    var s := ToStruct(m);
    StructIsSplit(m);
    if Carries(m) {
      PayloadIsNormal(s, |Head(m)|, m.payload);
      PayloadIsListed(s, |Head(m)|, m.payload);
    } else {
      HeadIsNormal(s, |Head(m)|);
    }
  }

  /** The type code and the fields in front of the payload, type by type. */
  lemma WireHead(m: Message)
    requires HasContent(m)
    ensures [GoInt(TInt, TypeCode(m))] + Head(m)
         == (match m
             case Publish(request, options, topic, _) =>
               [GoInt(TInt, 16), GoInt(TId, request), GoMap(TString, TAny, options), GoString(TUri, topic)]
             case Published(request, publication) => [GoInt(TInt, 17), GoInt(TId, request), GoInt(TId, publication)]
             case Subscribe(request, options, topic) =>
               [GoInt(TInt, 32), GoInt(TId, request), GoMap(TString, TAny, options), GoString(TUri, topic)]
             case Subscribed(request, subscription) =>
               [GoInt(TInt, 33), GoInt(TId, request), GoInt(TId, subscription)]
             case Unsubscribe(request, subscription) =>
               [GoInt(TInt, 34), GoInt(TId, request), GoInt(TId, subscription)]
             case Unsubscribed(request) => [GoInt(TInt, 35), GoInt(TId, request)]
             case Event(subscription, publication, _) =>
               [GoInt(TInt, 36), GoInt(TId, subscription), GoInt(TId, publication), GoMap(TString, TAny, map[])]
             case Call(request, options, procedure, _) =>
               [GoInt(TInt, 48), GoInt(TId, request), GoMap(TString, TAny, options), GoString(TUri, procedure)]
             case Result(request, _) => [GoInt(TInt, 50), GoInt(TId, request), GoMap(TString, TAny, map[])]
             case Register(request, options, procedure) =>
               [GoInt(TInt, 64), GoInt(TId, request), GoMap(TString, TAny, options), GoString(TUri, procedure)]
             case Registered(request, registration) =>
               [GoInt(TInt, 65), GoInt(TId, request), GoInt(TId, registration)]
             case Unregister(request, registration) =>
               [GoInt(TInt, 66), GoInt(TId, request), GoInt(TId, registration)]
             case Unregistered(request) => [GoInt(TInt, 67), GoInt(TId, request)]
             case Invocation(request, registration, details, _) =>
               [GoInt(TInt, 68), GoInt(TId, request), GoInt(TId, registration), GoMap(TString, TAny, details)]
             case Yield(request, options, _) =>
               [GoInt(TInt, 70), GoInt(TId, request), GoMap(TString, TAny, options)]
             case Error(typ, request, error, _) =>
               [GoInt(TInt, 8), GoInt(TCode, typ), GoInt(TId, request), GoMap(TString, TAny, map[]),
                GoString(TUri, error)]
             case Goodbye(reason) => [GoInt(TInt, 6), GoMap(TString, TAny, map[]), GoString(TUri, reason)])
  {}

  /** The list that a message becomes: its type code, its fields, and the payload as far as it
      is not empty. */
  lemma WireForm(m: Message)
    requires HasContent(m) && WellTyped(ToStruct(m))
    ensures Listed(ToStruct(m))
         == [GoInt(TInt, TypeCode(m))] + Head(m)
            + if m.Publish? || m.Event? || m.Call? || m.Result? || m.Invocation? || m.Yield? || m.Error? then
                var args := if m.payload.args.Some? then GoSlice(TAny, m.payload.args.value) else NilSlice(TAny);
                if m.payload.kwargs.Some? && m.payload.kwargs.value != map[] then
                  [args, GoMap(TString, TAny, m.payload.kwargs.value)]
                else if m.payload.args.Some? && m.payload.args.value != [] then [args]
                else []
              else []
  {
    WireParts(m);
  }

  /** The message with trailing empty parts of its payload turned into nil. */
  function Trimmed(m: Message): Message {
    if Carries(m) then m.(payload := Bare(m.payload)) else m
  }

  lemma TrimmedParts(m: Message)
    requires HasContent(m)
    ensures HasContent(Trimmed(m)) && Head(Trimmed(m)) == Head(m)
    ensures ToStruct(Trimmed(m))
         == Struct(ToStruct(m).typ, Head(m) + if Carries(m) then PayloadValues(Bare(m.payload)) else [])
  {}

  lemma NormalIsTrimmed(m: Message)
    requires HasContent(m) && WellTyped(ToStruct(m))
    ensures HasContent(Trimmed(m)) && Normal(ToStruct(m)) == ToStruct(Trimmed(m))
  {
    WireParts(m);
    TrimmedParts(m);
  }

  lemma HeadIsExact(s: Struct, head: seq<GoValue>, p: Option<Payload>)
    requires WellTyped(s) && IsSplit(s.typ, |head|, p.Some?) && IsHeadOf(head, s.typ)
    requires s.fields == head + if p.Some? then PayloadValues(p.value) else []
    requires Below(head, 0x20_0000_0000_0001, 0x20_0000_0000_0001)
    ensures ExactNumbers(s)
  {
    forall i | 0 <= i < |s.fields| && s.fields[i].GoInt? ensures IsExact(s.fields[i].n) {
      assert i < |head| && s.fields[i] == head[i];
      Binary64.IdsSurvive(s.fields[i].n);
    }
  }

  ghost predicate Gives(r: Parsed<Struct>, m: Message) {
    r.Ok? && IsStructOf(r.value, m)
  }

  lemma ComesBack(s: Struct, r: Struct, m: Message)
    requires WellTyped(s) && New(s.typ.code) == Some(s.typ) && Normal(s) == r && IsStructOf(r, m)
    ensures Gives(Applied(s.typ.code, Listed(s)), m)
    ensures CarriesJson(s) && ExactNumbers(s) ==> Gives(Deserialize(JsonList(Listed(s))), m)
  {
    RoundTrip(s);
    if CarriesJson(s) {
      JsonRoundTrip(s);
    }
  }

  /** Every message comes back from its list as it was, but for trailing empty payloads. */
  lemma MessageRoundTrip(m: Message)
    requires HasContent(m) && WellTyped(ToStruct(m))
    ensures Gives(Applied(TypeCode(m), Listed(ToStruct(m))), Trimmed(m))
  {
    StructOfType(m);
    StructIsSplit(m);
    NormalIsTrimmed(m);
    StructOfType(Trimmed(m));
    ComesBack(ToStruct(m), ToStruct(Trimmed(m)), Trimmed(m));
  }

  /** It comes back through JSON too, if its options, details and payload are values that JSON
      has and its ids are at most 2^53. */
  lemma MessageThroughJson(m: Message)
    requires HasContent(m) && WellTyped(ToStruct(m)) && CarriesJson(ToStruct(m))
    requires Below(Head(m), 0x20_0000_0000_0001, 0x20_0000_0000_0001)
    ensures Gives(Deserialize(JsonList(Listed(ToStruct(m)))), Trimmed(m))
  {
    StructOfType(m);
    StructIsSplit(m);
    HeadIsTyped(m);
    HeadIsExact(ToStruct(m), Head(m), if Carries(m) then Some(m.payload) else None);
    NormalIsTrimmed(m);
    StructOfType(Trimmed(m));
    ComesBack(ToStruct(m), ToStruct(Trimmed(m)), Trimmed(m));
  }

  /** The codes that have structs, and the structs of the types that are no messages here. */
  lemma Schemas(code: int)
    ensures New(code).Some? <==>
              code in {1, 2, 3, 4, 5, 6, 8, 16, 17, 32, 33, 34, 35, 36, 48, 49, 50, 64, 65, 66, 67, 68, 69, 70}
    ensures var uri, id, text, dict := Field(TUri, false), Field(TId, false), Field(TString, false),
                                       Field(TMap(TString, TAny), false);
            && New(1) == Some(StructType(1, [uri, dict])) && New(2) == Some(StructType(2, [id, dict]))
            && New(3) == Some(StructType(3, [dict, uri])) && New(4) == Some(StructType(4, [text, dict]))
            && New(5) == Some(StructType(5, [text, dict])) && New(49) == Some(StructType(49, [id, dict]))
            && New(69) == Some(StructType(69, [id, dict]))
  {}
}
