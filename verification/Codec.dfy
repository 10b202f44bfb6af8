/** The list form of messages: `toList` leaves out trailing empty payloads, `apply` refills a
    struct of the type that a code names, and JSON carries the list in between. */
module Codec {
  import opened Wamp
  import Binary64

  // ---------- Go values ----------

  const LIST := TSlice(TAny)
  const DICT := TMap(TString, TAny)

  function TypeOf(v: GoValue): Type
    requires !v.Nil?
  {
    match v
    case GoBool(_) => TBool
    case GoInt(typ, _) => typ
    case GoFloat(_) => TFloat64
    case GoString(typ, _) => typ
    case NilSlice(elem) => TSlice(elem)
    case GoSlice(elem, _) => TSlice(elem)
    case NilMap(key, elem) => TMap(key, elem)
    case GoMap(key, elem, _) => TMap(key, elem)
  }

  const WORD := 0x1_0000_0000_0000_0000

  predicate IsUnsigned(t: Type) {
    t.TId? || t.TUint64?
  }

  predicate IsInteger(t: Type) {
    IsUnsigned(t) || t.TInt? || t.TInt64? || t.TCode?
  }

  predicate IsString(t: Type) {
    t.TString? || t.TUri?
  }

  /** The 64 bits of type `t` hold `n`. */
  predicate InRange(n: int, t: Type) {
    if IsUnsigned(t) then 0 <= n < WORD else -WORD / 2 <= n < WORD / 2
  }

  function Wrap(n: int, t: Type): int {
    if IsUnsigned(t) then n % WORD else (n + WORD / 2) % WORD - WORD / 2
  }

  predicate HasType(v: GoValue, t: Type) {
    && !v.Nil? && TypeOf(v) == t
    && (v.GoInt? ==> IsInteger(t) && InRange(v.n, t))
    && (v.GoString? ==> IsString(t))
  }

  function Zero(t: Type): GoValue {
    match t
    case TBool => GoBool(false)
    case TFloat64 => GoFloat(0.0)
    case TSlice(elem) => NilSlice(elem)
    case TMap(key, elem) => NilMap(key, elem)
    case TAny => Nil
    case _ => if IsInteger(t) then GoInt(t, 0) else GoString(t, "")
  }

  // ---------- message structs ----------

  /** A field of a message struct, with or without the tag `omitempty`. */
  datatype Field = Field(typ: Type, omitEmpty: bool)

  const ID := Field(TId, false)
  const CODE := Field(TCode, false)
  const URI := Field(TUri, false)
  const TEXT := Field(TString, false)
  const OPTIONS := Field(DICT, false)
  const PAYLOAD := [Field(LIST, true), Field(DICT, true)]

  /** A message type: its code and the fields of its struct. */
  datatype StructType = StructType(code: int, fields: seq<Field>)

  /** The struct that a type code names. */
  function New(code: int): Option<StructType> {
    if code == HELLO then Some(StructType(code, [URI, OPTIONS]))
    else if code == WELCOME then Some(StructType(code, [ID, OPTIONS]))
    else if code == ABORT then Some(StructType(code, [OPTIONS, URI]))
    else if code == CHALLENGE then Some(StructType(code, [TEXT, OPTIONS]))
    else if code == AUTHENTICATE then Some(StructType(code, [TEXT, OPTIONS]))
    else if code == GOODBYE then Some(StructType(code, [OPTIONS, URI]))
    else if code == ERROR then Some(StructType(code, [CODE, ID, OPTIONS, URI] + PAYLOAD))
    else if code == PUBLISH then Some(StructType(code, [ID, OPTIONS, URI] + PAYLOAD))
    else if code == PUBLISHED then Some(StructType(code, [ID, ID]))
    else if code == SUBSCRIBE then Some(StructType(code, [ID, OPTIONS, URI]))
    else if code == SUBSCRIBED then Some(StructType(code, [ID, ID]))
    else if code == UNSUBSCRIBE then Some(StructType(code, [ID, ID]))
    else if code == UNSUBSCRIBED then Some(StructType(code, [ID]))
    else if code == EVENT then Some(StructType(code, [ID, ID, OPTIONS] + PAYLOAD))
    else if code == CALL then Some(StructType(code, [ID, OPTIONS, URI] + PAYLOAD))
    else if code == CANCEL then Some(StructType(code, [ID, OPTIONS]))
    else if code == RESULT then Some(StructType(code, [ID, OPTIONS] + PAYLOAD))
    else if code == REGISTER then Some(StructType(code, [ID, OPTIONS, URI]))
    else if code == REGISTERED then Some(StructType(code, [ID, ID]))
    else if code == UNREGISTER then Some(StructType(code, [ID, ID]))
    else if code == UNREGISTERED then Some(StructType(code, [ID]))
    else if code == INVOCATION then Some(StructType(code, [ID, ID, OPTIONS] + PAYLOAD))
    else if code == INTERRUPT then Some(StructType(code, [ID, OPTIONS]))
    else if code == YIELD then Some(StructType(code, [ID, OPTIONS] + PAYLOAD))
    else None
  }

  /** The types that fields have. */
  predicate IsFieldType(t: Type) {
    t == TId || t == TCode || t == TUri || t == TString || t == LIST || t == DICT
  }

  predicate IsField(f: Field) {
    IsFieldType(f.typ) && (f.omitEmpty ==> f.typ == LIST || f.typ == DICT)
  }

  /** What the codec relies on: a first field, field types it can convert to, and only
      slices and maps that may be left out. */
  predicate AreFields(fs: seq<Field>) {
    fs != [] && forall i :: 0 <= i < |fs| ==> IsField(fs[i])
  }

  predicate IsMessageType(t: StructType) {
    AreFields(t.fields)
  }

  lemma AllTypesAreGood(code: int)
    requires New(code).Some?
    ensures New(code).value.code == code && IsMessageType(New(code).value) && 0 < code <= YIELD
  {}

  /** A message as reflection sees it. */
  datatype Struct = Struct(typ: StructType, fields: seq<GoValue>)

  ghost predicate WellTyped(m: Struct) {
    && IsMessageType(m.typ) && |m.fields| == |m.typ.fields|
    && forall i :: 0 <= i < |m.fields| ==> HasType(m.fields[i], m.typ.fields[i].typ)
  }

  // ---------- toList ----------

  function Len(v: GoValue): nat {
    match v
    case GoSlice(_, items) => |items|
    case GoMap(_, _, entries) => |entries|
    case _ => 0
  }

  predicate Droppable(f: Field, v: GoValue) {
    f.omitEmpty && Len(v) == 0
  }

  /** `n` is the length of the shortest prefix that loses nothing: whatever comes after it
      may be dropped, and its own last field may not, or is the first field. */
  ghost predicate IsShortest(fs: seq<Field>, vs: seq<GoValue>, n: nat)
    requires |fs| == |vs|
  {
    && 1 <= n <= |fs|
    && (forall i :: n <= i < |fs| ==> Droppable(fs[i], vs[i]))
    && (n > 1 ==> !Droppable(fs[n - 1], vs[n - 1]))
  }

  /** How many of the first `n` fields are kept. */
  function Kept(fs: seq<Field>, vs: seq<GoValue>, n: nat): (k: nat)
    requires 1 <= n <= |fs| == |vs|
    ensures 1 <= k <= n && IsShortest(fs[..n], vs[..n], k)
  {
    if n == 1 || !Droppable(fs[n - 1], vs[n - 1]) then n
    else
      var k := Kept(fs, vs, n - 1);
      assert fs[..n][..n - 1] == fs[..n - 1] && vs[..n][..n - 1] == vs[..n - 1];
      k
  }

  lemma ShortestIsUnique(fs: seq<Field>, vs: seq<GoValue>, k: nat, n: nat)
    requires |fs| == |vs| && IsShortest(fs, vs, k) && IsShortest(fs, vs, n)
    ensures k == n
  {}

  ghost function KeptOf(m: Struct): (k: nat)
    requires WellTyped(m)
    ensures IsShortest(m.typ.fields, m.fields, k)
  {
    var fs := m.typ.fields;
    assert fs[..|fs|] == fs && m.fields[..|fs|] == m.fields;
    Kept(fs, m.fields, |fs|)
  }

  ghost function Listed(m: Struct): seq<GoValue>
    requires WellTyped(m)
  {
    [GoInt(TInt, m.typ.code)] + m.fields[..KeptOf(m)]
  }

  method ToList(m: Struct) returns (ret: seq<GoValue>)
    requires WellTyped(m)
    ensures ret == Listed(m)
  {
    var fs := m.typ.fields;
    var last := |fs| - 1;
    while last > 0 && Droppable(fs[last], m.fields[last])
      invariant 0 <= last < |fs|
      invariant forall i :: last < i < |fs| ==> Droppable(fs[i], m.fields[i])
    {
      last := last - 1;
    }
    ShortestIsUnique(fs, m.fields, last + 1, KeptOf(m));
    ret := [GoInt(TInt, m.typ.code)];
    var i := 0;
    while i <= last
      invariant 0 <= i <= last + 1
      invariant ret == [GoInt(TInt, m.typ.code)] + m.fields[..i]
    {
      assert m.fields[..i + 1] == m.fields[..i] + [m.fields[i]];
      ret := ret + [m.fields[i]];
      i := i + 1;
    }
  }

  // ---------- apply ----------

  datatype Failure =
    | InvalidMessage | UnsupportedFormat | UnsupportedType
    | Unrecognizable(field: nat) | Unspecified(field: nat)

  datatype Parsed<T> = Ok(value: T) | Fail(error: Failure)

  /** `Undefined`: Go leaves the outcome of the conversion to its implementations. */
  datatype Conversion = To(v: GoValue) | Impossible | Undefined

  function Trunc(x: real): int {
    if x >= 0.0 then x.Floor else -((-x).Floor)
  }

  /** An integer converted to a string is the character it is the code of. */
  function Rune(n: int): string {
    if 0 <= n < 0xD800 || 0xE000 <= n < 0x11_0000 then [n as char] else "\U{FFFD}"
  }

  /** What a field of type `t` is set to for the value `v`: the value itself, the value
      converted, or, entry by entry, the slice or map. */
  function Convert(v: GoValue, t: Type): Conversion
    requires !v.Nil? && IsFieldType(t)
  {
    if TypeOf(v) == t then To(v)
    else
      match v
      case GoBool(_) => Impossible
      case GoInt(_, n) =>
        if IsInteger(t) then To(GoInt(t, Wrap(n, t)))
        else if IsString(t) then To(GoString(t, Rune(n)))
        else Impossible
      case GoFloat(x) =>
        if !IsInteger(t) then Impossible
        else if InRange(Trunc(x), t) then To(GoInt(t, Trunc(x)))
        else Undefined
      case GoString(_, s) => if IsString(t) then To(GoString(t, s)) else Impossible
      case NilSlice(_) => if t == LIST then To(GoSlice(TAny, [])) else Impossible
      case GoSlice(_, items) => if t == LIST then To(GoSlice(TAny, items)) else Impossible
      case NilMap(_, _) => if t == DICT then To(GoMap(TString, TAny, map[])) else Impossible
      case GoMap(_, _, entries) => if t == DICT then To(GoMap(TString, TAny, entries)) else Impossible
  }

  /** An integer keeps its value modulo 2^64, in the range of the field's type. */
  lemma IntegerConversion(v: GoValue, t: Type)
    requires v.GoInt? && HasType(v, v.typ) && t in {TId, TCode}
    ensures var c := Convert(v, t);
            && c.To? && c.v.GoInt? && c.v.typ == t && (c.v.n - v.n) % 18446744073709551616 == 0
            && if t == TId then 0 <= c.v.n < 18446744073709551616
               else -9223372036854775808 <= c.v.n < 9223372036854775808
  {}

  /** A float loses its fraction; it has no defined conversion exactly when the rest is out of
      the range of the field's type. */
  lemma FloatConversion(x: real, t: Type)
    requires t in {TId, TCode}
    ensures match Convert(GoFloat(x), t)
            case To(v) =>
              && v.GoInt? && v.typ == t
              && (x >= 0.0 ==> v.n as real <= x < v.n as real + 1.0)
              && (x <= 0.0 ==> v.n as real - 1.0 < x <= v.n as real)
            case Impossible => false
            case Undefined =>
              if t == TId then x <= -1.0 || x >= 18446744073709551616.0
              else x <= -9223372036854775809.0 || x >= 9223372036854775808.0
    ensures Convert(GoFloat(x), t).To? ==>
              if t == TId then -1.0 < x < 18446744073709551616.0
              else -9223372036854775809.0 < x < 9223372036854775808.0
  {}

  /** Of the other values, strings become strings, integers the character with their code,
      slices and maps a slice or map with the same entries, and nothing else converts. */
  lemma OtherConversions(v: GoValue, t: Type)
    requires !v.Nil? && IsFieldType(t) && TypeOf(v) != t && !(t in {TId, TCode} && (v.GoInt? || v.GoFloat?))
    ensures Convert(v, t)
         == if t in {TUri, TString} && v.GoString? then To(GoString(t, v.s))
            else if t in {TUri, TString} && v.GoInt? then
              To(GoString(t, if 0 <= v.n <= 0xD7FF || 0xE000 <= v.n <= 0x10FFFF then [v.n as char] else "\U{FFFD}"))
            else if t == TSlice(TAny) && v.NilSlice? then To(GoSlice(TAny, []))
            else if t == TSlice(TAny) && v.GoSlice? then To(GoSlice(TAny, v.items))
            else if t == TMap(TString, TAny) && v.NilMap? then To(GoMap(TString, TAny, map[]))
            else if t == TMap(TString, TAny) && v.GoMap? then To(GoMap(TString, TAny, v.entries))
            else Impossible
  {}

  /** Field number `i` after the list `arr` is applied. */
  function Cell(f: Field, arr: seq<GoValue>, i: nat): Conversion
    requires IsFieldType(f.typ)
  {
    if i + 1 >= |arr| || arr[i + 1].Nil? then To(Zero(f.typ)) else Convert(arr[i + 1], f.typ)
  }

  /** A field without an entry, or with a nil one, keeps its zero value. */
  lemma SkippedCell(f: Field, arr: seq<GoValue>, i: nat)
    requires IsFieldType(f.typ) && (i + 1 >= |arr| || arr[i + 1].Nil?)
    ensures Cell(f, arr, i)
         == To(if f.typ in {TId, TCode} then GoInt(f.typ, 0)
               else if f.typ in {TUri, TString} then GoString(f.typ, "")
               else if f.typ == TSlice(TAny) then NilSlice(TAny)
               else NilMap(TString, TAny))
  {}

  function FailureAt(c: Conversion, i: nat): Failure
    requires !c.To?
  {
    if c.Impossible? then Unrecognizable(i + 1) else Unspecified(i + 1)
  }

  /** The first `n` fields, or the first failure among them. */
  function Fill(fs: seq<Field>, arr: seq<GoValue>, n: nat): Parsed<seq<GoValue>>
    requires AreFields(fs) && n <= |fs|
  {
    if n == 0 then Ok([])
    else
      var before := Fill(fs, arr, n - 1);
      if before.Fail? then before
      else
        var c := Cell(fs[n - 1], arr, n - 1);
        if c.To? then Ok(before.value + [c.v]) else Fail(FailureAt(c, n - 1))
  }

  /** A struct of type `t` with the list applied to it. */
  function Refilled(t: StructType, arr: seq<GoValue>): Parsed<Struct>
    requires IsMessageType(t)
  {
    match Fill(t.fields, arr, |t.fields|)
    case Ok(vs) => Ok(Struct(t, vs))
    case Fail(e) => Fail(e)
  }

  function Applied(code: int, arr: seq<GoValue>): Parsed<Struct> {
    match New(code)
    case None => Fail(UnsupportedType)
    case Some(t) =>
      AllTypesAreGood(code);
      Refilled(t, arr)
  }

  lemma {:induction false} FillSucceeds(fs: seq<Field>, arr: seq<GoValue>, n: nat)
    requires AreFields(fs) && n <= |fs|
    ensures Fill(fs, arr, n).Ok? <==> forall i :: 0 <= i < n ==> Cell(fs[i], arr, i).To?
  {
    if n == 0 {
    } else {
      FillSucceeds(fs, arr, n - 1);
    }
  }

  lemma {:induction false} FillGives(fs: seq<Field>, arr: seq<GoValue>, n: nat)
    requires AreFields(fs) && n <= |fs| && Fill(fs, arr, n).Ok?
    ensures |Fill(fs, arr, n).value| == n
    ensures forall i :: 0 <= i < n ==> Cell(fs[i], arr, i) == To(Fill(fs, arr, n).value[i])
  {
    if n == 0 {
    } else {
      FillGives(fs, arr, n - 1);
    }
  }

  /** All fields can be set, and field by field these are their values; or some cannot. */
  lemma {:induction false} FillMeans(fs: seq<Field>, arr: seq<GoValue>, n: nat)
    requires AreFields(fs) && n <= |fs|
    ensures Fill(fs, arr, n).Ok? <==> forall i :: 0 <= i < n ==> Cell(fs[i], arr, i).To?
    ensures Fill(fs, arr, n).Ok? ==>
              var vs := Fill(fs, arr, n).value;
              |vs| == n && forall i :: 0 <= i < n ==> Cell(fs[i], arr, i) == To(vs[i])
  {
    FillSucceeds(fs, arr, n);
    if Fill(fs, arr, n).Ok? {
      FillGives(fs, arr, n);
    }
  }

  ghost predicate FailsFirst(fs: seq<Field>, arr: seq<GoValue>, i: nat)
    requires AreFields(fs) && i < |fs|
  {
    !Cell(fs[i], arr, i).To? && forall j :: 0 <= j < i ==> Cell(fs[j], arr, j).To?
  }

  /** Otherwise the error is that of the first field that cannot be set. */
  lemma {:induction false} FillFailsFirst(fs: seq<Field>, arr: seq<GoValue>, n: nat) returns (i: nat)
    requires AreFields(fs) && n <= |fs| && Fill(fs, arr, n).Fail?
    ensures i < n && FailsFirst(fs, arr, i)
    ensures Fill(fs, arr, n).error
         == if Cell(fs[i], arr, i).Impossible? then Unrecognizable(i + 1) else Unspecified(i + 1)
  {
    if Fill(fs, arr, n - 1).Fail? {
      i := FillFailsFirst(fs, arr, n - 1);
    } else {
      FillMeans(fs, arr, n - 1);
      i := n - 1;
    }
  }

  lemma {:induction false} FillStays(fs: seq<Field>, arr: seq<GoValue>, i: nat, n: nat)
    requires AreFields(fs) && i <= n <= |fs| && Fill(fs, arr, i).Fail?
    ensures Fill(fs, arr, n) == Fill(fs, arr, i)
  {
    if i == n {
    } else {
      FillStays(fs, arr, i, n - 1);
    }
  }

  /** The first `i` fields are set, the others still have their zero values. */
  ghost predicate Set(fs: seq<Field>, arr: seq<GoValue>, vs: seq<GoValue>, i: nat)
    requires AreFields(fs)
  {
    && i <= |fs| == |vs| && Fill(fs, arr, i) == Ok(vs[..i])
    && forall k :: i <= k < |fs| ==> vs[k] == Zero(fs[k].typ)
  }

  /** One more field is set. */
  lemma SetNext(fs: seq<Field>, arr: seq<GoValue>, vs: seq<GoValue>, i: nat, v: GoValue)
    requires AreFields(fs) && Set(fs, arr, vs, i) && i < |fs| && Cell(fs[i], arr, i) == To(v)
    ensures Set(fs, arr, vs[i := v], i + 1)
  {
    assert vs[i := v][..i + 1] == vs[..i] + [v];
  }

  /** A nil entry leaves its field alone. */
  lemma SetSkips(fs: seq<Field>, arr: seq<GoValue>, vs: seq<GoValue>, i: nat)
    requires AreFields(fs) && Set(fs, arr, vs, i) && i < |fs| && (i + 1 >= |arr| || arr[i + 1].Nil?)
    ensures Set(fs, arr, vs, i + 1)
  {
    SetNext(fs, arr, vs, i, vs[i]);
    assert vs[i := vs[i]] == vs;
  }

  lemma {:induction false} SetEnds(fs: seq<Field>, arr: seq<GoValue>, vs: seq<GoValue>, i: nat)
    requires AreFields(fs) && Set(fs, arr, vs, i) && (i < |fs| ==> |arr| <= i + 1)
    ensures Fill(fs, arr, |fs|) == Ok(vs)
    decreases |fs| - i
  {
    if i < |fs| {
      SetSkips(fs, arr, vs, i);
      SetEnds(fs, arr, vs, i + 1);
    } else {
      assert vs[..i] == vs;
    }
  }

  lemma {:induction false} SetFails(fs: seq<Field>, arr: seq<GoValue>, vs: seq<GoValue>, i: nat)
    requires AreFields(fs) && Set(fs, arr, vs, i) && i < |fs| && !Cell(fs[i], arr, i).To?
    ensures Fill(fs, arr, |fs|) == Fail(FailureAt(Cell(fs[i], arr, i), i))
  {
    FillStays(fs, arr, i + 1, |fs|);
  }

  /** The fields of a new struct. */
  function Zeros(fs: seq<Field>): seq<GoValue> {
    seq(|fs|, i requires 0 <= i < |fs| => Zero(fs[i].typ))
  }

  lemma SetStarts(fs: seq<Field>, arr: seq<GoValue>)
    requires AreFields(fs)
    ensures Set(fs, arr, Zeros(fs), 0)
  {}

  /** One round of the loop of `apply`: the entry is skipped, sets the field, or fails. */
  method SetField(fs: seq<Field>, arr: seq<GoValue>, vs: seq<GoValue>, i: nat) returns (r: Parsed<seq<GoValue>>)
    requires AreFields(fs) && Set(fs, arr, vs, i) && i < |fs| && i + 1 < |arr|
    ensures match r
            case Ok(vs') => Set(fs, arr, vs', i + 1)
            case Fail(e) => Fill(fs, arr, |fs|) == Fail(e)
  {
    if arr[i + 1].Nil? {
      SetSkips(fs, arr, vs, i);
      return Ok(vs);
    }
    var c := Convert(arr[i + 1], fs[i].typ);
    assert c == Cell(fs[i], arr, i);
    if !c.To? {
      SetFails(fs, arr, vs, i);
      return Fail(FailureAt(c, i));
    }
    SetNext(fs, arr, vs, i, c.v);
    return Ok(vs[i := c.v]);
  }

  /** The loop of `apply`: field after field of a new struct is set. */
  method Refill(t: StructType, arr: seq<GoValue>) returns (r: Parsed<Struct>)
    requires IsMessageType(t)
    ensures r == Refilled(t, arr)
  {
    var vs, i := Zeros(t.fields), 0;
    SetStarts(t.fields, arr);
    while i < |t.fields| && i < |arr| - 1
      invariant 0 <= i <= |t.fields| && Set(t.fields, arr, vs, i)
    {
      var next := SetField(t.fields, arr, vs, i);
      if next.Fail? {
        return Fail(next.error);
      }
      vs, i := next.value, i + 1;
    }
    SetEnds(t.fields, arr, vs, i);
    return Ok(Struct(t, vs));
  }

  method Apply(code: int, arr: seq<GoValue>) returns (r: Parsed<Struct>)
    ensures r == Applied(code, arr)
  {
    match New(code) {
      case None => return Fail(UnsupportedType);
      case Some(t) =>
        AllTypesAreGood(code);
        r := Refill(t, arr);
    }
  }

  // ---------- round trips ----------

  /** The message with its trailing empty payloads turned into nil. */
  ghost function Normal(m: Struct): (r: Struct)
    requires WellTyped(m)
    ensures r.typ == m.typ && |r.fields| == |m.fields|
    ensures forall i :: 0 <= i < |m.fields| ==>
              r.fields[i] == if i < KeptOf(m) then m.fields[i] else Zero(m.typ.fields[i].typ)
  {
    m.(fields := seq(|m.fields|, i requires 0 <= i < |m.fields| =>
      if i < KeptOf(m) then m.fields[i] else Zero(m.typ.fields[i].typ)))
  }

  /** Only payload fields differ from the original, and only in being nil instead of empty. */
  lemma NormalDiffersInEmptyPayloads(m: Struct, i: nat)
    requires WellTyped(m) && i < |m.fields|
    ensures Normal(m).fields[i] != m.fields[i] ==>
              && m.typ.fields[i].omitEmpty && Len(m.fields[i]) == 0
              && (Normal(m).fields[i].NilSlice? || Normal(m).fields[i].NilMap?)
  {}

  /** A struct whose first `|arr| - 1` fields come out of `arr`, and whose others are zero. */
  lemma {:induction false} FillIs(fs: seq<Field>, arr: seq<GoValue>, vs: seq<GoValue>)
    requires AreFields(fs) && |vs| == |fs|
    ensures Fill(fs, arr, |fs|) == Ok(vs) <==> forall i :: 0 <= i < |fs| ==> Cell(fs[i], arr, i) == To(vs[i])
  {
    FillMeans(fs, arr, |fs|);
    if forall i :: 0 <= i < |fs| ==> Cell(fs[i], arr, i) == To(vs[i]) {
      assert Fill(fs, arr, |fs|).value == vs;
    }
  }

  lemma ListedCell(m: Struct, i: nat)
    requires WellTyped(m) && i < |m.fields|
    ensures IsField(m.typ.fields[i]) && Cell(m.typ.fields[i], Listed(m), i) == To(Normal(m).fields[i])
  {
    if i < KeptOf(m) {
      assert Listed(m)[i + 1] == m.fields[i];
    }
  }

  lemma RefilledIs(m: Struct)
    requires WellTyped(m)
    ensures Refilled(m.typ, Listed(m)) == Ok(Normal(m))
  {
    var fs, arr, vs := m.typ.fields, Listed(m), Normal(m).fields;
    forall i | 0 <= i < |fs| ensures Cell(fs[i], arr, i) == To(vs[i]) {
      ListedCell(m, i);
    }
    FillIs(fs, arr, vs);
  }

  lemma NormalIsTyped(m: Struct)
    requires WellTyped(m)
    ensures WellTyped(Normal(m))
  {
    forall i | 0 <= i < |m.fields| ensures HasType(Normal(m).fields[i], m.typ.fields[i].typ) {
      assert IsField(m.typ.fields[i]);
    }
  }

  lemma NormalIsShortest(m: Struct)
    requires WellTyped(m)
    ensures IsShortest(m.typ.fields, Normal(m).fields, KeptOf(m))
  {}

  lemma NormalKeeps(m: Struct)
    requires WellTyped(m)
    ensures WellTyped(Normal(m)) && KeptOf(Normal(m)) == KeptOf(m)
  {
    NormalIsTyped(m);
    NormalIsShortest(m);
    ShortestIsUnique(m.typ.fields, Normal(m).fields, KeptOf(m), KeptOf(Normal(m)));
  }

  lemma NormalIsStable(m: Struct)
    requires WellTyped(m)
    ensures WellTyped(Normal(m)) && Listed(Normal(m)) == Listed(m) && Normal(Normal(m)) == Normal(m)
  {
    var r, k := Normal(m), KeptOf(m);
    NormalKeeps(m);
    assert r.fields[..k] == m.fields[..k];
    assert Normal(r).fields == r.fields;
  }

  /** Every message of every type survives: up to nil for trailing empty payloads it comes
      back as it was, and it is listed in the same way again. */
  lemma RoundTrip(m: Struct)
    requires WellTyped(m) && New(m.typ.code) == Some(m.typ)
    ensures Applied(m.typ.code, Listed(m)) == Ok(Normal(m))
    ensures WellTyped(Normal(m)) && Listed(Normal(m)) == Listed(m) && Normal(Normal(m)) == Normal(m)
  {
    RefilledIs(m);
    NormalIsStable(m);
  }

  // ---------- JSON ----------

  /** What `encoding/json` makes of a value that it writes and then reads into an interface:
      every number is a float64, and nil slices and maps are null. */
  function Json(v: GoValue): GoValue {
    match v
    case Nil => Nil
    case GoBool(_) => v
    case GoInt(_, n) => GoFloat(Binary64.RoundInt(n) as real)
    case GoFloat(_) => v
    case GoString(_, s) => GoString(TString, s)
    case NilSlice(_) => Nil
    case GoSlice(_, items) => GoSlice(TAny, seq(|items|, i requires 0 <= i < |items| => Json(items[i])))
    case NilMap(_, _) => Nil
    case GoMap(_, _, entries) => GoMap(TString, TAny, map k | k in entries :: Json(entries[k]))
  }

  /** Values that JSON itself has. */
  predicate IsJson(v: GoValue) {
    match v
    case Nil => true
    case GoBool(_) => true
    case GoFloat(_) => true
    case GoString(typ, _) => typ == TString
    case GoSlice(elem, items) => elem == TAny && forall i :: 0 <= i < |items| ==> IsJson(items[i])
    case GoMap(key, elem, entries) => key == TString && elem == TAny && forall k :: k in entries ==> IsJson(entries[k])
    case _ => false
  }

  lemma {:induction false} JsonStays(v: GoValue)
    requires IsJson(v)
    ensures Json(v) == v
  {
    match v
    case GoSlice(_, items) =>
      forall i | 0 <= i < |items| ensures Json(items[i]) == items[i] {
        JsonStays(items[i]);
      }
    case GoMap(_, _, entries) =>
      forall k | k in entries ensures Json(entries[k]) == entries[k] {
        JsonStays(entries[k]);
      }
    case _ =>
  }

  function JsonList(arr: seq<GoValue>): seq<GoValue> {
    seq(|arr|, i requires 0 <= i < |arr| => Json(arr[i]))
  }

  /** `Deserialize` of the JSON serializer, from the decoded list on. */
  function Deserialize(arr: seq<GoValue>): Parsed<Struct> {
    if arr == [] then Fail(InvalidMessage)
    else if !arr[0].GoFloat? then Fail(UnsupportedFormat)
    else Applied(Trunc(arr[0].x), arr)
  }

  /** The options, details and payloads are made of values that JSON has. */
  ghost predicate CarriesJson(m: Struct) {
    forall i :: 0 <= i < |m.fields| && (m.fields[i].GoSlice? || m.fields[i].GoMap?) ==> IsJson(m.fields[i])
  }

  predicate IsExact(n: int) {
    Binary64.RoundInt(n) == n
  }

  ghost predicate ExactNumbers(m: Struct) {
    forall i :: 0 <= i < |m.fields| && m.fields[i].GoInt? ==> IsExact(m.fields[i].n)
  }

  lemma TruncIsExact(n: int)
    ensures Trunc(n as real) == n
  {}

  /** One field on its way through JSON. */
  lemma {:induction false} JsonCell(f: Field, v: GoValue)
    requires IsFieldType(f.typ) && HasType(v, f.typ) && (v.GoSlice? || v.GoMap? ==> IsJson(v))
    ensures var c := if Json(v).Nil? then To(Zero(f.typ)) else Convert(Json(v), f.typ);
            c == To(v) <==> (v.GoInt? ==> IsExact(v.n))
  {
    match v
    case GoInt(_, n) => TruncIsExact(Binary64.RoundInt(n));
    case GoSlice(_, _) => JsonStays(v);
    case GoMap(_, _, _) => JsonStays(v);
    case _ =>
  }

  lemma DeserializeIs(t: StructType, arr: seq<GoValue>)
    requires New(t.code) == Some(t) && IsMessageType(t) && arr != [] && arr[0] == GoFloat(t.code as real)
    ensures Deserialize(arr) == Refilled(t, arr)
  {}

  lemma JsonListedCell(m: Struct, i: nat)
    requires WellTyped(m) && CarriesJson(m) && i < |m.fields|
    ensures IsField(m.typ.fields[i])
    ensures Cell(m.typ.fields[i], JsonList(Listed(m)), i) == To(Normal(m).fields[i])
       <==> (m.fields[i].GoInt? ==> IsExact(m.fields[i].n))
  {
    if i < KeptOf(m) {
      JsonCell(m.typ.fields[i], m.fields[i]);
      assert JsonList(Listed(m))[i + 1] == Json(m.fields[i]);
    }
  }

  lemma JsonRefilled(m: Struct)
    requires WellTyped(m) && CarriesJson(m)
    ensures Refilled(m.typ, JsonList(Listed(m))) == Ok(Normal(m)) <==> ExactNumbers(m)
  {
    var fs, arr, vs := m.typ.fields, JsonList(Listed(m)), Normal(m).fields;
    forall i | 0 <= i < |fs|
      ensures Cell(fs[i], arr, i) == To(vs[i]) <==> (m.fields[i].GoInt? ==> IsExact(m.fields[i].n))
    {
      JsonListedCell(m, i);
    }
    FillIs(fs, arr, vs);
  }

  /** A message gets through JSON exactly when its ids are binary64 numbers. */
  lemma JsonRoundTrip(m: Struct)
    requires WellTyped(m) && New(m.typ.code) == Some(m.typ) && CarriesJson(m)
    ensures Deserialize(JsonList(Listed(m))) == Ok(Normal(m)) <==> ExactNumbers(m)
  {
    JsonRefilled(m);
    AllTypesAreGood(m.typ.code);
    Binary64.IdsSurvive(m.typ.code);
    DeserializeIs(m.typ, JsonList(Listed(m)));
  }

  /** Ids as `NewID` draws them always get through. */
  lemma {:induction false} DrawnIdsGetThrough(m: Struct)
    requires WellTyped(m) && New(m.typ.code) == Some(m.typ) && CarriesJson(m)
    requires forall i :: 0 <= i < |m.fields| && m.fields[i].GoInt? ==> 0 <= m.fields[i].n < MAX_ID
    ensures Deserialize(JsonList(Listed(m))) == Ok(Normal(m)) && MAX_ID == Binary64.Pow2(53)
  {
    Binary64.PrecisionIs53Bits();
    forall i | 0 <= i < |m.fields| && m.fields[i].GoInt? ensures IsExact(m.fields[i].n) {
      Binary64.IdsSurvive(m.fields[i].n);
    }
    JsonRoundTrip(m);
  }

  /** What the serializer makes of lists that are no messages. */
  lemma DeserializeRefuses(arr: seq<GoValue>)
    ensures arr == [] ==> Deserialize(arr) == Fail(InvalidMessage)
    ensures arr != [] && !arr[0].GoFloat? ==> Deserialize(arr) == Fail(UnsupportedFormat)
    ensures arr != [] && arr[0].GoFloat? && (arr[0].x <= 0.0 || arr[0].x >= 71.0) ==>
              Deserialize(arr) == Fail(UnsupportedType)
  {}

  /** JSON makes its own values of all values; only the types of numbers and strings, and
      nil slices and maps, are lost. */
  lemma {:induction false} JsonMeans(v: GoValue)
    ensures IsJson(Json(v))
    ensures match v
            case Nil => Json(v) == Nil
            case GoBool(_) => Json(v) == v
            case GoInt(_, n) => Json(v) == GoFloat(Binary64.RoundInt(n) as real)
            case GoFloat(_) => Json(v) == v
            case GoString(_, s) => Json(v) == GoString(TString, s)
            case NilSlice(_) => Json(v) == Nil
            case GoSlice(_, items) =>
              && Json(v).GoSlice? && |Json(v).items| == |items|
              && forall i :: 0 <= i < |items| ==> Json(v).items[i] == Json(items[i])
            case NilMap(_, _) => Json(v) == Nil
            case GoMap(_, _, entries) =>
              && Json(v).GoMap? && Json(v).entries.Keys == entries.Keys
              && forall k :: k in entries ==> Json(v).entries[k] == Json(entries[k])
  {
    match v
    case GoSlice(_, items) =>
      forall i | 0 <= i < |items| ensures IsJson(Json(items[i])) {
        JsonMeans(items[i]);
      }
    case GoMap(_, _, entries) =>
      forall k | k in entries ensures IsJson(Json(entries[k])) {
        JsonMeans(entries[k]);
      }
    case _ =>
  }
}
