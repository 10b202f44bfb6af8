/** Requests and responses of a client: what holds whatever the router sends. */
module Correlation {
  import opened Wamp
  import opened ClientMachine

  /** A response to the request of a caller. */
  predicate Answer(m: Message, caller: Caller) {
    IsResponse(m) && m.request == caller.id
  }

  /** The messages a caller has in hand answer its request. */
  predicate HandsOk(caller: Caller) {
    match caller.pc
    case Holding(m) => Answer(m, caller)
    case Settled(m) => Answer(m, caller)
    case Done(outcome) => outcome.TimedOut? || outcome.NoListener? || Answer(outcome.m, caller)
    case _ => true
  }

  /** Channel `ch` belongs to a caller with request id `id`. */
  predicate ChannelOf(c: Client, ch: Tid, id: Id) {
    ch in c.chans && ch in c.callers && c.callers[ch].id == id
  }

  ghost predicate ListenersOk(c: Client) {
    forall r :: r in c.listeners ==> ChannelOf(c, c.listeners[r], r)
  }

  ghost predicate ChansOk(c: Client) {
    forall t :: t in c.chans ==>
      t in c.callers && |c.chans[t]| <= 1 && (|c.chans[t]| == 1 ==> Answer(c.chans[t][0], c.callers[t]))
  }

  ghost predicate CallersOk(c: Client) {
    forall t :: t in c.callers ==>
      && HandsOk(c.callers[t])
      && (c.callers[t].pc.Waiting? ==> ChannelOf(c, c.callers[t].pc.chan, c.callers[t].id))
  }

  ghost predicate RecvOk(c: Client) {
    c.recv.Delivering? ==> IsResponse(c.recv.m) && ChannelOf(c, c.recv.chan, c.recv.m.request)
  }

  ghost predicate ClientInv(c: Client) {
    ListenersOk(c) && ChansOk(c) && CallersOk(c) && RecvOk(c)
  }

  lemma ChannelsStay(c: Client, step: Step)
    requires Enabled(c, step)
    ensures forall ch, id :: ChannelOf(c, ch, id) ==> ChannelOf(Do(c, step), ch, id)
  {}

  lemma ListenersStep(c: Client, step: Step)
    requires ClientInv(c) && Enabled(c, step)
    ensures ListenersOk(Do(c, step))
  {}

  /** Callers are added and move on, but keep their requests. */
  ghost predicate Kept(callers: map<Tid, Caller>, callers': map<Tid, Caller>) {
    forall t :: t in callers ==>
      t in callers' && callers'[t].id == callers[t].id && callers'[t].request == callers[t].request
  }

  lemma CallersKept(c: Client, step: Step)
    requires Enabled(c, step)
    ensures Kept(c.callers, Do(c, step).callers)
  {}

  lemma ChansStep(c: Client, step: Step)
    requires ClientInv(c) && Enabled(c, step)
    ensures ChansOk(Do(c, step))
  {}

  /** One caller moved on to a good place. */
  lemma CallerMoved(c: Client, c': Client, t: Tid)
    requires CallersOk(c) && t in c'.callers && c'.callers == c.callers[t := c'.callers[t]]
    requires forall ch, id :: ChannelOf(c, ch, id) ==> ChannelOf(c', ch, id)
    requires HandsOk(c'.callers[t])
    requires c'.callers[t].pc.Waiting? ==> ChannelOf(c', c'.callers[t].pc.chan, c'.callers[t].id)
    ensures CallersOk(c')
  {}

  /** Where the caller of a step gets to. */
  lemma CallerLands(c: Client, step: Step)
    requires ClientInv(c) && Enabled(c, step) && !OthersMove(step)
    ensures var caller := Do(c, step).callers[step.t];
            HandsOk(caller) && (caller.pc.Waiting? ==> ChannelOf(c, caller.pc.chan, caller.id))
  {}

  lemma WhoMoves(c: Client, step: Step)
    requires Enabled(c, step)
    ensures var callers := Do(c, step).callers;
            if OthersMove(step) then callers == c.callers
            else step.t in callers && callers == c.callers[step.t := callers[step.t]]
  {}

  lemma NoCallerMoved(c: Client, c': Client)
    requires CallersOk(c) && c'.callers == c.callers
    requires forall ch, id :: ChannelOf(c, ch, id) ==> ChannelOf(c', ch, id)
    ensures CallersOk(c')
  {}

  lemma CallersStep(c: Client, step: Step)
    requires ClientInv(c) && Enabled(c, step)
    ensures CallersOk(Do(c, step))
  {
    ChannelsStay(c, step);
    WhoMoves(c, step);
    var c' := Do(c, step);
    if OthersMove(step) {
      NoCallerMoved(c, c');
    } else {
      CallerLands(c, step);
      CallerMoved(c, c', step.t);
    }
  }

  lemma RecvStep(c: Client, step: Step)
    requires ClientInv(c) && Enabled(c, step)
    ensures RecvOk(Do(c, step))
  {
    ChannelsStay(c, step);
  }

  lemma ClientStep(c: Client, step: Step)
    requires ClientInv(c) && Enabled(c, step)
    ensures ClientInv(Do(c, step))
  {
    ListenersStep(c, step);
    ChansStep(c, step);
    CallersStep(c, step);
    RecvStep(c, step);
  }

  // ---------- distinct request ids ----------

  /** The caller's listener is in place. */
  predicate InWindow(pc: Pc) {
    pc.Listening? || pc.Sent? || pc.Waiting? || pc.Holding? || pc.Expired?
  }

  /** `NewID` drew an id that no unfinished call of this client uses. */
  predicate NewRequest(c: Client, step: Step) {
    step.Begin? ==> forall t :: t in c.callers && c.callers[t].id == step.id ==> c.callers[t].pc.Done?
  }

  /** Caller `t` is the only unfinished one with its request id. */
  ghost predicate Sole(callers: map<Tid, Caller>, t: Tid, id: Id) {
    forall u :: u in callers && callers[u].id == id && !callers[u].pc.Done? ==> u == t
  }

  /** The listener of a request id is that of the one unfinished call with the id, and it is
      there just while the call is in its window. */
  ghost predicate Own(callers: map<Tid, Caller>, listeners: map<Id, Tid>) {
    && (forall t :: t in callers && !callers[t].pc.Done? ==> Sole(callers, t, callers[t].id))
    && (forall t :: t in callers && InWindow(callers[t].pc) ==>
          callers[t].id in listeners && listeners[callers[t].id] == t)
    && (forall r :: r in listeners ==>
          listeners[r] in callers && callers[listeners[r]].id == r && InWindow(callers[listeners[r]].pc))
    && (forall t :: t in callers && callers[t].pc.Waiting? ==> callers[t].pc.chan == t)
  }

  ghost predicate OwnListeners(c: Client) {
    Own(c.callers, c.listeners)
  }

  lemma OwnMoved(callers: map<Tid, Caller>, listeners: map<Id, Tid>, t: Tid, caller: Caller)
    requires Own(callers, listeners) && Sole(callers, t, caller.id)
    requires t in callers ==> callers[t].id == caller.id
    requires caller.pc.Waiting? ==> caller.pc.chan == t
    ensures Own(callers[t := caller],
                if InWindow(caller.pc) then listeners[caller.id := t] else listeners - {caller.id})
  {}

  /** The caller that moves is the only unfinished one with its request id, and it waits on
      no channel but its own. */
  lemma OwnChannel(c: Client, step: Step, caller: Caller)
    requires OwnListeners(c) && Enabled(c, step) && NewRequest(c, step) && !OthersMove(step)
    requires step.t in Do(c, step).callers && caller == Do(c, step).callers[step.t]
    ensures Sole(c.callers, step.t, caller.id)
    ensures caller.pc.Waiting? ==> caller.pc.chan == step.t
  {}

  lemma ListenersMove(c: Client, step: Step, caller: Caller)
    requires OwnListeners(c) && Enabled(c, step) && !OthersMove(step)
    requires step.t in Do(c, step).callers && caller == Do(c, step).callers[step.t]
    requires Sole(c.callers, step.t, caller.id)
    ensures Do(c, step).listeners
         == if InWindow(caller.pc) then c.listeners[caller.id := step.t] else c.listeners - {caller.id}
  {}

  lemma OwnListenersStep(c: Client, step: Step)
    requires OwnListeners(c) && Enabled(c, step) && NewRequest(c, step)
    ensures OwnListeners(Do(c, step))
  {
    if !OthersMove(step) {
      var t := step.t;
      var caller := Do(c, step).callers[t];
      OwnChannel(c, step, caller);
      ListenersMove(c, step, caller);
      OwnMoved(c.callers, c.listeners, t, caller);
    }
  }

  // ---------- at most one response per request ----------

  /** The caller whose listener the step's message is for, if it is a response that finds one. */
  function Reached(c: Client, step: Step): set<Tid> {
    if step.Accept? && IsResponse(step.m) && step.m.request in c.listeners then {c.listeners[step.m.request]} else {}
  }

  /** Only callers that a response has reached have messages in their channels. */
  ghost predicate ChansFree(c: Client, reached: set<Tid>) {
    && (forall t :: t in c.chans && c.chans[t] != [] ==> t in reached)
    && (c.recv.Delivering? ==> c.recv.chan in reached && c.recv.chan in c.chans && c.chans[c.recv.chan] == [])
  }

  lemma ChansFreeStep(c: Client, step: Step, reached: set<Tid>)
    requires ClientInv(c) && ChansFree(c, reached) && Enabled(c, step) && Reached(c, step) !! reached
    ensures ChansFree(Do(c, step), reached + Reached(c, step))
  {}

  // ---------- all runs ----------

  datatype Trace = Start | Then(before: Trace, step: Step)

  ghost predicate Possible(tr: Trace)
    decreases tr, 0
  {
    match tr
    case Start => true
    case Then(before, step) => Possible(before) && Enabled(Final(before), step)
  }

  ghost function Final(tr: Trace): Client
    requires Possible(tr)
    decreases tr, 1
  {
    match tr
    case Start => NEW
    case Then(before, step) => Do(Final(before), step)
  }

  /** No call begins with the request id of an unfinished one. */
  ghost predicate DistinctRequests(tr: Trace)
    requires Possible(tr)
  {
    tr.Then? ==> DistinctRequests(tr.before) && NewRequest(Final(tr.before), tr.step)
  }

  /** The callers that a response has reached. */
  ghost function AllReached(tr: Trace): set<Tid>
    requires Possible(tr)
  {
    match tr
    case Start => {}
    case Then(before, step) => AllReached(before) + Reached(Final(before), step)
  }

  /** No listener gets a second response. */
  ghost predicate SingleResponses(tr: Trace)
    requires Possible(tr)
  {
    tr.Then? ==> SingleResponses(tr.before) && Reached(Final(tr.before), tr.step) !! AllReached(tr.before)
  }

  lemma {:induction false} Invariant(tr: Trace)
    requires Possible(tr)
    ensures ClientInv(Final(tr))
    ensures DistinctRequests(tr) ==> OwnListeners(Final(tr))
    ensures SingleResponses(tr) ==> ChansFree(Final(tr), AllReached(tr))
  {
    if tr.Start? {
    } else {
      var c := Final(tr.before);
      Invariant(tr.before);
      ClientStep(c, tr.step);
      if DistinctRequests(tr) {
        OwnListenersStep(c, tr.step);
      }
      if SingleResponses(tr) {
        ChansFreeStep(c, tr.step, AllReached(tr.before));
      }
    }
  }

  /** A message that an API call gets back from its wait carries the call's own request id,
      whatever the router sends and however request ids clash. */
  lemma {:induction false} ResponseMatchesRequest(tr: Trace, t: Tid)
    requires Possible(tr) && t in Final(tr).callers
    ensures var caller := Final(tr).callers[t];
            match caller.pc
            case Holding(m) => Answer(m, caller)
            case Settled(m) => Answer(m, caller)
            case Done(Fulfilled(m)) => Answer(m, caller)
            case Done(Refused(m)) => Answer(m, caller)
            case Done(Unexpected(m)) => Answer(m, caller)
            case _ => true
  {
    Invariant(tr);
  }

  /** With distinct request ids, a response is handed to the call that sent the request
      exactly when that call has not given up its listener yet. */
  lemma {:induction false} ResponseFindsItsCaller(tr: Trace, t: Tid, m: Message)
    requires Possible(tr) && DistinctRequests(tr) && t in Final(tr).callers && !Final(tr).callers[t].pc.Done?
    requires Enabled(Final(tr), Accept(m)) && IsResponse(m) && m.request == Final(tr).callers[t].id
    ensures var pc := Final(tr).callers[t].pc;
            Do(Final(tr), Accept(m)).recv == Delivering(t, m)
            <==> pc.Listening? || pc.Sent? || pc.Waiting? || pc.Holding? || pc.Expired?
  {
    Invariant(tr);
  }

  /** With at most one response per request, putting a response into its capacity-one channel
      never blocks the receive loop. */
  lemma {:induction false} ReceiveLoopNeverBlocks(tr: Trace)
    requires Possible(tr) && SingleResponses(tr)
    ensures Final(tr).recv.Delivering? ==> Enabled(Final(tr), Deliver)
  {
    Invariant(tr);
  }

  // ---------- when the receive loop blocks ----------

  /** What the receive loop holds, it can put into the channel. */
  ghost predicate CanDeliver(c: Client) {
    c.recv.Delivering? ==> c.recv.chan in c.chans && c.chans[c.recv.chan] == []
  }

  /** The receive loop reads a response for a call whose channel is full. */
  predicate FindsFull(c: Client, step: Step) {
    && step.Accept? && IsResponse(step.m) && step.m.request in c.listeners
    && c.listeners[step.m.request] in c.chans && c.chans[c.listeners[step.m.request]] != []
  }

  lemma DeliverStays(c: Client, step: Step)
    requires Enabled(c, step) && CanDeliver(c) && !step.Accept?
    ensures CanDeliver(Do(c, step))
  {}

  lemma AcceptDecides(c: Client, m: Message)
    requires ListenersOk(c) && Enabled(c, Accept(m))
    ensures CanDeliver(Do(c, Accept(m))) <==> !FindsFull(c, Accept(m))
  {}

  ghost predicate AlwaysDelivers(tr: Trace)
    requires Possible(tr)
  {
    CanDeliver(Final(tr)) && (tr.Then? ==> AlwaysDelivers(tr.before))
  }

  ghost predicate NeverFull(tr: Trace)
    requires Possible(tr)
  {
    tr.Then? ==> NeverFull(tr.before) && !FindsFull(Final(tr.before), tr.step)
  }

  /** The receive loop can deliver all along a run if and only if it never reads a response for
      a call whose channel is full, whatever the router sends and however request ids clash. */
  lemma {:induction false} NeverBlocksIff(tr: Trace)
    requires Possible(tr)
    ensures AlwaysDelivers(tr) <==> NeverFull(tr)
  {
    match tr
    case Start =>
    case Then(before, step) =>
      var c := Final(before);
      NeverBlocksIff(before);
      Invariant(before);
      if step.Accept? {
        AcceptDecides(c, step.m);
      } else if CanDeliver(c) {
        DeliverStays(c, step);
      }
  }

  // ---------- no lost wake-up ----------

  /** At some step of the run the receive loop put `m` into the channel of call `t`. */
  ghost predicate Delivered(tr: Trace, t: Tid, m: Message)
    requires Possible(tr)
  {
    && tr.Then?
    && ((tr.step.Deliver? && Final(tr.before).recv == Delivering(t, m)) || Delivered(tr.before, t, m))
  }

  /** The call has registered its listener and has taken nothing from it yet. */
  predicate Untaken(pc: Pc) {
    pc.Listening? || pc.Sent? || pc.Waiting?
  }

  /** A call that has a channel has registered its listener. */
  ghost predicate ChannelsRegistered(c: Client) {
    forall t :: t in c.chans ==> t in c.callers && !c.callers[t].pc.Begun?
  }

  lemma ChannelsRegisteredStep(c: Client, step: Step)
    requires Enabled(c, step) && ChannelsRegistered(c)
    ensures ChannelsRegistered(Do(c, step))
  {}

  /** `m` waits in the channel of call `t`, if the call still has to take it. */
  ghost predicate InStore(c: Client, t: Tid, m: Message) {
    && t in c.callers && t in c.chans
    && (Untaken(c.callers[t].pc) ==> c.chans[t] == [m])
  }

  /** Nothing but the call itself empties its channel, and nothing is put on top. */
  lemma StoreKept(c: Client, step: Step, t: Tid, m: Message)
    requires OwnListeners(c) && ChannelsRegistered(c) && Enabled(c, step) && InStore(c, t, m)
    ensures InStore(Do(c, step), t, m)
  {}

  lemma DeliverStores(c: Client, t: Tid, m: Message)
    requires RecvOk(c) && Enabled(c, Deliver) && c.recv == Delivering(t, m)
    ensures InStore(Do(c, Deliver), t, m)
  {}

  lemma {:induction false} ChannelsAreRegistered(tr: Trace)
    requires Possible(tr)
    ensures ChannelsRegistered(Final(tr))
  {
    match tr
    case Start =>
    case Then(before, step) =>
      ChannelsAreRegistered(before);
      ChannelsRegisteredStep(Final(before), step);
  }

  lemma {:induction false} DeliveredIsStored(tr: Trace, t: Tid, m: Message)
    requires Possible(tr) && DistinctRequests(tr) && Delivered(tr, t, m)
    ensures InStore(Final(tr), t, m)
  {
    var c := Final(tr.before);
    Invariant(tr.before);
    if Delivered(tr.before, t, m) {
      DeliveredIsStored(tr.before, t, m);
      ChannelsAreRegistered(tr.before);
      StoreKept(c, tr.step, t, m);
    } else {
      DeliverStores(c, t, m);
    }
  }

  /** A response that was delivered to a call at any earlier step, be it before the call came
      to wait, is in the call's channel until the call takes it: once its request is sent the
      call gets to wait on that channel, and while it waits it can take just that message. */
  lemma {:induction false} NoLostWakeUp(tr: Trace, t: Tid, m: Message)
    requires Possible(tr) && DistinctRequests(tr)
    ensures var c := Final(tr);
            Delivered(tr, t, m) ==>
            && t in c.callers
            && (Untaken(c.callers[t].pc) ==> t in c.chans && c.chans[t] == [m])
            && (c.callers[t].pc.Sent? ==> Next(c, Fetch(t)).pc == Waiting(t))
            && (c.callers[t].pc.Waiting? ==> Enabled(c, Take(t)) && Next(c, Take(t)).pc == Holding(m))
  {
    if Delivered(tr, t, m) {
      DeliveredIsStored(tr, t, m);
      Invariant(tr);
    }
  }
}
