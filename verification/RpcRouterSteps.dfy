/** A step of the router keeps everything that holds of clients and router. */
module RpcRouterSteps {
  import opened Wamp
  import opened ClientMachine
  import opened RpcSystem
  import opened RpcInvariants
  import opened SessionIndex
  import R = RealmSpec
  import M = RouterMachine
  import B = BrokerSpec
  import D = DealerSpec

  /** A good message at the head of the pipe, and a new id. */
  ghost predicate Takes(h: History, st: R.RouterState, ended: set<Session>, used: set<Id>, s: Session, m: Message,
                        draw: Id) {
    && Routable(m) && UpGood(h, s, m) && draw !in used && s !in ended
    && GrantsGood(h, st, ended) && PendingGood(h, st.dealer) && DispatchesGood(h) && IdsUsed(h, used)
  }

  function Arrived(m: Message, draw: Id): (a: R.Arrival)
    requires Routable(m)
    ensures M.NeedsLock(a) && !a.m.Publish?
  {
    R.Incoming(m, R.Authorized, draw)
  }

  lemma MessageGrows(h: History, st: R.RouterState, ended: set<Session>, used: set<Id>, s: Session, m: Message,
                     draw: Id)
    requires Takes(h, st, ended, used, s, m, draw)
    ensures var h' := AfterMessage(h, st, s, m, draw); Grows(h, h') && h'.asked == h.asked
  {}

  /** Only the message's own request id, or the one it answers, changes its stage; neither is
      unsent, and no other message on its way up has it. */
  lemma MessageStages(h: History, st: R.RouterState, ended: set<Session>, used: set<Id>, s: Session, m: Message,
                      draw: Id, r: Id)
    requires Takes(h, st, ended, used, s, m, draw) && r in h.stage
    requires h.stage[r] == Unsent || (h.stage[r] == Up && (IsCallerMessage(m) ==> r != m.request))
    ensures SameStage(h, AfterMessage(h, st, s, m, draw), r)
  {}

  /** The live subscriptions and registrations after a message. */
  lemma EffectParts(st: R.RouterState, s: Session, m: Message, draw: Id)
    requires Routable(m)
    ensures var st', procs := R.Effect(st, s, m, draw), st.dealer.procedures;
            && st'.live == (if m.Subscribe? then st.live[draw := B.Subscription(s, m.topic)]
                            else if m.Unsubscribe? then st.live - {m.subscription}
                            else st.live)
            && st'.dealer.procedures
               == (if m.Register? && !D.IsRegistered(procs, m.procedure) then
                     procs[draw := D.RemoteProcedure(s, m.procedure)]
                   else if m.Unregister? && m.registration in procs then procs - {m.registration}
                   else procs)
  {}

  /** What a client gives up is its own. */
  lemma OwnTarget(h: History, st: R.RouterState, ended: set<Session>, used: set<Id>, s: Session, m: Message, draw: Id)
    requires Takes(h, st, ended, used, s, m, draw)
    ensures m.Unsubscribe? && m.subscription in st.live ==> st.live[m.subscription].session == s
    ensures m.Unregister? && m.registration in st.dealer.procedures ==>
              st.dealer.procedures[m.registration].endpoint == s
  {}

  /** `h'` grants what `h` grants. */
  predicate SameGrants(h: History, h': History) {
    h'.granted == h.granted && h'.released == h.released
  }

  lemma GrantsUnchanged(h: History, h': History, st: R.RouterState, st': R.RouterState, ended: set<Session>)
    requires GrantsGood(h, st, ended) && SameGrants(h, h')
    requires st'.live == st.live && st'.dealer.procedures == st.dealer.procedures
    ensures GrantsGood(h', st', ended)
  {}

  /** The router grants a new id: it is live for its session. */
  lemma GrantsAdded(h: History, h': History, st: R.RouterState, st': R.RouterState, ended: set<Session>, id: Id,
                    g: Grant)
    requires GrantsGood(h, st, ended) && id !in h.granted
    requires h'.granted == h.granted + map[id := g] && h'.released == h.released
    requires if g.ofTopic then
               && st'.live == st.live[id := B.Subscription(g.session, g.uri)]
               && st'.dealer.procedures == st.dealer.procedures
             else
               && st'.live == st.live
               && st'.dealer.procedures == st.dealer.procedures[id := D.RemoteProcedure(g.session, g.uri)]
    ensures GrantsGood(h', st', ended)
  {
    if g.ofTopic {
    } else {
    }
  }

  /** An id that was given up may die. */
  lemma GrantsRemoved(h: History, h': History, st: R.RouterState, st': R.RouterState, ended: set<Session>, id: Id)
    requires GrantsGood(h, st, ended) && SameGrants(h, h') && id in h.released
    requires st'.live == st.live || st'.live == st.live - {id}
    requires st'.dealer.procedures == st.dealer.procedures || st'.dealer.procedures == st.dealer.procedures - {id}
    ensures GrantsGood(h', st', ended)
  {}

  lemma GrantsAfterRequest(h: History, st: R.RouterState, ended: set<Session>, used: set<Id>, s: Session, m: Message,
                           draw: Id)
    requires Takes(h, st, ended, used, s, m, draw) && (m.Unsubscribe? || m.Unregister?)
    ensures GrantsGood(AfterMessage(h, st, s, m, draw), R.Effect(st, s, m, draw), ended)
  {
    EffectParts(st, s, m, draw);
    GrantsRemoved(h, AfterMessage(h, st, s, m, draw), st, R.Effect(st, s, m, draw), ended,
                  if m.Unsubscribe? then m.subscription else m.registration);
  }

  lemma GrantsAfter(h: History, st: R.RouterState, ended: set<Session>, used: set<Id>, s: Session, m: Message, draw: Id)
    requires Takes(h, st, ended, used, s, m, draw)
    ensures GrantsGood(AfterMessage(h, st, s, m, draw), R.Effect(st, s, m, draw), ended)
  {
    var h', st' := AfterMessage(h, st, s, m, draw), R.Effect(st, s, m, draw);
    EffectParts(st, s, m, draw);
    if m.Unsubscribe? || m.Unregister? {
      GrantsAfterRequest(h, st, ended, used, s, m, draw);
    } else if m.Subscribe? {
      GrantsAdded(h, h', st, st', ended, draw, Grant(true, s, m.topic));
    } else if m.Register? && !D.IsRegistered(st.dealer.procedures, m.procedure) {
      GrantsAdded(h, h', st, st', ended, draw, Grant(false, s, m.procedure));
    } else {
      assert GrantsOf(st, s, m, draw) == map[];
      GrantsUnchanged(h, h', st, st', ended);
    }
  }

  /** A message that is neither a dispatched CALL nor an answer. */
  lemma PendingSame(h: History, h': History, st: D.DealerState, st': D.DealerState, r: Id)
    requires PendingGood(h, st) && r !in st.calls
    requires st'.calls == st.calls && st'.invocations == st.invocations
    requires h'.asked == h.asked && h'.dispatched == h.dispatched && h'.stage == h.stage + map[r := Answered]
    ensures PendingGood(h', st')
  {}

  /** The other invocations are those of other requests, and stay good. */
  lemma InvocationKept(h: History, h': History, st: D.DealerState, st': D.DealerState, r: Id, draw: Id, d: Dispatch,
                       inv: Id)
    requires PendingGood(h, st) && r !in st.calls && draw !in h.dispatched && inv in st.invocations
    requires st'.calls == st.calls[r := d.caller] && st'.invocations == st.invocations[draw := r]
    requires h'.asked == h.asked && h'.dispatched == h.dispatched + map[draw := d]
    ensures inv != draw && st.invocations[inv] != r && InvocationGood(h', st', inv)
  {
    assert InvocationGood(h, st, inv);
  }

  /** A dispatched CALL. */
  lemma PendingAdded(h: History, h': History, st: D.DealerState, st': D.DealerState, r: Id, draw: Id, d: Dispatch)
    requires PendingGood(h, st) && r !in st.calls && draw !in h.dispatched
    requires st'.calls == st.calls[r := d.caller] && st'.invocations == st.invocations[draw := r]
    requires h'.asked == h.asked && h'.stage == h.stage + map[r := Pending]
    requires h'.dispatched == h.dispatched + map[draw := d]
    requires InvocationGood(h', st', draw)
    ensures PendingGood(h', st')
  {
    forall inv | inv in st.invocations
      ensures inv != draw && st.invocations[inv] != r && InvocationGood(h', st', inv)
    {
      InvocationKept(h, h', st, st', r, draw, d, inv);
    }
  }

  /** What a request does to the pending calls and invocations. */
  lemma DealerAfterRequest(st: R.RouterState, s: Session, m: Message, draw: Id)
    requires IsCallerMessage(m)
    ensures var st', dispatched := R.Effect(st, s, m, draw).dealer, DispatchesOf(st, s, m, draw);
            if draw in dispatched then
              && dispatched == map[draw := dispatched[draw]] && m.Call? && dispatched[draw].caller == s
              && dispatched[draw].request == m.request
              && dispatched[draw].procedure == m.procedure && dispatched[draw].payload == m.payload
              && st'.calls == st.dealer.calls[m.request := s]
              && st'.invocations == st.dealer.invocations[draw := m.request]
              && StagesOf(st, m) == map[m.request := Pending]
            else
              && dispatched == map[] && st'.calls == st.dealer.calls && st'.invocations == st.dealer.invocations
              && StagesOf(st, m) == map[m.request := Answered]
  {}

  lemma PendingAfterRequest(h: History, st: R.RouterState, s: Session, m: Message, draw: Id)
    requires UpGood(h, s, m) && IsCallerMessage(m) && PendingGood(h, st.dealer) && draw !in h.dispatched
    ensures PendingGood(AfterMessage(h, st, s, m, draw), R.Effect(st, s, m, draw).dealer)
  {
    var h', st' := AfterMessage(h, st, s, m, draw), R.Effect(st, s, m, draw).dealer;
    var dispatched := DispatchesOf(st, s, m, draw);
    DealerAfterRequest(st, s, m, draw);
    if draw in dispatched {
      PendingAdded(h, h', st.dealer, st', m.request, draw, dispatched[draw]);
    } else {
      assert h.dispatched + map[] == h.dispatched;
      PendingSame(h, h', st.dealer, st', m.request);
    }
  }

  lemma DealerAfterAnswer(st: R.RouterState, s: Session, m: Message, draw: Id)
    requires D.IsAnswer(m) && (m.Error? ==> m.typ == INVOCATION)
    ensures R.Effect(st, s, m, draw).dealer == D.OnAnswer(st.dealer, m).state
    ensures GrantsOf(st, s, m, draw) == map[] && DispatchesOf(st, s, m, draw) == map[]
  {}

  /** The answered invocation and its call are gone, the others are those of other requests. */
  lemma PendingRemoved(h: History, h': History, st: R.RouterState, m: Message)
    requires PendingGood(h, st.dealer) && D.IsAnswer(m) && (m.Error? ==> m.typ == INVOCATION)
    requires h'.asked == h.asked && h'.dispatched == h.dispatched && h'.stage == h.stage + StagesOf(st, m)
    ensures PendingGood(h', D.OnAnswer(st.dealer, m).state)
  {
    var st' := D.OnAnswer(st.dealer, m).state;
    if m.request in st.dealer.invocations {
      assert InvocationGood(h, st.dealer, m.request);
    }
    forall inv | inv in st'.invocations ensures InvocationGood(h', st', inv) {
      assert InvocationGood(h, st.dealer, inv);
    }
  }

  lemma PendingAfterAnswer(h: History, st: R.RouterState, s: Session, m: Message, draw: Id)
    requires UpGood(h, s, m) && PendingGood(h, st.dealer) && D.IsAnswer(m)
    ensures PendingGood(AfterMessage(h, st, s, m, draw), R.Effect(st, s, m, draw).dealer)
  {
    DealerAfterAnswer(st, s, m, draw);
    assert h.dispatched + map[] == h.dispatched;
    PendingRemoved(h, AfterMessage(h, st, s, m, draw), st, m);
  }

  lemma PendingAfter(h: History, st: R.RouterState, ended: set<Session>, used: set<Id>, s: Session, m: Message,
                     draw: Id)
    requires Takes(h, st, ended, used, s, m, draw)
    ensures PendingGood(AfterMessage(h, st, s, m, draw), R.Effect(st, s, m, draw).dealer)
  {
    if D.IsAnswer(m) {
      PendingAfterAnswer(h, st, s, m, draw);
    } else {
      PendingAfterRequest(h, st, s, m, draw);
    }
  }

  lemma DispatchesAfter(h: History, st: R.RouterState, ended: set<Session>, used: set<Id>, s: Session, m: Message,
                        draw: Id)
    requires Takes(h, st, ended, used, s, m, draw)
    ensures DispatchesGood(AfterMessage(h, st, s, m, draw)) && IdsUsed(AfterMessage(h, st, s, m, draw), used + {draw})
  {}

  /** The answer of a callee, relayed to the caller, is an outcome of the call. */
  lemma RelayedGood(h: History, st: R.RouterState, ended: set<Session>, used: set<Id>, s: Session, m: Message, draw: Id)
    requires Takes(h, st, ended, used, s, m, draw) && D.IsAnswer(m) && m.request in st.dealer.invocations
    ensures var r := st.dealer.invocations[m.request];
            && r in st.dealer.calls
            && DownGood(AfterMessage(h, st, s, m, draw), st.dealer.calls[r], D.Relayed(m, r))
  {
    var r, h' := st.dealer.invocations[m.request], AfterMessage(h, st, s, m, draw);
    var call, relayed := h.asked[r].request, D.Relayed(m, r);
    assert InvocationGood(h, st.dealer, m.request);
    MessageGrows(h, st, ended, used, s, m, draw);
    UpGoodKept(h, h', s, m);
    if m.Yield? {
      assert ResultOf(h', st.dealer.calls[r], call, r, m.request, HandlerResult(relayed.payload, ""));
    } else {
      assert ErrorOf(h', st.dealer.calls[r], call, r, m.request, relayed);
    }
  }

  /** The reply to a request says what was granted, or is the router's own answer to a CALL. */
  lemma ReplyGood(h: History, st: R.RouterState, s: Session, m: Message, draw: Id, e: Envelope)
    requires UpGood(h, s, m) && IsCallerMessage(m) && DispatchesGood(h) && e in M.LockedOuts(st, s, Arrived(m, draw))
    ensures DownGood(AfterMessage(h, st, s, m, draw), e.to, e.msg)
  {}

  /** What the critical section makes the thread send is good. */
  lemma OutsGood(h: History, st: R.RouterState, ended: set<Session>, used: set<Id>, s: Session, m: Message, draw: Id,
                 e: Envelope)
    requires Takes(h, st, ended, used, s, m, draw)
    requires e in M.LockedOuts(st, s, Arrived(m, draw))
    ensures DownGood(AfterMessage(h, st, s, m, draw), e.to, e.msg)
  {
    if D.IsAnswer(m) {
      RelayedGood(h, st, ended, used, s, m, draw);
    } else {
      ReplyGood(h, st, s, m, draw, e);
    }
  }

  // ---------- indexes ----------

  ghost predicate Exact(index: Index, owner: map<Id, Session>, used: set<Id>) {
    Indexed(index, owner, used) && NoStale(index, owner)
  }

  lemma ExactAdded(index: Index, owner: map<Id, Session>, used: set<Id>, s: Session, id: Id)
    requires Exact(index, owner, used) && id !in used
    ensures Exact(AddEntry(index, s, id), owner[id := s], used + {id})
  {
    AddEntryIndexed(index, owner, used, s, id);
  }

  lemma ExactRemoved(index: Index, owner: map<Id, Session>, used: set<Id>, s: Session, id: Id, used': set<Id>)
    requires Exact(index, owner, used) && id in owner && owner[id] == s && used <= used'
    ensures Exact(RemoveEntry(index, s, id), owner - {id}, used')
  {
    RemoveEntryIndexed(index, owner, used, s, id);
  }

  lemma ExactDropped(index: Index, owner: map<Id, Session>, used: set<Id>, s: Session)
    requires Exact(index, owner, used)
    ensures Exact(index - {s}, Disowned(owner, s), used)
  {
    DropSessionIndexed(index, owner, used, s);
  }

  /** A client gives up only its own subscriptions, so the broker's sets stay exact. */
  lemma SubsAfterExact(sys: System, s: Session, m: Message, draw: Id)
    requires Routable(m) && draw !in sys.used
    requires m.Unsubscribe? && m.subscription in sys.router.live ==> sys.router.live[m.subscription].session == s
    requires Exact(sys.subs, B.Owners(sys.router.live), sys.used)
    ensures Exact(SubsAfter(sys, s, m, draw), B.Owners(R.Effect(sys.router, s, m, draw).live), sys.used + {draw})
  {
    var live := sys.router.live;
    EffectParts(sys.router, s, m, draw);
    if m.Subscribe? {
      ExactAdded(sys.subs, B.Owners(live), sys.used, s, draw);
      assert B.Owners(live)[draw := s] == B.Owners(live[draw := B.Subscription(s, m.topic)]);
    } else if m.Unsubscribe? && m.subscription in live {
      ExactRemoved(sys.subs, B.Owners(live), sys.used, s, m.subscription, sys.used + {draw});
      assert B.Owners(live) - {m.subscription} == B.Owners(live - {m.subscription});
    } else if m.Unsubscribe? {
      assert live - {m.subscription} == live;
    }
  }

  lemma RegsAfterExact(sys: System, s: Session, m: Message, draw: Id)
    requires Routable(m) && draw !in sys.used
    requires m.Unregister? && m.registration in sys.router.dealer.procedures ==>
               sys.router.dealer.procedures[m.registration].endpoint == s
    requires Exact(sys.regs, D.Owners(sys.router.dealer.procedures), sys.used)
    ensures Exact(RegsAfter(sys, s, m, draw), D.Owners(R.Effect(sys.router, s, m, draw).dealer.procedures),
                  sys.used + {draw})
  {
    var procs := sys.router.dealer.procedures;
    EffectParts(sys.router, s, m, draw);
    if m.Register? && !D.IsRegistered(procs, m.procedure) {
      ExactAdded(sys.regs, D.Owners(procs), sys.used, s, draw);
      assert D.Owners(procs)[draw := s] == D.Owners(procs[draw := D.RemoteProcedure(s, m.procedure)]);
    } else if m.Unregister? && m.registration in procs {
      ExactRemoved(sys.regs, D.Owners(procs), sys.used, s, m.registration, sys.used + {draw});
      assert D.Owners(procs) - {m.registration} == D.Owners(procs - {m.registration});
    }
  }
}
