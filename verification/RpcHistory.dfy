/** The record that the end-to-end theorems speak of says what happened in the run: handlers
    ran, the router granted, clients gave up, and sessions ended just when it says so. */
module RpcHistory {
  import opened Wamp
  import opened ClientMachine
  import opened RpcSystem
  import opened RpcTheorems
  import R = RealmSpec

  /** The run has the move. */
  predicate Has(tr: Trace, move: Move) {
    tr.Then? && (tr.move == move || Has(tr.before, move))
  }

  lemma ExecutedStep(sys: System, move: Move, e: Execution)
    requires CanMove(sys, move)
    ensures e in After(sys, move).h.executed
       <==> e in sys.h.executed
            || move == ClientStep(e.callee, Finish(Job(e.invocation, e.registration, e.desc, e.args), e.result))
  {}

  /** A handler's run is on record if and only if it ended in the run. */
  lemma {:induction false} HandlerRan(tr: Trace, e: Execution)
    requires Possible(tr)
    ensures e in Final(tr).h.executed
       <==> Has(tr, ClientStep(e.callee, Finish(Job(e.invocation, e.registration, e.desc, e.args), e.result)))
  {
    if tr.Then? {
      HandlerRan(tr.before, e);
      ExecutedStep(Final(tr.before), tr.move, e);
    }
  }

  lemma EndedStep(sys: System, move: Move, s: Session)
    requires CanMove(sys, move)
    ensures s in After(sys, move).ended <==> s in sys.ended || move == End(s)
  {}

  lemma {:induction false} EndedInRun(tr: Trace, s: Session)
    requires Possible(tr)
    ensures s in Final(tr).ended <==> Has(tr, End(s))
  {
    if tr.Then? {
      EndedInRun(tr.before, s);
      EndedStep(Final(tr.before), tr.move, s);
    }
  }

  /** A client that is in state `c` sends the message that gives up `id`. */
  predicate GivesUp(c: Client, step: Step, id: Id) {
    && Enabled(c, step) && Output(c, step).Some?
    && var m := Output(c, step).value;
       (m.Unsubscribe? && m.subscription == id) || (m.Unregister? && m.registration == id)
  }

  lemma ClientReleases(h: History, s: Session, c: Client, step: Step, id: Id)
    requires Enabled(c, step)
    ensures id in AfterClient(h, s, c, step).released ==> id in h.released || GivesUp(c, step, id)
  {}

  lemma RouterReleasesNothing(sys: System, move: Move)
    requires CanMove(sys, move) && !move.ClientStep?
    ensures After(sys, move).h.released == sys.h.released
  {}

  lemma ReleasedStep(sys: System, move: Move, id: Id)
    requires CanMove(sys, move)
    ensures id in After(sys, move).h.released ==>
              id in sys.h.released || (move.ClientStep? && GivesUp(sys.clients[move.s], move.step, id))
  {
    if move.ClientStep? {
      ClientReleases(sys.h, move.s, sys.clients[move.s], move.step, id);
    } else {
      RouterReleasesNothing(sys, move);
    }
  }

  /** What is on record as given up, some client gave up at some moment of the run. */
  lemma {:induction false} ReleasedByClient(tr: Trace, id: Id) returns (early: Trace)
    requires Possible(tr) && id in Final(tr).h.released
    ensures Continues(tr, early) && early.Then? && Possible(early) && early.move.ClientStep?
    ensures GivesUp(Final(early.before).clients[early.move.s], early.move.step, id)
  {
    ReleasedStep(Final(tr.before), tr.move, id);
    if id in Final(tr.before).h.released {
      early := ReleasedByClient(tr.before, id);
    } else {
      early := tr;
    }
  }

  /** The router grants `id` for the message at the head of the session's pipe. */
  ghost predicate GrantsNow(sys: System, move: Move, id: Id, g: Grant) {
    && move == RouterTakes(g.session, R.Authorized, id) && Queue(sys.up, g.session) != []
    && var m := Queue(sys.up, g.session)[0];
       if g.ofTopic then m.Subscribe? && m.topic == g.uri
       else
         && m.Register? && m.procedure == g.uri
         && forall other :: other in sys.router.dealer.procedures ==>
              sys.router.dealer.procedures[other].procedure != g.uri
  }

  lemma RoutingGrants(sys: System, s: Session, verdict: R.Verdict, draw: Id)
    requires CanMove(sys, RouterTakes(s, verdict, draw))
    ensures var m := Queue(sys.up, s)[0];
            DoRoute(sys, s, verdict, draw).h.granted
            == sys.h.granted
               + if verdict == R.Authorized && Routable(m) then GrantsOf(sys.router, s, m, draw) else map[]
  {
    assert sys.h.granted + map[] == sys.h.granted;
  }

  lemma GrantIsNew(sys: System, s: Session, draw: Id, id: Id)
    requires CanMove(sys, RouterTakes(s, R.Authorized, draw))
    requires id in GrantsOf(sys.router, s, Queue(sys.up, s)[0], draw)
    ensures GrantsNow(sys, RouterTakes(s, R.Authorized, draw), id,
                      GrantsOf(sys.router, s, Queue(sys.up, s)[0], draw)[id])
  {}

  lemma OthersGrantNothing(sys: System, move: Move)
    requires CanMove(sys, move) && !move.RouterTakes?
    ensures After(sys, move).h.granted == sys.h.granted
  {}

  /** What is on record as granted, the router granted at some moment of the run, for a
      SUBSCRIBE to the topic, or for a REGISTER of the procedure that nobody held then. */
  lemma {:induction false} GrantedByRouter(tr: Trace, id: Id, g: Grant) returns (early: Trace)
    requires Possible(tr) && id in Final(tr).h.granted && Final(tr).h.granted[id] == g
    ensures Continues(tr, early) && early.Then? && Possible(early)
    ensures GrantsNow(Final(early.before), early.move, id, g)
  {
    var sys := Final(tr.before);
    if id in sys.h.granted && sys.h.granted[id] == g {
      early := GrantedByRouter(tr.before, id, g);
    } else if tr.move.RouterTakes? {
      RoutingGrants(sys, tr.move.s, tr.move.verdict, tr.move.draw);
      GrantIsNew(sys, tr.move.s, tr.move.draw, id);
      early := tr;
    } else {
      OthersGrantNothing(sys, tr.move);
      assert false;
    }
  }

  /** Sessions can connect and end, and a client can take any of its own steps and read what the
      router sent to it, in order. */
  lemma ClientsAreOpen(sys: System, s: Session, step: Step)
    ensures s !in sys.clients ==> CanMove(sys, Connect(s)) && After(sys, Connect(s)).clients == sys.clients[s := NEW]
    ensures s in sys.clients && Enabled(sys.clients[s], step) && !step.Begin? && !step.Accept? ==>
              CanMove(sys, ClientStep(s, step))
    ensures s in sys.clients && s in sys.down && sys.down[s] != [] && sys.clients[s].recv.Polling? ==>
              && CanMove(sys, ClientStep(s, Accept(sys.down[s][0])))
              && After(sys, ClientStep(s, Accept(sys.down[s][0]))).down == sys.down[s := sys.down[s][1..]]
    ensures s !in sys.ended && (s in sys.outbox ==> sys.outbox[s] == []) ==> CanMove(sys, End(s))
  {}

  /** The router can take any message, whatever the verdict, and takes them in order. */
  lemma RouterTakesInOrder(sys: System, s: Session, verdict: R.Verdict, draw: Id)
    requires s !in sys.ended && s in sys.up && sys.up[s] != [] && draw !in sys.used
    requires s in sys.outbox ==> sys.outbox[s] == []
    ensures CanMove(sys, RouterTakes(s, verdict, draw))
    ensures After(sys, RouterTakes(s, verdict, draw)).up == sys.up[s := sys.up[s][1..]]
  {}

  /** The router can send what it has to, and sends it in order. */
  lemma RouterSendsInOrder(sys: System, s: Session)
    requires s in sys.outbox && sys.outbox[s] != []
    ensures CanMove(sys, RouterSends(s))
    ensures var e, down, after := sys.outbox[s][0], sys.down, After(sys, RouterSends(s));
            && after.outbox == sys.outbox[s := sys.outbox[s][1..]]
            && after.down == down[e.to := (if e.to in down then down[e.to] else []) + [e.msg]]
  {}
}
