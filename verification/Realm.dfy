/** The realm: it joins a session, runs its message loop and removes it. */
module Realms {
  import opened Wamp
  import opened RealmSpec
  import D = DealerSpec
  import Brokers
  import Dealers

  /** The ids drawn for the arrivals from `first` on are distinct and were never handed out. */
  ghost predicate FreshFrom(inbox: seq<Arrival>, first: nat, used: set<Id>) {
    && (forall k :: first <= k < |inbox| && inbox[k].Incoming? ==> inbox[k].draw !in used)
    && (forall j, k :: first <= j < k < |inbox| && inbox[j].Incoming? && inbox[k].Incoming? ==>
          inbox[j].draw != inbox[k].draw)
  }

  lemma FreshNext(inbox: seq<Arrival>, i: nat, used: set<Id>, used': set<Id>)
    requires i < |inbox| && FreshFrom(inbox, i, used)
    requires used' <= used + if inbox[i].Incoming? then {inbox[i].draw} else {}
    ensures FreshFrom(inbox, i + 1, used')
  {}

  ghost function AllSent(turns: seq<Turn>): seq<Envelope> {
    if turns == [] then [] else AllSent(turns[..|turns| - 1]) + turns[|turns| - 1].outs
  }

  /** `turns` serves the first arrivals of `inbox` one after the other, from state `first`
      to state `last`, and only the last of them can end the loop. */
  ghost predicate IsLoopOf(turns: seq<Turn>, inbox: seq<Arrival>, s: Session, first: RouterState, last: RouterState) {
    if turns == [] then first == last
    else
      var n := |turns| - 1;
      && n < |inbox|
      && turns[n].post == last
      && Serves(turns[n].pre, turns[n].post, s, inbox[n], turns[n].outs)
      && (n > 0 ==> !Ends(inbox[n - 1]))
      && IsLoopOf(turns[..n], inbox, s, first, turns[n].pre)
  }

  lemma {:induction false} OneMoreTurn(turns: seq<Turn>, inbox: seq<Arrival>, s: Session,
                                        first: RouterState, last: RouterState, t: Turn)
    requires IsLoopOf(turns, inbox, s, first, last) && |turns| < |inbox|
    requires turns != [] ==> !Ends(inbox[|turns| - 1])
    requires t.pre == last && Serves(t.pre, t.post, s, inbox[|turns|], t.outs)
    ensures IsLoopOf(turns + [t], inbox, s, first, t.post)
    ensures AllSent(turns + [t]) == AllSent(turns) + t.outs
  {}

  lemma CountNext<T>(xs: seq<T>, n: nat, p: T -> bool)
    requires n < |xs|
    ensures Count(xs[..n + 1], p) == Count(xs[..n], p) + if p(xs[n]) then 1 else 0
  {
    assert xs[..n + 1][..n] == xs[..n];
  }

  /** Over a whole run of a session's loop, the replies under a request id are as many as
      the requests with that id that were served. */
  lemma {:induction false} OneReplyPerRequest(turns: seq<Turn>, inbox: seq<Arrival>, s: Session,
                                              first: RouterState, last: RouterState, r: Id)
    requires IsLoopOf(turns, inbox, s, first, last)
    ensures |turns| <= |inbox|
    ensures Replies(AllSent(turns), s, r) == Count(inbox[..|turns|], a => Requests(a, r))
  {
    if turns == [] {
    } else {
      var n := |turns| - 1;
      OneReplyPerRequest(turns[..n], inbox, s, first, turns[n].pre, r);
      RepliesOfTurn(turns[n].pre, turns[n].post, s, inbox[n], turns[n].outs, r);
      CountConcat(AllSent(turns[..n]), turns[n].outs, e => IsReply(e, s, r));
      CountNext(inbox, n, a => Requests(a, r));
    }
  }

  /** Nothing is served after a kill request or an authorized GOODBYE. */
  lemma {:induction false} NothingAfterGoodbye(turns: seq<Turn>, inbox: seq<Arrival>, s: Session,
                                               first: RouterState, last: RouterState, k: nat)
    requires IsLoopOf(turns, inbox, s, first, last) && k < |inbox|
    requires inbox[k].Kill? || (inbox[k].verdict == Authorized && inbox[k].m.Goodbye?)
    ensures |turns| <= k + 1
  {
    assert Ends(inbox[k]);
    if turns != [] {
      var n := |turns| - 1;
      NothingAfterGoodbye(turns[..n], inbox, s, first, turns[n].pre, k);
    }
  }

  /** The loop has served the first `i` arrivals and goes on. */
  ghost predicate InLoop(turns: seq<Turn>, inbox: seq<Arrival>, s: Session, first: RouterState, last: RouterState,
                         used: set<Id>, i: nat)
  {
    && |turns| == i <= |inbox| && FreshFrom(inbox, i, used)
    && IsLoopOf(turns, inbox, s, first, last) && (i > 0 ==> !Ends(inbox[i - 1]))
  }

  lemma {:induction false} NextTurn(turns: seq<Turn>, inbox: seq<Arrival>, s: Session, first: RouterState, turn: Turn,
                 used: set<Id>, used': set<Id>, i: nat, log: seq<Envelope>)
    requires i < |inbox| && InLoop(turns, inbox, s, first, turn.pre, used, i)
    requires Serves(turn.pre, turn.post, s, inbox[i], turn.outs)
    requires used' <= used + if inbox[i].Incoming? then {inbox[i].draw} else {}
    ensures IsLoopOf(turns + [turn], inbox, s, first, turn.post)
    ensures !Ends(inbox[i]) ==> InLoop(turns + [turn], inbox, s, first, turn.post, used', i + 1)
    ensures log + AllSent(turns) + turn.outs == log + AllSent(turns + [turn])
  {
    OneMoreTurn(turns, inbox, s, first, turn.pre, turn);
    FreshNext(inbox, i, used, used');
  }

  class Realm {
    const net: Network
    const broker: Brokers.Broker
    const dealer: Dealers.Dealer
    var clients: map<Id, Session>

    ghost predicate Valid()
      reads this, broker, dealer
    {
      broker.net == net && dealer.net == net && broker.Valid() && dealer.Valid()
    }

    ghost function State(): RouterState
      reads broker, dealer
    {
      RouterState(broker.live, dealer.State())
    }

    ghost function Used(): set<Id>
      reads broker, dealer
    {
      broker.used + dealer.used
    }

    constructor ()
      ensures Valid() && clients == map[] && net.log == []
      ensures State() == RouterState(map[], D.EMPTY) && Used() == {}
      ensures fresh(net) && fresh(broker) && fresh(dealer)
    {
      var n := new Network();
      net := n;
      broker := new Brokers.Broker(n);
      dealer := new Dealers.Dealer(n);
      clients := map[];
    }

    method DispatchToDealer(sess: Session, m: Message, draw: Id)
      requires Valid() && draw !in Used() && IsDealerMessage(m)
      modifies dealer, net
      ensures Valid() && Used() <= old(Used()) + {draw}
      ensures var o := D.Handle(old(State()).dealer, sess, m, draw);
              State() == old(State()).(dealer := o.state) && net.log == old(net.log) + o.out
    {
      match m {
        case Register(_, _, _) => dealer.Register(sess, m, draw);
        case Unregister(_, _) => dealer.Unregister(sess, m);
        case Call(_, _, _, _) => dealer.Call(sess, m, draw);
        case Yield(_, _, _) => dealer.Yield(sess, m);
        case Error(_, _, _, _) => dealer.Error(sess, m);
      }
    }

    /** One authorized message, dispatched on its type. */
    method Dispatch(sess: Session, m: Message, draw: Id)
      requires Valid() && draw !in Used()
      modifies broker, dealer, net
      ensures Valid() && Used() <= old(Used()) + {draw}
      ensures State() == Effect(old(State()), sess, m, draw)
      ensures old(net.log) <= net.log && Sends(old(State()), sess, m, draw, net.log[|old(net.log)|..])
    {
      if m.Goodbye? {
        net.Send(sess, Goodbye(ERR_GOODBYE_AND_OUT));
      } else if m.Publish? {
        broker.Publish(sess, m, draw);
      } else if m.Subscribe? {
        broker.Subscribe(sess, m, draw);
      } else if m.Unsubscribe? {
        broker.Unsubscribe(sess, m);
      } else if IsDealerMessage(m) {
        DispatchToDealer(sess, m, draw);
      }
    }

    /** One turn of the loop: the kill branch, the authorization gate, or the dispatch. */
    method Serve(sess: Session, a: Arrival) returns (ghost turn: Turn)
      requires Valid() && (a.Incoming? ==> a.draw !in Used())
      modifies broker, dealer, net
      ensures Valid() && Used() <= old(Used()) + (if a.Incoming? then {a.draw} else {})
      ensures net.log == old(net.log) + turn.outs
      ensures turn.pre == old(State()) && turn.post == State() && Serves(turn.pre, turn.post, sess, a, turn.outs)
    {
      match a {
        case Kill(reason) => net.Send(sess, Goodbye(reason));
        case Incoming(m, verdict, draw) =>
          if verdict != Authorized {
            net.Send(sess, Refusal(m, verdict));
          } else {
            Dispatch(sess, m, draw);
          }
      }
      turn := Turn(old(State()), State(), net.log[|old(net.log)|..]);
    }

    method Loop(sess: Session, inbox: seq<Arrival>) returns (ghost turns: seq<Turn>)
      requires Valid() && sess.id in clients && clients[sess.id] == sess
      // drawn ids are new
      requires forall k :: 0 <= k < |inbox| && inbox[k].Incoming? ==> inbox[k].draw !in Used()
      requires forall j, k :: 0 <= j < k < |inbox| && inbox[j].Incoming? && inbox[k].Incoming? ==>
                 inbox[j].draw != inbox[k].draw
      modifies broker, dealer, net
      ensures Valid()
      ensures IsLoopOf(turns, inbox, sess, old(State()), State())
      // it ends early only on a kill request or an authorized GOODBYE
      ensures |turns| < |inbox| ==>
                && turns != []
                && var a := inbox[|turns| - 1];
                   a.Kill? || (a.verdict == Authorized && a.m.Goodbye?)
      ensures net.log == old(net.log) + AllSent(turns)
    {
      turns := [];
      ghost var first, log := State(), net.log;
      var i := 0;
      while i < |inbox|
        invariant Valid() && net.log == log + AllSent(turns)
        invariant InLoop(turns, inbox, sess, first, State(), Used(), i)
      {
        ghost var used := Used();
        ghost var turn := Serve(sess, inbox[i]);
        NextTurn(turns, inbox, sess, first, turn, used, Used(), i, log);
        turns := turns + [turn];
        if Ends(inbox[i]) {
          return;
        }
        i := i + 1;
      }
    }

    /** The whole life of a session in the realm. The loop ends when the inbox is
        exhausted (the peer closed it), on a GOODBYE, or on a kill request. */
    method HandleSession(sess: Session, inbox: seq<Arrival>) returns (ghost turns: seq<Turn>, ghost last: RouterState)
      requires Valid()
      // drawn ids are new
      requires forall k :: 0 <= k < |inbox| && inbox[k].Incoming? ==> inbox[k].draw !in Used()
      requires forall j, k :: 0 <= j < k < |inbox| && inbox[j].Incoming? && inbox[k].Incoming? ==>
                 inbox[j].draw != inbox[k].draw
      modifies this, broker, dealer, net
      ensures Valid()
      ensures IsLoopOf(turns, inbox, sess, old(State()), last) && State() == Leave(last, sess)
      // it ends early only on a kill request or an authorized GOODBYE
      ensures |turns| < |inbox| ==>
                && turns != []
                && var a := inbox[|turns| - 1];
                   a.Kill? || (a.verdict == Authorized && a.m.Goodbye?)
      ensures net.log == old(net.log) + AllSent(turns)
      ensures clients == old(clients) - {sess.id}
      ensures forall id :: id in State().live ==> State().live[id].session != sess
      ensures forall id :: id in State().dealer.procedures ==> State().dealer.procedures[id].endpoint != sess
    {
      clients := clients[sess.id := sess];
      turns := Loop(sess, inbox);
      last := State();
      clients := clients - {sess.id};
      dealer.RemoveSession(sess);
      broker.RemoveSession(sess);
    }
  }
}
