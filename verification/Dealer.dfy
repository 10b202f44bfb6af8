/** The default dealer: five linked maps. */
module Dealers {
  import opened Wamp
  import opened DealerSpec
  import opened SessionIndex

  /** `procedures` and `registrations` are mutual inverses. */
  ghost predicate Inverse(procedures: Procedures, registrations: map<Uri, Id>) {
    && (forall id :: id in procedures ==>
          procedures[id].procedure in registrations && registrations[procedures[id].procedure] == id)
    && (forall uri :: uri in registrations ==>
          registrations[uri] in procedures && procedures[registrations[uri]].procedure == uri)
  }

  lemma InverseMeansOneCallee(procedures: Procedures, registrations: map<Uri, Id>, uri: Uri)
    requires Inverse(procedures, registrations)
    ensures OneCallee(procedures)
    ensures uri in registrations <==> IsRegistered(procedures, uri)
    ensures uri in registrations ==> registrations[uri] == RegistrationOf(procedures, uri)
  {}

  /** Registering keeps the two maps inverse exactly when the drawn id is not in use. */
  lemma AddedInverse(procedures: Procedures, registrations: map<Uri, Id>, callee: Session, uri: Uri, id: Id)
    requires Inverse(procedures, registrations) && uri !in registrations
    ensures Inverse(procedures[id := RemoteProcedure(callee, uri)], registrations[uri := id]) <==> id !in procedures
  {
    var after, registrations' := procedures[id := RemoteProcedure(callee, uri)], registrations[uri := id];
    if id in procedures {
      // the URI that held the id now leads to another procedure
      var was := procedures[id].procedure;
      assert was in registrations' && registrations'[was] == id && after[id].procedure != was;
    }
  }

  lemma RemovedInverse(procedures: Procedures, registrations: map<Uri, Id>, id: Id)
    requires Inverse(procedures, registrations) && id in procedures
    ensures Inverse(procedures - {id}, registrations - {procedures[id].procedure})
  {}

  lemma AddedIndexed(callees: Index, procedures: Procedures, used: set<Id>, callee: Session, uri: Uri, id: Id)
    requires Indexed(callees, Owners(procedures), used) && id !in used
    ensures id !in procedures
    ensures var procedures' := procedures[id := RemoteProcedure(callee, uri)];
            && Indexed(AddEntry(callees, callee, id), Owners(procedures'), used + {id})
            && (NoStale(AddEntry(callees, callee, id), Owners(procedures')) <==> NoStale(callees, Owners(procedures)))
  {
    AddEntryIndexed(callees, Owners(procedures), used, callee, id);
    assert Owners(procedures)[id := callee] == Owners(procedures[id := RemoteProcedure(callee, uri)]);
  }

  /** What registering a procedure under a new id keeps. */
  lemma RegisteredKeeps(procedures: Procedures, registrations: map<Uri, Id>, callees: Index, used: set<Id>,
                        callee: Session, uri: Uri, id: Id)
    requires Inverse(procedures, registrations) && Indexed(callees, Owners(procedures), used)
    requires uri !in registrations && id !in used
    ensures var procedures' := procedures[id := RemoteProcedure(callee, uri)];
            && Inverse(procedures', registrations[uri := id])
            && Indexed(AddEntry(callees, callee, id), Owners(procedures'), used + {id})
            && (NoStale(AddEntry(callees, callee, id), Owners(procedures')) <==> NoStale(callees, Owners(procedures)))
  {
    AddedIndexed(callees, procedures, used, callee, uri, id);
    AddedInverse(procedures, registrations, callee, uri, id);
  }

  lemma RemovedIndexed(callees: Index, procedures: Procedures, used: set<Id>, callee: Session, id: Id)
    requires Indexed(callees, Owners(procedures), used)
    ensures Indexed(RemoveEntry(callees, callee, id), Owners(procedures - {id}), used)
    ensures NoStale(callees, Owners(procedures)) ==>
              (NoStale(RemoveEntry(callees, callee, id), Owners(procedures - {id}))
               <==> (id in procedures ==> procedures[id].endpoint == callee))
  {
    assert Owners(procedures) - {id} == Owners(procedures - {id});
    if id in procedures {
      RemoveEntryIndexed(callees, Owners(procedures), used, callee, id);
    } else {
      RemoveStaleIndexed(callees, Owners(procedures), used, callee, id);
      assert procedures - {id} == procedures;
    }
  }

  lemma LeaveDecides(callees: Index, procedures: Procedures, used: set<Id>, callee: Session)
    requires Indexed(callees, Owners(procedures), used)
    ensures procedures - Entries(callees, callee) == Without(procedures, callee)
  {
    DropSessionIndexed(callees, Owners(procedures), used, callee);
    assert forall id :: id in procedures ==>
      (id in Disowned(Owners(procedures), callee) <==> id !in Entries(callees, callee));
  }

  class Dealer {
    var procedures: Procedures
    var registrations: map<Uri, Id>
    var calls: map<Id, Session>
    var invocations: map<Id, Id>
    var callees: Index
    const net: Network

    // every registration id this dealer has handed out
    ghost var used: set<Id>

    ghost predicate Valid()
      reads this
    {
      Inverse(procedures, registrations) && Indexed(callees, Owners(procedures), used)
    }

    /** No stale ids: a callee's set is exactly the set of its live registrations. */
    ghost predicate Exact()
      reads this
    {
      NoStale(callees, Owners(procedures))
    }

    ghost function State(): DealerState
      reads this
    {
      DealerState(procedures, calls, invocations)
    }

    constructor (net: Network)
      ensures Valid() && Exact() && this.net == net
      ensures State() == EMPTY && used == {}
    {
      procedures, registrations, calls, invocations, callees := map[], map[], map[], map[], map[];
      this.net := net;
      used := {};
    }

    method AddCalleeRegistration(callee: Session, reg: Id)
      modifies this`callees
      ensures callees == AddEntry(old(callees), callee, reg)
    {
      if callee !in callees {
        callees := callees[callee := {}];
      }
      callees := callees[callee := callees[callee] + {reg}];
    }

    method Register(callee: Session, msg: Message, reg: Id)
      requires Valid() && msg.Register?
      requires reg !in used
      modifies this, net
      ensures Valid() && used == old(used) + {reg}
      ensures var o := OnRegister(old(State()), callee, msg, reg);
              State() == o.state && net.log == old(net.log) + o.out
      ensures Exact() <==> old(Exact())
    {
      used := used + {reg};
      InverseMeansOneCallee(procedures, registrations, msg.procedure);
      if msg.procedure in registrations {
        net.Send(callee, ErrorReply(REGISTER, msg.request, ERR_PROCEDURE_ALREADY_EXISTS));
        return;
      }
      RegisteredKeeps(procedures, registrations, callees, old(used), callee, msg.procedure, reg);
      procedures := procedures[reg := RemoteProcedure(callee, msg.procedure)];
      registrations := registrations[msg.procedure := reg];
      AddCalleeRegistration(callee, reg);
      net.Send(callee, Registered(msg.request, reg));
    }

    method RemoveCalleeRegistration(callee: Session, reg: Id)
      modifies this`callees
      ensures callees == RemoveEntry(old(callees), callee, reg)
    {
      if callee !in callees {
        return;
      }
      callees := callees[callee := callees[callee] - {reg}];
      if |callees[callee]| == 0 {
        callees := callees - {callee};
      }
    }

    method Unregister(callee: Session, msg: Message)
      requires Valid() && msg.Unregister?
      modifies this, net
      ensures Valid() && used == old(used)
      ensures procedures == old(procedures) - {msg.registration}
      ensures calls == old(calls) && invocations == old(invocations)
      ensures net.log == old(net.log) + [Envelope(callee,
                if msg.registration in old(procedures) then Unregistered(msg.request)
                else Message.Error(66, msg.request, "wamp.error.no_such_registration", Payload(None, None)))]
      // exactness is lost precisely when the registration belongs to another session
      ensures old(Exact()) ==>
                (Exact() <==> (msg.registration in old(procedures) ==>
                                 old(procedures)[msg.registration].endpoint == callee))
    {
      if msg.registration !in procedures {
        net.Send(callee, ErrorReply(UNREGISTER, msg.request, ERR_NO_SUCH_REGISTRATION));
      } else {
        RemovedIndexed(callees, procedures, used, callee, msg.registration);
        RemovedInverse(procedures, registrations, msg.registration);
        registrations := registrations - {procedures[msg.registration].procedure};
        procedures := procedures - {msg.registration};
        RemoveCalleeRegistration(callee, msg.registration);
        net.Send(callee, Unregistered(msg.request));
      }
    }

    method Call(caller: Session, msg: Message, invocation: Id)
      requires Valid() && msg.Call?
      modifies this`calls, this`invocations, net
      ensures Valid()
      ensures var o := OnCall(old(State()), caller, msg, invocation);
              State() == o.state && net.log == old(net.log) + o.out
    {
      InverseMeansOneCallee(procedures, registrations, msg.procedure);
      if msg.procedure !in registrations {
        net.Send(caller, ErrorReply(CALL, msg.request, ERR_NO_SUCH_PROCEDURE));
      } else {
        var reg := registrations[msg.procedure];
        if reg !in procedures {
          // turnpike answers wamp.error.internal_error here, and never gets here
          assert false;
        } else {
          var rproc := procedures[reg];
          calls := calls[msg.request := caller];
          invocations := invocations[invocation := msg.request];
          var details := map[];
          if BoolOption(msg.options, "disclose_me") == Some(true) {
            details := details["caller" := GoInt(TId, caller.id)];
          }
          net.Send(rproc.endpoint, Invocation(invocation, reg, details, msg.payload));
        }
      }
    }

    method Yield(callee: Session, msg: Message)
      requires Valid() && msg.Yield?
      modifies this`calls, this`invocations, net
      ensures Valid()
      ensures var o := OnAnswer(old(State()), msg);
              State() == o.state && net.log == old(net.log) + o.out
    {
      if msg.request in invocations {
        var callId := invocations[msg.request];
        invocations := invocations - {msg.request};
        if callId in calls {
          var caller := calls[callId];
          calls := calls - {callId};
          net.Send(caller, Result(callId, msg.payload));
        }
      }
    }

    method Error(peer: Session, msg: Message)
      requires Valid() && msg.Error?
      modifies this`calls, this`invocations, net
      ensures Valid()
      ensures var o := OnAnswer(old(State()), msg);
              State() == o.state && net.log == old(net.log) + o.out
    {
      if msg.request in invocations {
        var callId := invocations[msg.request];
        invocations := invocations - {msg.request};
        if callId in calls {
          var caller := calls[callId];
          calls := calls - {callId};
          net.Send(caller, Message.Error(CALL, callId, msg.error, msg.payload));
        }
      }
    }

    /** The body of the loop of `RemoveSession`; a stale entry has no procedure. */
    method DropRegistration(callee: Session, reg: Id)
      requires Valid() && reg in Entries(callees, callee)
      modifies this`procedures, this`registrations, this`callees
      ensures Valid() && (old(Exact()) ==> Exact())
      ensures procedures == old(procedures) - {reg}
      ensures Entries(callees, callee) == Entries(old(callees), callee) - {reg}
      ensures callees - {callee} == old(callees) - {callee}
    {
      RemovedIndexed(callees, procedures, used, callee, reg);
      assert reg in procedures ==> Owners(procedures)[reg] == callee;
      if reg in procedures {
        RemovedInverse(procedures, registrations, reg);
        registrations := registrations - {procedures[reg].procedure};
        procedures := procedures - {reg};
      }
      RemoveCalleeRegistration(callee, reg);
      assert procedures == old(procedures) - {reg};
    }

    /** Go's range yields each entry of the callee's set that is still there when its
        turn comes; the loop body deletes the entry it is at. */
    method RemoveSession(callee: Session)
      requires Valid()
      modifies this
      ensures Valid() && used == old(used)
      ensures State() == OnRemove(old(State()), callee)
      ensures callees == old(callees) - {callee}
      ensures old(Exact()) ==> Exact()
    {
      ghost var visited: set<Id> := {};
      ghost var was, owned := procedures, Entries(callees, callee);
      LeaveDecides(callees, procedures, used, callee);
      while Entries(callees, callee) != {}
        invariant Valid()
        invariant old(Exact()) ==> Exact()
        invariant visited + Entries(callees, callee) == owned
        invariant procedures == was - visited
        invariant callees - {callee} == old(callees) - {callee}
        modifies this`procedures, this`registrations, this`callees
        decreases Entries(callees, callee)
      {
        var reg :| reg in Entries(callees, callee);
        DropRegistration(callee, reg);
        visited := visited + {reg};
      }
      assert visited == owned;
    }
  }
}
