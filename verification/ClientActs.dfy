/** The maps of a client and the closures that its `run` goroutine executes on them, one at a
    time. Each closure does to the maps what the step of `ClientMachine` does. */
module ClientActs {
  import opened Wamp
  import opened ClientMachine

  /** The loops that look a name up in `events` and `procedures`: they range over the map in
      any order and stop at the first entry with the name. */
  method FindName(descs: map<Id, Desc>, name: Uri) returns (found: Option<Id>)
    ensures found.Some? ==> found.value in descs && descs[found.value].name == name
    ensures found.None? ==> forall id :: id in descs ==> descs[id].name != name
  {
    found := None;
    var rest := descs.Keys;
    while rest != {}
      invariant rest <= descs.Keys
      invariant forall id :: id in descs && id !in rest ==> descs[id].name != name
      invariant found.None?
    {
      var id :| id in rest;
      if descs[id].name == name {
        return Some(id);
      }
      rest := rest - {id};
    }
  }

  class Acts {
    var listeners: map<Id, Tid>
    var events: map<Id, Desc>
    var procedures: map<Id, Desc>

    /** The maps are those of the state `c` of the client machine. */
    ghost predicate Show(c: Client)
      reads this
    {
      listeners == c.listeners && events == c.events && procedures == c.procedures
    }

    constructor ()
      ensures Show(NEW)
    {
      listeners, events, procedures := map[], map[], map[];
    }

    // ---------- listeners ----------

    method RegisterListener(ghost c: Client, t: Tid, id: Id)
      requires Show(c) && Enabled(c, Listen(t)) && c.callers[t].id == id
      modifies this`listeners
      ensures Show(Do(c, Listen(t)))
    {
      listeners := listeners[id := t];
    }

    /** The closure at the start of `waitOnListener`. */
    method FetchListener(ghost c: Client, t: Tid, id: Id) returns (pc: Pc)
      requires Show(c) && Enabled(c, Fetch(t)) && c.callers[t].id == id
      ensures Show(Do(c, Fetch(t))) && At(Do(c, Fetch(t)), t, pc)
    {
      if id in listeners {
        pc := Waiting(listeners[id]);
      } else {
        pc := Done(NoListener);
      }
    }

    /** The closure at the end of `waitOnListener`. */
    method DeleteListener(ghost c: Client, t: Tid, id: Id)
      requires Show(c) && Enabled(c, Drop(t)) && c.callers[t].id == id
      modifies this`listeners
      ensures Show(Do(c, Drop(t)))
    {
      listeners := listeners - {id};
    }

    /** `notifyListener`: where the receive loop delivers a response. */
    method NotifyListener(ghost c: Client, msg: Message) returns (recv: Recv)
      requires Show(c) && Enabled(c, Accept(msg)) && IsResponse(msg)
      ensures Show(Do(c, Accept(msg))) && Do(c, Accept(msg)).recv == recv && Do(c, Accept(msg)).jobs == c.jobs
    {
      if msg.request in listeners {
        recv := Delivering(listeners[msg.request], msg);
      } else {
        recv := Polling;
      }
    }

    /** `handleInvocation`: the handler to start, or the refusal to send. */
    method HandleInvocation(ghost c: Client, msg: Message) returns (job: Option<Job>, recv: Recv)
      requires Show(c) && Enabled(c, Accept(msg)) && msg.Invocation?
      ensures Show(Do(c, Accept(msg))) && Do(c, Accept(msg)).recv == recv
      ensures Do(c, Accept(msg)).jobs == c.jobs + if job.Some? then multiset{job.value} else multiset{}
    {
      if msg.registration in procedures {
        job, recv := Some(Job(msg.request, msg.registration, procedures[msg.registration], msg.payload)), Polling;
      } else {
        job, recv := None, Refusing(NoHandler(msg));
      }
    }

    // ---------- handlers ----------

    method AddEvent(ghost c: Client, t: Tid, subscription: Id, desc: Desc)
      requires Show(c) && Enabled(c, Settle(t)) && c.callers[t].request == WantSubscribe(desc.name, desc.handler)
      requires c.callers[t].pc.m.Subscribed? && c.callers[t].pc.m.subscription == subscription
      modifies this`events
      ensures Show(Do(c, Settle(t)))
    {
      events := events[subscription := desc];
    }

    /** An UNSUBSCRIBE can begin exactly when this finds a subscription to give up. */
    method FindSubscription(ghost c: Client, topic: Uri) returns (found: Option<Id>)
      requires Show(c)
      ensures found.Some? ==> TargetFound(c, WantUnsubscribe(topic, found.value))
      ensures found.None? ==> forall target :: !TargetFound(c, WantUnsubscribe(topic, target))
    {
      found := FindName(events, topic);
    }

    method DeleteEvent(ghost c: Client, t: Tid, topic: Uri, subscription: Id)
      requires Show(c) && Enabled(c, Settle(t)) && c.callers[t].request == WantUnsubscribe(topic, subscription)
      requires c.callers[t].pc.m.Unsubscribed?
      modifies this`events
      ensures Show(Do(c, Settle(t)))
    {
      events := events - {subscription};
    }

    method AddProcedure(ghost c: Client, t: Tid, registration: Id, desc: Desc)
      requires Show(c) && Enabled(c, Settle(t)) && c.callers[t].request == WantRegister(desc.name, desc.handler)
      requires c.callers[t].pc.m.Registered? && c.callers[t].pc.m.registration == registration
      modifies this`procedures
      ensures Show(Do(c, Settle(t)))
    {
      procedures := procedures[registration := desc];
    }

    /** An UNREGISTER can begin exactly when this finds a registration to give up. */
    method FindRegistration(ghost c: Client, procedure: Uri) returns (found: Option<Id>)
      requires Show(c)
      ensures found.Some? ==> TargetFound(c, WantUnregister(procedure, found.value))
      ensures found.None? ==> forall target :: !TargetFound(c, WantUnregister(procedure, target))
    {
      found := FindName(procedures, procedure);
    }

    method DeleteProcedure(ghost c: Client, t: Tid, procedure: Uri, registration: Id)
      requires Show(c) && Enabled(c, Settle(t)) && c.callers[t].request == WantUnregister(procedure, registration)
      requires c.callers[t].pc.m.Unregistered?
      modifies this`procedures
      ensures Show(Do(c, Settle(t)))
    {
      procedures := procedures - {registration};
    }
  }
}
