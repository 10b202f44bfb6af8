# Verification of the turnpike router and client

Turnpike is a WAMP v2 router and client in Go. This project models its four layers and
proves what they guarantee together:

1. **Dealer and broker** (`Broker.dfy`, `Dealer.dfy`): classes over the same linked maps as
   the Go structs. The broker's three maps represent one relation of live subscriptions
   (`BrokerSpec.dfy`); the dealer's five maps represent live registrations, pending calls and
   pending invocations (`DealerSpec.dfy`). Every method is proved to act on the relation as
   specified and to send exactly the specified messages. `SessionIndex.dfy` is the part both
   share: the per-session sets, which may hold stale ids. `DealerRuns.dfy` proves conservation
   of calls and provenance of answers over all runs of a dealer.
2. **The concurrent router** (`Realm.dfy`, `RouterMachine.dfy`, `RouterSafety.dfy`,
   `RouterTheorems.dfy`, `DealerInterleaved.dfy`, `RouterLife.dfy`, `RouterWork.dfy`): the
   sequential session loop as a method, then all interleavings of session threads, the realm's
   `run` goroutine, the broker's read-write lock and the dealer's mutex. Every atomic step is at
   most one lock operation, one body of a critical section, or one send. The theorems hold of
   every reachable state: one sequential history explains each interleaving, the locks never
   deadlock, and the work received can always be finished. `Protocol.dfy` says what each type of
   message does in the protocol's own terms (option values, type codes and URIs written out, no
   function of the specification), and `ProtocolRuns.dfy` says it of every interleaving.
3. **The client and the whole system** (`ClientMachine.dfy`, `ClientActs.dfy`,
   `Correlation.dfy`, `ClientMeaning.dfy`, `RpcSystem.dfy`, `RpcInvariants.dfy`, `RpcClientSteps.dfy`,
   `RpcRouterSteps.dfy`, `RpcTheorems.dfy`, `RpcDelivery.dfy`, `RpcCollision.dfy`,
   `RpcHistory.dfy`): a client's goroutines and the maps that only its `acts` closures touch,
   then any number of clients connected to one router by FIFO pipes, up to end-to-end
   correctness of remote calls. `ClientMeaning.dfy` says what calls return and which handlers
   are in place in the protocol's own terms, in every run; `RpcHistory.dfy` says that the record
   which the end-to-end theorems speak of is what happened.
4. **The codec** (`Codec.dfy`, `MessageCodec.dfy`, `Binary64.dfy`): `toList` and `apply` over
   all 24 message schemas, the lists that the router's and the client's messages become and the
   messages that come back, and what JSON's numbers do to ids.

`Wamp.dfy` holds the types all of them use.

## Assumptions

- Ids drawn by `NewID` are new: never handed out before (`util.go` draws at random below 2^53).
  The classes keep a ghost set of used ids, the machines a set of drawn ids. Sessions are
  identified by their pointer (`handle`), and session ids are unique in the router machine.
- Request ids of different clients are *not* assumed distinct in the dealer, the realm and the
  router machine: `calls` is keyed by the request id alone. `DealerRuns` proves what holds
  regardless, exactly when an answer goes to the right caller, and shows the case in which it
  does not (`ReusedRequestIsMisrouted`). Only `RpcSystem` assumes that no call begins with a
  request id that is still in use somewhere.
- Sending succeeds, and the interceptor is the default one, which changes nothing. The
  authorizer is arbitrary: every message comes with any verdict.
- `Unregister` and `Unsubscribe` do not check who owns the entry. A removal by another session
  leaves a stale id in the owner's set. `Valid` allows that, `Exact` says there is none, and the
  contracts of the two methods say exactly when exactness is lost. In a system of turnpike
  clients it never is (`RpcTheorems.SessionSetsAreExact`).

## What is proved false

- With two callers that use the same request id, the first caller's answer goes to the second
  one (`DealerRuns.ReusedRequestIsMisrouted`). The exact condition is
  `DealerRuns.RightCallerIff`, and accepted calls are accounted for exactly when no outstanding
  request id is reused (`DealerRuns.ConservationIff`).
- A call can get a second response, and a client's receive loop can block for good. An
  authorizer that refuses a YIELD or an ERROR makes the router answer with an ERROR that echoes
  the invocation id, or zero, and the client takes it for a response to its own request with
  that id. `RpcCollision.RefusedYieldBlocks` is a run in which the echo meets a full channel
  whose call times out. In the systems of `RpcSystem.dfy`, which have no PUBLISH, every call has
  at most one response at a time exactly when no echo is for a call that has a response or is
  not answered yet (`RpcDelivery.SettlesIffNoHits`), and then no receive loop blocks. There is no
  such echo, whatever the ids, under an authorizer that lets YIELD and ERROR pass, such as the
  default one. For one client and any router, the loop blocks exactly when it reads a response
  for a full channel (`Correlation.NeverBlocksIff`).
- Ids above 2^53 are in general changed by JSON (`Binary64.FirstLostId`). The exact condition is
  `Codec.JsonRoundTrip`.

## Model

| member | source | states |
|---|---|---|
| Brokers.Broker.constructor | broker.go:28-34 | a new broker represents the empty relation |
| Brokers.Broker.Publish | broker.go:40-72 | for each live subscription of the topic one EVENT, for the publisher's own only if `exclude_me` is false, for any other subscription none, in some order and all under one publication id, then PUBLISHED exactly if `acknowledge` is true; the maps are untouched |
| Brokers.Broker.Multicast | broker.go:54-66 | the loop over the routes of a topic, in whatever order the map yields them |
| Brokers.Broker.Subscribe | broker.go:75-97 | adds one subscription to the relation, keeps the three maps in agreement and replies SUBSCRIBED |
| Brokers.Broker.Unsubscribe | broker.go:99-141 | removes the subscription and answers UNSUBSCRIBED if it was live, and otherwise answers ERROR 34 no_such_subscription; exact sets stay exact if and only if the sender owned it |
| Brokers.Broker.Forget | broker.go:147-163 | one round of the removal loop: the id leaves the relation, a stale id is skipped, an emptied topic is dropped |
| Brokers.Broker.RemoveSession | broker.go:143-165 | the relation afterwards is the old one without the session's subscriptions, stale ids or not, and no route names the session; all others stay |
| Brokers.AddRouteRepresents | broker.go:79-93 | adding a route keeps routes, subscriptions and the relation in agreement |
| Brokers.DropRouteRepresents | broker.go:113-125 | dropping a route keeps them in agreement and leaves no empty inner map |
| BrokerSpec.MulticastIsExact | broker.go:54-66 | a publication holds exactly one EVENT for each reached subscription, none for any other, all with the same publication id and the publisher's arguments |
| BrokerSpec.OthersStillReached | broker.go:143-165 | after a removal every publication reaches the remaining sessions exactly as before |
| SessionIndex.AddEntryIndexed | dealer.go:222-227 | adding a new id keeps every owned id in its owner's set, and exact sets exact |
| SessionIndex.RemoveEntryIndexed | dealer.go:229-237 | removing an id someone owns keeps the sets sound; they stay exact if and only if the remover is the owner |
| SessionIndex.RemoveStaleIndexed | dealer.go:229-237 | removing a stale id does no harm |
| SessionIndex.DropSessionIndexed | broker.go:147-164 | the session's set, stale ids included, selects exactly the entries it owns |
| Dealers.Dealer.constructor | dealer.go:44-52 | a new dealer has the empty state |
| Dealers.Dealer.Register | dealer.go:54-78 | registers a URI once, refuses a second callee, replies once, keeps the maps inverse and the sets sound |
| Dealers.Dealer.Unregister | dealer.go:80-102 | removes the registration and answers UNREGISTERED if it was live, and otherwise answers ERROR 66 no_such_registration; exact sets stay exact if and only if the sender owned it |
| Dealers.Dealer.Call | dealer.go:104-153 | dispatches to the callee of the URI or refuses; the internal-error branch is dead |
| Dealers.Dealer.Yield | dealer.go:155-181 | the first YIELD for an invocation is relayed to the recorded caller under the recorded request id; any other changes nothing |
| Dealers.Dealer.Error | dealer.go:183-208 | likewise for the callee's ERROR |
| Dealers.Dealer.RemoveSession | dealer.go:210-220 | the loop that deletes from the set it ranges over removes exactly the session's registrations and its set; pending calls stay |
| Dealers.Dealer.DropRegistration | dealer.go:213-219 | one round of that loop, stale entries included |
| Dealers.Dealer.AddCalleeRegistration | dealer.go:222-227 | the callee's set gains the id |
| Dealers.Dealer.RemoveCalleeRegistration | dealer.go:229-237 | the callee's set loses the id and goes away when empty |
| Dealers.InverseMeansOneCallee | dealer.go:54-72 | inverse maps give each URI at most one callee, the one that `registrations` leads to |
| Dealers.AddedInverse | dealer.go:68-69 | registering keeps the two maps inverse if and only if the drawn id is not in use |
| Dealers.RemovedInverse | dealer.go:93-94 | unregistering keeps them inverse |
| Dealers.LeaveDecides | dealer.go:213-219 | the callee's set, stale ids included, selects exactly its registrations |
| DealerRuns.Conservation | dealer.go:125-130 | in every run, in total and under each request id, accepted CALLs are the answers sent plus the pending calls plus the calls that were overwritten by a CALL with the same request id |
| DealerRuns.ConservationIff | dealer.go:125-208 | answers and pending calls account for all accepted CALLs if and only if no outstanding request id was reused |
| DealerRuns.AnswersNeverExceedCalls | dealer.go:155-208 | final answers under a request id never exceed its CALLs |
| DealerRuns.InvocationHistory | dealer.go:125-130 | an invocation is pending if and only if a CALL created it and nothing has named it since |
| DealerRuns.CallHistory | dealer.go:127-127 | a request id is pending for a session if and only if its last accepted CALL came from that session and no answer followed |
| DealerRuns.AnswerProvenance | dealer.go:155-208 | every answer stems from an invocation made by an earlier CALL, carries that CALL's request id and the arguments of the first YIELD or ERROR naming the invocation, and goes to the last caller under the request id |
| DealerRuns.OnlyFirstAnswerCounts | dealer.go:155-208 | after the first YIELD or ERROR for an invocation all later ones change nothing and send nothing |
| DealerRuns.RightCallerIff | dealer.go:125-130 | the answer reaches the session whose CALL made the invocation if and only if the last accepted CALL under the request id came from that session |
| DealerRuns.RightCallerWithoutCollision | dealer.go:125-208 | it does when no outstanding request id was reused |
| DealerRuns.ReusedRequestIsMisrouted | dealer.go:127-127 | a run in which an answer goes to the wrong caller |
| DealerRuns.PendingCallHasInvocation | dealer.go:127-129 | every pending call has a pending invocation, however request ids clash |
| DealerRuns.PendingBijection | dealer.go:127-129 | without reuse, pending invocations and pending calls are in one-to-one correspondence |
| DealerRuns.AtMostOneCallee | dealer.go:57-69 | in every run a URI has at most one callee |
| RealmSpec.OneReply | realm.go:151-202 | a SUBSCRIBE, UNSUBSCRIBE, REGISTER or UNREGISTER gets one reply with its own request id, and an unauthorized one changes nothing |
| RealmSpec.RepliesOfTurn | realm.go:134-218 | a turn of the loop sends one reply if it serves a request with the given id, and none otherwise |
| Realms.OneReplyPerRequest | realm.go:134-218 | over a whole run of a session's loop the replies under a request id are as many as the requests served with it |
| Realms.Realm.constructor | realm.go:73-95 | a new realm has no clients and an empty broker and dealer |
| Realms.Realm.Serve | realm.go:134-217 | one round of the loop: kill, refusal by the authorizer, or the effect and the messages of the dispatched message |
| Realms.Realm.Dispatch | realm.go:182-217 | an authorized message has its specified effect on broker and dealer |
| Realms.Realm.DispatchToDealer | realm.go:196-213 | dealer messages act on the dealer alone |
| Realms.Realm.Loop | realm.go:134-218 | the loop of a joined session is a chain of such rounds, one per arrival; it ends before its inbox does only on a kill request or an authorized GOODBYE |
| Realms.Realm.HandleSession | realm.go:115-219 | the session is joined while its loop runs, with the same end; after the deferred act it is no client and no map names it, and everything sent is what the turns sent |
| Realms.NothingAfterGoodbye | realm.go:144-187 | no chain of rounds goes on after a kill request or an authorized GOODBYE |
| Protocol.PublishReaches | broker.go:49-66 | a turn of an authorized PUBLISH gives each live subscription of the topic one EVENT, the publisher's own only if the options map `exclude_me` to false, and changes nothing |
| Protocol.PublishAcknowledges | broker.go:68-71 | PUBLISHED is sent, once and last, exactly when the options map `acknowledge` to true |
| Protocol.SubscribeMeans | broker.go:75-97 | SUBSCRIBED with the drawn id, under which one subscription is added |
| Protocol.UnsubscribeMeans | broker.go:99-141 | UNSUBSCRIBED exactly if the subscription was live, and then it is removed |
| Protocol.RegisterMeans | dealer.go:54-78 | REGISTERED exactly if no registration had the URI, and then one is added |
| Protocol.UnregisterMeans | dealer.go:80-102 | UNREGISTERED exactly if the registration was live, and then it is removed |
| Protocol.CallMeans | dealer.go:104-153 | one INVOCATION to the holder of the procedure, with the caller's id exactly if `disclose_me` is true, and the call is pending; or ERROR 48 no_such_procedure |
| Protocol.AnswerMeans | dealer.go:155-208 | a YIELD, or ERROR 68, ends the invocation it names and goes to the session waiting for it as RESULT, or as ERROR 48 with the same error and arguments |
| Protocol.FarewellMeans | realm.go:144-187 | GOODBYE is answered with goodbye_and_out, a kill request with its reason |
| Protocol.OthersAreIgnored | realm.go:204-217 | other messages, ERRORs of other types included, change and send nothing |
| Protocol.RefusalMeans | realm.go:151-178 | an unauthorized message changes nothing and gets one ERROR with its own type code; the request id is its own for seven types and zero for the others; the URI tells denial from failure |
| Protocol.RepliesAndRequests | realm.go:151-202 | which messages are counted as replies to a session's request id, and which as its requests |
| Protocol.LeaveMeans | broker.go:143-165 | a session that leaves takes its own subscriptions and registrations along and nothing else |
| ProtocolRuns.PublishIsExact | broker.go:40-72 | in every interleaving a completed PUBLISH sent exactly one EVENT to each subscription of the topic live at its moment of the history (its own only if `exclude_me` is false) and none to others; PUBLISHED came last, exactly when `acknowledge` is true |
| ProtocolRuns.SubscribeIsGranted | broker.go:75-97 | in every interleaving a completed SUBSCRIBE was answered with the id under which it was added |
| ProtocolRuns.UnsubscribedIffLive | broker.go:99-141 | in every interleaving a completed UNSUBSCRIBE was answered UNSUBSCRIBED if and only if its subscription was live at its moment |
| ProtocolRuns.RegisteredIffFree | dealer.go:54-78 | in every interleaving a completed REGISTER was answered REGISTERED if and only if nobody had its URI at its moment |
| ProtocolRuns.UnregisteredIffLive | dealer.go:80-102 | in every interleaving a completed UNREGISTER was answered UNREGISTERED if and only if its registration was live at its moment |
| ProtocolRuns.CallIsDispatched | dealer.go:104-153 | in every interleaving a completed CALL went as one INVOCATION to the session that held the procedure at its moment, or was refused because nobody did |
| ProtocolRuns.AnswerIsRelayed | dealer.go:155-208 | in every interleaving a completed YIELD or ERROR went to the session that waited for its invocation at its moment, as RESULT or ERROR, and to nobody otherwise |
| RouterSafety.MulticastDone | broker.go:54-71 | a publication that visited all routes under the read lock is a turn of the sequential loop |
| RouterSafety.SnapStep | broker.go:54-66 | nobody changes the subscriptions while a publisher holds the read lock |
| RouterTheorems.MutualExclusion | broker.go:54-138 | the locks exclude: no writer beside a writer or a publisher, no two threads in the dealer |
| RouterTheorems.Linearizable | realm.go:115-219 | every interleaving is explained by one sequential history of the maps that respects each session's order, and each finished message sent what the sequential loop sends at its moment |
| RouterTheorems.RealTimeOrder | realm.go:134-218 | the sequential history respects real time: a message completed before another one, of any session, was received has its moment before it |
| RouterTheorems.NoEventAfterUnsubscribed | broker.go:54-140 | in every interleaving, after UNSUBSCRIBED for a subscription no EVENT for it is sent |
| RouterTheorems.SessionOrder | realm.go:134-205 | everything sent for one message of a session precedes everything sent for its later messages: EVENTs of two publications, INVOCATIONs of two calls |
| RouterTheorems.RequestAnsweredOnce | realm.go:151-202 | in every interleaving a completed request has been answered exactly once |
| RouterTheorems.NoDanglingSessions | realm.go:115-130 | between acts every session named by broker or dealer is in `clients`; a session whose removal act was done at any moment of a run stays removed: neither broker nor dealer names it and its id is not in `clients` |
| RouterLife.LoopEndsIff | realm.go:134-187 | in every interleaving a session receives nothing after a kill request or an authorized GOODBYE, and its loop is over if and only if it is done with one, or has lost its connection |
| RouterLife.NoDeadlock | broker.go:54-165 | in every interleaving, while a message is being served or a session removed, some step of that work can be taken: the locks never deadlock |
| RouterLife.AlwaysOpen | realm.go:115-143 | a session that is done with its messages can receive any other one, and between acts any session can join and any ended one be removed |
| RouterWork.WorkEnds | broker.go:54-71 | each step of the work received leaves less of it, so that no schedule of the threads goes on with it for ever |
| RouterWork.AllIsFinished | realm.go:115-219 | from every state of every interleaving all messages received and the removal under way can be finished without receiving anything more |
| DealerInterleaved.DealerIsInARun | dealer.go:54-220 | in every interleaving the dealer's state is that of a run of its messages in the order of their critical sections, with distinct invocation ids |
| DealerInterleaved.ConcurrentConservation | dealer.go:125-208 | in every interleaving, in total and under each request id, the accepted CALLs are the final answers in the send log, those that a thread has decided on and not sent yet, the pending calls and the overwritten ones |
| DealerInterleaved.ConcurrentPendingCalls | dealer.go:125-208 | every pending call has a pending invocation, in every interleaving |
| DealerInterleaved.OneAnswerPerInvocation | dealer.go:155-208 | in every interleaving no two sent messages answer the same invocation |
| DealerInterleaved.LoggedAnswer | dealer.go:155-208 | in every interleaving each final answer in the send log carries the request id recorded when its invocation was made and the arguments of the first YIELD or ERROR naming it, to the last caller under the request id |
| ClientActs.FindName | client.go:445-451 | finds an entry with the name if and only if there is one, in whatever order the map is walked |
| ClientActs.Acts.constructor | client.go:66-75 | the maps of a new client |
| ClientActs.Acts.RegisterListener | client.go:356-365 | the closure does to the maps what the client machine's step does |
| ClientActs.Acts.FetchListener | client.go:374-381 | likewise, and says where the waiting call gets to |
| ClientActs.Acts.DeleteListener | client.go:390-392 | likewise |
| ClientActs.Acts.NotifyListener | client.go:291-308 | likewise, and says where a response is delivered |
| ClientActs.Acts.HandleInvocation | client.go:310-354 | likewise: starts the handler of the registration or refuses |
| ClientActs.Acts.AddEvent | client.go:424-430 | likewise, after SUBSCRIBED |
| ClientActs.Acts.FindSubscription | client.go:444-457 | an UNSUBSCRIBE can begin if and only if the topic has a handler |
| ClientActs.Acts.DeleteEvent | client.go:477-481 | likewise, after UNSUBSCRIBED |
| ClientActs.Acts.AddProcedure | client.go:513-519 | likewise, after REGISTERED |
| ClientActs.Acts.FindRegistration | client.go:545-558 | an UNREGISTER can begin if and only if the procedure has a handler |
| ClientActs.Acts.DeleteProcedure | client.go:578-582 | likewise, after UNREGISTERED |
| Correlation.ResponseMatchesRequest | client.go:291-394 | whatever the router sends, a message that a waiting call returns carries the call's request id |
| Correlation.ResponseFindsItsCaller | client.go:291-308 | with distinct request ids a response is handed to its call if and only if the call's listener is still in place |
| Correlation.NeverBlocksIff | client.go:291-308 | whatever the router sends, the receive loop can deliver all along a run if and only if it never reads a response for a call whose channel is full |
| Correlation.ReceiveLoopNeverBlocks | client.go:303-304 | with at most one response per request the capacity-one channel never blocks the receive loop |
| Correlation.NoLostWakeUp | client.go:291-394 | with distinct request ids, a response that was delivered to a call at any earlier step, also before the call came to wait, stays in its channel until the call takes it: the call gets to wait on that channel and takes just that message |
| ClientMeaning.SettleMeans | client.go:417-431 | a call that got ERROR fails with it, one that got the response type of its request succeeds and puts its handler into place or out of it, any other response is an error |
| ClientMeaning.AcceptMeans | client.go:238-268 | six types of messages go to the listener of their request id; an INVOCATION starts the handler of its registration or is refused with ERROR 68; nothing else has an effect |
| ClientMeaning.OutputMeans | client.go:315-348 | what calls, handlers and refusals send, field by field |
| ClientMeaning.CallAdvances | client.go:356-394 | a call goes from registering its listener to its return, and at each point it can go on; a wait ends by taking the channel's message or by timing out |
| ClientMeaning.ClientIsOpen | client.go:436-457 | a call can begin unless there is nothing to give up under its name; a delivery waits only for a full channel; a handler can always end |
| ClientMeaning.OutcomeIsRight | client.go:626-636 | in every run a finished call's outcome is what its request and the response say: `Call` returns RESULT as its success, with or without arguments |
| ClientMeaning.OutcomeComesFrom | client.go:291-394 | in every run a returned message was read from the router, a call is out of time exactly when its wait timed out, and with distinct request ids it never misses its listener |
| ClientMeaning.HandlersAreSubscribed | client.go:424-584 | in every run a handler is in place exactly since its SUBSCRIBED or REGISTERED, and until its UNSUBSCRIBED or UNREGISTERED |
| RpcTheorems.EndToEndRpc | client.go:610-637 | in every run of clients and router, a RESULT that a finished `Call` holds is its success, and was produced, on the call's arguments, by the handler that the dispatched callee's client registered under the very registration the dealer used for the called procedure |
| RpcTheorems.EndToEndError | client.go:610-637 | an ERROR about the call that a finished `Call` holds is its failure, and is the router's own refusal, the answer of a callee without a handler, or what that handler returned on the call's arguments |
| RpcTheorems.ErrorExplainedMeans | client.go:310-354 | what that comes to: one of three error URIs without arguments, or, for an invocation of just this call, the client's URI for a missing handler or the error and arguments that the handler returned |
| RpcTheorems.DispatchedToHolder | dealer.go:125-147 | every invocation went, at some moment of the run, to the session that then held the called procedure |
| RpcTheorems.ClientAndRouterAgree | client.go:400-584 | a client's handler entry is live at the router under the same name and session, unless the client has sent its removal or its session ended |
| RpcTheorems.SessionSetsAreExact | broker.go:75-141 | in such systems the router's per-session sets hold exactly the session's live ids |
| RpcTheorems.RemovalsAreOwn | dealer.go:80-102 | in such systems no UNSUBSCRIBE or UNREGISTER on its way removes another session's entry |
| RpcHistory.HandlerRan | client.go:314-339 | a handler's run is on record, with its arguments and result, if and only if it ended in the run |
| RpcHistory.GrantedByRouter | dealer.go:54-78 | what is on record as granted was granted at a moment of the run, for a SUBSCRIBE, or for a REGISTER of a procedure that nobody held then |
| RpcHistory.ReleasedByClient | client.go:459-468 | what is on record as given up, a client gave up by its UNSUBSCRIBE or UNREGISTER at a moment of the run |
| RpcHistory.EndedInRun | realm.go:122-130 | a session is on record as ended if and only if the router removed it in the run |
| RpcHistory.ClientsAreOpen | client.go:237-239 | sessions can connect and end, and a client can read what was sent to it, in order |
| RpcHistory.RouterTakesInOrder | realm.go:134-151 | the router can take any message of a session, whatever the verdict, in order |
| RpcHistory.RouterSendsInOrder | dealer.go:141-147 | the router can send what it has decided on, in order |
| RpcDelivery.RouteAnswers | dealer.go:155-208 | a response the router decides on answers a request that was not answered before, unless it is the refusal of a YIELD or ERROR |
| RpcDelivery.HitBreaks | realm.go:151-178 | refusing a YIELD or ERROR with the request id of an unfinished call of its sender that has a response or is not answered yet gives that call a second response, or one to an unanswered request |
| RpcDelivery.SettlesIffNoHits | realm.go:151-178 | in every run of clients and router every unfinished call has at most one response at any time, on its way or in its channel, and none while its request is not answered, if and only if the router makes no such refusal |
| RpcDelivery.ReceiveLoopsNeverBlock | client.go:291-308 | in every run without such a refusal every receive loop can deliver the response it holds |
| RpcDelivery.NoHitsWhenAnswersPass | authorizer.go:21-23 | whatever the ids, no such refusal happens when the authorizer refuses no YIELD and no ERROR; the default authorizer refuses nothing |
| RpcDelivery.NoHitsWhenApart | util.go:79-82 | whatever is refused, none happens while no unfinished call uses a router-drawn id or zero as its request id |
| RpcCollision.RefusedYieldBlocks | realm.go:151-178 | a whole run in which the refusal of a YIELD goes to the full channel of a call that times out: however the run goes on, the client's receive loop never delivers or reads again |
| RpcCollision.StuckForever | client.go:303-304 | a receive loop that holds a response for the full channel of a call that has given up waiting stays stuck in every continuation of the run |
| RpcClientSteps.SelfStays | client.go:237-394 | a step of a client keeps everything that is known of the client |
| RpcClientSteps.OutputGood | client.go:314-348 | every message a client sends is true of the system's history |
| RpcRouterSteps.GrantsAfter | broker.go:75-141 | live entries stay those that were granted and not given up |
| RpcRouterSteps.PendingAfter | dealer.go:125-208 | pending invocations and calls stay matched with the calls that clients made |
| RpcRouterSteps.OutsGood | dealer.go:141-207 | every message the router sends is true of the system's history |
| Codec.AllTypesAreGood | message.go:10-68 | all 24 structs have a first field, convertible field types, and only slices and maps that may be left out |
| Codec.Kept | serialize.go:128-135 | the kept prefix ends in a field that may not be dropped, or is the first field, and all behind it may be dropped |
| Codec.ShortestIsUnique | serialize.go:128-135 | only one prefix is like that |
| Codec.ToList | serialize.go:122-142 | the type code and the shortest prefix of the fields that loses nothing |
| Codec.IntegerConversion | serialize.go:42-45 | an integer keeps its value modulo 2^64 in the range of the field |
| Codec.FloatConversion | serialize.go:42-45 | a float loses its fraction, and has no defined conversion exactly when the rest is out of range |
| Codec.OtherConversions | serialize.go:42-58 | which other values convert, and to what: strings, characters, slices and maps; nothing else |
| Codec.SkippedCell | serialize.go:33-37 | a field without an entry, or with a nil one, keeps its zero value |
| Codec.FillMeans | serialize.go:33-59 | `apply` succeeds if and only if each field can be set, and sets each field to its own entry, converted, or leaves it zero |
| Codec.FillFailsFirst | serialize.go:46-58 | otherwise the error is that of the first field that cannot be set |
| Codec.SetField | serialize.go:34-58 | one round of the loop: the entry is skipped, sets the field, or is the failure of the whole |
| Codec.Refill | serialize.go:33-60 | the loop over the fields does that |
| Codec.Apply | serialize.go:24-61 | `apply`, unknown type codes included |
| Codec.NormalDiffersInEmptyPayloads | serialize.go:128-135 | what comes back differs from the original only in nil for trailing empty payloads |
| Codec.RoundTrip | serialize.go:24-142 | every message of every type comes back from `apply` of `toList`, up to that, and is listed in the same way again |
| MessageCodec.Schemas | message.go:10-68 | the 24 codes that name structs, and the structs of the seven types that are no messages of the model |
| MessageCodec.WireHead | message.go:169-430 | for each of the 17 types of messages in the model the type code and the fields in front of the payload |
| MessageCodec.WireForm | serialize.go:122-142 | the list a message becomes: code, fields, and the payload as far as it is not empty |
| MessageCodec.StructIsTyped | message.go:165-430 | a message fits into its struct if and only if its ids are below 2^64 and its type code below 2^63 |
| MessageCodec.MessageRoundTrip | serialize.go:24-142 | the same message, arguments included, comes back from its list, but for trailing empty arguments, which become nil |
| MessageCodec.MessageThroughJson | serialize.go:193-208 | and through JSON, when its ids are at most 2^53 and its values are those of JSON |
| Codec.JsonStays | serialize.go:193-208 | values that JSON has are not changed by it |
| Codec.JsonMeans | serialize.go:193-208 | every value becomes a value of JSON, entry by entry, with its numbers rounded |
| Codec.DeserializeRefuses | serialize.go:197-207 | what an empty list, a list without a type code and an unknown type code give |
| Codec.JsonRoundTrip | serialize.go:193-208 | a message gets through JSON if and only if its ids are binary64 numbers |
| Codec.DrawnIdsGetThrough | util.go:71-82 | ids as `NewID` draws them, below its limit of 2^53, get through |
| Binary64.RoundIsNearestEven | serialize.go:202-203 | rounding gives a binary64 number, none is nearer, and ties go to the even one |
| Binary64.RoundIntIsNearest | serialize.go:202-203 | negative numbers too become a binary64 number that none is nearer than |
| Binary64.SurvivesIffRepresentable | serialize.go:42-45 | a number survives if and only if it is a binary64 number |
| Binary64.IdsSurvive | util.go:71-82 | all ids up to 2^53 survive |
| Binary64.PrecisionIs53Bits | util.go:71-73 | the bound of the precision is 2^53 |
| Binary64.FirstLostId | util.go:71-73 | 2^53 + 1 does not: the bound is tight |

## Left out

- Transport: websockets, HTTP, dialing, TLS, logging, the realm table of the router. Pipes are unbounded and sending succeeds, so the early returns after a failed send are not modelled.
- Byte formats: encoding/json, msgpack, base64 and `BinaryData`. The codec is modelled from the list of values on, with strings as sequences of characters. `MessagePackSerializer` and byte slices are not modelled.
- Codec.Apply: source maps whose keys are not strings, and pointers, are not modelled; the element loops of `applySlice` and `applyMap` are one copy, because in all 24 structs the element type is `interface{}` and every element is taken as it is. A float64 outside the range of the target integer is an error of its own here, because Go leaves its conversion to the implementation.
- Fairness: `RouterWork` proves that the router's work can always be finished and never goes on for ever by itself; that the Go scheduler lets every goroutine run is not modelled.
- Time and randomness: a timeout may happen at any moment a call waits; `NewID` is an arbitrary new id, in the router machine drawn when the message is received.
- Closing: `Realm.Close`, the closed `acts` channel, and the closing of listener channels when a client's pipe closes. `Close` busy-waits while leave events are published into a bounded pipe from the same goroutine.
- Publications by the realm's own client on join and leave: they are messages of one more session.
- Authentication (`handleAuth`, `authenticate`, `checkResponse`): easy members, done before a session exists.
- REGISTERED before INVOCATION and SUBSCRIBED before EVENT: both replies are sent after unlocking, so these orders can fail; nothing is claimed.
- Pending calls and invocations of a lost session stay in the dealer, in the code and in the model.
- Details of ERROR, EVENT, RESULT and GOODBYE messages, which are empty, and the registration number in the text of a client's refusal are left out of the messages outside the codec.
- The goroutines of client.go and realm.go are modelled as steps of state machines on values; the maps they share are classes in `ClientActs.dfy`, `Broker.dfy`, `Dealer.dfy` and `Realm.dfy`. A body of a critical section is one step, which the locks justify for a body that sends nothing; the publishing loop, which sends under the read lock, is many steps.
- Options of SUBSCRIBE and REGISTER: the router never looks at them, so the client machine sends none. `handleEvent`, which starts a handler for an EVENT, is not modelled; the entries of `events` it looks up are.
- Events and publications are not part of `RpcSystem.dfy` (a refused PUBLISH too is answered with its own request id, which is then no call's), and its router handles a critical section in one step and sends afterwards.
- RpcTheorems.EndToEndRpc: the handler is an arbitrary relation between arguments and result or error; its run is recorded when it ends.
- RpcTheorems.EndToEndError: says nothing of an ERROR of another type than CALL; that is the refusal of a YIELD or ERROR, which reaches a call only if ids collide.
- Correlation.ReceiveLoopNeverBlocks: assumes at most one response per request, because it is about one client and any router; `RpcDelivery.SettlesIffNoHits` says when clients and router keep to that.
