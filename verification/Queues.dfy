/**
 The life of a client's queue: who may close it and when. In every run an open queue of an admitted
 client is in the care of the session that admitted it, so no handler waits for a queue nobody will
 close. As long as the queues in a pool are open, each is closed once, by a remove request or by
 the end of the session.
 */
module Queues {
  import opened Broker
  import Ownership

  predicate Accepted(stage: Stage)
  {
    !stage.Requesting? && !stage.Waiting? && !stage.Refused?
  }

  /** The handler has not handed in its remove request. */
  predicate Present(stage: Stage)
  {
    stage.Admitted? || stage.Greeting? || stage.Serving? || stage.Leaving?
  }

  /** The handler's remove request was received. */
  predicate Gone(stage: Stage)
  {
    stage.Draining? || stage.Drained? || stage.Departed? || stage.Released?
  }

  function Todo(p: Phase): set<ClientId>
  {
    if p.Distributing? || p.Closing? then p.todo else {}
  }

  /** The clients whose queues a call is responsible for. */
  function Members(c: Call): set<ClientId>
  {
    if c.phase.Closing? then c.phase.todo else if Ownership.Owns(c.phase) then c.pool else {}
  }

  predicate Started(p: Phase)
  {
    Ownership.Owns(p) || p.Finished?
  }

  // ---------- Pools and requests agree with the handlers ----------

  predicate PooledBy(calls: map<CallId, Call>, k: CallId, client: Client, h: ClientId)
    requires k in calls
  {
    && client.session == k && client.streamer == calls[k].streamer
    && (Present(client.stage) || (calls[k].phase == Handling(Remove(h)) && Gone(client.stage)))
  }

  ghost predicate Roster(calls: map<CallId, Call>, clients: map<ClientId, Client>)
  {
    && (forall k, h :: k in calls && Ownership.Owns(calls[k].phase) && h in calls[k].pool ==>
          h in clients && PooledBy(calls, k, clients[h], h))
    && (forall k :: k in calls ==> Todo(calls[k].phase) <= calls[k].pool)
    && (forall k :: k in calls && !Started(calls[k].phase) ==> calls[k].pool == {})
    && (forall k :: k in calls && calls[k].phase.Handling? && calls[k].phase.request.Add? ==>
          var h := calls[k].phase.request.client;
          h in clients && clients[h].streamer == calls[k].streamer && clients[h].stage.Waiting?)
    && (forall k :: k in calls && calls[k].phase.Handling? && calls[k].phase.request.Remove? ==>
          var h := calls[k].phase.request.client;
          h in clients && clients[h].streamer == calls[k].streamer && Gone(clients[h].stage))
    && (forall h :: h in clients && Accepted(clients[h].stage) ==>
          var k := clients[h].session;
          k in calls && calls[k].streamer == clients[h].streamer && Started(calls[k].phase))
  }

  // ---------- Open queues ----------

  /**
   Every open queue of an admitted client is in the care of the session that admitted it, a queue is
   open until the client is admitted, and after the client's remove request was received only while
   that session is carrying it out.
   */
  ghost predicate Tended(calls: map<CallId, Call>, clients: map<ClientId, Client>)
  {
    && (forall h :: h in clients && Accepted(clients[h].stage) && clients[h].open ==>
          clients[h].session in calls && h in Members(calls[clients[h].session]))
    && (forall h :: h in clients && !Accepted(clients[h].stage) ==> clients[h].open && !clients[h].sawClose)
    && (forall h :: h in clients && clients[h].sawClose ==> !clients[h].open)
    && (forall h :: h in clients && clients[h].open && Gone(clients[h].stage) ==>
          clients[h].stage.Draining? && clients[h].session in calls
          && calls[clients[h].session].phase == Handling(Remove(h)))
  }

  ghost predicate PooledOpen(calls: map<CallId, Call>, clients: map<ClientId, Client>)
  {
    forall k, h :: k in calls && h in Members(calls[k]) ==> h in clients && clients[h].open
  }

  /** The session has started and is not closing the queues of its pool yet. */
  predicate Runs(p: Phase)
  {
    Ownership.Owns(p) && !p.Closing?
  }

  /** A queue that was closed while its session runs, unseen by the client, was closed by the client's own request. */
  ghost predicate ClosedInTurn(calls: map<CallId, Call>, clients: map<ClientId, Client>)
  {
    forall h :: h in clients && Accepted(clients[h].stage) && !clients[h].open && !clients[h].sawClose ==>
      var k := clients[h].session;
      k in calls && Runs(calls[k].phase) ==> Gone(clients[h].stage) && calls[k].phase != Handling(Remove(h))
  }

  /** What must never happen: a pooled queue that is closed, a send on or a close of a closed queue. */
  ghost predicate QueueSafe(s: State)
  {
    !s.panicked && PooledOpen(s.calls, s.clients)
  }

  ghost predicate Inv(s: State)
  {
    && Ownership.Inv(s.streamers, s.calls)
    && Roster(s.calls, s.clients)
  }

  ghost predicate TendedInv(s: State)
  {
    Inv(s) && Tended(s.calls, s.clients)
  }

  ghost predicate SafeInv(s: State)
  {
    !s.panicked && Safe(s.calls, s.clients)
  }

  ghost predicate Safe(calls: map<CallId, Call>, clients: map<ClientId, Client>)
  {
    PooledOpen(calls, clients) && ClosedInTurn(calls, clients)
  }

  /**
   The requests the code handles safely: a remove request of a client that saw its queue closed or
   was admitted by this session, and a request to go offline while the pool is empty.
   */
  predicate Disciplined(s: State, a: Action)
    requires Enabled(s, a)
  {
    a.Process? ==>
      match s.calls[a.k].phase.request
      case Remove(h) => s.clients[h].sawClose || s.clients[h].session == a.k
      case Inhibit => s.calls[a.k].pool == {}
      case _ => true
  }

  // ---------- Keeping the roster ----------

  /** The session is carrying out a request of one client. */
  predicate Attends(p: Phase)
  {
    p.Handling? && (p.request.Add? || p.request.Remove?)
  }

  lemma CallUpdateKeepsRoster(calls: map<CallId, Call>, clients: map<ClientId, Client>, k: CallId, c: Call)
    requires Roster(calls, clients) && k in calls
    requires c.streamer == calls[k].streamer && c.pool == calls[k].pool && Todo(c.phase) <= c.pool
    requires c.phase == calls[k].phase || (!Attends(calls[k].phase) && !Attends(c.phase))
    requires Ownership.Owns(c.phase) && !Ownership.Owns(calls[k].phase) ==> c.pool == {}
    requires Started(calls[k].phase) ==> Started(c.phase)
    ensures Roster(calls[k := c], clients)
  {
  }

  lemma ClientUpdateKeepsRoster(calls: map<CallId, Call>, clients: map<ClientId, Client>, h: ClientId, c: Client)
    requires Roster(calls, clients) && h in clients
    requires c.streamer == clients[h].streamer && c.session == clients[h].session
    requires Present(clients[h].stage) == Present(c.stage) && Gone(clients[h].stage) == Gone(c.stage)
    requires !clients[h].stage.Waiting?
    ensures Roster(calls, clients[h := c])
  {
  }

  lemma NewClientKeepsRoster(calls: map<CallId, Call>, clients: map<ClientId, Client>, h: ClientId, st: StreamerId)
    requires Roster(calls, clients) && h !in clients
    ensures Roster(calls, clients[h := NewClient(st)])
  {
  }

  lemma NewCallKeepsRoster(calls: map<CallId, Call>, clients: map<ClientId, Client>, k: CallId, c: Call)
    requires Roster(calls, clients) && k !in calls
    requires c.phase.Calling? && c.pool == {}
    ensures Roster(calls[k := c], clients)
  {
  }

  lemma AddTakenKeepsRoster(calls: map<CallId, Call>, clients: map<ClientId, Client>, k: CallId, h: ClientId)
    requires Roster(calls, clients) && k in calls && calls[k].phase.Selecting?
    requires h in clients && clients[h].streamer == calls[k].streamer && clients[h].stage.Waiting?
    ensures Roster(calls[k := calls[k].(phase := Handling(Add(h)))], clients)
  {
    var calls' := calls[k := calls[k].(phase := Handling(Add(h)))];
    forall l, g | l in calls' && Ownership.Owns(calls'[l].phase) && g in calls'[l].pool
      ensures g in clients && PooledBy(calls', l, clients[g], g)
    {
      assert Ownership.Owns(calls[l].phase) && PooledBy(calls, l, clients[g], g);
    }
  }

  lemma TakeAddKeepsRoster(s: State, k: CallId, h: ClientId)
    requires Inv(s) && CanTake(s, k, h, Requesting)
    ensures Roster(SetPhase(s, k, Handling(Add(h))), SetStage(s, h, Waiting))
  {
    ClientUpdateKeepsRoster(s.calls, s.clients, h, s.clients[h].(stage := Waiting));
    AddTakenKeepsRoster(s.calls, SetStage(s, h, Waiting), k, h);
  }

  /** A session that runs has the client in its pool only if it is the one that receives the request. */
  lemma RemoveTakenKeepsRoster(calls: map<CallId, Call>, clients: map<ClientId, Client>, k: CallId, h: ClientId)
    requires Roster(calls, clients) && k in calls && calls[k].phase.Selecting?
    requires h in clients && clients[h].streamer == calls[k].streamer && clients[h].stage.Leaving?
    requires forall l :: l in calls && Ownership.Owns(calls[l].phase) && clients[h].session == l ==> l == k
    ensures Roster(calls[k := calls[k].(phase := Handling(Remove(h)))], clients[h := clients[h].(stage := Draining)])
  {
    var calls', clients' := calls[k := calls[k].(phase := Handling(Remove(h)))], clients[h := clients[h].(stage := Draining)];
    forall l, g | l in calls' && Ownership.Owns(calls'[l].phase) && g in calls'[l].pool
      ensures g in clients' && PooledBy(calls', l, clients'[g], g)
    {
      assert Ownership.Owns(calls[l].phase) && PooledBy(calls, l, clients[g], g);
    }
  }

  lemma TakeRemoveKeepsRoster(s: State, k: CallId, h: ClientId)
    requires Inv(s) && CanTake(s, k, h, Leaving)
    ensures Roster(SetPhase(s, k, Handling(Remove(h))), SetStage(s, h, Draining))
  {
    forall l | l in s.calls && Ownership.Owns(s.calls[l].phase) && s.clients[h].session == l
      ensures l == k
    {
      Ownership.SameOwner(s.streamers, s.calls, k, l);
    }
    RemoveTakenKeepsRoster(s.calls, s.clients, k, h);
  }

  lemma EatRemoveKeepsRoster(s: State, h: ClientId)
    requires Inv(s) && CanEat(s, h, Leaving)
    ensures Roster(s.calls, SetStage(s, h, Draining))
  {
    Ownership.EaterExcludesOwner(s.streamers, s.calls, s.clients[h].session);
  }

  /** Putting a request aside, with the client it concerns out of the pool or in it as before. */
  lemma RequestDoneKeepsRoster(calls: map<CallId, Call>, clients: map<ClientId, Client>, k: CallId, c: Call)
    requires Roster(calls, clients) && k in calls && calls[k].phase.Handling?
    requires c.streamer == calls[k].streamer && c.phase.Selecting?
    requires c.pool == calls[k].pool - if calls[k].phase.request.Remove? then {calls[k].phase.request.client} else {}
    ensures Roster(calls[k := c], clients)
  {
  }

  /** The answer to an add request, once no session attends to it any more. */
  lemma AnswerKeepsRoster(calls: map<CallId, Call>, clients: map<ClientId, Client>, h: ClientId, c: Client)
    requires Roster(calls, clients) && h in clients && clients[h].stage.Waiting?
    requires forall l :: l in calls ==> calls[l].phase != Handling(Add(h))
    requires c.streamer == clients[h].streamer
    requires c.stage.Refused? ||
             (c.stage.Admitted? && c.session in calls && calls[c.session].streamer == c.streamer && Started(calls[c.session].phase))
    ensures Roster(calls, clients[h := c])
  {
    forall l, g | l in calls && Ownership.Owns(calls[l].phase) && g in calls[l].pool
      ensures g in clients && g != h && PooledBy(calls, l, clients[g], g)
    {
      assert PooledBy(calls, l, clients[g], g);
    }
  }

  lemma PoolGrowthKeepsRoster(calls: map<CallId, Call>, clients: map<ClientId, Client>, k: CallId, h: ClientId)
    requires Roster(calls, clients) && k in calls && calls[k].phase.Selecting?
    requires h in clients && Present(clients[h].stage)
    requires clients[h].session == k && clients[h].streamer == calls[k].streamer
    ensures Roster(calls[k := calls[k].(pool := calls[k].pool + {h})], clients)
  {
    var calls' := calls[k := calls[k].(pool := calls[k].pool + {h})];
    forall l, g | l in calls' && Ownership.Owns(calls'[l].phase) && g in calls'[l].pool
      ensures g in clients && PooledBy(calls', l, clients[g], g)
    {
      if l != k || g != h {
        assert g in calls[l].pool && PooledBy(calls, l, clients[g], g);
      }
    }
  }

  lemma AddKeepsRoster(s: State, k: CallId, h: ClientId)
    requires Inv(s) && CanProcess(s, k) && s.calls[k].phase == Handling(Add(h))
    ensures Roster(ProcessAdd(s, k, h).calls, ProcessAdd(s, k, h).clients)
  {
    var calls := SetPhase(s, k, Selecting);
    RequestDoneKeepsRoster(s.calls, s.clients, k, calls[k]);
    forall l | l in calls
      ensures calls[l].phase != Handling(Add(h))
    {
      if s.calls[l].phase == Handling(Add(h)) {
        Ownership.SameOwner(s.streamers, s.calls, k, l);
      }
    }
    var s' := ProcessAdd(s, k, h);
    AnswerKeepsRoster(calls, s.clients, h, s'.clients[h]);
    if s'.clients[h].stage.Admitted? {
      PoolGrowthKeepsRoster(calls, s'.clients, k, h);
      assert s'.calls == calls[k := calls[k].(pool := calls[k].pool + {h})];
    }
  }

  lemma RemoveKeepsRoster(s: State, k: CallId, h: ClientId)
    requires Inv(s) && CanProcess(s, k) && s.calls[k].phase == Handling(Remove(h))
    ensures Roster(ProcessRemove(s, k, h).calls, ProcessRemove(s, k, h).clients)
  {
    var s' := ProcessRemove(s, k, h);
    RequestDoneKeepsRoster(s.calls, s.clients, k, s'.calls[k]);
    if s'.clients != s.clients {
      ClientUpdateKeepsRoster(s'.calls, s.clients, h, s'.clients[h]);
    }
  }

  lemma ClosuresKeepRoster(calls: map<CallId, Call>, clients: map<ClientId, Client>, clients': map<ClientId, Client>)
    requires Roster(calls, clients) && clients'.Keys == clients.Keys
    requires forall h :: h in clients ==> clients'[h] == clients[h] || clients'[h] == clients[h].(open := false)
    ensures Roster(calls, clients')
  {
    forall k, h | k in calls && Ownership.Owns(calls[k].phase) && h in calls[k].pool
      ensures h in clients' && PooledBy(calls, k, clients'[h], h)
    {
      assert PooledBy(calls, k, clients[h], h);
    }
  }

  lemma InhibitKeepsRoster(s: State, k: CallId)
    requires Inv(s) && CanProcess(s, k) && s.calls[k].phase == Handling(Inhibit)
    ensures Roster(ProcessInhibit(s, k).calls, ProcessInhibit(s, k).clients)
  {
    var s' := ProcessInhibit(s, k);
    RequestDoneKeepsRoster(s.calls, s.clients, k, s'.calls[k]);
    ClosuresKeepRoster(s'.calls, s.clients, s'.clients);
  }

  lemma ProcessKeepsRoster(s: State, k: CallId)
    requires Inv(s) && CanProcess(s, k)
    ensures Roster(Processed(s, k).calls, Processed(s, k).clients)
  {
    match s.calls[k].phase.request {
      case Add(h) => AddKeepsRoster(s, k, h);
      case Remove(h) => RemoveKeepsRoster(s, k, h);
      case Inhibit => InhibitKeepsRoster(s, k);
      case Allow => RequestDoneKeepsRoster(s.calls, s.clients, k, Processed(s, k).calls[k]);
    }
  }

  lemma OfferKeepsRoster(s: State, k: CallId, h: ClientId)
    requires Inv(s) && Enabled(s, OfferTo(k, h))
    ensures Roster(OfferPacket(s, k, h).calls, OfferPacket(s, k, h).clients)
  {
    var s' := OfferPacket(s, k, h);
    if s.clients[h].open {
      CallUpdateKeepsRoster(s.calls, s.clients, k, s'.calls[k]);
      ClientUpdateKeepsRoster(s'.calls, s.clients, h, s'.clients[h]);
    }
  }

  lemma CloseKeepsRoster(s: State, k: CallId, h: ClientId)
    requires Inv(s) && Enabled(s, CloseOne(k, h))
    ensures Roster(Next(s, CloseOne(k, h)).calls, Next(s, CloseOne(k, h)).clients)
  {
    var s' := Next(s, CloseOne(k, h));
    CallUpdateKeepsRoster(s.calls, s.clients, k, s'.calls[k]);
    if s.clients[h].open {
      ClientUpdateKeepsRoster(s'.calls, s.clients, h, s'.clients[h]);
    }
  }

  /** The steps of a call that leave all clients alone: the work of the producer and the session... */
  lemma WorkKeepsRoster(s: State, a: Action)
    requires Inv(s) && Enabled(s, a) && (a.Pull? || a.Receive? || a.Move?)
    ensures Roster(Next(s, a).calls, Next(s, a).clients)
  {
    CallUpdateKeepsRoster(s.calls, s.clients, a.k, Next(s, a).calls[a.k]);
  }

  /** ...and handing over the flag and the channel. */
  lemma TransferKeepsRoster(s: State, a: Action)
    requires Inv(s) && Enabled(s, a) && (a.CompareAndSwap? || a.HandStart? || a.ClearFlag? || a.Relaunch?)
    ensures Roster(Next(s, a).calls, Next(s, a).clients)
  {
    CallUpdateKeepsRoster(s.calls, s.clients, a.k, Next(s, a).calls[a.k]);
  }

  lemma StageKeepsRoster(s: State, h: ClientId, stage: Stage)
    requires Roster(s.calls, s.clients) && h in s.clients && !s.clients[h].stage.Waiting?
    requires Present(s.clients[h].stage) == Present(stage) && Gone(s.clients[h].stage) == Gone(stage)
    ensures Roster(s.calls, SetStage(s, h, stage))
  {
    ClientUpdateKeepsRoster(s.calls, s.clients, h, s.clients[h].(stage := stage));
  }

  lemma ServeKeepsRoster(s: State, h: ClientId, act: ClientMove)
    requires Roster(s.calls, s.clients) && Enabled(s, Serve(h, act))
    ensures Roster(s.calls, Next(s, Serve(h, act)).clients)
  {
    var c := s.clients[h];
    ClientUpdateKeepsRoster(s.calls, s.clients, h, Served(c, act, s.streamers[c.streamer].preamble));
  }

  lemma EarlyStageKeepsRoster(s: State, a: Action)
    requires Roster(s.calls, s.clients) && Enabled(s, a) && (a.EatAdd? || a.Announce?)
    ensures Roster(s.calls, Next(s, a).clients)
  {
    StageKeepsRoster(s, a.h, if a.EatAdd? then Refused else Greeting);
  }

  lemma LateStageKeepsRoster(s: State, a: Action)
    requires Roster(s.calls, s.clients) && Enabled(s, a) && (a.Farewell? || a.Release?)
    ensures Roster(s.calls, Next(s, a).clients)
  {
    StageKeepsRoster(s, a.h, if a.Farewell? then Departed else Released);
  }

  lemma StageStepKeepsRoster(s: State, a: Action)
    requires Roster(s.calls, s.clients) && Enabled(s, a) && (a.EatAdd? || a.Announce? || a.Farewell? || a.Release?)
    ensures Roster(Next(s, a).calls, Next(s, a).clients)
  {
    if a.EatAdd? || a.Announce? {
      EarlyStageKeepsRoster(s, a);
    } else {
      LateStageKeepsRoster(s, a);
    }
  }

  lemma ClientStepKeepsRoster(s: State, a: Action)
    requires Inv(s) && Enabled(s, a)
    requires a.Arrive? || a.EatAdd? || a.EatRemove? || a.Serve? || a.Announce? || a.Farewell? || a.Release?
    ensures Roster(Next(s, a).calls, Next(s, a).clients)
  {
    if a.Arrive? {
      NewClientKeepsRoster(s.calls, s.clients, a.h, a.streamer);
    } else if a.EatRemove? {
      EatRemoveKeepsRoster(s, a.h);
    } else if a.Serve? {
      ServeKeepsRoster(s, a.h, a.act);
    } else {
      StageStepKeepsRoster(s, a);
    }
  }

  lemma StepKeepsInv(s: State, a: Action)
    requires Inv(s) && Enabled(s, a)
    ensures Inv(Next(s, a))
  {
    Ownership.StepKeepsInv(s, a);
    if a.Open? {
      NewCallKeepsRoster(s.calls, s.clients, a.k, NewCall(a.streamer, a.source));
    } else if a.MisdirectStart? {
      Ownership.StartIsNotMisdirected(s, a.k, a.other);
    } else if a.OfferTo? {
      OfferKeepsRoster(s, a.k, a.h);
    } else if a.CloseOne? {
      CloseKeepsRoster(s, a.k, a.h);
    } else if a.TakeAdd? {
      TakeAddKeepsRoster(s, a.k, a.h);
    } else if a.TakeRemove? {
      TakeRemoveKeepsRoster(s, a.k, a.h);
    } else if a.Process? {
      ProcessKeepsRoster(s, a.k);
    } else if a.Pull? || a.Receive? || a.Move? {
      WorkKeepsRoster(s, a);
    } else if a.CompareAndSwap? || a.HandStart? || a.ClearFlag? || a.Relaunch? {
      TransferKeepsRoster(s, a);
    } else if !a.InhibitAll? && !a.Report? {
      ClientStepKeepsRoster(s, a);
    }
  }

  // ---------- Keeping the queues tended ----------

  predicate Removing(p: Phase)
  {
    p.Handling? && p.request.Remove?
  }

  lemma CallUpdateKeepsTended(calls: map<CallId, Call>, clients: map<ClientId, Client>, k: CallId, c: Call)
    requires Tended(calls, clients)
    requires k in calls ==> Members(calls[k]) <= Members(c)
    requires k in calls && Removing(calls[k].phase) ==> c.phase == calls[k].phase
    ensures Tended(calls[k := c], clients)
  {
  }

  lemma ClientUpdateKeepsTended(calls: map<CallId, Call>, clients: map<ClientId, Client>, h: ClientId, c: Client)
    requires Tended(calls, clients) && h in clients
    requires c.session == clients[h].session && c.open == clients[h].open
    requires Accepted(c.stage) == Accepted(clients[h].stage)
    requires c.sawClose == clients[h].sawClose || (!c.open && Accepted(c.stage))
    requires c.open && Gone(c.stage) ==> c.stage == clients[h].stage
    ensures Tended(calls, clients[h := c])
  {
  }

  lemma NewClientKeepsTended(calls: map<CallId, Call>, clients: map<ClientId, Client>, h: ClientId, st: StreamerId)
    requires Tended(calls, clients) && h !in clients
    ensures Tended(calls, clients[h := NewClient(st)])
  {
  }

  /** A client leaves the care of a call with its queue closed, then or before. */
  lemma ClosingKeepsTended(calls: map<CallId, Call>, clients: map<ClientId, Client>, k: CallId, c: Call, h: ClientId)
    requires Tended(calls, clients) && k in calls && h in clients
    requires Members(calls[k]) - {h} <= Members(c)
    requires Removing(calls[k].phase) ==> calls[k].phase == Handling(Remove(h))
    requires Accepted(clients[h].stage)
    ensures Tended(calls[k := c], clients[h := clients[h].(open := false)])
  {
  }

  /** A member of a call is a client it admitted. */
  lemma MemberOfSession(calls: map<CallId, Call>, clients: map<ClientId, Client>, k: CallId, h: ClientId)
    requires Roster(calls, clients) && k in calls && h in Members(calls[k])
    ensures h in clients && clients[h].session == k && Accepted(clients[h].stage)
  {
    assert h in calls[k].pool;
  }

  /** A remove request that is being carried out comes from an admitted client. */
  lemma RemovedWasAccepted(calls: map<CallId, Call>, clients: map<ClientId, Client>, k: CallId, h: ClientId)
    requires Roster(calls, clients) && k in calls && calls[k].phase == Handling(Remove(h))
    ensures h in clients && Gone(clients[h].stage) && Accepted(clients[h].stage)
  {
  }

  lemma TakeAddKeepsTended(s: State, k: CallId, h: ClientId)
    requires Tended(s.calls, s.clients) && CanTake(s, k, h, Requesting)
    ensures Tended(SetPhase(s, k, Handling(Add(h))), SetStage(s, h, Waiting))
  {
    ClientUpdateKeepsTended(s.calls, s.clients, h, s.clients[h].(stage := Waiting));
    CallUpdateKeepsTended(s.calls, SetStage(s, h, Waiting), k, s.calls[k].(phase := Handling(Add(h))));
  }

  /** When a session receives a remove request for an open queue, it is the session that admitted the client. */
  lemma TakenRemoveIsOwn(s: State, k: CallId, h: ClientId)
    requires TendedInv(s) && CanTake(s, k, h, Leaving) && s.clients[h].open
    ensures s.clients[h].session == k
  {
    MemberOfSession(s.calls, s.clients, s.clients[h].session, h);
    Ownership.SameOwner(s.streamers, s.calls, k, s.clients[h].session);
  }

  lemma RemoveTakenKeepsTended(calls: map<CallId, Call>, clients: map<ClientId, Client>, k: CallId, h: ClientId)
    requires Tended(calls, clients) && k in calls && calls[k].phase.Selecting?
    requires h in clients && clients[h].stage.Leaving? && (clients[h].open ==> clients[h].session == k)
    ensures Tended(calls[k := calls[k].(phase := Handling(Remove(h)))], clients[h := clients[h].(stage := Draining)])
  {
    CallUpdateKeepsTended(calls, clients, k, calls[k].(phase := Handling(Remove(h))));
  }

  lemma TakeRemoveKeepsTended(s: State, k: CallId, h: ClientId)
    requires TendedInv(s) && CanTake(s, k, h, Leaving)
    ensures Tended(SetPhase(s, k, Handling(Remove(h))), SetStage(s, h, Draining))
  {
    if s.clients[h].open {
      TakenRemoveIsOwn(s, k, h);
    }
    RemoveTakenKeepsTended(s.calls, s.clients, k, h);
  }

  /** When an eater swallows a remove request, the queue is closed already. */
  lemma EatenRemoveIsClosed(s: State, h: ClientId)
    requires TendedInv(s) && CanEat(s, h, Leaving)
    ensures !s.clients[h].open
    ensures Tended(s.calls, SetStage(s, h, Draining))
  {
    Ownership.EaterExcludesOwner(s.streamers, s.calls, s.clients[h].session);
    ClientUpdateKeepsTended(s.calls, s.clients, h, s.clients[h].(stage := Draining));
  }

  lemma AdmissionKeepsTended(calls: map<CallId, Call>, clients: map<ClientId, Client>, k: CallId, c: Call,
                             h: ClientId, client: Client)
    requires Tended(calls, clients) && k in calls && h in clients && !Accepted(clients[h].stage)
    requires Members(c) == Members(calls[k]) + {h} && !Removing(calls[k].phase)
    requires client.stage.Admitted? && client.session == k
    requires client.open == clients[h].open && client.sawClose == clients[h].sawClose
    ensures Tended(calls[k := c], clients[h := client])
  {
  }

  lemma RefusalKeepsTended(calls: map<CallId, Call>, clients: map<ClientId, Client>, k: CallId, c: Call,
                           h: ClientId, client: Client)
    requires Tended(calls, clients) && k in calls && h in clients && clients[h].stage.Waiting?
    requires calls[k].phase.Handling? && !Removing(calls[k].phase) && c == calls[k].(phase := Selecting)
    requires client == clients[h].(stage := Refused)
    ensures Tended(calls[k := c], clients[h := client])
  {
    ClientUpdateKeepsTended(calls, clients, h, client);
    CallUpdateKeepsTended(calls, clients[h := client], k, c);
  }

  lemma AddKeepsTended(s: State, k: CallId, h: ClientId)
    requires TendedInv(s) && CanProcess(s, k) && s.calls[k].phase == Handling(Add(h))
    ensures Tended(ProcessAdd(s, k, h).calls, ProcessAdd(s, k, h).clients)
  {
    var s' := ProcessAdd(s, k, h);
    if s'.clients[h].stage.Refused? {
      RefusalKeepsTended(s.calls, s.clients, k, s'.calls[k], h, s'.clients[h]);
    } else {
      AdmissionKeepsTended(s.calls, s.clients, k, s'.calls[k], h, s'.clients[h]);
    }
  }

  lemma RemoveKeepsTended(s: State, k: CallId, h: ClientId)
    requires TendedInv(s) && CanProcess(s, k) && s.calls[k].phase == Handling(Remove(h))
    ensures Tended(ProcessRemove(s, k, h).calls, ProcessRemove(s, k, h).clients)
  {
    var s' := ProcessRemove(s, k, h);
    RemovedWasAccepted(s.calls, s.clients, k, h);
    ClosingKeepsTended(s.calls, s.clients, k, s'.calls[k], h);
    assert s'.clients == s.clients[h := s.clients[h].(open := false)];
  }

  /** Closing queues of admitted clients, whoever they are, takes nothing out of anyone's care. */
  lemma ClosuresKeepTended(calls: map<CallId, Call>, clients: map<ClientId, Client>, clients': map<ClientId, Client>)
    requires Tended(calls, clients) && clients'.Keys == clients.Keys
    requires forall h :: h in clients ==>
               clients'[h] == clients[h] || (Accepted(clients[h].stage) && clients'[h] == clients[h].(open := false))
    ensures Tended(calls, clients')
  {
  }

  lemma InhibitKeepsTended(s: State, k: CallId)
    requires TendedInv(s) && CanProcess(s, k) && s.calls[k].phase == Handling(Inhibit)
    ensures Tended(ProcessInhibit(s, k).calls, ProcessInhibit(s, k).clients)
  {
    var s' := ProcessInhibit(s, k);
    forall h | h in s.calls[k].pool
      ensures h in s.clients && Accepted(s.clients[h].stage)
    {
      MemberOfSession(s.calls, s.clients, k, h);
    }
    ClosuresKeepTended(s.calls, s.clients, s'.clients);
    CallUpdateKeepsTended(s.calls, s'.clients, k, s'.calls[k]);
  }

  lemma ProcessKeepsTended(s: State, k: CallId)
    requires TendedInv(s) && Enabled(s, Process(k))
    ensures Tended(Processed(s, k).calls, Processed(s, k).clients)
  {
    match s.calls[k].phase.request {
      case Add(h) => AddKeepsTended(s, k, h);
      case Remove(h) => RemoveKeepsTended(s, k, h);
      case Inhibit => InhibitKeepsTended(s, k);
      case Allow => CallUpdateKeepsTended(s.calls, s.clients, k, Processed(s, k).calls[k]);
    }
  }

  lemma OfferKeepsTended(s: State, k: CallId, h: ClientId)
    requires TendedInv(s) && Enabled(s, OfferTo(k, h))
    ensures Tended(OfferPacket(s, k, h).calls, OfferPacket(s, k, h).clients)
  {
    var s' := OfferPacket(s, k, h);
    if s.clients[h].open {
      CallUpdateKeepsTended(s.calls, s.clients, k, s'.calls[k]);
      ClientUpdateKeepsTended(s'.calls, s.clients, h, s'.clients[h]);
    }
  }

  lemma CloseKeepsTended(s: State, k: CallId, h: ClientId)
    requires TendedInv(s) && Enabled(s, CloseOne(k, h))
    ensures Tended(Next(s, CloseOne(k, h)).calls, Next(s, CloseOne(k, h)).clients)
  {
    var s' := Next(s, CloseOne(k, h));
    MemberOfSession(s.calls, s.clients, k, h);
    ClosingKeepsTended(s.calls, s.clients, k, s'.calls[k], h);
    assert s'.clients == s.clients[h := s.clients[h].(open := false)];
  }

  lemma CallAloneKeepsTended(s: State, a: Action)
    requires TendedInv(s) && Enabled(s, a)
    requires a.Pull? || a.Receive? || a.Move? || a.CompareAndSwap? || a.HandStart? || a.ClearFlag? || a.Relaunch?
    ensures Tended(Next(s, a).calls, Next(s, a).clients)
  {
    CallUpdateKeepsTended(s.calls, s.clients, a.k, Next(s, a).calls[a.k]);
  }

  lemma ServeKeepsTended(s: State, h: ClientId, act: ClientMove)
    requires Tended(s.calls, s.clients) && Enabled(s, Serve(h, act))
    ensures Tended(s.calls, Next(s, Serve(h, act)).clients)
  {
    var c := s.clients[h];
    ClientUpdateKeepsTended(s.calls, s.clients, h, Served(c, act, s.streamers[c.streamer].preamble));
  }

  lemma StageKeepsTended(s: State, h: ClientId, stage: Stage)
    requires Tended(s.calls, s.clients) && h in s.clients
    requires Accepted(stage) == Accepted(s.clients[h].stage)
    requires Gone(stage) ==> Gone(s.clients[h].stage) && !s.clients[h].stage.Draining?
    ensures Tended(s.calls, SetStage(s, h, stage))
  {
    ClientUpdateKeepsTended(s.calls, s.clients, h, s.clients[h].(stage := stage));
  }

  lemma EarlyStageKeepsTended(s: State, a: Action)
    requires Tended(s.calls, s.clients) && Enabled(s, a) && (a.EatAdd? || a.Announce?)
    ensures Tended(s.calls, Next(s, a).clients)
  {
    StageKeepsTended(s, a.h, if a.EatAdd? then Refused else Greeting);
  }

  lemma LateStageKeepsTended(s: State, a: Action)
    requires Tended(s.calls, s.clients) && Enabled(s, a) && (a.Farewell? || a.Release?)
    ensures Tended(s.calls, Next(s, a).clients)
  {
    StageKeepsTended(s, a.h, if a.Farewell? then Departed else Released);
  }

  lemma StageStepKeepsTended(s: State, a: Action)
    requires Tended(s.calls, s.clients) && Enabled(s, a) && (a.EatAdd? || a.Announce? || a.Farewell? || a.Release?)
    ensures Tended(Next(s, a).calls, Next(s, a).clients)
  {
    if a.EatAdd? || a.Announce? {
      EarlyStageKeepsTended(s, a);
    } else {
      LateStageKeepsTended(s, a);
    }
  }

  lemma CallStepKeepsTended(s: State, a: Action)
    requires TendedInv(s) && Enabled(s, a)
    requires a.Pull? || a.Receive? || a.Move? || a.CompareAndSwap? || a.HandStart? || a.ClearFlag? || a.Relaunch?
             || a.Open? || a.MisdirectStart? || a.OfferTo? || a.CloseOne?
    ensures Tended(Next(s, a).calls, Next(s, a).clients)
  {
    if a.Open? {
      CallUpdateKeepsTended(s.calls, s.clients, a.k, NewCall(a.streamer, a.source));
    } else if a.MisdirectStart? {
      Ownership.StartIsNotMisdirected(s, a.k, a.other);
    } else if a.OfferTo? {
      OfferKeepsTended(s, a.k, a.h);
    } else if a.CloseOne? {
      CloseKeepsTended(s, a.k, a.h);
    } else {
      CallAloneKeepsTended(s, a);
    }
  }

  lemma ClientStepKeepsTended(s: State, a: Action)
    requires TendedInv(s) && Enabled(s, a)
    requires a.Arrive? || a.EatAdd? || a.EatRemove? || a.Serve? || a.Announce? || a.Farewell? || a.Release?
    ensures Tended(Next(s, a).calls, Next(s, a).clients)
  {
    if a.Arrive? {
      NewClientKeepsTended(s.calls, s.clients, a.h, a.streamer);
    } else if a.EatRemove? {
      EatenRemoveIsClosed(s, a.h);
    } else if a.Serve? {
      ServeKeepsTended(s, a.h, a.act);
    } else {
      StageStepKeepsTended(s, a);
    }
  }

  /** Every step keeps the queues tended, also one that closes pooled queues or ends in a panic. */
  lemma StepKeepsTended(s: State, a: Action)
    requires TendedInv(s) && Enabled(s, a)
    ensures Tended(Next(s, a).calls, Next(s, a).clients)
  {
    if a.Process? {
      ProcessKeepsTended(s, a.k);
    } else if a.TakeAdd? {
      TakeAddKeepsTended(s, a.k, a.h);
    } else if a.TakeRemove? {
      TakeRemoveKeepsTended(s, a.k, a.h);
    } else if a.Arrive? || a.EatAdd? || a.EatRemove? || a.Serve? || a.Announce? || a.Farewell? || a.Release? {
      ClientStepKeepsTended(s, a);
    } else if !a.InhibitAll? && !a.Report? {
      CallStepKeepsTended(s, a);
    }
  }

  /** An open queue of an admitted client is in the care of the session that admitted it. */
  lemma OpenInCare(s: State, h: ClientId)
    requires TendedInv(s) && h in s.clients && Accepted(s.clients[h].stage)
    ensures s.clients[h].session in s.calls
    ensures s.clients[h].open ==> h in Members(s.calls[s.clients[h].session])
  {
  }

  /** A handler draining an open queue has its remove request being carried out. */
  lemma DrainingEnds(s: State, h: ClientId)
    requires TendedInv(s) && h in s.clients && s.clients[h].stage.Draining?
    ensures s.clients[h].open ==>
              && s.clients[h].session in s.calls
              && s.calls[s.clients[h].session].phase == Handling(Remove(h))
              && CanProcess(s, s.clients[h].session)
    ensures !s.clients[h].open ==> CanServe(s.clients[h], Drain, []) || CanServe(s.clients[h], DrainEnd, [])
  {
  }

  // ---------- Keeping the queues safe ----------

  lemma CallUpdateKeepsSafe(calls: map<CallId, Call>, clients: map<ClientId, Client>, k: CallId, c: Call)
    requires Safe(calls, clients)
    requires Members(c) <= if k in calls then Members(calls[k]) else {}
    requires Runs(c.phase) ==>
               (k in calls && Runs(calls[k].phase)) || forall h :: h in clients && Accepted(clients[h].stage) ==> clients[h].session != k
    requires Removing(c.phase) ==> k in calls && c.phase == calls[k].phase
    ensures Safe(calls[k := c], clients)
  {
  }

  lemma ClientUpdateKeepsSafe(calls: map<CallId, Call>, clients: map<ClientId, Client>, h: ClientId, c: Client)
    requires Safe(calls, clients) && h in clients
    requires c.session == clients[h].session && c.open == clients[h].open
    requires Accepted(c.stage) == Accepted(clients[h].stage)
    requires clients[h].sawClose ==> c.sawClose
    requires Gone(clients[h].stage) ==> Gone(c.stage)
    ensures Safe(calls, clients[h := c])
  {
  }

  lemma NewClientKeepsSafe(calls: map<CallId, Call>, clients: map<ClientId, Client>, h: ClientId, st: StreamerId)
    requires Safe(calls, clients) && h !in clients
    ensures Safe(calls, clients[h := NewClient(st)])
  {
  }

  /** A client leaves the care of a call when its queue is closed, at its own request or at the end of the session. */
  lemma ClosingKeepsSafe(calls: map<CallId, Call>, clients: map<ClientId, Client>, k: CallId, c: Call, h: ClientId)
    requires Safe(calls, clients) && k in calls && h in clients
    requires Members(c) == Members(calls[k]) - {h}
    requires forall l :: l in calls && h in Members(calls[l]) ==> l == k
    requires Runs(c.phase) ==> Runs(calls[k].phase) && !Removing(c.phase)
    requires clients[h].sawClose || (clients[h].session == k && (Runs(c.phase) ==> Gone(clients[h].stage)))
    ensures Safe(calls[k := c], clients[h := clients[h].(open := false)])
  {
  }

  lemma TakeAddKeepsSafe(s: State, k: CallId, h: ClientId)
    requires Safe(s.calls, s.clients) && CanTake(s, k, h, Requesting)
    ensures Safe(SetPhase(s, k, Handling(Add(h))), SetStage(s, h, Waiting))
  {
    ClientUpdateKeepsSafe(s.calls, s.clients, h, s.clients[h].(stage := Waiting));
    CallUpdateKeepsSafe(s.calls, SetStage(s, h, Waiting), k, s.calls[k].(phase := Handling(Add(h))));
  }

  lemma TakeRemoveKeepsSafe(s: State, k: CallId, h: ClientId)
    requires Safe(s.calls, s.clients) && CanTake(s, k, h, Leaving)
    ensures Safe(SetPhase(s, k, Handling(Remove(h))), SetStage(s, h, Draining))
  {
  }

  lemma AdmissionKeepsSafe(calls: map<CallId, Call>, clients: map<ClientId, Client>, k: CallId, c: Call,
                           h: ClientId, client: Client)
    requires Safe(calls, clients) && k in calls && h in clients && clients[h].open
    requires Members(c) == Members(calls[k]) + {h} && Runs(calls[k].phase) && c.phase.Selecting?
    requires client.stage.Admitted? && client.session == k && client.open
    ensures Safe(calls[k := c], clients[h := client])
  {
  }

  lemma AddKeepsSafe(s: State, k: CallId, h: ClientId)
    requires TendedInv(s) && Safe(s.calls, s.clients) && CanProcess(s, k) && s.calls[k].phase == Handling(Add(h))
    ensures Safe(ProcessAdd(s, k, h).calls, ProcessAdd(s, k, h).clients)
  {
    var s' := ProcessAdd(s, k, h);
    if s'.clients[h].stage.Refused? {
      ClientUpdateKeepsSafe(s.calls, s.clients, h, s'.clients[h]);
      CallUpdateKeepsSafe(s.calls, s'.clients, k, s'.calls[k]);
    } else {
      AdmissionKeepsSafe(s.calls, s.clients, k, s'.calls[k], h, s'.clients[h]);
    }
  }

  /**
   A client that has not seen its queue closed is in the pool of the session that carries out its
   remove request exactly if that session admitted it.
   */
  lemma AdmittedIsPooled(s: State, k: CallId, h: ClientId)
    requires TendedInv(s) && SafeInv(s) && CanProcess(s, k) && s.calls[k].phase == Handling(Remove(h))
    requires !s.clients[h].sawClose
    ensures s.clients[h].session == k <==> h in s.calls[k].pool
  {
    RemovedWasAccepted(s.calls, s.clients, k, h);
    if h in s.calls[k].pool {
      MemberOfSession(s.calls, s.clients, k, h);
    }
  }

  /** Exactly the disciplined remove requests are carried out without a panic. */
  lemma RemoveKeepsSafe(s: State, k: CallId, h: ClientId)
    requires TendedInv(s) && SafeInv(s) && CanProcess(s, k) && s.calls[k].phase == Handling(Remove(h))
    ensures var s' := ProcessRemove(s, k, h);
            && (s'.panicked <==> !(s.clients[h].sawClose || s.clients[h].session == k))
            && (!s'.panicked ==> Safe(s'.calls, s'.clients))
  {
    var s' := ProcessRemove(s, k, h);
    RemovedWasAccepted(s.calls, s.clients, k, h);
    if s.clients[h].sawClose {
      assert forall l :: l in s.calls ==> h !in Members(s.calls[l]);
    } else {
      AdmittedIsPooled(s, k, h);
      if s.clients[h].open {
        Ownership.SameOwner(s.streamers, s.calls, k, s.clients[h].session);
      }
      forall l | l in s.calls && h in Members(s.calls[l])
        ensures l == s.clients[h].session
      {
        MemberOfSession(s.calls, s.clients, l, h);
      }
    }
    if !s'.panicked {
      ClosingKeepsSafe(s.calls, s.clients, k, s'.calls[k], h);
      assert s'.clients == s.clients[h := s.clients[h].(open := false)];
    }
  }

  /** Going offline keeps every pooled queue open exactly when the pool is empty. */
  lemma InhibitKeepsSafe(s: State, k: CallId)
    requires Inv(s) && SafeInv(s) && CanProcess(s, k) && s.calls[k].phase == Handling(Inhibit)
    ensures var s' := ProcessInhibit(s, k);
            && (s.calls[k].pool == {} ==> SafeInv(s'))
            && (s.calls[k].pool != {} ==> !QueueSafe(s'))
  {
    var s' := ProcessInhibit(s, k);
    if s.calls[k].pool == {} {
      assert s'.clients == s.clients;
      CallUpdateKeepsSafe(s.calls, s.clients, k, s'.calls[k]);
    } else {
      var h :| h in s.calls[k].pool;
      assert h in Members(s'.calls[k]) && h in s.clients;
      assert !s'.clients[h].open;
    }
  }

  lemma ProcessKeepsSafe(s: State, k: CallId)
    requires TendedInv(s) && SafeInv(s) && Enabled(s, Process(k))
    ensures Disciplined(s, Process(k)) ==> SafeInv(Processed(s, k))
    ensures !Disciplined(s, Process(k)) ==> !QueueSafe(Processed(s, k))
  {
    match s.calls[k].phase.request {
      case Add(h) => AddKeepsSafe(s, k, h);
      case Remove(h) => RemoveKeepsSafe(s, k, h);
      case Inhibit => InhibitKeepsSafe(s, k);
      case Allow => CallUpdateKeepsSafe(s.calls, s.clients, k, Processed(s, k).calls[k]);
    }
  }

  /** A packet is only ever offered to an open queue. */
  lemma OfferKeepsSafe(s: State, k: CallId, h: ClientId)
    requires Inv(s) && SafeInv(s) && Enabled(s, OfferTo(k, h))
    ensures s.clients[h].open && SafeInv(OfferPacket(s, k, h))
  {
    var s' := OfferPacket(s, k, h);
    assert h in Members(s.calls[k]);
    CallUpdateKeepsSafe(s.calls, s.clients, k, s'.calls[k]);
    ClientUpdateKeepsSafe(s'.calls, s.clients, h, s'.clients[h]);
  }

  lemma CloseKeepsSafe(s: State, k: CallId, h: ClientId)
    requires Inv(s) && SafeInv(s) && Enabled(s, CloseOne(k, h))
    ensures s.clients[h].open && SafeInv(Next(s, CloseOne(k, h)))
  {
    var s' := Next(s, CloseOne(k, h));
    assert h in Members(s.calls[k]);
    forall l | l in s.calls && h in Members(s.calls[l])
      ensures l == k
    {
      MemberOfSession(s.calls, s.clients, l, h);
      MemberOfSession(s.calls, s.clients, k, h);
    }
    MemberOfSession(s.calls, s.clients, k, h);
    ClosingKeepsSafe(s.calls, s.clients, k, s'.calls[k], h);
  }

  lemma CallAloneKeepsSafe(s: State, a: Action)
    requires Inv(s) && SafeInv(s) && Enabled(s, a)
    requires a.Pull? || a.Receive? || a.Move? || a.CompareAndSwap? || a.HandStart? || a.ClearFlag? || a.Relaunch?
    ensures SafeInv(Next(s, a))
  {
    CallUpdateKeepsSafe(s.calls, s.clients, a.k, Next(s, a).calls[a.k]);
  }

  lemma ServeKeepsSafe(s: State, h: ClientId, act: ClientMove)
    requires SafeInv(s) && Enabled(s, Serve(h, act))
    ensures SafeInv(Next(s, Serve(h, act)))
  {
    var c := s.clients[h];
    ClientUpdateKeepsSafe(s.calls, s.clients, h, Served(c, act, s.streamers[c.streamer].preamble));
  }

  lemma EarlyStageKeepsSafe(s: State, a: Action)
    requires SafeInv(s) && Enabled(s, a) && (a.EatAdd? || a.EatRemove? || a.Announce?)
    ensures SafeInv(Next(s, a))
  {
    var stage := if a.EatAdd? then Refused else if a.EatRemove? then Draining else Greeting;
    ClientUpdateKeepsSafe(s.calls, s.clients, a.h, s.clients[a.h].(stage := stage));
  }

  lemma LateStageKeepsSafe(s: State, a: Action)
    requires SafeInv(s) && Enabled(s, a) && (a.Farewell? || a.Release?)
    ensures SafeInv(Next(s, a))
  {
    ClientUpdateKeepsSafe(s.calls, s.clients, a.h, s.clients[a.h].(stage := if a.Farewell? then Departed else Released));
  }

  lemma CallStepKeepsSafe(s: State, a: Action)
    requires Inv(s) && SafeInv(s) && Enabled(s, a)
    requires a.Pull? || a.Receive? || a.Move? || a.CompareAndSwap? || a.HandStart? || a.ClearFlag? || a.Relaunch?
             || a.Open? || a.MisdirectStart? || a.OfferTo? || a.CloseOne?
    ensures SafeInv(Next(s, a))
  {
    if a.Open? {
      CallUpdateKeepsSafe(s.calls, s.clients, a.k, NewCall(a.streamer, a.source));
    } else if a.MisdirectStart? {
      Ownership.StartIsNotMisdirected(s, a.k, a.other);
    } else if a.OfferTo? {
      OfferKeepsSafe(s, a.k, a.h);
    } else if a.CloseOne? {
      CloseKeepsSafe(s, a.k, a.h);
    } else {
      CallAloneKeepsSafe(s, a);
    }
  }

  lemma ClientStepKeepsSafe(s: State, a: Action)
    requires Inv(s) && SafeInv(s) && Enabled(s, a)
    requires a.TakeAdd? || a.TakeRemove? || a.Arrive? || a.EatAdd? || a.EatRemove? || a.Serve? || a.Announce?
             || a.Farewell? || a.Release?
    ensures SafeInv(Next(s, a))
  {
    if a.TakeAdd? {
      TakeAddKeepsSafe(s, a.k, a.h);
    } else if a.TakeRemove? {
      TakeRemoveKeepsSafe(s, a.k, a.h);
    } else if a.Arrive? {
      NewClientKeepsSafe(s.calls, s.clients, a.h, a.streamer);
    } else if a.Serve? {
      ServeKeepsSafe(s, a.h, a.act);
    } else if a.Farewell? || a.Release? {
      LateStageKeepsSafe(s, a);
    } else {
      EarlyStageKeepsSafe(s, a);
    }
  }

  /** A step keeps the queues safe exactly when it is disciplined. */
  lemma StepKeepsSafeInv(s: State, a: Action)
    requires TendedInv(s) && SafeInv(s) && Enabled(s, a)
    ensures Disciplined(s, a) ==> SafeInv(Next(s, a))
    ensures !Disciplined(s, a) ==> !QueueSafe(Next(s, a))
  {
    if a.Process? {
      ProcessKeepsSafe(s, a.k);
    } else if a.TakeAdd? || a.TakeRemove? || a.Arrive? || a.EatAdd? || a.EatRemove? || a.Serve? || a.Announce?
              || a.Farewell? || a.Release? {
      ClientStepKeepsSafe(s, a);
    } else if !a.InhibitAll? && !a.Report? {
      CallStepKeepsSafe(s, a);
    }
  }
}
