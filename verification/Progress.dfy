/** The request channel never gets stuck: whoever is to receive the next request can take a step. */
module Progress {
  import opened Broker
  import EventQueue
  import Ownership
  import opened Queues
  import opened Delivery
  import opened Theorems

  // ---------- Every waiting handler is attended to ----------

  ghost predicate IsAttended(calls: map<CallId, Call>, h: ClientId)
  {
    exists k :: k in calls && calls[k].phase == Handling(Add(h))
  }

  ghost predicate Attended(calls: map<CallId, Call>, clients: map<ClientId, Client>)
  {
    forall h :: h in clients && clients[h].stage.Waiting? ==> IsAttended(calls, h)
  }

  lemma CallUpdateKeepsAttended(calls: map<CallId, Call>, clients: map<ClientId, Client>, k: CallId, c: Call)
    requires Attended(calls, clients)
    requires forall h :: h in clients && clients[h].stage.Waiting? && k in calls && calls[k].phase == Handling(Add(h)) ==>
               c.phase == calls[k].phase
    ensures Attended(calls[k := c], clients)
  {
    forall h | h in clients && clients[h].stage.Waiting?
      ensures IsAttended(calls[k := c], h)
    {
      var l :| l in calls && calls[l].phase == Handling(Add(h));
      assert calls[k := c][l].phase == Handling(Add(h));
    }
  }

  lemma ClientUpdateKeepsAttended(calls: map<CallId, Call>, clients: map<ClientId, Client>, h: ClientId, c: Client)
    requires Attended(calls, clients)
    requires c.stage.Waiting? ==> IsAttended(calls, h)
    ensures Attended(calls, clients[h := c])
  {
  }

  lemma TakeAddKeepsAttended(s: State, k: CallId, h: ClientId)
    requires Attended(s.calls, s.clients) && CanTake(s, k, h, Requesting)
    ensures Attended(SetPhase(s, k, Handling(Add(h))), SetStage(s, h, Waiting))
  {
    var calls := SetPhase(s, k, Handling(Add(h)));
    CallUpdateKeepsAttended(s.calls, s.clients, k, calls[k]);
    assert calls[k].phase == Handling(Add(h));
    ClientUpdateKeepsAttended(calls, s.clients, h, s.clients[h].(stage := Waiting));
  }

  lemma ProcessKeepsAttended(s: State, k: CallId)
    requires Roster(s.calls, s.clients) && Attended(s.calls, s.clients) && CanProcess(s, k)
    ensures Attended(Processed(s, k).calls, Processed(s, k).clients)
  {
    var s' := Processed(s, k);
    match s.calls[k].phase.request {
      case Add(h) =>
        ClientUpdateKeepsAttended(s.calls, s.clients, h, s'.clients[h]);
        CallUpdateKeepsAttended(s.calls, s'.clients, k, s'.calls[k]);
      case Remove(h) =>
        CallUpdateKeepsAttended(s.calls, s.clients, k, s'.calls[k]);
        if s'.clients != s.clients {
          ClientUpdateKeepsAttended(s'.calls, s.clients, h, s'.clients[h]);
        }
      case Inhibit => CallUpdateKeepsAttended(s.calls, s.clients, k, s'.calls[k]);
      case Allow => CallUpdateKeepsAttended(s.calls, s.clients, k, s'.calls[k]);
    }
  }

  /** The phases a call can leave without answering a request. */
  lemma CallStepKeepsAttended(s: State, a: Action)
    requires Attended(s.calls, s.clients) && Enabled(s, a)
    requires a.Open? || a.Pull? || a.CompareAndSwap? || a.HandStart? || a.Receive? || a.Move? || a.ClearFlag? || a.Relaunch?
    ensures Attended(Next(s, a).calls, Next(s, a).clients)
  {
    CallUpdateKeepsAttended(s.calls, s.clients, a.k, Next(s, a).calls[a.k]);
  }

  lemma ClientStepKeepsAttended(s: State, a: Action)
    requires Attended(s.calls, s.clients) && Enabled(s, a)
    requires a.Arrive? || a.EatAdd? || a.EatRemove? || a.Serve? || a.Announce? || a.Farewell? || a.Release?
    ensures Attended(Next(s, a).calls, Next(s, a).clients)
  {
    ClientUpdateKeepsAttended(s.calls, s.clients, a.h, Next(s, a).clients[a.h]);
  }

  lemma PairStepKeepsAttended(s: State, a: Action)
    requires Attended(s.calls, s.clients) && Enabled(s, a)
    requires a.OfferTo? || a.CloseOne? || a.TakeRemove?
    requires a.OfferTo? || a.CloseOne? ==> Accepted(s.clients[a.h].stage)
    ensures Attended(Next(s, a).calls, Next(s, a).clients)
  {
    var s' := Next(s, a);
    if s'.calls != s.calls {
      CallUpdateKeepsAttended(s.calls, s.clients, a.k, s'.calls[a.k]);
    }
    if s'.clients != s.clients {
      ClientUpdateKeepsAttended(s'.calls, s.clients, a.h, s'.clients[a.h]);
    }
  }

  lemma StepKeepsAttended(s: State, a: Action)
    requires Inv(s) && Attended(s.calls, s.clients) && Enabled(s, a)
    ensures Attended(Next(s, a).calls, Next(s, a).clients)
  {
    if a.MisdirectStart? {
      Ownership.StartIsNotMisdirected(s, a.k, a.other);
    } else if a.TakeAdd? {
      TakeAddKeepsAttended(s, a.k, a.h);
    } else if a.Process? {
      ProcessKeepsAttended(s, a.k);
    } else if a.OfferTo? || a.CloseOne? {
      assert a.h in s.calls[a.k].pool;
      PairStepKeepsAttended(s, a);
    } else if a.TakeRemove? {
      PairStepKeepsAttended(s, a);
    } else if a.Arrive? || a.EatAdd? || a.EatRemove? || a.Serve? || a.Announce? || a.Farewell? || a.Release? {
      ClientStepKeepsAttended(s, a);
    } else if !a.InhibitAll? && !a.Report? {
      CallStepKeepsAttended(s, a);
    }
  }

  lemma {:induction false} RunKeepsAttended(s: State, steps: seq<Action>)
    requires Inv(s) && Attended(s.calls, s.clients) && IsRun(s, steps)
    ensures Attended(After(s, steps).calls, After(s, steps).clients)
    decreases |steps|
  {
    if steps != [] {
      StepKeepsAttended(s, steps[0]);
      StepKeepsInv(s, steps[0]);
      RunKeepsAttended(Next(s, steps[0]), steps[1..]);
    }
  }

  /** A handler waiting for the answer to its add request has a session that is about to give it. */
  lemma EveryAddIsAnswered(s: State, h: ClientId)
    requires Reachable(s) && !s.panicked && h in s.clients && s.clients[h].stage.Waiting?
    ensures exists k :: k in s.calls && s.calls[k].phase == Handling(Add(h)) && Enabled(s, Process(k))
  {
    assert IsAttended(s.calls, h) by {
      var s0, steps :| Init(s0) && IsRun(s0, steps) && After(s0, steps) == s;
      InitIsHealthy(s0);
      RunKeepsAttended(s0, steps);
    }
    var k :| k in s.calls && s.calls[k].phase == Handling(Add(h));
    assert Enabled(s, Process(k));
  }

  // ---------- The owner of the channel can always go on ----------

  /** A step of the session itself, which needs no other process: all but receiving a packet or a request. */
  predicate OwnStep(a: Action, k: CallId)
  {
    || (a.OfferTo? && a.k == k) || (a.Move? && a.k == k && !a.move.TakeCommand?) || (a.Process? && a.k == k)
    || (a.ClearFlag? && a.k == k) || (a.CloseOne? && a.k == k) || (a.Relaunch? && a.k == k)
  }

  /** The step a session that owns the channel and is not waiting for a request or packet can take. */
  lemma NextOwnStep(s: State, k: CallId) returns (a: Action)
    requires Inv(s) && AllFed(s.calls) && !s.panicked
    requires k in s.calls && Ownership.Owns(s.calls[k].phase) && !s.calls[k].phase.Selecting?
    ensures OwnStep(a, k) && Enabled(s, a)
  {
    var c := s.calls[k];
    assert Fed(c) && c.streamer in s.streamers;
    match c.phase {
      case Distributing(_, todo) =>
        if h :| h in todo {
          assert h in c.pool;
          a := OfferTo(k, h);
        } else {
          a := Move(k, EndFanOut);
        }
      case Handling(_) =>
        a := Process(k);
      case Stopping =>
        a := ClearFlag(k);
      case Discarding =>
        a := Move(k, BeginClosing);
      case Closing(todo) =>
        if h :| h in todo {
          assert h in c.pool;
          a := CloseOne(k, h);
        } else {
          a := Relaunch(k);
        }
    }
  }

  lemma SomeReceiver(s: State, st: StreamerId)
    requires Inv(s) && st in s.streamers
    ensures s.streamers[st].eaters > 0 ||
            exists k :: k in s.calls && s.calls[k].streamer == st && Ownership.Owns(s.calls[k].phase)
  {
    if s.streamers[st].eaters == 0 {
      assert st in Ownership.WithoutEater(s.streamers);
      var k :| k in Ownership.Owners(s.calls) && Ownership.Owners(s.calls)[k] == st;
      assert k in s.calls;
    }
  }

  /** How many steps a session takes at most until it waits for requests again or is finished. */
  function StepsLeft(c: Call): nat
  {
    match c.phase
    case Distributing(_, todo) => |todo| + 1
    case Handling(_) => 1
    case Stopping => |c.input| + |c.pool| + 3
    case Discarding => |c.input| + |c.pool| + 2
    case Closing(todo) => |todo| + 1
    case _ => 0
  }

  lemma OneLess<T>(todo: set<T>, h: T)
    requires h in todo
    ensures |todo - {h}| == |todo| - 1
  {
  }

  lemma ProcessingTakesOneStep(s: State, k: CallId)
    requires CanProcess(s, k)
    ensures Processed(s, k).calls[k].phase.Selecting?
  {
  }

  lemma MovesAreBounded(c: Call, m: CallMove)
    requires CanMove(c, m) && !c.phase.Selecting?
    ensures StepsLeft(Moved(c, m)) < StepsLeft(c)
  {
  }

  /** Each of its own steps brings a session closer to that point, or ends the program. */
  lemma OwnStepsAreBounded(s: State, k: CallId, a: Action)
    requires Enabled(s, a) && OwnStep(a, k) && !s.calls[k].phase.Selecting?
    ensures Next(s, a).panicked || StepsLeft(Next(s, a).calls[k]) < StepsLeft(s.calls[k])
  {
    if a.Process? {
      ProcessingTakesOneStep(s, k);
    } else if a.Move? {
      MovesAreBounded(s.calls[k], a.move);
    } else if a.OfferTo? || a.CloseOne? {
      OneLess(s.calls[k].phase.todo, a.h);
    }
  }

  /**
   The session receives the client's requests. If it is waiting for one it can take the client's, and
   otherwise it can take a step of its own.
   */
  ghost predicate GetsThrough(s: State, h: ClientId, k: CallId)
    requires h in s.clients
  {
    && k in s.calls && s.calls[k].streamer == s.clients[h].streamer && Ownership.Owns(s.calls[k].phase)
    && (s.calls[k].phase.Selecting? && s.clients[h].stage.Requesting? ==> Enabled(s, TakeAdd(k, h)))
    && (s.calls[k].phase.Selecting? && s.clients[h].stage.Leaving? ==> Enabled(s, TakeRemove(k, h)))
    && (!s.calls[k].phase.Selecting? ==> exists a :: OwnStep(a, k) && Enabled(s, a))
  }

  /** An eater swallows the client's request. */
  predicate GetsEaten(s: State, h: ClientId)
    requires h in s.clients
  {
    if s.clients[h].stage.Requesting? then Enabled(s, EatAdd(h)) else Enabled(s, EatRemove(h))
  }

  lemma SelectingLetsThrough(s: State, h: ClientId, k: CallId)
    requires !s.panicked && h in s.clients
    requires k in s.calls && s.calls[k].streamer == s.clients[h].streamer && s.calls[k].phase.Selecting?
    ensures GetsThrough(s, h, k)
  {
  }

  lemma SessionLetsThrough(s: State, h: ClientId, k: CallId)
    requires Inv(s) && AllFed(s.calls) && !s.panicked && h in s.clients
    requires k in s.calls && s.calls[k].streamer == s.clients[h].streamer && Ownership.Owns(s.calls[k].phase)
    ensures GetsThrough(s, h, k)
  {
    if s.calls[k].phase.Selecting? {
      SelectingLetsThrough(s, h, k);
    } else {
      var a := NextOwnStep(s, k);
      assert OwnStep(a, k) && Enabled(s, a);
    }
  }

  lemma SomeoneLetsThrough(s: State, h: ClientId)
    requires Inv(s) && AllFed(s.calls) && !s.panicked && h in s.clients && s.clients[h].streamer in s.streamers
    requires s.clients[h].stage.Requesting? || s.clients[h].stage.Leaving?
    ensures GetsEaten(s, h) || exists k :: GetsThrough(s, h, k)
  {
    var st := s.clients[h].streamer;
    SomeReceiver(s, st);
    if s.streamers[st].eaters == 0 {
      var k :| k in s.calls && s.calls[k].streamer == st && Ownership.Owns(s.calls[k].phase);
      SessionLetsThrough(s, h, k);
    }
  }

  /**
   A handler's request is never stuck: an eater is there to swallow it, or a session receives it, which can
   take it now or is busy and can take another of the bounded number of its own steps.
   */
  lemma RequestsGetThrough(s: State, h: ClientId)
    requires Reachable(s) && !s.panicked && h in s.clients
    requires s.clients[h].stage.Requesting? || s.clients[h].stage.Leaving?
    ensures GetsEaten(s, h) || exists k :: GetsThrough(s, h, k)
  {
    assert Inv(s) && AllFed(s.calls) && s.clients[h].streamer in s.streamers by {
      ReachableIsHealthy(s);
      assert AllSound(s.streamers, s.clients);
    }
    SomeoneLetsThrough(s, h);
  }

  // ---------- No handler is stuck ----------

  /** The handler can go on, or another process can take the step it is waiting for. */
  ghost predicate CanGoOn(s: State, h: ClientId)
    requires h in s.clients
  {
    match s.clients[h].stage
    case Requesting => GetsEaten(s, h) || exists k :: GetsThrough(s, h, k)
    case Waiting => exists k :: k in s.calls && s.calls[k].phase == Handling(Add(h)) && Enabled(s, Process(k))
    case Refused => true
    case Admitted => Enabled(s, Announce(h)) || Enabled(s, Report)
    case Greeting => Enabled(s, Serve(h, Greet(true)))
    case Serving => Enabled(s, Serve(h, Quit))
    case Leaving => GetsEaten(s, h) || exists k :: GetsThrough(s, h, k)
    case Draining =>
      || Enabled(s, Serve(h, Drain)) || Enabled(s, Serve(h, DrainEnd))
      || (exists k :: k in s.calls && s.calls[k].phase == Handling(Remove(h)) && Enabled(s, Process(k)))
    case Drained => Enabled(s, Farewell(h)) || Enabled(s, Report)
    case Departed => Enabled(s, Release(h))
    case Released => true
  }

  lemma NotificationsGetThrough(s: State, h: ClientId)
    requires !s.panicked && h in s.clients && (s.clients[h].stage.Admitted? || s.clients[h].stage.Drained?)
    ensures CanGoOn(s, h)
  {
    if |s.notices| >= EventQueue.QUEUE_SIZE {
      assert s.notices != [];
    }
  }

  lemma DrainingGoesOn(s: State, h: ClientId)
    requires Reachable(s) && !s.panicked && h in s.clients && s.clients[h].stage.Draining?
    requires s.clients[h].streamer in s.streamers
    ensures CanGoOn(s, h)
  {
    NoStrandedHandler(s, h);
    if s.clients[h].open {
      var k := s.clients[h].session;
      assert s.calls[k].phase == Handling(Remove(h)) && Enabled(s, Process(k));
    }
  }

  /** In every run, as long as there is no panic, no handler waits for a step that nobody can take. */
  lemma NoHandlerIsStuck(s: State, h: ClientId)
    requires Reachable(s) && !s.panicked && h in s.clients
    ensures CanGoOn(s, h)
  {
    assert s.clients[h].streamer in s.streamers by {
      ReachableIsHealthy(s);
      assert AllSound(s.streamers, s.clients);
    }
    var stage := s.clients[h].stage;
    if stage.Requesting? || stage.Leaving? {
      RequestsGetThrough(s, h);
    } else if stage.Waiting? {
      EveryAddIsAnswered(s, h);
    } else if stage.Draining? {
      DrainingGoesOn(s, h);
    } else if stage.Admitted? || stage.Drained? {
      NotificationsGetThrough(s, h);
    }
  }
}
