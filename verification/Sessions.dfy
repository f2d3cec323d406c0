/**
 The life of a `Stream` call (streaming/streamer.go): when it is turned away, that it goes through its phases in
 one direction and always gets further, and what exactly ends the program.
 */
module Sessions {
  import opened Bytes
  import opened Framing
  import opened Broker
  import Ownership
  import opened Queues
  import opened Delivery
  import opened Theorems
  import opened Progress

  // ---------- Phases ----------

  /** How far the call has come. */
  function Rank(p: Phase): nat
  {
    match p
    case Calling => 0
    case Handover => 1
    case Selecting => 2
    case Distributing(_, _) => 2
    case Handling(_) => 2
    case Stopping => 3
    case Discarding => 4
    case Closing(_) => 5
    case Rejected => 6
    case Finished => 6
  }

  lemma ProcessAscends(s: State, c: CallId, k: CallId)
    requires Enabled(s, Process(c)) && k in s.calls
    ensures k in Processed(s, c).calls && Rank(s.calls[k].phase) == Rank(Processed(s, c).calls[k].phase)
  {
  }

  /** A call never goes back, and the program's end leaves it where it is. */
  lemma PhasesAscend(s: State, a: Action, k: CallId)
    requires Enabled(s, a) && k in s.calls
    ensures k in Next(s, a).calls && Rank(s.calls[k].phase) <= Rank(Next(s, a).calls[k].phase)
  {
    if a.Process? {
      ProcessAscends(s, a.k, k);
    }
  }

  // ---------- Only one session at a time ----------

  /** Another call of the streamer is in or before its loop. */
  ghost predicate Busy(s: State, st: StreamerId)
  {
    exists l :: l in s.calls && s.calls[l].streamer == st && Ownership.HoldsFlag(s.calls[l].phase)
  }

  /** A `Stream` call is turned away exactly if another one of the streamer is running, and otherwise goes on. */
  lemma TurnedAwayExactlyWhenBusy(s: State, k: CallId)
    requires Reachable(s) && Enabled(s, CompareAndSwap(k))
    ensures var p := Next(s, CompareAndSwap(k)).calls[k].phase;
            if Busy(s, s.calls[k].streamer) then p == Rejected else p == Handover
  {
    var st := s.calls[k].streamer;
    assert Ownership.Inv(s.streamers, s.calls) by { ReachableIsHealthy(s); }
    var out, holders := Ownership.FlagsSet(s.streamers), Ownership.FlagHolders(s.calls);
    if Busy(s, st) {
      var l :| l in s.calls && s.calls[l].streamer == st && Ownership.HoldsFlag(s.calls[l].phase);
      assert holders[l] in out;
    }
    if s.streamers[st].running {
      assert st in out;
      var l :| l in holders && holders[l] == st;
      assert l in s.calls && Ownership.HoldsFlag(s.calls[l].phase);
    }
  }

  // ---------- Every session gets further ----------

  /**
   The step brings the call further: to a later phase, to another packet put into or taken from its input, to the
   end of its input, or closer to receiving again; or it brings closer the session that it waits for.
   */
  ghost predicate Helps(s: State, a: Action, k: CallId)
    requires Enabled(s, a) && k in s.calls
  {
    var s' := Next(s, a);
    && k in s'.calls
    && var c, c' := s.calls[k], s'.calls[k];
    || s'.panicked
    || Rank(c.phase) < Rank(c'.phase)
    || |c.pushed| < |c'.pushed| || |c.distributed| < |c'.distributed| || (!c.hungUp && c'.hungUp)
    || (!c.phase.Selecting? && StepsLeft(c') < StepsLeft(c))
    || (c.phase.Handover? && exists l :: Nearer(s, s', c.streamer, l))
  }

  /** A session that owns the channel of the streamer comes closer to giving it back or to receiving. */
  predicate Nearer(s: State, s': State, st: StreamerId, l: CallId)
  {
    && l in s.calls && l in s'.calls && s.calls[l].streamer == st && Ownership.Owns(s.calls[l].phase)
    && !s.calls[l].phase.Selecting? && StepsLeft(s'.calls[l]) < StepsLeft(s.calls[l])
  }

  lemma HelpedToPull(s: State, k: CallId) returns (a: Action)
    requires AllFed(s.calls) && !s.panicked && k in s.calls && !s.calls[k].hungUp
    ensures Enabled(s, a) && Helps(s, a, k)
  {
    var c := s.calls[k];
    assert Fed(c) && |c.pushed| <= |Scan(c.source)|;
    a := if |c.pushed| < |Scan(c.source)| then Action.Pull(k, Push) else Action.Pull(k, HangUp);
  }

  lemma HelpedToReceive(s: State, k: CallId) returns (a: Action)
    requires AllFed(s.calls) && !s.panicked && Known(s, k) && s.calls[k].phase.Selecting?
    ensures Enabled(s, a) && Helps(s, a, k)
  {
    if s.calls[k].input != [] {
      a := Receive(k);
    } else if s.calls[k].hungUp {
      a := Move(k, SeeHangUp);
    } else {
      a := HelpedToPull(s, k);
    }
  }

  lemma HelpedByItself(s: State, k: CallId) returns (a: Action)
    requires Inv(s) && AllFed(s.calls) && !s.panicked && k in s.calls
    requires Ownership.Owns(s.calls[k].phase) && !s.calls[k].phase.Selecting?
    ensures Enabled(s, a) && Helps(s, a, k)
    ensures Next(s, a).panicked || Nearer(s, Next(s, a), s.calls[k].streamer, k)
  {
    a := NextOwnStep(s, k);
    PhasesAscend(s, a, k);
    OwnStepsAreBounded(s, k, a);
  }

  /** While one call waits to hand over, another that owns the channel is on its way out. */
  lemma OwnerIsLeaving(s: State, k: CallId, l: CallId)
    requires Inv(s) && k in s.calls && l in s.calls && s.calls[k].phase.Handover?
    requires s.calls[l].streamer == s.calls[k].streamer && Ownership.Owns(s.calls[l].phase)
    ensures !s.calls[l].phase.Selecting?
  {
    var holders := Ownership.FlagHolders(s.calls);
    assert k in holders && holders[k] == s.calls[k].streamer;
    assert l in holders ==> l == k;
  }

  lemma HelpedToStart(s: State, k: CallId) returns (a: Action)
    requires Inv(s) && AllFed(s.calls) && !s.panicked && Known(s, k) && s.calls[k].phase.Handover?
    ensures Enabled(s, a) && Helps(s, a, k)
  {
    var st := s.calls[k].streamer;
    SomeReceiver(s, st);
    if s.streamers[st].eaters > 0 {
      a := HandStart(k);
    } else {
      var l :| l in s.calls && s.calls[l].streamer == st && Ownership.Owns(s.calls[l].phase);
      OwnerIsLeaving(s, k, l);
      a := HelpedByItself(s, l);
      PhasesAscend(s, a, k);
      assert Next(s, a).panicked || Nearer(s, Next(s, a), st, l);
    }
  }

  /** In every run without a panic, some process can take a step that helps any `Stream` call that has not returned. */
  lemma EveryCallGetsFurther(s: State, k: CallId) returns (a: Action)
    requires Reachable(s) && !s.panicked && k in s.calls && !s.calls[k].phase.Rejected? && !s.calls[k].phase.Finished?
    ensures Enabled(s, a) && Helps(s, a, k)
  {
    assert Inv(s) && AllFed(s.calls) by { ReachableIsHealthy(s); }
    assert Known(s, k);
    if s.calls[k].phase.Calling? {
      a := CompareAndSwap(k);
    } else if s.calls[k].phase.Handover? {
      a := HelpedToStart(s, k);
    } else if s.calls[k].phase.Selecting? {
      a := HelpedToReceive(s, k);
    } else {
      a := HelpedByItself(s, k);
    }
  }

  // ---------- What ends the program ----------

  /** The step sends to a queue that is closed, or closes one. */
  predicate Violates(s: State, a: Action)
    requires Enabled(s, a)
  {
    match a
    case OfferTo(_, h) => !s.clients[h].open
    case CloseOne(_, h) => !s.clients[h].open
    case Process(k) =>
      (match s.calls[k].phase.request
       case Remove(h) => !s.clients[h].sawClose && !s.clients[h].open
       case Inhibit => exists h :: h in s.calls[k].pool && !s.clients[h].open
       case Add(_) => false
       case Allow => false)
    case _ => false
  }

  lemma ProcessPanics(s: State, k: CallId)
    requires Enabled(s, Process(k))
    ensures Processed(s, k).panicked <==> Violates(s, Process(k))
  {
  }

  /** The program ends in exactly the steps that send to a closed queue or close one again. */
  lemma PanicsExactly(s: State, a: Action)
    requires Enabled(s, a)
    ensures Next(s, a).panicked <==> Violates(s, a)
  {
    if a.Process? {
      ProcessPanics(s, a.k);
    }
  }

  // ---------- The end of a queue ----------

  /** A client that saw the end of its queue had taken everything out of it. */
  ghost predicate SeenAll(clients: map<ClientId, Client>)
  {
    forall h :: h in clients && clients[h].sawClose ==> !clients[h].open && clients[h].queue == [] && clients[h].drained == []
  }

  lemma ClientKeepsSeenAll(clients: map<ClientId, Client>, h: ClientId, c: Client)
    requires SeenAll(clients)
    requires c.sawClose ==> !c.open && c.queue == [] && c.drained == []
    ensures SeenAll(clients[h := c])
  {
  }

  lemma ServeKeepsSeenAll(s: State, h: ClientId, act: ClientMove)
    requires Delivered(s) && SeenAll(s.clients) && Enabled(s, Serve(h, act))
    ensures SeenAll(Next(s, Serve(h, act)).clients)
  {
    var c := s.clients[h];
    assert Sound(c, s.streamers[c.streamer].queueSize, s.streamers[c.streamer].preamble);
    ClientKeepsSeenAll(s.clients, h, Served(c, act, s.streamers[c.streamer].preamble));
  }

  lemma ProcessKeepsSeenAll(s: State, k: CallId)
    requires SeenAll(s.clients) && Enabled(s, Process(k))
    ensures SeenAll(Processed(s, k).clients)
  {
  }

  lemma OfferKeepsSeenAll(s: State, k: CallId, h: ClientId)
    requires SeenAll(s.clients) && Known(s, k) && s.calls[k].phase.Distributing? && h in s.clients
    ensures SeenAll(OfferPacket(s, k, h).clients)
  {
    if s.clients[h].open {
      var c := s.clients[h];
      ClientKeepsSeenAll(s.clients, h, Offered(c, s.calls[k].phase.packet, s.streamers[s.calls[k].streamer].queueSize));
    }
  }

  lemma CloseKeepsSeenAll(s: State, h: ClientId)
    requires SeenAll(s.clients) && h in s.clients
    ensures SeenAll(CloseQueue(s, h).clients)
  {
    if s.clients[h].open {
      ClientKeepsSeenAll(s.clients, h, s.clients[h].(open := false));
    }
  }

  lemma StageKeepsSeenAll(s: State, h: ClientId, stage: Stage)
    requires SeenAll(s.clients) && h in s.clients
    ensures SeenAll(SetStage(s, h, stage))
  {
  }

  /** The steps of a handler outside its loop. */
  lemma HandlerKeepsSeenAll(s: State, a: Action)
    requires SeenAll(s.clients) && Enabled(s, a)
    requires a.TakeAdd? || a.TakeRemove? || a.EatAdd? || a.EatRemove? || a.Announce? || a.Farewell? || a.Release?
    ensures SeenAll(Next(s, a).clients)
  {
    if a.TakeAdd? {
      StageKeepsSeenAll(s, a.h, Waiting);
    } else if a.TakeRemove? || a.EatRemove? {
      StageKeepsSeenAll(s, a.h, Draining);
    } else if a.EatAdd? {
      StageKeepsSeenAll(s, a.h, Refused);
    } else if a.Announce? {
      StageKeepsSeenAll(s, a.h, Greeting);
    } else if a.Farewell? {
      StageKeepsSeenAll(s, a.h, Departed);
    } else {
      StageKeepsSeenAll(s, a.h, Released);
    }
  }

  lemma OtherwiseUnchanged(s: State, a: Action)
    requires Enabled(s, a) && !a.Process? && !a.Serve? && !a.OfferTo? && !a.CloseOne? && !a.Arrive?
    requires !a.TakeAdd? && !a.TakeRemove? && !a.EatAdd? && !a.EatRemove? && !a.Announce? && !a.Farewell? && !a.Release?
    ensures Next(s, a).clients == s.clients
  {
  }

  lemma StepKeepsSeenAll(s: State, a: Action)
    requires Delivered(s) && SeenAll(s.clients) && Enabled(s, a)
    ensures SeenAll(Next(s, a).clients)
  {
    if a.Process? {
      ProcessKeepsSeenAll(s, a.k);
    } else if a.Serve? {
      ServeKeepsSeenAll(s, a.h, a.act);
    } else if a.OfferTo? {
      OfferKeepsSeenAll(s, a.k, a.h);
    } else if a.CloseOne? {
      CloseKeepsSeenAll(s, a.h);
    } else if a.Arrive? {
      ClientKeepsSeenAll(s.clients, a.h, NewClient(a.streamer));
    } else if a.TakeAdd? || a.TakeRemove? || a.EatAdd? || a.EatRemove? || a.Announce? || a.Farewell? || a.Release? {
      HandlerKeepsSeenAll(s, a);
    } else {
      OtherwiseUnchanged(s, a);
    }
  }

  lemma {:induction false} RunKeepsSeenAll(s: State, steps: seq<Action>)
    requires Healthy(s) && SeenAll(s.clients) && IsRun(s, steps)
    ensures SeenAll(After(s, steps).clients)
    decreases |steps|
  {
    if steps != [] {
      StepKeepsSeenAll(s, steps[0]);
      StepKeepsHealthy(s, steps[0]);
      RunKeepsSeenAll(Next(s, steps[0]), steps[1..]);
    }
  }

  /** A client that sees its queue closed was written every packet it kept. */
  lemma CloseIsSeenLast(s: State, h: ClientId)
    requires Reachable(s) && h in s.clients && Accepted(s.clients[h].stage) && s.clients[h].sawClose
    ensures var client := s.clients[h];
            && client.session in s.calls
            && client.joined + |client.offers| <= |s.calls[client.session].distributed|
            && client.written == Kept(OfferedPackets(s.calls[client.session], client), client.offers)
  {
    ClientDelivery(s, h);
    assert SeenAll(s.clients) by {
      var s0, steps :| Init(s0) && IsRun(s0, steps) && After(s0, steps) == s;
      InitIsHealthy(s0);
      RunKeepsSeenAll(s0, steps);
    }
    var client := s.clients[h];
    assert client.written + client.drained + client.queue == client.written;
  }
}
