/**
 What becomes of the packets: from the input queue of a stream, through the fan-out into the bounded
 queue of every client in the pool, to the HTTP response.
 */
module Delivery {
  import opened Bytes
  import opened Framing
  import opened Broker
  import Ownership
  import opened Queues

  // ---------- The input queue ----------

  predicate LoopEnded(p: Phase)
  {
    p.Stopping? || p.Discarding? || p.Closing? || p.Finished?
  }

  /** Everything pushed is distributed or waiting, in order; nothing is left when the loop ends. */
  ghost predicate Fed(c: Call)
  {
    && c.pushed == c.distributed + c.input
    && c.discarded == []
    && c.pushed <= Scan(c.source)
    && (c.hungUp ==> c.pushed == Scan(c.source))
    && (LoopEnded(c.phase) ==> c.hungUp && c.input == [])
    && (!Started(c.phase) ==> c.distributed == [])
    && (c.phase.Distributing? ==> c.distributed != [] && c.phase.packet == c.distributed[|c.distributed| - 1])
  }

  // ---------- A client's share ----------

  function Concat(packets: seq<Packet>): seq<Byte>
  {
    if packets == [] then [] else Concat(packets[..|packets| - 1]) + packets[|packets| - 1]
  }

  /** The packets that were kept, of those offered. */
  function Kept<T>(packets: seq<T>, offers: seq<Offer>): seq<T>
    requires |packets| == |offers|
  {
    if offers == [] then []
    else
      var n := |offers| - 1;
      Kept(packets[..n], offers[..n]) + if offers[n].kept then [packets[n]] else []
  }

  function KeptCount(offers: seq<Offer>): nat
  {
    if offers == [] then 0
    else KeptCount(offers[..|offers| - 1]) + if offers[|offers| - 1].kept then 1 else 0
  }

  /** Everything that went into a client's queue, in the order in which it came out or will come out. */
  function Received(c: Client): seq<Packet>
  {
    c.written + c.drained + c.queue
  }

  /**
   How a queue of the given capacity decides: a packet is kept exactly if fewer kept packets than
   that have not been taken by the client. What a client has taken never decreases.
   */
  predicate Decided(offers: seq<Offer>, queueSize: nat)
  {
    if offers == [] then true
    else
      var init, last := offers[..|offers| - 1], offers[|offers| - 1];
      && Decided(init, queueSize)
      && LastTaken(init) <= last.taken <= KeptCount(init)
      && (last.kept <==> KeptCount(init) - last.taken < queueSize)
  }

  function LastTaken(offers: seq<Offer>): nat
  {
    if offers == [] then 0 else offers[|offers| - 1].taken
  }

  function Taken(c: Client): nat
  {
    |c.written| + |c.drained|
  }

  predicate Greeted(stage: Stage)
  {
    stage.Serving? || stage.Leaving? || Gone(stage)
  }

  /** The queue is within its capacity, and empty stages have empty logs. */
  predicate Tidy(stage: Stage, queue: seq<Packet>, written: seq<Packet>, drained: seq<Packet>, offers: seq<Offer>, queueSize: nat)
  {
    && |queue| <= queueSize
    && (!Accepted(stage) ==> queue == [] && written == [] && drained == [] && offers == [])
    && (!Gone(stage) ==> drained == [])
    && (!Greeted(stage) ==> written == [])
  }

  predicate OutputMatches(stage: Stage, output: seq<Byte>, written: seq<Packet>, preamble: seq<Byte>)
  {
    output == if Greeted(stage) then preamble + Concat(written) else []
  }

  /** A client's own bookkeeping. */
  ghost predicate Sound(c: Client, queueSize: nat, preamble: seq<Byte>)
  {
    && Tidy(c.stage, c.queue, c.written, c.drained, c.offers, queueSize)
    && OutputMatches(c.stage, c.output, c.written, preamble)
    && Decided(c.offers, queueSize)
    && LastTaken(c.offers) <= Taken(c)
  }

  /** The client is being offered the latest packet and has not been yet. */
  function Lag(c: Call, h: ClientId): nat
  {
    if c.phase.Distributing? && h in c.phase.todo then 1 else 0
  }

  /** What a client received is what it kept of the packets its session distributed since it joined. */
  ghost predicate Tracks(c: Call, h: ClientId, client: Client)
  {
    && client.joined + |client.offers| <= |c.distributed|
    && Received(client) == Kept(c.distributed[client.joined..client.joined + |client.offers|], client.offers)
    && (Ownership.Owns(c.phase) && h in c.pool ==>
          client.joined + |client.offers| + Lag(c, h) == |c.distributed|)
  }

  ghost predicate AllFed(calls: map<CallId, Call>)
  {
    forall k :: k in calls ==> Fed(calls[k])
  }

  ghost predicate AllSound(streamers: map<StreamerId, Streamer>, clients: map<ClientId, Client>)
  {
    forall h :: h in clients ==>
      clients[h].streamer in streamers &&
      Sound(clients[h], streamers[clients[h].streamer].queueSize, streamers[clients[h].streamer].preamble)
  }

  ghost predicate AllTracked(calls: map<CallId, Call>, clients: map<ClientId, Client>)
  {
    forall h :: h in clients && Accepted(clients[h].stage) ==>
      clients[h].session in calls && Tracks(calls[clients[h].session], h, clients[h])
  }

  ghost predicate Delivering(streamers: map<StreamerId, Streamer>, calls: map<CallId, Call>, clients: map<ClientId, Client>)
  {
    AllFed(calls) && AllSound(streamers, clients) && AllTracked(calls, clients)
  }

  ghost predicate Delivered(s: State)
  {
    Delivering(s.streamers, s.calls, s.clients)
  }

  // ---------- Lists ----------

  lemma KeptOneMore(packets: seq<Packet>, offers: seq<Offer>, packet: Packet, offer: Offer)
    requires |packets| == |offers|
    ensures Kept(packets + [packet], offers + [offer]) == Kept(packets, offers) + if offer.kept then [packet] else []
    ensures KeptCount(offers + [offer]) == KeptCount(offers) + if offer.kept then 1 else 0
  {
    assert (packets + [packet])[..|offers|] == packets && (offers + [offer])[..|offers|] == offers;
  }

  lemma {:induction false} KeptLength(packets: seq<Packet>, offers: seq<Offer>)
    requires |packets| == |offers|
    ensures |Kept(packets, offers)| == KeptCount(offers)
  {
    if offers != [] {
      KeptLength(packets[..|offers| - 1], offers[..|offers| - 1]);
    }
  }

  lemma ConcatOneMore(packets: seq<Packet>, packet: Packet)
    ensures Concat(packets + [packet]) == Concat(packets) + packet
  {
    assert (packets + [packet])[..|packets|] == packets;
  }

  lemma DecidedOneMore(offers: seq<Offer>, queueSize: nat, offer: Offer)
    requires Decided(offers, queueSize)
    requires LastTaken(offers) <= offer.taken <= KeptCount(offers)
    requires offer.kept <==> KeptCount(offers) - offer.taken < queueSize
    ensures Decided(offers + [offer], queueSize)
  {
    assert (offers + [offer])[..|offers|] == offers;
  }

  /** The packets a client was offered do not change when more are distributed. */
  lemma TracksLonger(c: Call, c': Call, h: ClientId, client: Client)
    requires Tracks(c, h, client) && c.distributed <= c'.distributed
    requires Ownership.Owns(c'.phase) && h in c'.pool ==>
               client.joined + |client.offers| + Lag(c', h) == |c'.distributed|
    ensures Tracks(c', h, client)
  {
    var from, to := client.joined, client.joined + |client.offers|;
    assert c'.distributed[from..to] == c.distributed[from..to];
  }

  // ---------- Keeping it ----------

  lemma CallUpdateKeepsTracked(calls: map<CallId, Call>, clients: map<ClientId, Client>, k: CallId, c: Call)
    requires AllTracked(calls, clients)
    requires k in calls ==>
               && calls[k].distributed <= c.distributed && c.pool <= calls[k].pool
               && (Ownership.Owns(c.phase) && !Ownership.Owns(calls[k].phase) ==> c.pool == {})
               && (forall h :: h in c.pool && Ownership.Owns(c.phase) ==>
                     |c.distributed| - Lag(c, h) == |calls[k].distributed| - Lag(calls[k], h))
    ensures AllTracked(calls[k := c], clients)
  {
    forall h | h in clients && Accepted(clients[h].stage) && clients[h].session == k
      ensures Tracks(c, h, clients[h])
    {
      TracksLonger(calls[k], c, h, clients[h]);
    }
  }

  lemma ClientUpdateKeepsTracked(calls: map<CallId, Call>, clients: map<ClientId, Client>, h: ClientId, c: Client)
    requires AllTracked(calls, clients)
    requires Accepted(c.stage) ==>
               && h in clients && Accepted(clients[h].stage) && c.session == clients[h].session
               && c.joined == clients[h].joined && c.offers == clients[h].offers && Received(c) == Received(clients[h])
    ensures AllTracked(calls, clients[h := c])
  {
  }

  lemma ClientUpdateKeepsSound(streamers: map<StreamerId, Streamer>, clients: map<ClientId, Client>, h: ClientId, c: Client)
    requires AllSound(streamers, clients)
    requires c.streamer in streamers
    requires Sound(c, streamers[c.streamer].queueSize, streamers[c.streamer].preamble)
    ensures AllSound(streamers, clients[h := c])
  {
  }

  lemma StreamerUpdateKeepsSound(streamers: map<StreamerId, Streamer>, clients: map<ClientId, Client>, st: StreamerId, x: Streamer)
    requires AllSound(streamers, clients)
    requires st in streamers && x.queueSize == streamers[st].queueSize && x.preamble == streamers[st].preamble
    ensures AllSound(streamers[st := x], clients)
  {
  }

  /** Serving and draining move packets along without losing, repeating or reordering any. */
  lemma ServedKeepsReceived(c: Client, act: ClientMove, preamble: seq<Byte>)
    requires CanServe(c, act, preamble) && (!Gone(c.stage) ==> c.drained == [])
    ensures Received(Served(c, act, preamble)) == Received(c)
  {
    if act.Write? || act.Drain? {
      assert c.queue == [c.queue[0]] + c.queue[1..];
    }
  }

  lemma WriteIsSound(c: Client, ok: bool, queueSize: nat, preamble: seq<Byte>)
    requires Sound(c, queueSize, preamble) && CanServe(c, Write(ok), preamble)
    ensures Sound(Served(c, Write(ok), preamble), queueSize, preamble)
  {
    ConcatOneMore(c.written, c.queue[0]);
    assert preamble + (Concat(c.written) + c.queue[0]) == preamble + Concat(c.written) + c.queue[0];
  }

  lemma ServedIsSound(c: Client, act: ClientMove, queueSize: nat, preamble: seq<Byte>)
    requires Sound(c, queueSize, preamble) && CanServe(c, act, preamble)
    ensures Sound(Served(c, act, preamble), queueSize, preamble)
  {
    match act {
      case Greet(ok) => assert [] + preamble == preamble + Concat([]);
      case Write(ok) => WriteIsSound(c, ok, queueSize, preamble);
      case _ =>
    }
  }

  /** How many packets a client kept is how many it has taken and still has. */
  lemma KeptIsTakenOrQueued(c: Call, h: ClientId, client: Client)
    requires Tracks(c, h, client)
    ensures KeptCount(client.offers) == Taken(client) + |client.queue|
  {
    KeptLength(c.distributed[client.joined..client.joined + |client.offers|], client.offers);
  }

  lemma OfferedIsSound(client: Client, packet: Packet, queueSize: nat, preamble: seq<Byte>)
    requires Sound(client, queueSize, preamble) && Accepted(client.stage)
    requires KeptCount(client.offers) == Taken(client) + |client.queue|
    ensures Sound(Offered(client, packet, queueSize), queueSize, preamble)
  {
    DecidedOneMore(client.offers, queueSize, Offer(|client.queue| < queueSize, Taken(client)));
  }

  /** An offer extends what the client keeps of the packets by the latest, exactly if its queue has room. */
  lemma OfferedTracks(c: Call, c': Call, h: ClientId, client: Client, queueSize: nat)
    requires Tracks(c, h, client) && Fed(c)
    requires c.phase.Distributing? && Lag(c, h) == 1 && h in c.pool
    requires c' == c.(phase := c.phase.(todo := c.phase.todo - {h}))
    ensures Tracks(c', h, Offered(client, c.phase.packet, queueSize))
  {
    var client' := Offered(client, c.phase.packet, queueSize);
    var from, n := client.joined, |client.offers|;
    var offered := c.distributed[from..from + n];
    KeptOneMore(offered, client.offers, c.phase.packet, client'.offers[n]);
    assert c'.distributed[from..from + n + 1] == offered + [c.phase.packet];
  }

  // ---------- Steps ----------

  lemma PulledIsFed(c: Call, m: PullMove)
    requires Fed(c) && CanPull(c, m)
    ensures Fed(Pulled(c, m))
  {
    var packets := Scan(c.source);
    if m.Push? {
      assert c.pushed + [packets[|c.pushed|]] == packets[..|c.pushed| + 1];
    }
  }

  lemma ReceivedIsFed(s: State, k: CallId)
    requires Known(s, k) && Fed(s.calls[k]) && s.calls[k].phase.Selecting? && s.calls[k].input != []
    ensures Fed(ReceivePacket(s, k).calls[k])
  {
    var c := s.calls[k];
    assert c.input == [c.input[0]] + c.input[1..];
  }

  /** The call's side of the invariant, which is all that a step of the call alone can disturb. */
  ghost predicate CallSide(calls: map<CallId, Call>, clients: map<ClientId, Client>)
  {
    AllFed(calls) && AllTracked(calls, clients)
  }

  /** A new phase that is not part of a fan-out, possibly with a smaller pool. */
  lemma PhaseKeepsCallSide(calls: map<CallId, Call>, clients: map<ClientId, Client>, k: CallId, c: Call)
    requires CallSide(calls, clients) && k in calls
    requires c == calls[k].(phase := c.phase, inhibit := c.inhibit, pool := c.pool)
    requires c.pool <= calls[k].pool && Todo(calls[k].phase) <= calls[k].pool
    requires !c.phase.Distributing? && (calls[k].phase.Distributing? ==> calls[k].phase.todo == {})
    requires Ownership.Owns(c.phase) && !Ownership.Owns(calls[k].phase) ==> c.pool == {}
    requires LoopEnded(c.phase) ==> c.hungUp && c.input == []
    requires Started(calls[k].phase) ==> Started(c.phase)
    ensures CallSide(calls[k := c], clients)
  {
    CallUpdateKeepsTracked(calls, clients, k, c);
  }

  lemma PullKeepsCallSide(calls: map<CallId, Call>, clients: map<ClientId, Client>, k: CallId, m: PullMove)
    requires CallSide(calls, clients) && k in calls && CanPull(calls[k], m)
    ensures CallSide(calls[k := Pulled(calls[k], m)], clients)
  {
    PulledIsFed(calls[k], m);
    CallUpdateKeepsTracked(calls, clients, k, Pulled(calls[k], m));
  }

  lemma ReceiveKeepsCallSide(s: State, k: CallId)
    requires CallSide(s.calls, s.clients) && Enabled(s, Receive(k))
    ensures CallSide(ReceivePacket(s, k).calls, s.clients)
  {
    ReceivedIsFed(s, k);
    CallUpdateKeepsTracked(s.calls, s.clients, k, ReceivePacket(s, k).calls[k]);
  }

  lemma MoveKeepsCallSide(calls: map<CallId, Call>, clients: map<ClientId, Client>, k: CallId, m: CallMove)
    requires Roster(calls, clients) && CallSide(calls, clients) && k in calls && CanMove(calls[k], m)
    ensures CallSide(calls[k := Moved(calls[k], m)], clients)
  {
    if m.Discard? {
      assert LoopEnded(calls[k].phase);
    } else {
      PhaseKeepsCallSide(calls, clients, k, Moved(calls[k], m));
    }
  }

  /** The steps that only change the phase of a call. */
  lemma TransferKeepsCallSide(s: State, a: Action)
    requires Inv(s) && CallSide(s.calls, s.clients) && Enabled(s, a)
    requires a.CompareAndSwap? || a.HandStart? || a.ClearFlag? || a.Relaunch? || a.CloseOne?
    ensures CallSide(Next(s, a).calls, s.clients)
  {
    PhaseKeepsCallSide(s.calls, s.clients, a.k, Next(s, a).calls[a.k]);
  }

  lemma StageIsSound(c: Client, stage: Stage, queueSize: nat, preamble: seq<Byte>)
    requires Sound(c, queueSize, preamble)
    requires Accepted(stage) == Accepted(c.stage) && Greeted(stage) == Greeted(c.stage)
    requires Gone(c.stage) ==> Gone(stage)
    ensures Sound(c.(stage := stage), queueSize, preamble)
  {
  }

  lemma StageKeepsDelivering(streamers: map<StreamerId, Streamer>, calls: map<CallId, Call>, clients: map<ClientId, Client>,
                             h: ClientId, stage: Stage)
    requires Delivering(streamers, calls, clients) && h in clients
    requires Accepted(stage) == Accepted(clients[h].stage) && Greeted(stage) == Greeted(clients[h].stage)
    requires Gone(clients[h].stage) ==> Gone(stage)
    ensures Delivering(streamers, calls, clients[h := clients[h].(stage := stage)])
  {
    var c := clients[h].(stage := stage);
    assert c.streamer in streamers;
    StageIsSound(clients[h], stage, streamers[c.streamer].queueSize, streamers[c.streamer].preamble);
    ClientUpdateKeepsSound(streamers, clients, h, c);
    ClientUpdateKeepsTracked(calls, clients, h, c);
  }

  lemma TakeKeepsDelivering(s: State, k: CallId, h: ClientId, request: Request, stage: Stage)
    requires Delivered(s) && k in s.calls && h in s.clients
    requires s.calls[k].phase.Selecting?
    requires Accepted(stage) == Accepted(s.clients[h].stage) && Greeted(stage) == Greeted(s.clients[h].stage)
    requires Gone(s.clients[h].stage) ==> Gone(stage)
    ensures Delivering(s.streamers, SetPhase(s, k, Handling(request)), SetStage(s, h, stage))
  {
    StageKeepsDelivering(s.streamers, s.calls, s.clients, h, stage);
    PhaseKeepsCallSide(s.calls, SetStage(s, h, stage), k, s.calls[k].(phase := Handling(request)));
  }

  lemma ServedKeepsIdentity(c: Client, act: ClientMove, preamble: seq<Byte>)
    requires CanServe(c, act, preamble)
    ensures var c' := Served(c, act, preamble);
            && c'.streamer == c.streamer && c'.session == c.session && c'.joined == c.joined && c'.offers == c.offers
            && Accepted(c'.stage) && Accepted(c.stage)
  {
  }

  lemma ServeKeepsDelivering(streamers: map<StreamerId, Streamer>, calls: map<CallId, Call>, clients: map<ClientId, Client>,
                             h: ClientId, act: ClientMove)
    requires Delivering(streamers, calls, clients) && h in clients
    requires CanServe(clients[h], act, streamers[clients[h].streamer].preamble)
    ensures Delivering(streamers, calls, clients[h := Served(clients[h], act, streamers[clients[h].streamer].preamble)])
  {
    var c, st := clients[h], streamers[clients[h].streamer];
    var c' := Served(c, act, st.preamble);
    ServedKeepsIdentity(c, act, st.preamble);
    ServedIsSound(c, act, st.queueSize, st.preamble);
    ServedKeepsReceived(c, act, st.preamble);
    ClientUpdateKeepsSound(streamers, clients, h, c');
    ClientUpdateKeepsTracked(calls, clients, h, c');
  }

  lemma CloseKeepsDelivering(streamers: map<StreamerId, Streamer>, calls: map<CallId, Call>, clients: map<ClientId, Client>, h: ClientId)
    requires Delivering(streamers, calls, clients) && h in clients
    ensures Delivering(streamers, calls, clients[h := clients[h].(open := false)])
  {
    ClientUpdateKeepsSound(streamers, clients, h, clients[h].(open := false));
    ClientUpdateKeepsTracked(calls, clients, h, clients[h].(open := false));
  }

  // ---------- The fan-out and the admission ----------

  lemma OfferKeepsTracked(calls: map<CallId, Call>, clients: map<ClientId, Client>, k: CallId, c: Call, h: ClientId, client: Client)
    requires CallSide(calls, clients) && k in calls && h in clients
    requires calls[k].phase.Distributing? && h in calls[k].phase.todo
    requires c == calls[k].(phase := calls[k].phase.(todo := calls[k].phase.todo - {h}))
    requires clients[h].session == k && client.session == k && Tracks(c, h, client)
    ensures CallSide(calls[k := c], clients[h := client])
  {
    forall g | g in clients && g != h && Accepted(clients[g].stage) && clients[g].session == k
      ensures Tracks(c, g, clients[g])
    {
      TracksLonger(calls[k], c, g, clients[g]);
    }
  }

  lemma OfferedIsPooled(calls: map<CallId, Call>, clients: map<ClientId, Client>, k: CallId, h: ClientId)
    requires Roster(calls, clients) && k in calls && calls[k].phase.Distributing? && h in calls[k].phase.todo
    ensures h in calls[k].pool && h in clients && Accepted(clients[h].stage)
    ensures clients[h].session == k && clients[h].streamer == calls[k].streamer
  {
    assert h in calls[k].pool && PooledBy(calls, k, clients[h], h);
  }

  lemma OfferKeepsSound(streamers: map<StreamerId, Streamer>, clients: map<ClientId, Client>,
                        c: Call, h: ClientId, packet: Packet, st: Streamer)
    requires AllSound(streamers, clients) && h in clients && clients[h].streamer == c.streamer && Accepted(clients[h].stage)
    requires Tracks(c, h, clients[h]) && c.streamer in streamers
    requires st.queueSize == streamers[c.streamer].queueSize && st.preamble == streamers[c.streamer].preamble
    ensures AllSound(streamers[c.streamer := st], clients[h := Offered(clients[h], packet, st.queueSize)])
  {
    KeptIsTakenOrQueued(c, h, clients[h]);
    OfferedIsSound(clients[h], packet, st.queueSize, st.preamble);
    StreamerUpdateKeepsSound(streamers, clients, c.streamer, st);
    ClientUpdateKeepsSound(streamers[c.streamer := st], clients, h, Offered(clients[h], packet, st.queueSize));
  }

  lemma OfferKeepsCallSide(calls: map<CallId, Call>, clients: map<ClientId, Client>, k: CallId, c: Call, h: ClientId, queueSize: nat)
    requires CallSide(calls, clients) && k in calls && h in clients
    requires calls[k].phase.Distributing? && h in calls[k].phase.todo && h in calls[k].pool
    requires clients[h].session == k && Accepted(clients[h].stage)
    requires c == calls[k].(phase := calls[k].phase.(todo := calls[k].phase.todo - {h}))
    ensures CallSide(calls[k := c], clients[h := Offered(clients[h], calls[k].phase.packet, queueSize)])
  {
    OfferedTracks(calls[k], c, h, clients[h], queueSize);
    OfferKeepsTracked(calls, clients, k, c, h, Offered(clients[h], calls[k].phase.packet, queueSize));
  }

  /** The streamer, call and client after an offer to an open queue. */
  lemma OfferKeepsDelivering(streamers: map<StreamerId, Streamer>, calls: map<CallId, Call>, clients: map<ClientId, Client>,
                             k: CallId, h: ClientId, st: Streamer, c: Call)
    requires Roster(calls, clients) && Delivering(streamers, calls, clients) && k in calls && h in clients
    requires calls[k].streamer in streamers
    requires calls[k].phase.Distributing? && h in calls[k].phase.todo
    requires c == calls[k].(phase := calls[k].phase.(todo := calls[k].phase.todo - {h}))
    requires st.queueSize == streamers[c.streamer].queueSize && st.preamble == streamers[c.streamer].preamble
    ensures Delivering(streamers[c.streamer := st], calls[k := c], clients[h := Offered(clients[h], calls[k].phase.packet, st.queueSize)])
  {
    OfferedIsPooled(calls, clients, k, h);
    assert Tracks(calls[k], h, clients[h]);
    OfferKeepsSound(streamers, clients, calls[k], h, calls[k].phase.packet, st);
    OfferKeepsCallSide(calls, clients, k, c, h, st.queueSize);
  }

  lemma AdmissionKeepsCallSide(calls: map<CallId, Call>, clients: map<ClientId, Client>, k: CallId, c: Call, h: ClientId, client: Client)
    requires CallSide(calls, clients) && k in calls && calls[k].phase.Handling?
    requires c == calls[k].(phase := Selecting, pool := calls[k].pool + {h})
    requires client.session == k && client.joined == |c.distributed| && client.offers == [] && Received(client) == []
    requires h in clients && !Accepted(clients[h].stage)
    ensures CallSide(calls[k := c], clients[h := client])
  {
    forall g | g in clients && g != h && Accepted(clients[g].stage) && clients[g].session == k
      ensures Tracks(c, g, clients[g])
    {
      TracksLonger(calls[k], c, g, clients[g]);
    }
  }

  /** An admitted client starts out with nothing offered. */
  lemma AdmissionKeepsDelivering(streamers: map<StreamerId, Streamer>, calls: map<CallId, Call>, clients: map<ClientId, Client>,
                                 k: CallId, c: Call, h: ClientId, client: Client)
    requires Delivering(streamers, calls, clients) && k in calls && calls[k].phase.Handling?
    requires c == calls[k].(phase := Selecting, pool := calls[k].pool + {h})
    requires h in clients && clients[h].stage.Waiting?
    requires client == clients[h].(stage := Stage.Admitted, session := k, joined := |c.distributed|)
    ensures Delivering(streamers, calls[k := c], clients[h := client])
  {
    ClientUpdateKeepsSound(streamers, clients, h, client);
    AdmissionKeepsCallSide(calls, clients, k, c, h, client);
  }

  lemma RefusalKeepsDelivering(streamers: map<StreamerId, Streamer>, calls: map<CallId, Call>, clients: map<ClientId, Client>,
                               k: CallId, h: ClientId)
    requires Roster(calls, clients) && Delivering(streamers, calls, clients) && k in calls && calls[k].phase.Handling?
    requires h in clients && clients[h].stage.Waiting?
    ensures Delivering(streamers, calls[k := calls[k].(phase := Selecting)], clients[h := clients[h].(stage := Refused)])
  {
    var client := clients[h].(stage := Refused);
    ClientUpdateKeepsSound(streamers, clients, h, client);
    ClientUpdateKeepsTracked(calls, clients, h, client);
    PhaseKeepsCallSide(calls, clients[h := client], k, calls[k].(phase := Selecting));
  }

  /** Whether its queue is open does not matter to what a client received. */
  lemma ClosingKeepsTracks(c: Call, h: ClientId, client: Client, client': Client)
    requires Tracks(c, h, client)
    requires client' == client || client' == client.(open := false)
    ensures Tracks(c, h, client')
  {
  }

  lemma CloseAllKeepsSound(streamers: map<StreamerId, Streamer>, clients: map<ClientId, Client>, clients': map<ClientId, Client>)
    requires AllSound(streamers, clients) && clients'.Keys == clients.Keys
    requires forall h :: h in clients ==> clients'[h] == clients[h] || clients'[h] == clients[h].(open := false)
    ensures AllSound(streamers, clients')
  {
    forall h | h in clients'
      ensures clients'[h].streamer in streamers
      ensures Sound(clients'[h], streamers[clients'[h].streamer].queueSize, streamers[clients'[h].streamer].preamble)
    {
      assert h in clients;
    }
  }

  lemma CloseAllKeepsTracked(calls: map<CallId, Call>, clients: map<ClientId, Client>, clients': map<ClientId, Client>)
    requires AllTracked(calls, clients) && clients'.Keys == clients.Keys
    requires forall h :: h in clients ==> clients'[h] == clients[h] || clients'[h] == clients[h].(open := false)
    ensures AllTracked(calls, clients')
  {
    forall h | h in clients' && Accepted(clients'[h].stage)
      ensures clients'[h].session in calls && Tracks(calls[clients'[h].session], h, clients'[h])
    {
      ClosingKeepsTracks(calls[clients[h].session], h, clients[h], clients'[h]);
    }
  }

  lemma RemoveKeepsDelivering(s: State, k: CallId, h: ClientId)
    requires Inv(s) && Delivered(s) && k in s.calls && h in s.clients && s.calls[k].phase.Handling?
    ensures Delivered(ProcessRemove(s, k, h))
  {
    var s' := ProcessRemove(s, k, h);
    PhaseKeepsCallSide(s.calls, s.clients, k, s'.calls[k]);
    CloseKeepsDelivering(s.streamers, s'.calls, s.clients, h);
  }

  lemma InhibitKeepsDelivering(s: State, k: CallId)
    requires Inv(s) && Delivered(s) && k in s.calls && s.calls[k].phase.Handling? && s.calls[k].pool <= s.clients.Keys
    ensures Delivered(ProcessInhibit(s, k))
  {
    var s' := ProcessInhibit(s, k);
    PhaseKeepsCallSide(s.calls, s.clients, k, s'.calls[k]);
    CloseAllKeepsSound(s.streamers, s.clients, s'.clients);
    CloseAllKeepsTracked(s'.calls, s.clients, s'.clients);
  }

  lemma AddKeepsDelivering(s: State, k: CallId, h: ClientId)
    requires Inv(s) && Delivered(s) && CanProcess(s, k) && s.calls[k].phase == Handling(Add(h))
    ensures Delivered(ProcessAdd(s, k, h))
  {
    var s' := ProcessAdd(s, k, h);
    if s'.clients[h].stage.Refused? {
      RefusalKeepsDelivering(s.streamers, s.calls, s.clients, k, h);
    } else {
      AdmissionKeepsDelivering(s.streamers, s.calls, s.clients, k, s'.calls[k], h, s'.clients[h]);
    }
  }

  lemma ProcessKeepsDelivering(s: State, k: CallId)
    requires Inv(s) && Delivered(s) && CanProcess(s, k)
    ensures Delivered(Processed(s, k))
  {
    var s' := Processed(s, k);
    match s.calls[k].phase.request {
      case Add(h) => AddKeepsDelivering(s, k, h);
      case Remove(h) => RemoveKeepsDelivering(s, k, h);
      case Inhibit => InhibitKeepsDelivering(s, k);
      case Allow =>
        PhaseKeepsCallSide(s.calls, s.clients, k, s'.calls[k]);
    }
  }

  lemma ArrivalKeepsDelivering(s: State, h: ClientId, st: StreamerId)
    requires Delivered(s) && h !in s.clients && st in s.streamers
    ensures Delivering(s.streamers, s.calls, s.clients[h := NewClient(st)])
  {
    ClientUpdateKeepsSound(s.streamers, s.clients, h, NewClient(st));
    ClientUpdateKeepsTracked(s.calls, s.clients, h, NewClient(st));
  }

  lemma OpeningKeepsCallSide(calls: map<CallId, Call>, clients: map<ClientId, Client>, k: CallId, st: StreamerId, source: seq<Byte>)
    requires CallSide(calls, clients) && k !in calls
    ensures CallSide(calls[k := NewCall(st, source)], clients)
  {
    CallUpdateKeepsTracked(calls, clients, k, NewCall(st, source));
  }

  lemma StreamersKeepShape(s: State, a: Action)
    requires Enabled(s, a) && AllSound(s.streamers, s.clients)
    requires a.CompareAndSwap? || a.HandStart? || a.ClearFlag? || a.Relaunch? || a.Receive?
    ensures AllSound(Next(s, a).streamers, s.clients)
  {
    var st, s' := s.calls[a.k].streamer, Next(s, a);
    if s'.streamers != s.streamers {
      StreamerUpdateKeepsSound(s.streamers, s.clients, st, s'.streamers[st]);
    }
  }

  lemma CallStepKeepsDelivering(s: State, a: Action)
    requires Inv(s) && Delivered(s) && Enabled(s, a)
    requires a.CompareAndSwap? || a.HandStart? || a.ClearFlag? || a.Relaunch? || a.Receive? || a.Pull? || a.Move?
    ensures Delivered(Next(s, a))
  {
    if a.Pull? {
      PullKeepsCallSide(s.calls, s.clients, a.k, a.pull);
    } else if a.Move? {
      MoveKeepsCallSide(s.calls, s.clients, a.k, a.move);
    } else {
      StreamersKeepShape(s, a);
      if a.Receive? {
        ReceiveKeepsCallSide(s, a.k);
      } else {
        TransferKeepsCallSide(s, a);
      }
    }
  }

  lemma OfferOrCloseKeepsDelivering(s: State, a: Action)
    requires Inv(s) && Delivered(s) && Enabled(s, a)
    requires a.OfferTo? || a.CloseOne?
    ensures Delivered(Next(s, a))
  {
    var s' := Next(s, a);
    if a.CloseOne? {
      TransferKeepsCallSide(s, a);
      CloseKeepsDelivering(s.streamers, s'.calls, s.clients, a.h);
    } else if s.clients[a.h].open {
      OfferKeepsDelivering(s.streamers, s.calls, s.clients, a.k, a.h, s'.streamers[s.calls[a.k].streamer], s'.calls[a.k]);
    }
  }

  lemma TakeAddKeepsDelivering(s: State, k: CallId, h: ClientId)
    requires Delivered(s) && CanTake(s, k, h, Requesting)
    ensures Delivering(s.streamers, SetPhase(s, k, Handling(Add(h))), SetStage(s, h, Waiting))
  {
    TakeKeepsDelivering(s, k, h, Add(h), Waiting);
  }

  lemma TakeRemoveKeepsDelivering(s: State, k: CallId, h: ClientId)
    requires Delivered(s) && CanTake(s, k, h, Leaving)
    ensures Delivering(s.streamers, SetPhase(s, k, Handling(Remove(h))), SetStage(s, h, Draining))
  {
    TakeKeepsDelivering(s, k, h, Remove(h), Draining);
  }

  lemma EatAddKeepsDelivering(s: State, h: ClientId)
    requires Delivered(s) && CanEat(s, h, Requesting)
    ensures Delivering(s.streamers, s.calls, SetStage(s, h, Refused))
  {
    StageKeepsDelivering(s.streamers, s.calls, s.clients, h, Refused);
  }

  lemma EatRemoveKeepsDelivering(s: State, h: ClientId)
    requires Delivered(s) && CanEat(s, h, Leaving)
    ensures Delivering(s.streamers, s.calls, SetStage(s, h, Draining))
  {
    StageKeepsDelivering(s.streamers, s.calls, s.clients, h, Draining);
  }

  lemma AnnounceKeepsDelivering(s: State, h: ClientId)
    requires Delivered(s) && CanNotify(s, h, Admitted)
    ensures Delivering(s.streamers, s.calls, SetStage(s, h, Greeting))
  {
    StageKeepsDelivering(s.streamers, s.calls, s.clients, h, Greeting);
  }

  lemma FarewellKeepsDelivering(s: State, h: ClientId)
    requires Delivered(s) && CanNotify(s, h, Drained)
    ensures Delivering(s.streamers, s.calls, SetStage(s, h, Departed))
  {
    StageKeepsDelivering(s.streamers, s.calls, s.clients, h, Departed);
  }

  lemma ReleaseKeepsDelivering(s: State, h: ClientId)
    requires Delivered(s) && h in s.clients && s.clients[h].stage.Departed?
    ensures Delivering(s.streamers, s.calls, SetStage(s, h, Released))
  {
    StageKeepsDelivering(s.streamers, s.calls, s.clients, h, Released);
  }

  /** The steps of a handler outside its connection. */
  lemma HandlerStepKeepsDelivering(s: State, a: Action)
    requires Delivered(s) && Enabled(s, a) && (a.Announce? || a.Farewell? || a.Release?)
    ensures Delivered(Next(s, a))
  {
    if a.Announce? {
      AnnounceKeepsDelivering(s, a.h);
    } else if a.Farewell? {
      FarewellKeepsDelivering(s, a.h);
    } else {
      ReleaseKeepsDelivering(s, a.h);
    }
  }

  lemma ServeStepKeepsDelivering(s: State, h: ClientId, act: ClientMove)
    requires Delivered(s) && Enabled(s, Serve(h, act))
    ensures Delivered(Next(s, Serve(h, act)))
  {
    ServeKeepsDelivering(s.streamers, s.calls, s.clients, h, act);
  }

  /** The steps in which a handler's request is received. */
  lemma RequestStepKeepsDelivering(s: State, a: Action)
    requires Delivered(s) && Enabled(s, a) && (a.TakeAdd? || a.TakeRemove? || a.EatAdd? || a.EatRemove?)
    ensures Delivered(Next(s, a))
  {
    if a.TakeAdd? {
      TakeAddKeepsDelivering(s, a.k, a.h);
    } else if a.TakeRemove? {
      TakeRemoveKeepsDelivering(s, a.k, a.h);
    } else if a.EatAdd? {
      EatAddKeepsDelivering(s, a.h);
    } else {
      EatRemoveKeepsDelivering(s, a.h);
    }
  }

  lemma BirthKeepsDelivering(s: State, a: Action)
    requires Delivered(s) && Enabled(s, a) && (a.Open? || a.Arrive?)
    ensures Delivered(Next(s, a))
  {
    match a {
      case Open(k, st, source) => OpeningKeepsCallSide(s.calls, s.clients, k, st, source);
      case Arrive(h, st) => ArrivalKeepsDelivering(s, h, st);
    }
  }

  lemma StepKeepsDelivering(s: State, a: Action)
    requires Inv(s) && Delivered(s) && Enabled(s, a)
    ensures Delivered(Next(s, a))
  {
    if a.Open? || a.Arrive? {
      BirthKeepsDelivering(s, a);
    } else if a.MisdirectStart? {
      Ownership.StartIsNotMisdirected(s, a.k, a.other);
    } else if a.OfferTo? || a.CloseOne? {
      OfferOrCloseKeepsDelivering(s, a);
    } else if a.Process? {
      ProcessKeepsDelivering(s, a.k);
    } else if a.Serve? {
      ServeStepKeepsDelivering(s, a.h, a.act);
    } else if a.TakeAdd? || a.TakeRemove? || a.EatAdd? || a.EatRemove? {
      RequestStepKeepsDelivering(s, a);
    } else if a.Announce? || a.Farewell? || a.Release? {
      HandlerStepKeepsDelivering(s, a);
    } else if !a.InhibitAll? && !a.Report? {
      CallStepKeepsDelivering(s, a);
    }
  }
}
