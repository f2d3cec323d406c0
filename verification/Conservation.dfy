/**
 The packet statistics of a streamer add up: what the counters call sent is what clients received,
 and sent plus dropped is one for every client in the pool at every packet distributed.
 */
module Conservation {
  import opened Broker
  import Ownership
  import opened Queues
  import opened Delivery

  // ---------- Sums over clients ----------

  ghost function Total(clients: map<ClientId, Client>, weight: Client -> nat): nat
  {
    if clients == map[] then 0
    else
      var h :| h in clients;
      weight(clients[h]) + Total(clients - {h}, weight)
  }

  lemma {:induction false} TotalWithout(clients: map<ClientId, Client>, weight: Client -> nat, h: ClientId)
    requires h in clients
    ensures Total(clients, weight) == weight(clients[h]) + Total(clients - {h}, weight)
    decreases |clients|
  {
    var g :| g in clients && Total(clients, weight) == weight(clients[g]) + Total(clients - {g}, weight);
    if g != h {
      TotalWithout(clients - {g}, weight, h);
      TotalWithout(clients - {h}, weight, g);
      assert clients - {g} - {h} == clients - {h} - {g};
    }
  }

  lemma TotalUpdated(clients: map<ClientId, Client>, weight: Client -> nat, h: ClientId, c: Client)
    ensures Total(clients[h := c], weight) ==
            Total(clients, weight) - (if h in clients then weight(clients[h]) else 0) + weight(c)
  {
    TotalWithout(clients[h := c], weight, h);
    if h in clients {
      TotalWithout(clients, weight, h);
      assert clients[h := c] - {h} == clients - {h};
    } else {
      assert clients[h := c] - {h} == clients;
    }
  }

  lemma {:induction false} SameTotal(clients: map<ClientId, Client>, clients': map<ClientId, Client>, weight: Client -> nat, weight': Client -> nat)
    requires clients.Keys == clients'.Keys
    requires forall h :: h in clients ==> weight(clients[h]) == weight'(clients'[h])
    ensures Total(clients, weight) == Total(clients', weight')
    decreases |clients|
  {
    if h :| h in clients {
      TotalWithout(clients, weight, h);
      TotalWithout(clients', weight', h);
      SameTotal(clients - {h}, clients' - {h}, weight, weight');
    } else {
      assert clients == map[] && clients' == map[];
    }
  }

  // ---------- The ledger ----------

  function SentTo(st: StreamerId): Client -> nat
  {
    (c: Client) => if c.streamer == st then KeptCount(c.offers) else 0
  }

  function DroppedCount(offers: seq<Offer>): (n: nat)
    ensures n + KeptCount(offers) == |offers|
  {
    if offers == [] then 0
    else DroppedCount(offers[..|offers| - 1]) + if offers[|offers| - 1].kept then 0 else 1
  }

  function DroppedFor(st: StreamerId): Client -> nat
  {
    (c: Client) => if c.streamer == st then DroppedCount(c.offers) else 0
  }

  function Sum(sizes: seq<nat>): nat
  {
    if sizes == [] then 0 else Sum(sizes[..|sizes| - 1]) + sizes[|sizes| - 1]
  }

  ghost predicate Booked(streamers: map<StreamerId, Streamer>, clients: map<ClientId, Client>)
  {
    forall st :: st in streamers ==>
      && streamers[st].sent == Total(clients, SentTo(st))
      && streamers[st].dropped == Total(clients, DroppedFor(st))
  }

  /** The clients that a session of the streamer is about to offer the latest packet to. */
  function Awaiting(calls: map<CallId, Call>, st: StreamerId): set<ClientId>
  {
    set k, h | k in calls && calls[k].streamer == st && calls[k].phase.Distributing? && h in calls[k].phase.todo :: h
  }

  /** Every place in a pool at a packet is an offer made, or one the session is about to make. */
  ghost predicate Settled(streamers: map<StreamerId, Streamer>, calls: map<CallId, Call>)
  {
    forall st :: st in streamers ==>
      streamers[st].sent + streamers[st].dropped + |Awaiting(calls, st)| == Sum(streamers[st].fanout)
  }

  ghost predicate Balanced(s: State)
  {
    Booked(s.streamers, s.clients) && Settled(s.streamers, s.calls)
  }

  // ---------- Keeping the books ----------

  lemma OffersUnchanged(streamers: map<StreamerId, Streamer>, clients: map<ClientId, Client>, h: ClientId, c: Client)
    requires Booked(streamers, clients)
    requires if h in clients then c.streamer == clients[h].streamer && c.offers == clients[h].offers else c.offers == []
    ensures Booked(streamers, clients[h := c])
  {
    forall st | st in streamers
      ensures Total(clients[h := c], SentTo(st)) == Total(clients, SentTo(st))
      ensures Total(clients[h := c], DroppedFor(st)) == Total(clients, DroppedFor(st))
    {
      TotalUpdated(clients, SentTo(st), h, c);
      TotalUpdated(clients, DroppedFor(st), h, c);
    }
  }

  lemma AllOffersUnchanged(streamers: map<StreamerId, Streamer>, clients: map<ClientId, Client>, clients': map<ClientId, Client>)
    requires Booked(streamers, clients) && clients.Keys == clients'.Keys
    requires forall h :: h in clients ==> clients'[h] == clients[h] || clients'[h] == clients[h].(open := false)
    ensures Booked(streamers, clients')
  {
    forall st | st in streamers
      ensures Total(clients', SentTo(st)) == Total(clients, SentTo(st))
      ensures Total(clients', DroppedFor(st)) == Total(clients, DroppedFor(st))
    {
      SameTotal(clients, clients', SentTo(st), SentTo(st));
      SameTotal(clients, clients', DroppedFor(st), DroppedFor(st));
    }
  }

  lemma CountersUnchanged(streamers: map<StreamerId, Streamer>, clients: map<ClientId, Client>, st: StreamerId, x: Streamer)
    requires Booked(streamers, clients) && st in streamers
    requires x.sent == streamers[st].sent && x.dropped == streamers[st].dropped
    ensures Booked(streamers[st := x], clients)
  {
  }

  /** One more offer to a client adds one to what was sent to it or dropped for it. */
  lemma WeightsOfOffer(before: Client, c: Client, st: StreamerId)
    requires c.streamer == before.streamer
    requires |c.offers| == |before.offers| + 1 && c.offers[..|before.offers|] == before.offers
    ensures var kept := c.offers[|before.offers|].kept;
            && SentTo(st)(c) == SentTo(st)(before) + (if kept && st == c.streamer then 1 else 0)
            && DroppedFor(st)(c) == DroppedFor(st)(before) + (if !kept && st == c.streamer then 1 else 0)
  {
  }

  lemma OfferIsBooked(streamers: map<StreamerId, Streamer>, clients: map<ClientId, Client>, h: ClientId, c: Client, x: Streamer)
    requires Booked(streamers, clients) && h in clients && c.streamer == clients[h].streamer && c.streamer in streamers
    requires |c.offers| == |clients[h].offers| + 1 && c.offers[..|clients[h].offers|] == clients[h].offers
    requires var kept := c.offers[|clients[h].offers|].kept; var st := streamers[c.streamer];
             x.sent == st.sent + (if kept then 1 else 0) && x.dropped == st.dropped + if kept then 0 else 1
    ensures Booked(streamers[c.streamer := x], clients[h := c])
  {
    forall st | st in streamers
      ensures streamers[c.streamer := x][st].sent == Total(clients[h := c], SentTo(st))
      ensures streamers[c.streamer := x][st].dropped == Total(clients[h := c], DroppedFor(st))
    {
      WeightsOfOffer(clients[h], c, st);
      TotalUpdated(clients, SentTo(st), h, c);
      TotalUpdated(clients, DroppedFor(st), h, c);
    }
  }

  // ---------- Settling the fan-out ----------

  function Unoffered(p: Phase): set<ClientId>
  {
    if p.Distributing? then Todo(p) else {}
  }

  /** What a call is about to offer does not change, and the counters stay. */
  lemma IdleKeepsSettled(streamers: map<StreamerId, Streamer>, calls: map<CallId, Call>, k: CallId, c: Call)
    requires Settled(streamers, calls)
    requires Unoffered(c.phase) == if k in calls then Unoffered(calls[k].phase) else {}
    requires k in calls ==> c.streamer == calls[k].streamer
    ensures Settled(streamers, calls[k := c])
  {
    forall st | st in streamers
      ensures Awaiting(calls[k := c], st) == Awaiting(calls, st)
    {
      AwaitingAlike(calls, calls[k := c], st);
    }
  }

  lemma AwaitingAlike(calls: map<CallId, Call>, calls': map<CallId, Call>, st: StreamerId)
    requires forall k :: k in calls && calls[k].streamer == st && Unoffered(calls[k].phase) != {} ==>
               k in calls' && calls'[k].streamer == st && Unoffered(calls'[k].phase) == Unoffered(calls[k].phase)
    requires forall k :: k in calls' && calls'[k].streamer == st && Unoffered(calls'[k].phase) != {} ==>
               k in calls && calls[k].streamer == st && Unoffered(calls[k].phase) == Unoffered(calls'[k].phase)
    ensures Awaiting(calls, st) == Awaiting(calls', st)
  {
    forall h | h in Awaiting(calls, st)
      ensures h in Awaiting(calls', st)
    {
      var k :| k in calls && calls[k].streamer == st && calls[k].phase.Distributing? && h in calls[k].phase.todo;
      assert h in Unoffered(calls[k].phase);
    }
    forall h | h in Awaiting(calls', st)
      ensures h in Awaiting(calls, st)
    {
      var k :| k in calls' && calls'[k].streamer == st && calls'[k].phase.Distributing? && h in calls'[k].phase.todo;
      assert h in Unoffered(calls'[k].phase);
    }
  }

  lemma CountersKeepSettled(streamers: map<StreamerId, Streamer>, calls: map<CallId, Call>, st: StreamerId, x: Streamer)
    requires Settled(streamers, calls) && st in streamers
    requires x.sent == streamers[st].sent && x.dropped == streamers[st].dropped && x.fanout == streamers[st].fanout
    ensures Settled(streamers[st := x], calls)
  {
  }

  lemma SumOneMore(sizes: seq<nat>, n: nat)
    ensures Sum(sizes + [n]) == Sum(sizes) + n
  {
    assert (sizes + [n])[..|sizes|] == sizes;
  }

  /** No other session of the streamer distributes while one owns the channel. */
  ghost predicate Alone(calls: map<CallId, Call>, k: CallId)
    requires k in calls
  {
    forall l :: l in calls && calls[l].streamer == calls[k].streamer && Ownership.Owns(calls[l].phase) ==> l == k
  }

  lemma OwnerIsAlone(s: State, k: CallId)
    requires Inv(s) && k in s.calls && Ownership.Owns(s.calls[k].phase)
    ensures Alone(s.calls, k)
  {
    forall l | l in s.calls && s.calls[l].streamer == s.calls[k].streamer && Ownership.Owns(s.calls[l].phase)
      ensures l == k
    {
      Ownership.SameOwner(s.streamers, s.calls, k, l);
    }
  }

  lemma AwaitingAlone(calls: map<CallId, Call>, k: CallId)
    requires k in calls && Alone(calls, k)
    ensures Awaiting(calls, calls[k].streamer) == Unoffered(calls[k].phase)
  {
    assert calls[k].phase.Distributing? ==> forall h :: h in calls[k].phase.todo ==> h in Awaiting(calls, calls[k].streamer);
  }

  /** A session that owns the channel changes what it is about to offer, and its counters accordingly. */
  lemma OwnerKeepsSettled(streamers: map<StreamerId, Streamer>, calls: map<CallId, Call>, k: CallId, c: Call, x: Streamer)
    requires Settled(streamers, calls) && k in calls && Alone(calls, k) && calls[k].streamer in streamers
    requires c.streamer == calls[k].streamer
    requires x.sent + x.dropped + |Unoffered(c.phase)| - Sum(x.fanout) ==
             var st := streamers[c.streamer]; st.sent + st.dropped + |Unoffered(calls[k].phase)| - Sum(st.fanout)
    ensures Settled(streamers[c.streamer := x], calls[k := c])
  {
    var calls' := calls[k := c];
    assert Alone(calls', k);
    AwaitingAlone(calls, k);
    AwaitingAlone(calls', k);
    forall st | st in streamers && st != c.streamer
      ensures Awaiting(calls', st) == Awaiting(calls, st)
    {
      AwaitingAlike(calls, calls', st);
    }
  }

  // ---------- Steps ----------

  lemma ReceiveKeepsBalanced(s: State, k: CallId)
    requires Inv(s) && Balanced(s) && Enabled(s, Receive(k))
    ensures Balanced(ReceivePacket(s, k))
  {
    var s', st := ReceivePacket(s, k), s.calls[k].streamer;
    OwnerIsAlone(s, k);
    SumOneMore(s.streamers[st].fanout, |s.calls[k].pool|);
    OwnerKeepsSettled(s.streamers, s.calls, k, s'.calls[k], s'.streamers[st]);
    CountersUnchanged(s.streamers, s.clients, st, s'.streamers[st]);
  }

  lemma OfferKeepsSettled(s: State, k: CallId, h: ClientId)
    requires Inv(s) && Settled(s.streamers, s.calls) && Enabled(s, OfferTo(k, h)) && s.clients[h].open
    ensures Settled(OfferPacket(s, k, h).streamers, OfferPacket(s, k, h).calls)
  {
    var s' := OfferPacket(s, k, h);
    OwnerIsAlone(s, k);
    OwnerKeepsSettled(s.streamers, s.calls, k, s'.calls[k], s'.streamers[s.calls[k].streamer]);
  }

  lemma OfferKeepsBooked(s: State, k: CallId, h: ClientId)
    requires Inv(s) && Booked(s.streamers, s.clients) && Enabled(s, OfferTo(k, h)) && s.clients[h].open
    ensures Booked(OfferPacket(s, k, h).streamers, OfferPacket(s, k, h).clients)
  {
    var s' := OfferPacket(s, k, h);
    assert h in s.calls[k].pool && s.clients[h].streamer == s.calls[k].streamer;
    OfferIsBooked(s.streamers, s.clients, h, s'.clients[h], s'.streamers[s.calls[k].streamer]);
  }

  lemma OfferKeepsBalanced(s: State, k: CallId, h: ClientId)
    requires Inv(s) && Balanced(s) && Enabled(s, OfferTo(k, h)) && s.clients[h].open
    ensures Balanced(OfferPacket(s, k, h))
  {
    OfferKeepsSettled(s, k, h);
    OfferKeepsBooked(s, k, h);
  }

  /** Outside the fan-out, and with the same counters, nothing is booked. */
  lemma TransferIsBalanced(s: State, k: CallId, c: Call, x: Streamer)
    requires Balanced(s) && Known(s, k) && c.streamer == s.calls[k].streamer
    requires Unoffered(c.phase) == {} && Unoffered(s.calls[k].phase) == {}
    requires var st := s.streamers[c.streamer]; x.sent == st.sent && x.dropped == st.dropped && x.fanout == st.fanout
    ensures Booked(s.streamers[c.streamer := x], s.clients)
    ensures Settled(s.streamers[c.streamer := x], s.calls[k := c])
  {
    IdleKeepsSettled(s.streamers, s.calls, k, c);
    CountersKeepSettled(s.streamers, s.calls[k := c], c.streamer, x);
    CountersUnchanged(s.streamers, s.clients, c.streamer, x);
  }

  lemma SwapKeepsBalanced(s: State, k: CallId)
    requires Balanced(s) && Enabled(s, CompareAndSwap(k))
    ensures Balanced(SwapFlag(s, k))
  {
    var s', st := SwapFlag(s, k), s.calls[k].streamer;
    TransferIsBalanced(s, k, s'.calls[k], s'.streamers[st]);
    assert s.streamers[st := s.streamers[st]] == s.streamers;
  }

  lemma CallStepKeepsBalanced(s: State, a: Action)
    requires Balanced(s) && Enabled(s, a)
    requires a.CompareAndSwap? || a.HandStart? || a.ClearFlag? || a.Relaunch?
    ensures Balanced(Next(s, a))
  {
    if a.CompareAndSwap? {
      SwapKeepsBalanced(s, a.k);
    } else {
      var s', st := Next(s, a), s.calls[a.k].streamer;
      TransferIsBalanced(s, a.k, s'.calls[a.k], s'.streamers[st]);
    }
  }

  lemma QuietCallStepKeepsBalanced(s: State, a: Action)
    requires Balanced(s) && Enabled(s, a)
    requires a.Pull? || a.Move? || a.Open?
    ensures Balanced(Next(s, a))
  {
    IdleKeepsSettled(s.streamers, s.calls, a.k, Next(s, a).calls[a.k]);
  }

  lemma ClientStepKeepsBalanced(s: State, a: Action)
    requires Balanced(s) && Enabled(s, a)
    requires a.Arrive? || a.EatAdd? || a.EatRemove? || a.Serve? || a.Announce? || a.Farewell? || a.Release?
    ensures Balanced(Next(s, a))
  {
    OffersUnchanged(s.streamers, s.clients, a.h, Next(s, a).clients[a.h]);
  }

  lemma PairStepKeepsBalanced(s: State, a: Action)
    requires Balanced(s) && Enabled(s, a)
    requires a.TakeAdd? || a.TakeRemove? || a.CloseOne?
    ensures Balanced(Next(s, a))
  {
    var s' := Next(s, a);
    IdleKeepsSettled(s.streamers, s.calls, a.k, s'.calls[a.k]);
    if s'.clients != s.clients {
      OffersUnchanged(s.streamers, s.clients, a.h, s'.clients[a.h]);
    }
  }

  lemma AddKeepsBalanced(s: State, k: CallId, h: ClientId)
    requires Balanced(s) && CanProcess(s, k) && s.calls[k].phase == Handling(Add(h))
    ensures Balanced(ProcessAdd(s, k, h))
  {
    var s' := ProcessAdd(s, k, h);
    IdleKeepsSettled(s.streamers, s.calls, k, s'.calls[k]);
    OffersUnchanged(s.streamers, s.clients, h, s'.clients[h]);
  }

  lemma RemoveKeepsBalanced(s: State, k: CallId, h: ClientId)
    requires Balanced(s) && CanProcess(s, k) && s.calls[k].phase == Handling(Remove(h))
    ensures Balanced(ProcessRemove(s, k, h))
  {
    var s' := ProcessRemove(s, k, h);
    IdleKeepsSettled(s.streamers, s.calls, k, s'.calls[k]);
    if s'.clients != s.clients {
      OffersUnchanged(s.streamers, s.clients, h, s'.clients[h]);
    }
  }

  lemma InhibitKeepsBalanced(s: State, k: CallId)
    requires Balanced(s) && CanProcess(s, k) && s.calls[k].phase == Handling(Inhibit)
    ensures Balanced(ProcessInhibit(s, k))
  {
    var s' := ProcessInhibit(s, k);
    IdleKeepsSettled(s.streamers, s.calls, k, s'.calls[k]);
    AllOffersUnchanged(s.streamers, s.clients, s'.clients);
  }

  lemma ProcessKeepsBalanced(s: State, k: CallId)
    requires Balanced(s) && CanProcess(s, k)
    ensures Balanced(Processed(s, k))
  {
    match s.calls[k].phase.request {
      case Add(h) => AddKeepsBalanced(s, k, h);
      case Remove(h) => RemoveKeepsBalanced(s, k, h);
      case Inhibit => InhibitKeepsBalanced(s, k);
      case Allow => IdleKeepsSettled(s.streamers, s.calls, k, Processed(s, k).calls[k]);
    }
  }

  lemma StepKeepsBalanced(s: State, a: Action)
    requires Inv(s) && Balanced(s) && Enabled(s, a)
    ensures Balanced(Next(s, a))
  {
    if a.MisdirectStart? {
      Ownership.StartIsNotMisdirected(s, a.k, a.other);
    } else if a.Receive? {
      ReceiveKeepsBalanced(s, a.k);
    } else if a.OfferTo? {
      if s.clients[a.h].open { OfferKeepsBalanced(s, a.k, a.h); }
    } else if a.Process? {
      ProcessKeepsBalanced(s, a.k);
    } else if a.Pull? || a.Move? || a.Open? {
      QuietCallStepKeepsBalanced(s, a);
    } else if a.TakeAdd? || a.TakeRemove? || a.CloseOne? {
      PairStepKeepsBalanced(s, a);
    } else if a.CompareAndSwap? || a.HandStart? || a.ClearFlag? || a.Relaunch? {
      CallStepKeepsBalanced(s, a);
    } else if !a.InhibitAll? && !a.Report? {
      ClientStepKeepsBalanced(s, a);
    }
  }

  // ---------- In terms of packets received ----------

  function ReceivedBy(st: StreamerId): Client -> nat
  {
    (c: Client) => if c.streamer == st then |c.written| + |c.drained| + |c.queue| else 0
  }

  /**
   The packets counted as sent are those the clients were written, drained or still have queued,
   and sent and dropped together are the pool sizes at every packet distributed.
   */
  lemma StatisticsAddUp(s: State, st: StreamerId)
    requires Delivered(s) && Balanced(s) && st in s.streamers
    ensures s.streamers[st].sent == Total(s.clients, ReceivedBy(st))
    ensures s.streamers[st].sent + s.streamers[st].dropped + |Awaiting(s.calls, st)| == Sum(s.streamers[st].fanout)
  {
    forall h | h in s.clients
      ensures SentTo(st)(s.clients[h]) == ReceivedBy(st)(s.clients[h])
    {
      var c := s.clients[h];
      if Accepted(c.stage) {
        KeptIsTakenOrQueued(s.calls[c.session], h, c);
      }
    }
    SameTotal(s.clients, s.clients, SentTo(st), ReceivedBy(st));
  }
}
