/**
 What holds in every run of the broker, for any number of streamers, sessions, clients and packets
 and any order of steps.
 */
module Theorems {
  import opened Bytes
  import opened Framing
  import Input
  import opened Lists
  import opened Broker
  import EventQueue
  import EventLog
  import Ownership
  import opened Queues
  import opened Admission
  import opened Reporting
  import opened Delivery
  import opened Conservation

  // ---------- Invariants of all runs ----------

  ghost predicate Healthy(s: State)
  {
    TendedInv(s) && Counts(s) && Pending(s) && Delivered(s) && Balanced(s)
  }

  lemma InitIsHealthy(s: State)
    requires Init(s)
    ensures Healthy(s)
  {
    Ownership.InitHasInv(s);
    assert Active(s.clients) == {} && Announced(s.clients) == {};
    forall st | st in s.streamers
      ensures Awaiting(s.calls, st) == {}
    {
    }
  }

  lemma StepKeepsHealthy(s: State, a: Action)
    requires Healthy(s) && Enabled(s, a)
    ensures Healthy(Next(s, a))
  {
    StepKeepsInv(s, a);
    StepKeepsTended(s, a);
    StepKeepsPending(s, a);
    StepKeepsCounts(s, a);
    StepKeepsDelivering(s, a);
    StepKeepsBalanced(s, a);
  }

  lemma {:induction false} RunKeepsHealthy(s: State, steps: seq<Action>)
    requires Healthy(s) && IsRun(s, steps)
    ensures Healthy(After(s, steps))
    decreases |steps|
  {
    if steps != [] {
      StepKeepsHealthy(s, steps[0]);
      RunKeepsHealthy(Next(s, steps[0]), steps[1..]);
    }
  }

  /** Some run leads from a fresh start to this state. */
  ghost predicate Reachable(s: State)
  {
    exists s0, steps :: Init(s0) && IsRun(s0, steps) && After(s0, steps) == s
  }

  lemma ReachableIsHealthy(s: State)
    requires Reachable(s)
    ensures Healthy(s)
  {
    var s0, steps :| Init(s0) && IsRun(s0, steps) && After(s0, steps) == s;
    InitIsHealthy(s0);
    RunKeepsHealthy(s0, steps);
  }

  // ---------- The request channel ----------

  /**
   At any time exactly one process receives a streamer's requests: its eater, or a session between
   taking the start command and launching the eater again. So a request has one consumer, and the
   start command never ends up with a session.
   */
  lemma OneReceiverTheorem(s: State, st: StreamerId)
    requires Reachable(s) && st in s.streamers
    ensures s.streamers[st].eaters + |Ownership.HoldersOf(Ownership.Owners(s.calls), st)| == 1
    ensures |Ownership.HoldersOf(Ownership.FlagHolders(s.calls), st)| == if s.streamers[st].running then 1 else 0
    ensures forall k, other :: !Enabled(s, MisdirectStart(k, other))
  {
    ReachableIsHealthy(s);
    Ownership.OneReceiver(s.streamers, s.calls, st);
    forall k, other
      ensures !Enabled(s, MisdirectStart(k, other))
    {
      Ownership.StartIsNotMisdirected(s, k, other);
    }
  }

  // ---------- Queue safety ----------

  ghost predicate AlwaysSafe(s: State, steps: seq<Action>)
    requires IsRun(s, steps)
    decreases |steps|
  {
    QueueSafe(s) && (steps != [] ==> AlwaysSafe(Next(s, steps[0]), steps[1..]))
  }

  predicate AlwaysDisciplined(s: State, steps: seq<Action>)
    requires IsRun(s, steps)
    decreases |steps|
  {
    steps != [] ==> Disciplined(s, steps[0]) && AlwaysDisciplined(Next(s, steps[0]), steps[1..])
  }

  lemma {:induction false} SafeExactlyWhenDisciplined(s: State, steps: seq<Action>)
    requires Healthy(s) && SafeInv(s) && IsRun(s, steps)
    ensures AlwaysSafe(s, steps) <==> AlwaysDisciplined(s, steps)
    ensures AlwaysDisciplined(s, steps) ==> SafeInv(After(s, steps))
    decreases |steps|
  {
    if steps != [] {
      var s', rest := Next(s, steps[0]), steps[1..];
      StepKeepsSafeInv(s, steps[0]);
      StepKeepsHealthy(s, steps[0]);
      if Disciplined(s, steps[0]) {
        SafeExactlyWhenDisciplined(s', rest);
      }
    }
  }

  /**
   A run never closes or sends on a closed queue and keeps every pooled queue open, exactly if each
   request to go offline meets an empty pool and each remove request is carried out by the session
   that admitted the client, unless the client saw its queue closed.
   */
  lemma QueueSafetyTheorem(s: State, steps: seq<Action>)
    requires Init(s) && IsRun(s, steps)
    ensures AlwaysSafe(s, steps) <==> AlwaysDisciplined(s, steps)
  {
    InitIsHealthy(s);
    SafeExactlyWhenDisciplined(s, steps);
  }

  /** Some disciplined run leads from a fresh start to this state. */
  ghost predicate SafelyReachable(s: State)
  {
    exists s0, steps :: Init(s0) && IsRun(s0, steps) && AlwaysDisciplined(s0, steps) && After(s0, steps) == s
  }

  lemma SafelyReachableIsSafe(s: State)
    requires SafelyReachable(s)
    ensures Healthy(s) && SafeInv(s)
  {
    var s0, steps :| Init(s0) && IsRun(s0, steps) && AlwaysDisciplined(s0, steps) && After(s0, steps) == s;
    InitIsHealthy(s0);
    RunKeepsHealthy(s0, steps);
    SafeExactlyWhenDisciplined(s0, steps);
  }

  /** No step opens a closed queue again. */
  lemma ClosedForGood(s: State, a: Action, h: ClientId)
    requires Enabled(s, a) && h in s.clients && !s.clients[h].open
    ensures h in Next(s, a).clients && !Next(s, a).clients[h].open
  {
    if a.Process? && s.calls[a.k].phase.request.Inhibit? {
      assert h in ProcessInhibit(s, a.k).clients;
    }
  }

  /**
   An open queue of an admitted client is in the care of the live or closing session that admitted it,
   and a remove request that an eater swallows finds the queue closed. In a disciplined run the
   queues in a session's care are open as well.
   */
  lemma OpenWhileCaredFor(s: State, h: ClientId)
    requires Reachable(s) && h in s.clients && Accepted(s.clients[h].stage)
    ensures s.clients[h].session in s.calls
    ensures s.clients[h].open ==> h in Members(s.calls[s.clients[h].session])
    ensures CanEat(s, h, Leaving) ==> !s.clients[h].open
    ensures SafelyReachable(s) && h in Members(s.calls[s.clients[h].session]) ==> s.clients[h].open
  {
    assert TendedInv(s) by { ReachableIsHealthy(s); }
    OpenInCare(s, h);
    if CanEat(s, h, Leaving) {
      EatenRemoveIsClosed(s, h);
    }
    if SafelyReachable(s) {
      assert SafeInv(s) by { SafelyReachableIsSafe(s); }
    }
  }

  /**
   No handler waits for a queue that nobody will close, in any run: one that drains an open queue has
   its remove request being carried out right now, and one that drains a closed queue can go on.
   */
  lemma NoStrandedHandler(s: State, h: ClientId)
    requires Reachable(s) && h in s.clients && s.clients[h].stage.Draining?
    ensures s.clients[h].open ==>
              && s.clients[h].session in s.calls
              && s.calls[s.clients[h].session].phase == Handling(Remove(h))
              && CanProcess(s, s.clients[h].session)
    ensures !s.clients[h].open ==> CanServe(s.clients[h], Drain, []) || CanServe(s.clients[h], DrainEnd, [])
  {
    assert TendedInv(s) by { ReachableIsHealthy(s); }
    DrainingEnds(s, h);
  }

  // ---------- Admission ----------

  /**
   The shared counter is the number of handlers let in and not released; it respects the limit, and a
   release never finds it at zero.
   */
  lemma AdmissionTheorem(s: State)
    requires Reachable(s)
    ensures s.control.connections == |Active(s.clients)|
    ensures s.control.max != 0 ==> s.control.connections <= s.control.max
    ensures forall h :: Enabled(s, Release(h)) ==> s.control.connections > 0
  {
    assert Counts(s) by { ReachableIsHealthy(s); }
    forall h | Enabled(s, Release(h))
      ensures s.control.connections > 0
    {
      ReleaseKeepsCounts(s, h);
    }
  }

  /**
   The pools of any sessions of all streamers, without the clients just being removed, hold together
   no more clients than the counter and the limit. The full pools hold only clients that are counted,
   and so meet the same bounds, exactly if no client in a pool was released before its
   remove request has been carried out. In disciplined runs none is.
   */
  lemma PoolTheorem(s: State, ks: seq<CallId>)
    requires Reachable(s)
    requires (forall i :: 0 <= i < |ks| ==> ks[i] in s.calls) && Distinct(ks)
    ensures Sizes(StayingPools(s.calls), ks) <= s.control.connections
    ensures s.control.max != 0 ==> Sizes(StayingPools(s.calls), ks) <= s.control.max
    ensures (forall k :: k in s.calls ==> Members(s.calls[k]) <= Active(s.clients)) <==> NoneReleasedInPool(s)
    ensures NoneReleasedInPool(s) ==> Sizes(Pools(s.calls), ks) <= s.control.connections
    ensures NoneReleasedInPool(s) && s.control.max != 0 ==> Sizes(Pools(s.calls), ks) <= s.control.max
    ensures SafelyReachable(s) ==> NoneReleasedInPool(s)
  {
    assert TendedInv(s) && Counts(s) by { ReachableIsHealthy(s); }
    forall k | k in s.calls
      ensures Staying(s.calls[k]) <= Active(s.clients)
    {
      StayingAreActive(s, k);
    }
    ActivePoolsWithinLimit(s, StayingPools(s.calls), ks);
    PooledAreActive(s);
    if NoneReleasedInPool(s) {
      ActivePoolsWithinLimit(s, Pools(s.calls), ks);
    }
    if SafelyReachable(s) {
      assert SafeInv(s) by { SafelyReachableIsSafe(s); }
      OpenPoolsAreActive(s);
    }
  }

  ghost predicate AlwaysCounted(s: State, steps: seq<Action>)
    requires IsRun(s, steps)
    decreases |steps|
  {
    NoneReleasedInPool(s) && (steps != [] ==> AlwaysCounted(Next(s, steps[0]), steps[1..]))
  }

  /** No client is released while its session is carrying out its remove request. */
  predicate AlwaysReleasedLate(s: State, steps: seq<Action>)
    requires IsRun(s, steps)
    decreases |steps|
  {
    steps != [] ==>
      (steps[0].Release? ==> !UnderRemoval(s, steps[0].h)) && AlwaysReleasedLate(Next(s, steps[0]), steps[1..])
  }

  lemma {:induction false} CountedExactlyWhenReleasedLate(s: State, steps: seq<Action>)
    requires Healthy(s) && NoneReleasedInPool(s) && IsRun(s, steps)
    ensures AlwaysCounted(s, steps) <==> AlwaysReleasedLate(s, steps)
    decreases |steps|
  {
    if steps != [] {
      var s', rest := Next(s, steps[0]), steps[1..];
      StepKeepsHealthy(s, steps[0]);
      if steps[0].Release? {
        ReleaseKeepsPoolsCounted(s, steps[0].h);
      } else {
        OtherStepKeepsPoolsCounted(s, steps[0]);
      }
      if NoneReleasedInPool(s') {
        CountedExactlyWhenReleasedLate(s', rest);
      }
    }
  }

  /** Throughout a run all pooled clients are counted exactly if each release finds the client's removal done. */
  lemma PoolsAlwaysCounted(s: State, steps: seq<Action>)
    requires Init(s) && IsRun(s, steps)
    ensures AlwaysCounted(s, steps) <==> AlwaysReleasedLate(s, steps)
  {
    InitIsHealthy(s);
    CountedExactlyWhenReleasedLate(s, steps);
  }

  // ---------- Reporting ----------

  /** The reporter's count is right in every state of the run. */
  ghost predicate AlwaysAccurate(s: State, steps: seq<Action>)
    requires IsRun(s, steps)
    decreases |steps|
  {
    Accurate(s) && (steps != [] ==> AlwaysAccurate(Next(s, steps[0]), steps[1..]))
  }

  /** The clients the reporter was told of never exceed its range. */
  ghost predicate AlwaysInRange(s: State, steps: seq<Action>)
    requires IsRun(s, steps)
    decreases |steps|
  {
    InRange(s.counted) && (steps != [] ==> AlwaysInRange(Next(s, steps[0]), steps[1..]))
  }

  /** The clients announced never exceed the reporter's range. */
  ghost predicate AlwaysCountable(s: State, steps: seq<Action>)
    requires IsRun(s, steps)
    decreases |steps|
  {
    InRange(Announced(s.clients)) && (steps != [] ==> AlwaysCountable(Next(s, steps[0]), steps[1..]))
  }

  lemma {:induction false} AccurateExactlyInRange(s: State, steps: seq<Action>)
    requires Healthy(s) && Accurate(s) && IsRun(s, steps)
    ensures AlwaysAccurate(s, steps) <==> AlwaysInRange(s, steps)
    decreases |steps|
  {
    AccurateIsInRange(s);
    if steps != [] {
      var s' := Next(s, steps[0]);
      StepKeepsPending(s, steps[0]);
      StepKeepsHealthy(s, steps[0]);
      if Accurate(s') {
        AccurateExactlyInRange(s', steps[1..]);
      }
    }
  }

  lemma {:induction false} CountableIsInRange(s: State, steps: seq<Action>)
    requires Healthy(s) && StaysInRange(s.counted, s.notices) && IsRun(s, steps) && AlwaysCountable(s, steps)
    ensures AlwaysInRange(s, steps)
    decreases |steps|
  {
    if steps != [] {
      StepKeepsPending(s, steps[0]);
      StepKeepsHealthy(s, steps[0]);
      CountableIsInRange(Next(s, steps[0]), steps[1..]);
    }
  }

  lemma LimitIsConstant(s: State, a: Action)
    requires Enabled(s, a)
    ensures Next(s, a).control.max == s.control.max
  {
  }

  /** A connection limit within the reporter's range suffices. */
  lemma {:induction false} LimitKeepsCountable(s: State, steps: seq<Action>)
    requires Healthy(s) && IsRun(s, steps)
    requires 0 < s.control.max <= EventQueue.MAX_INT32
    ensures AlwaysCountable(s, steps)
    decreases |steps|
  {
    AnnouncedAreActive(s);
    if steps != [] {
      LimitIsConstant(s, steps[0]);
      StepKeepsHealthy(s, steps[0]);
      LimitKeepsCountable(Next(s, steps[0]), steps[1..]);
    }
  }

  /**
   In every run the clients the reporter was told of and the queued changes add up to the handlers
   between their two notifications, and no prefix of the queue leads below zero. The reporter's
   count is the number of these clients throughout exactly if that number stays within MaxInt32;
   it does if no more clients are announced at a time, or the connection limit allows no more.
   */
  lemma ReportingTheorem(s: State, steps: seq<Action>)
    requires Init(s) && IsRun(s, steps)
    ensures var t := After(s, steps);
            && |t.counted| + Deltas(t.notices) == |Announced(t.clients)|
            && (forall i :: 0 <= i <= |t.notices| ==> |t.counted| + Deltas(t.notices[..i]) >= 0)
    ensures AlwaysAccurate(s, steps) <==> AlwaysInRange(s, steps)
    ensures AlwaysCountable(s, steps) || 0 < s.control.max <= EventQueue.MAX_INT32 ==> AlwaysAccurate(s, steps)
  {
    InitIsHealthy(s);
    RunKeepsHealthy(s, steps);
    CountAgreesWithHandlers(After(s, steps));
    AccurateExactlyInRange(s, steps);
    if 0 < s.control.max <= EventQueue.MAX_INT32 {
      LimitKeepsCountable(s, steps);
    }
    if AlwaysCountable(s, steps) {
      CountableIsInRange(s, steps);
    }
  }

  lemma {:induction false} AccurateAtEnd(s: State, steps: seq<Action>)
    requires IsRun(s, steps) && AlwaysAccurate(s, steps)
    ensures Accurate(After(s, steps))
    decreases |steps|
  {
    if steps != [] {
      AccurateAtEnd(Next(s, steps[0]), steps[1..]);
    }
  }

  /**
   What a handler of both limit events is told: when the queue has handled the changes that the broker's
   reporter has applied, among beats, stops and restarts, and that count is right, hits and misses alternate and
   their balance is 1 exactly if as many clients as the limit are counted.
   */
  lemma LoadIsTold(s: State, steps: seq<Action>, r: EventQueue.Reporter, l: EventLog.Log,
                   ops: seq<EventQueue.Operation>, h: EventQueue.HandlerId)
    requires Init(s) && IsRun(s, steps) && AlwaysAccurate(s, steps)
    requires EventLog.Agrees(r, l, h) && l.deltas == [] && r.limit > 0
    requires EventQueue.ListensToBoth(r, h) && EventLog.AlwaysListens(r, ops, h) && EventQueue.LimitEvents(l.told) == []
    requires EventLog.NotedAll(l, r.limit, h, ops).deltas == After(s, steps).heard
    ensures var t, r' := After(s, steps), EventQueue.Run(r, ops);
            var events := EventQueue.LimitEvents(EventQueue.Told(r'.inbox, h));
            && r'.connections == |t.counted|
            && EventQueue.Alternates(events, false, |t.counted| >= r.limit)
            && EventQueue.Hits(events) - EventQueue.Misses(events) == if |t.counted| >= r.limit then 1 else 0
  {
    AccurateAtEnd(s, steps);
    EventLog.RunAgrees(r, l, ops, h);
    EventLog.LoggedAsHandled(r, l, ops, h);
    EventQueue.BalanceTellsLoad(r, After(s, steps).heard, h);
  }

  // ---------- Delivery ----------

  /**
   The packets distributed are always a prefix of those pulled from upstream, in order, and are all of
   them when the loop ends; the drain of the input queue discards nothing.
   */
  lemma NoInputLoss(s: State, k: CallId)
    requires Reachable(s) && k in s.calls
    ensures var c := s.calls[k];
            && c.distributed + c.input == c.pushed <= Scan(c.source)
            && c.discarded == []
            && (LoopEnded(c.phase) ==> c.distributed == Scan(c.source))
  {
    assert AllFed(s.calls) by { ReachableIsHealthy(s); }
    assert Fed(s.calls[k]);
  }

  /** The packets a client was offered: those its session distributed since it joined. */
  function OfferedPackets(c: Call, client: Client): seq<Packet>
    requires client.joined + |client.offers| <= |c.distributed|
  {
    c.distributed[client.joined..client.joined + |client.offers|]
  }

  /**
   What a client was written, drained and still has queued are, in this order, the packets it kept
   of those distributed since it joined. Its queue never exceeds the capacity, and a packet is
   missing only if the queue was full when it was offered. While the client is in the pool, it was
   offered everything but perhaps the latest packet.
   */
  lemma ClientDelivery(s: State, h: ClientId)
    requires Reachable(s) && h in s.clients && Accepted(s.clients[h].stage)
    ensures var client := s.clients[h];
            && client.session in s.calls && client.streamer in s.streamers
            && var c, queueSize := s.calls[client.session], s.streamers[client.streamer].queueSize;
            && client.joined + |client.offers| <= |c.distributed|
            && client.written + client.drained + client.queue == Kept(OfferedPackets(c, client), client.offers)
            && |client.queue| <= queueSize
            && Decided(client.offers, queueSize)
            && (Ownership.Owns(c.phase) && h in c.pool ==>
                  client.joined + |client.offers| + Lag(c, h) == |c.distributed|)
  {
    assert AllSound(s.streamers, s.clients) && AllTracked(s.calls, s.clients) by { ReachableIsHealthy(s); }
    var client := s.clients[h];
    assert Sound(client, s.streamers[client.streamer].queueSize, s.streamers[client.streamer].preamble);
    assert Tracks(s.calls[client.session], h, client);
  }

  /** The decision on the j-th packet, spelled out. */
  lemma {:induction false} DecidedAt(offers: seq<Offer>, queueSize: nat, j: nat)
    requires Decided(offers, queueSize) && j < |offers|
    ensures offers[j].taken <= KeptCount(offers[..j])
    ensures offers[j].kept <==> KeptCount(offers[..j]) - offers[j].taken < queueSize
  {
    if j < |offers| - 1 {
      DecidedAt(offers[..|offers| - 1], queueSize, j);
      assert offers[..|offers| - 1][..j] == offers[..j];
    }
  }

  /** At every offer fewer packets waited than the queue can hold. */
  predicate LeavesRoom(offers: seq<Offer>, queueSize: nat)
  {
    if offers == [] then true
    else
      var init, last := offers[..|offers| - 1], offers[|offers| - 1];
      LeavesRoom(init, queueSize) && KeptCount(init) - last.taken < queueSize
  }

  /** A client that keeps up gets everything: if it always leaves room, nothing is missing, and only then. */
  lemma {:induction false} NothingDropped(packets: seq<Packet>, offers: seq<Offer>, queueSize: nat)
    requires |packets| == |offers| && Decided(offers, queueSize)
    ensures |Kept(packets, offers)| <= |packets|
    ensures Kept(packets, offers) == packets <==> LeavesRoom(offers, queueSize)
  {
    if offers != [] {
      var n := |offers| - 1;
      NothingDropped(packets[..n], offers[..n], queueSize);
      assert packets == packets[..n] + [packets[n]];
    }
  }

  // ---------- End to end ----------

  predicate EndBefore(ws: seq<nat>, bound: nat)
  {
    forall i :: 0 <= i < |ws| ==> ws[i] + PACKET_SIZE <= bound
  }

  lemma {:induction false} KeptEndBefore(ws: seq<nat>, offers: seq<Offer>, bound: nat)
    requires EndBefore(ws, bound) && |ws| == |offers|
    ensures EndBefore(Kept(ws, offers), bound)
  {
    if offers != [] {
      var n := |offers| - 1;
      KeptEndBefore(ws[..n], offers[..n], bound);
    }
  }

  lemma WindowsOneMore(s: seq<Byte>, ws: seq<nat>, w: nat)
    requires Windows(s, 0, ws) && EndBefore(ws, w)
    requires w + PACKET_SIZE <= |s| && s[w] == SYNC_BYTE
    ensures Windows(s, 0, ws + [w])
  {
  }

  lemma {:induction false} KeptWindows(s: seq<Byte>, ws: seq<nat>, offers: seq<Offer>)
    requires Windows(s, 0, ws) && |ws| == |offers|
    ensures Windows(s, 0, Kept(ws, offers))
  {
    if offers != [] {
      var n := |offers| - 1;
      KeptWindows(s, ws[..n], offers[..n]);
      KeptEndBefore(ws[..n], offers[..n], ws[n]);
      if offers[n].kept {
        WindowsOneMore(s, Kept(ws[..n], offers[..n]), ws[n]);
      }
    }
  }

  lemma CutOneMore(s: seq<Byte>, ws: seq<nat>, w: nat)
    requires EndBefore(ws, |s|) && w + PACKET_SIZE <= |s|
    ensures EndBefore(ws + [w], |s|) && Cut(s, ws + [w]) == Cut(s, ws) + [s[w..w + PACKET_SIZE]]
  {
  }

  lemma {:induction false} KeptCut(s: seq<Byte>, ws: seq<nat>, offers: seq<Offer>)
    requires EndBefore(ws, |s|) && |ws| == |offers|
    ensures EndBefore(Kept(ws, offers), |s|)
    ensures Cut(s, Kept(ws, offers)) == Kept(Cut(s, ws), offers)
  {
    KeptEndBefore(ws, offers, |s|);
    if offers != [] {
      var n := |offers| - 1;
      KeptCut(s, ws[..n], offers[..n]);
      assert ws == ws[..n] + [ws[n]];
      assert ws[n] + PACKET_SIZE <= |s|;
      CutOneMore(s, ws[..n], ws[n]);
      assert Cut(s, ws)[..n] == Cut(s, ws[..n]);
      if offers[n].kept {
        CutOneMore(s, Kept(ws[..n], offers[..n]), ws[n]);
      }
    }
  }

  lemma WindowsSlice(s: seq<Byte>, ws: seq<nat>, i: nat, j: nat)
    requires Windows(s, 0, ws) && i <= j <= |ws|
    ensures Windows(s, 0, ws[i..j]) && Cut(s, ws[i..j]) == Cut(s, ws)[i..j]
  {
  }

  /** Packets distributed in a row are windows of the upstream bytes. */
  lemma DistributedWindows(source: seq<Byte>, distributed: seq<Packet>, from: nat, to: nat) returns (ws: seq<nat>)
    requires distributed <= Scan(source) && from <= to <= |distributed|
    ensures Windows(source, 0, ws) && Cut(source, ws) == distributed[from..to]
  {
    var all := Positions(source, 0);
    PositionsAreFraming(source, 0);
    ScanCutsAtPositions(source, 0);
    assert source[0..] == source;
    WindowsSlice(source, all, from, to);
    ws := all[from..to];
  }

  /** The windows of the upstream bytes that a client was written. */
  lemma WrittenWindows(source: seq<Byte>, distributed: seq<Packet>, client: Client) returns (ws: seq<nat>)
    requires distributed <= Scan(source)
    requires client.joined + |client.offers| <= |distributed|
    requires Received(client) == Kept(distributed[client.joined..client.joined + |client.offers|], client.offers)
    ensures Windows(source, 0, ws) && client.written == Cut(source, ws)
  {
    var offered := DistributedWindows(source, distributed, client.joined, client.joined + |client.offers|);
    assert |offered| == |Cut(source, offered)| == |client.offers|;
    KeptWindows(source, offered, client.offers);
    KeptCut(source, offered, client.offers);
    var kept := Kept(offered, client.offers);
    assert client.written == Received(client)[..|client.written|];
    ws := kept[..|client.written|];
    WindowsSlice(source, kept, 0, |client.written|);
  }

  /** The client was sent the preamble and then the packets that are these windows of `bytes`. */
  ghost predicate SentWindows(client: Client, preamble: seq<Byte>, bytes: seq<Byte>, ws: seq<nat>)
  {
    && Windows(bytes, 0, ws)
    && client.output == if Greeted(client.stage) then preamble + Concat(Cut(bytes, ws)) else []
  }

  /**
   End to end: after the preamble a client is sent whole packets, each 188 bytes of the upstream
   data that start with the sync byte, disjoint and in upstream order, whatever the interleaving and
   the packets dropped on the way.
   */
  lemma EndToEnd(s: State, h: ClientId)
    requires Reachable(s) && h in s.clients && Accepted(s.clients[h].stage)
    ensures var client := s.clients[h];
            && client.session in s.calls && client.streamer in s.streamers
            && exists ws :: SentWindows(client, s.streamers[client.streamer].preamble, s.calls[client.session].source, ws)
  {
    ClientDelivery(s, h);
    NoInputLoss(s, s.clients[h].session);
    var client := s.clients[h];
    var c := s.calls[client.session];
    var ws := WrittenWindows(c.source, c.distributed, client);
    assert OutputMatches(client.stage, client.output, client.written, s.streamers[client.streamer].preamble) by {
      assert AllSound(s.streamers, s.clients) by { ReachableIsHealthy(s); }
      assert Sound(client, s.streamers[client.streamer].queueSize, s.streamers[client.streamer].preamble);
    }
    assert SentWindows(client, s.streamers[client.streamer].preamble, c.source, ws);
  }

  lemma WindowsOfPrefix(client: Client, preamble: seq<Byte>, s: seq<Byte>, t: seq<Byte>, ws: seq<nat>)
    requires s <= t && SentWindows(client, preamble, s, ws)
    ensures SentWindows(client, preamble, t, ws)
  {
    forall i | 0 <= i < |ws|
      ensures Cut(t, ws)[i] == Cut(s, ws)[i]
    {
      assert t[..|s|] == s;
    }
    assert Cut(t, ws) == Cut(s, ws);
  }

  /**
   The same from the network on: if the stream is fed by a byte stream, or by datagrams through a fixed
   reader, in pieces of any sizes, the packets are such windows of the concatenated pieces.
   */
  lemma EndToEndFromNetwork(s: State, h: ClientId, feed: Input.Feed)
    requires Reachable(s) && h in s.clients && Accepted(s.clients[h].stage)
    requires s.clients[h].session in s.calls ==> s.calls[s.clients[h].session].source == feed.Delivered()
    ensures var client := s.clients[h];
            && client.streamer in s.streamers
            && exists ws :: SentWindows(client, s.streamers[client.streamer].preamble, feed.Contents(), ws)
  {
    EndToEnd(s, h);
    var client := s.clients[h];
    var preamble, source := s.streamers[client.streamer].preamble, s.calls[client.session].source;
    var ws :| SentWindows(client, preamble, source, ws);
    Input.DeliveredIsPrefix(feed);
    WindowsOfPrefix(client, preamble, source, feed.Contents(), ws);
  }

  // ---------- Conservation ----------

  /**
   The packets counted as sent are those written to, drained from or still queued for all clients
   ever admitted, and sent plus dropped is the sum of the pool sizes over all packets distributed,
   less the offers of the latest packet still to be made.
   */
  lemma FanOutConservation(s: State, st: StreamerId)
    requires Reachable(s) && st in s.streamers
    ensures s.streamers[st].sent == Total(s.clients, ReceivedBy(st))
    ensures s.streamers[st].sent + s.streamers[st].dropped + |Awaiting(s.calls, st)| == Sum(s.streamers[st].fanout)
  {
    assert Delivered(s) && Balanced(s) by { ReachableIsHealthy(s); }
    StatisticsAddUp(s, st);
  }
}
