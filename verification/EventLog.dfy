/**
 What one handler of the load reporter is told, read off the operations: a log of the messages accepted
 since the last start, the place that the reporting loop has reached in them, all changes of the connection
 count it has carried out, and what the handler heard of them. The reporter agrees with it.
 */
module EventLog {
  import opened Words
  import opened EventQueue

  datatype Log = Log(
    running: bool,
    sent: seq<Change>,      // accepted since the last start, in the order notified
    taken: nat,             // how many of these were handled
    deltas: seq<Int64>,     // all changes handled, across restarts
    kinds: set<Kind>,       // what the handler is registered for
    told: seq<Event>)

  /** The event that a change of the count makes, if it crosses the limit and the handler wants to know. */
  function Crossing(limit: nat, before: int, after: int, kinds: set<Kind>): seq<Event>
  {
    if limit > 0 && before >= limit && after < limit && LimitMiss in kinds then [Miss(before, after)]
    else if limit > 0 && before < limit && after >= limit && LimitHit in kinds then [Hit(before, after)]
    else []
  }

  function Taken(l: Log, limit: nat): Log
    requires l.taken < |l.sent|
  {
    match l.sent[l.taken]
    case Beat(time) =>
      l.(taken := l.taken + 1, told := l.told + if Heartbeat in l.kinds then [Pulse(time)] else [])
    case Connect(delta) =>
      var deltas := l.deltas + [delta];
      l.(taken := l.taken + 1, deltas := deltas, told := l.told + Crossing(limit, Count(l.deltas), Count(deltas), l.kinds))
  }

  function Noted(l: Log, limit: nat, h: HandlerId, op: Operation): Log
  {
    match op
    case Start => if l.running then l else l.(running := true, sent := [], taken := 0)
    case Shutdown => l.(running := false, sent := [], taken := 0)
    case Notify(change) => if l.running && |l.sent| < l.taken + 10 then l.(sent := l.sent + [change]) else l
    case Handle => if l.running && l.taken < |l.sent| then Taken(l, limit) else l
    case Register(kind, g) => if !l.running && g == h then l.(kinds := l.kinds + {kind}) else l
    case Unregister(kind, g) => if !l.running && g == h then l.(kinds := l.kinds - {kind}) else l
  }

  function NotedAll(l: Log, limit: nat, h: HandlerId, ops: seq<Operation>): Log
  {
    if ops == [] then l else Noted(NotedAll(l, limit, h, ops[..|ops| - 1]), limit, h, ops[|ops| - 1])
  }

  const NOTHING := Log(false, [], 0, [], {}, [])

  /** The reporter agrees with the log of handler `h`. */
  predicate Agrees(r: Reporter, l: Log, h: HandlerId)
  {
    && r.running == l.running && l.taken <= |l.sent| && r.pending == l.sent[l.taken..]
    && r.connections == Count(l.deltas)
    && (forall kind: Kind :: h in Registered(r.handlers, kind) <==> kind in l.kinds)
    && Told(r.inbox, h) == l.told
  }

  lemma CountOneMore(deltas: seq<Int64>, delta: Int64)
    ensures Count(deltas + [delta]) == NextCount(Count(deltas), delta)
  {
    assert (deltas + [delta])[..|deltas|] == deltas;
  }

  lemma BeatIsTold(r: Reporter, time: int, kinds: set<Kind>, h: HandlerId)
    requires forall kind: Kind :: h in Registered(r.handlers, kind) <==> kind in kinds
    ensures var r' := Handled(r, Beat(time));
            && r' == r.(inbox := r'.inbox)
            && Told(r'.inbox, h) == Told(r.inbox, h) + if Heartbeat in kinds then [Pulse(time)] else []
  {
    ToldAfterDelivery(r.inbox, Registered(r.handlers, Heartbeat), Pulse(time), h);
  }

  lemma ChangeIsTold(r: Reporter, delta: Int64, kinds: set<Kind>, h: HandlerId)
    requires forall kind: Kind :: h in Registered(r.handlers, kind) <==> kind in kinds
    ensures var r', count := Handled(r, Connect(delta)), NextCount(r.connections, delta);
            && r' == r.(connections := count, inbox := r'.inbox)
            && Told(r'.inbox, h) == Told(r.inbox, h) + Crossing(r.limit, r.connections, count, kinds)
  {
    var count := NextCount(r.connections, delta);
    ToldAfterDelivery(r.inbox, Registered(r.handlers, LimitMiss), Miss(r.connections, count), h);
    ToldAfterDelivery(r.inbox, Registered(r.handlers, LimitHit), Hit(r.connections, count), h);
  }

  lemma NextPending(l: Log)
    requires l.taken < |l.sent|
    ensures l.sent[l.taken..] != [] && l.sent[l.taken..][0] == l.sent[l.taken]
    ensures l.sent[l.taken..][1..] == l.sent[l.taken + 1..]
  {
  }

  /** The reporter after a message, with the rest still pending. */
  lemma HandledIsTaken(r: Reporter, l: Log, h: HandlerId)
    requires Agrees(r, l, h) && r.pending != []
    ensures Agrees(Handled(r, r.pending[0]).(pending := r.pending[1..]), Taken(l, r.limit), h)
    ensures Handled(r, r.pending[0]).limit == r.limit
  {
    NextPending(l);
    if r.pending[0].Beat? {
      BeatIsTold(r, r.pending[0].time, l.kinds, h);
    } else {
      ChangeIsTold(r, r.pending[0].delta, l.kinds, h);
      CountOneMore(l.deltas, r.pending[0].delta);
    }
  }

  lemma StepAgrees(r: Reporter, l: Log, op: Operation, h: HandlerId)
    requires Agrees(r, l, h)
    ensures Agrees(Apply(r, op), Noted(l, r.limit, h, op), h) && Apply(r, op).limit == r.limit
  {
    if op.Handle? && r.running && r.pending != [] {
      HandledIsTaken(r, l, h);
    }
  }

  /**
   After any operations, with stops and restarts, the messages handled and pending are those accepted since
   the last start, in order; the count is that of all changes handled, in that order; every handler is registered
   for what it asked for last, and was told of exactly the messages handled while it was.
   */
  lemma {:induction false} RunAgrees(r: Reporter, l: Log, ops: seq<Operation>, h: HandlerId)
    requires Agrees(r, l, h)
    ensures Agrees(Run(r, ops), NotedAll(l, r.limit, h, ops), h) && Run(r, ops).limit == r.limit
  {
    if ops != [] {
      var init := ops[..|ops| - 1];
      RunAgrees(r, l, init, h);
      StepAgrees(Run(r, init), NotedAll(l, r.limit, h, init), ops[|ops| - 1], h);
    }
  }

  /** A new queue agrees with an empty log. */
  lemma NewQueueAgrees(limit: nat, ops: seq<Operation>, h: HandlerId)
    ensures Agrees(Run(Reporter(limit, 0, false, [], map[], map[]), ops), NotedAll(NOTHING, limit, h, ops), h)
  {
    RunAgrees(Reporter(limit, 0, false, [], map[], map[]), NOTHING, ops, h);
  }

  // ---------- Hits and misses ----------

  lemma LimitEventsJoin(events: seq<Event>, more: seq<Event>)
    requires |more| <= 1
    ensures LimitEvents(events + more) == LimitEvents(events) + LimitEvents(more)
  {
    if more == [] {
      assert events + more == events;
    } else {
      assert more == [more[0]] && more[..0] == [];
      LimitEventsStep(events, more[0]);
      assert LimitEvents([]) == [] && LimitEvents(more) == if more[0].Pulse? then [] else [more[0]];
    }
  }

  lemma LimitEventsOfTaken(l: Log, limit: nat)
    requires l.taken < |l.sent| && limit > 0 && LimitHit in l.kinds && LimitMiss in l.kinds
    ensures var l' := Taken(l, limit);
            var before, after := Count(l.deltas), Count(l'.deltas);
            LimitEvents(l'.told) ==
              LimitEvents(l.told) + (if before >= limit > after then [Miss(before, after)]
                                     else if before < limit <= after then [Hit(before, after)] else [])
  {
    match l.sent[l.taken]
    case Beat(time) =>
      LimitEventsJoin(l.told, if Heartbeat in l.kinds then [Pulse(time)] else []);
    case Connect(delta) =>
      var crossing := Crossing(limit, Count(l.deltas), Count(l.deltas + [delta]), l.kinds);
      LimitEventsJoin(l.told, crossing);
      assert crossing != [] ==> crossing[..0] == [];
  }

  /** The handler of both limit events is told what the changes alone determine: beats, stops and restarts do not matter. */
  predicate ToldOfChanges(l: Log, r: Reporter, h: HandlerId)
  {
    LimitEvents(l.told) == LimitEvents(Told(HandledAll(r, l.deltas).inbox, h))
  }

  lemma TakenIsToldOfChanges(l: Log, r: Reporter, h: HandlerId)
    requires l.taken < |l.sent| && r.limit > 0 && LimitHit in l.kinds && LimitMiss in l.kinds
    requires r.connections == 0 && ListensToBoth(r, h) && LimitEvents(Told(r.inbox, h)) == []
    requires ToldOfChanges(l, r, h)
    ensures ToldOfChanges(Taken(l, r.limit), r, h)
  {
    LimitEventsOfTaken(l, r.limit);
    BalanceTellsLoad(r, l.deltas, h);
    match l.sent[l.taken]
    case Beat(_) =>
    case Connect(delta) =>
      var deltas := l.deltas + [delta];
      assert deltas[..|l.deltas|] == l.deltas;
      BalanceTellsLoad(r, deltas, h);
      LimitEventsOfChange(HandledAll(r, l.deltas), Connect(delta), h);
  }

  /** The handler is registered for both limit events all along. */
  predicate AlwaysListens(r: Reporter, ops: seq<Operation>, h: HandlerId)
  {
    ListensToBoth(Run(r, ops), h) && (ops != [] ==> AlwaysListens(r, ops[..|ops| - 1], h))
  }

  lemma NotedIsToldOfChanges(r: Reporter, before: Log, op: Operation, h: HandlerId, r': Reporter)
    requires Agrees(r', before, h) && r'.limit == r.limit > 0 && ListensToBoth(r', h)
    requires r.connections == 0 && ListensToBoth(r, h) && LimitEvents(Told(r.inbox, h)) == []
    requires ToldOfChanges(before, r, h)
    ensures ToldOfChanges(Noted(before, r.limit, h, op), r, h)
  {
    if op.Handle? && before.running && before.taken < |before.sent| {
      TakenIsToldOfChanges(before, r, h);
    }
  }

  lemma {:induction false} LoggedAsHandled(r: Reporter, l: Log, ops: seq<Operation>, h: HandlerId)
    requires Agrees(r, l, h) && l.deltas == [] && ListensToBoth(r, h)
    requires r.limit > 0 && LimitEvents(l.told) == [] && AlwaysListens(r, ops, h)
    ensures ToldOfChanges(NotedAll(l, r.limit, h, ops), r, h)
  {
    if ops != [] {
      var init := ops[..|ops| - 1];
      LoggedAsHandled(r, l, init, h);
      RunAgrees(r, l, init, h);
      assert ListensToBoth(Run(r, init), h);
      NotedIsToldOfChanges(r, NotedAll(l, r.limit, h, init), ops[|ops| - 1], h, Run(r, init));
    }
  }
}
