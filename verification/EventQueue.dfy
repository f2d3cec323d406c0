/**
 The connection load reporter (event/queue.go): a clamped connection counter that notifies handlers
 when it crosses a limit. `Reporter` is its state and `Apply` what one operation does to it; the
 class `Queue` carries the operations out. The integer type is 64 bits wide and wraps around.
 */
module EventQueue {

  import opened Words

  const MAX_INT32: int := 0x7fff_ffff
  const MIN_INT64: int := -0x8000_0000_0000_0000
  const QUEUE_SIZE: nat := 10

  function Negate(x: int): Int64 { Wrap(-x) }

  // ---------- The clamped counter ----------

  /** The connection count after a change by `connected`. */
  function NextCount(connections: Int64, connected: Int64): Int64
  {
    if connected < 0 && Negate(connected) > connections then 0
    else if connected > Wrap(MAX_INT32 - connections) then MAX_INT32
    else Wrap(connections + connected)
  }

  /** A count in range stays in range, except after the one change whose negation is not representable. */
  lemma CountStaysInRange(connections: Int64, connected: Int64)
    requires 0 <= connections <= MAX_INT32
    ensures 0 <= NextCount(connections, connected) <= MAX_INT32 <==> connected != MIN_INT64
  {
    if connected == MIN_INT64 {
      assert Negate(connected) == connected;
      assert Wrap(connections + connected) == connections + connected;
    } else {
      assert Negate(connected) == -connected;
    }
  }

  /** Between the clamps the count is exact. */
  lemma CountIsExact(connections: Int64, connected: Int64)
    requires 0 <= connections <= MAX_INT32 && connected != MIN_INT64
    ensures NextCount(connections, connected) == connections + connected <==> 0 <= connections + connected <= MAX_INT32
    ensures connections + connected < 0 ==> NextCount(connections, connected) == 0
    ensures connections + connected > MAX_INT32 ==> NextCount(connections, connected) == MAX_INT32
  {
    assert Negate(connected) == -connected;
    assert Wrap(MAX_INT32 - connections) == MAX_INT32 - connections;
  }

  function Count(deltas: seq<Int64>): Int64
  {
    if deltas == [] then 0 else NextCount(Count(deltas[..|deltas| - 1]), deltas[|deltas| - 1])
  }

  function Sum(deltas: seq<Int64>): int
  {
    if deltas == [] then 0 else Sum(deltas[..|deltas| - 1]) + deltas[|deltas| - 1]
  }

  /** The greatest sum of a final segment of the changes, the empty one included. */
  function PeakRise(deltas: seq<Int64>): int
  {
    if deltas == [] then 0
    else
      var rise := PeakRise(deltas[..|deltas| - 1]) + deltas[|deltas| - 1];
      if rise > 0 then rise else 0
  }

  /** `PeakRise` is the maximum over all k of S(n) - S(k), where S(k) is the sum of the first k changes. */
  lemma {:induction false} PeakRiseIsMaximum(deltas: seq<Int64>)
    ensures forall k :: 0 <= k <= |deltas| ==> Sum(deltas) - Sum(deltas[..k]) <= PeakRise(deltas)
    ensures exists k :: 0 <= k <= |deltas| && Sum(deltas) - Sum(deltas[..k]) == PeakRise(deltas)
  {
    var n := |deltas|;
    assert deltas[..n] == deltas;
    if n > 0 {
      var init := deltas[..n - 1];
      PeakRiseIsMaximum(init);
      assert forall k :: 0 <= k < n ==> init[..k] == deltas[..k];
      var j :| 0 <= j <= n - 1 && Sum(init) - Sum(init[..j]) == PeakRise(init);
      assert Sum(deltas) - Sum(deltas[..j]) == PeakRise(init) + deltas[n - 1];
      if PeakRise(deltas) == 0 {
        assert Sum(deltas) - Sum(deltas[..n]) == PeakRise(deltas);
      } else {
        assert Sum(deltas) - Sum(deltas[..j]) == PeakRise(deltas);
      }
    }
  }

  ghost predicate CountIsPeakRise(deltas: seq<Int64>)
  {
    forall n :: 0 <= n <= |deltas| ==> Count(deltas[..n]) == PeakRise(deltas[..n])
  }

  ghost predicate Unsaturated(deltas: seq<Int64>)
  {
    forall n :: 0 <= n <= |deltas| ==> PeakRise(deltas[..n]) <= MAX_INT32
  }

  lemma PrefixesOfInit(deltas: seq<Int64>)
    requires deltas != []
    ensures var init := deltas[..|deltas| - 1];
            && (CountIsPeakRise(deltas) <==> CountIsPeakRise(init) && Count(deltas) == PeakRise(deltas))
            && (Unsaturated(deltas) <==> Unsaturated(init) && PeakRise(deltas) <= MAX_INT32)
            && (CountIsPeakRise(init) ==> Count(init) == PeakRise(init))
  {
    var n := |deltas|;
    var init := deltas[..n - 1];
    assert deltas[..n] == deltas && init[..n - 1] == init;
    assert forall k :: 0 <= k < n ==> init[..k] == deltas[..k];
  }

  /**
   Closed form of the clamped count. The lower clamp turns it into the peak rise, and it is the
   peak rise after every prefix exactly when no stretch of changes adds up to more than the
   upper clamp.
   */
  lemma {:induction false} ClosedForm(deltas: seq<Int64>)
    requires forall i :: 0 <= i < |deltas| ==> deltas[i] != MIN_INT64
    ensures 0 <= Count(deltas) <= MAX_INT32
    ensures CountIsPeakRise(deltas) <==> Unsaturated(deltas)
  {
    if deltas != [] {
      var init, last := deltas[..|deltas| - 1], deltas[|deltas| - 1];
      assert deltas == init + [last];
      ClosedForm(init);
      CountStaysInRange(Count(init), last);
      CountIsExact(Count(init), last);
      PrefixesOfInit(deltas);
    }
  }

  // ---------- The reporter and its handlers ----------

  type HandlerId = nat

  datatype Kind = LimitHit | LimitMiss | Heartbeat

  /** What a handler is told. */
  datatype Event = Hit(before: int, after: int) | Miss(before: int, after: int) | Pulse(time: int)

  datatype Change = Connect(delta: Int64) | Beat(time: int)

  /** `inbox` holds what each handler was told so far. */
  datatype Reporter = Reporter(
    limit: nat,
    connections: Int64,
    running: bool,
    pending: seq<Change>,
    handlers: map<Kind, set<HandlerId>>,
    inbox: map<HandlerId, seq<Event>>)

  datatype Operation =
    | Start
    | Shutdown
    | Notify(change: Change)
    | Handle
    | Register(kind: Kind, handler: HandlerId)
    | Unregister(kind: Kind, handler: HandlerId)

  function Told(inbox: map<HandlerId, seq<Event>>, h: HandlerId): seq<Event>
  {
    if h in inbox then inbox[h] else []
  }

  function Registered(handlers: map<Kind, set<HandlerId>>, kind: Kind): set<HandlerId>
  {
    if kind in handlers then handlers[kind] else {}
  }

  function Deliver(inbox: map<HandlerId, seq<Event>>, to: set<HandlerId>, event: Event): map<HandlerId, seq<Event>>
  {
    map h | h in inbox.Keys + to :: Told(inbox, h) + if h in to then [event] else []
  }

  lemma DeliverToNobody(inbox: map<HandlerId, seq<Event>>, event: Event)
    ensures Deliver(inbox, {}, event) == inbox
  {
    var box := Deliver(inbox, {}, event);
    assert box.Keys == inbox.Keys;
    assert forall h :: h in inbox ==> box[h] == inbox[h] + [] == inbox[h];
  }

  lemma DeliverOneMore(inbox: map<HandlerId, seq<Event>>, done: set<HandlerId>, h: HandlerId, event: Event)
    requires h !in done
    ensures Told(Deliver(inbox, done, event), h) == Told(inbox, h)
    ensures Deliver(inbox, done + {h}, event) == Deliver(inbox, done, event)[h := Told(inbox, h) + [event]]
  {
  }

  lemma ToldAfterDelivery(inbox: map<HandlerId, seq<Event>>, to: set<HandlerId>, event: Event, h: HandlerId)
    ensures Told(Deliver(inbox, to, event), h) == Told(inbox, h) + if h in to then [event] else []
  {
  }

  function Handled(r: Reporter, change: Change): Reporter
  {
    match change
    case Beat(time) => r.(inbox := Deliver(r.inbox, Registered(r.handlers, Heartbeat), Pulse(time)))
    case Connect(delta) =>
      var count := NextCount(r.connections, delta);
      if r.limit != 0 && r.connections >= r.limit && count < r.limit then
        r.(connections := count,
           inbox := Deliver(r.inbox, Registered(r.handlers, LimitMiss), Miss(r.connections, count)))
      else if r.limit != 0 && r.connections < r.limit && count >= r.limit then
        r.(connections := count,
           inbox := Deliver(r.inbox, Registered(r.handlers, LimitHit), Hit(r.connections, count)))
      else
        r.(connections := count)
  }

  /** One operation; one that has to wait or is refused changes nothing. */
  function Apply(r: Reporter, op: Operation): Reporter
  {
    match op
    case Start => if r.running then r else r.(running := true, pending := [])
    case Shutdown => r.(running := false, pending := [])
    case Notify(change) =>
      if r.running && |r.pending| < QUEUE_SIZE then r.(pending := r.pending + [change]) else r
    case Handle => if r.running && r.pending != [] then Handled(r, r.pending[0]).(pending := r.pending[1..]) else r
    case Register(kind, h) =>
      if r.running then r else r.(handlers := r.handlers[kind := Registered(r.handlers, kind) + {h}])
    case Unregister(kind, h) =>
      if r.running || h !in Registered(r.handlers, kind) then r
      else r.(handlers := r.handlers[kind := r.handlers[kind] - {h}])
  }

  function Run(r: Reporter, ops: seq<Operation>): Reporter
  {
    if ops == [] then r else Apply(Run(r, ops[..|ops| - 1]), ops[|ops| - 1])
  }

  // ---------- Hits and misses alternate ----------

  function LimitEvents(events: seq<Event>): seq<Event>
  {
    if events == [] then []
    else
      var last := events[|events| - 1];
      LimitEvents(events[..|events| - 1]) + if last.Pulse? then [] else [last]
  }

  /** The events lead from one side of the limit to the other and back, starting and ending as told. */
  predicate Alternates(events: seq<Event>, wasHit: bool, isHit: bool)
  {
    if events == [] then wasHit == isHit
    else
      var last := events[|events| - 1];
      !last.Pulse? && last.Hit? == isHit && Alternates(events[..|events| - 1], wasHit, !isHit)
  }

  function Hits(events: seq<Event>): nat
  {
    if events == [] then 0 else Hits(events[..|events| - 1]) + if events[|events| - 1].Hit? then 1 else 0
  }

  function Misses(events: seq<Event>): nat
  {
    if events == [] then 0 else Misses(events[..|events| - 1]) + if events[|events| - 1].Miss? then 1 else 0
  }

  lemma {:induction false} AlternatingBalance(events: seq<Event>, wasHit: bool, isHit: bool)
    requires Alternates(events, wasHit, isHit)
    ensures Hits(events) - Misses(events) == (if isHit then 1 else 0) - if wasHit then 1 else 0
    ensures forall i :: 0 <= i < |events| ==> events[i].Hit? == ((i % 2 == 0) == !wasHit)
    ensures (|events| % 2 == 0) == (wasHit == isHit)
  {
    if events != [] {
      AlternatingBalance(events[..|events| - 1], wasHit, !isHit);
    }
  }

  predicate AtLimit(r: Reporter) { r.connections >= r.limit }

  predicate ListensToBoth(r: Reporter, h: HandlerId)
  {
    h in Registered(r.handlers, LimitHit) && h in Registered(r.handlers, LimitMiss)
  }

  lemma LimitEventsStep(events: seq<Event>, event: Event)
    ensures LimitEvents(events + [event]) == LimitEvents(events) + if event.Pulse? then [] else [event]
  {
    assert (events + [event])[..|events|] == events;
  }

  lemma LimitEventsOfChange(r: Reporter, change: Change, h: HandlerId)
    requires r.limit > 0 && ListensToBoth(r, h)
    ensures var told := LimitEvents(Told(r.inbox, h));
            var r' := Handled(r, change);
            LimitEvents(Told(r'.inbox, h)) ==
              if AtLimit(r) == AtLimit(r') then told
              else if AtLimit(r) then told + [Miss(r.connections, r'.connections)]
              else told + [Hit(r.connections, r'.connections)]
  {
    var r' := Handled(r, change);
    var told := Told(r.inbox, h);
    match change
    case Beat(time) =>
      ToldAfterDelivery(r.inbox, Registered(r.handlers, Heartbeat), Pulse(time), h);
      LimitEventsStep(told, Pulse(time));
      assert told + [] == told && LimitEvents(told) + [] == LimitEvents(told);
    case Connect(delta) =>
      var hit, miss := Hit(r.connections, r'.connections), Miss(r.connections, r'.connections);
      ToldAfterDelivery(r.inbox, Registered(r.handlers, LimitHit), hit, h);
      ToldAfterDelivery(r.inbox, Registered(r.handlers, LimitMiss), miss, h);
      LimitEventsStep(told, hit);
      LimitEventsStep(told, miss);
  }

  lemma AlternatesOneMore(events: seq<Event>, wasHit: bool, isHit: bool, event: Event)
    requires Alternates(events, wasHit, isHit) && !event.Pulse? && event.Hit? == !isHit
    ensures Alternates(events + [event], wasHit, !isHit)
  {
    assert (events + [event])[..|events|] == events;
  }

  lemma AlternatesChange(r: Reporter, change: Change, h: HandlerId, wasHit: bool)
    requires r.limit > 0 && ListensToBoth(r, h)
    requires Alternates(LimitEvents(Told(r.inbox, h)), wasHit, AtLimit(r))
    ensures Handled(r, change).limit == r.limit
    ensures Alternates(LimitEvents(Told(Handled(r, change).inbox, h)), wasHit, AtLimit(Handled(r, change)))
  {
    var r' := Handled(r, change);
    LimitEventsOfChange(r, change, h);
    if AtLimit(r) != AtLimit(r') {
      var event := if AtLimit(r) then Miss(r.connections, r'.connections) else Hit(r.connections, r'.connections);
      AlternatesOneMore(LimitEvents(Told(r.inbox, h)), wasHit, AtLimit(r), event);
    }
  }

  lemma AlternatesStep(r: Reporter, op: Operation, h: HandlerId, wasHit: bool)
    requires r.limit > 0 && ListensToBoth(r, h)
    requires Alternates(LimitEvents(Told(r.inbox, h)), wasHit, AtLimit(r))
    ensures Apply(r, op).limit == r.limit
    ensures Alternates(LimitEvents(Told(Apply(r, op).inbox, h)), wasHit, AtLimit(Apply(r, op)))
  {
    if op.Handle? && r.running && r.pending != [] {
      AlternatesChange(r, r.pending[0], h, wasHit);
    }
  }

  /**
   Over any operations that leave a handler registered for both limit events, what it is told
   alternates between hits and misses, from the side of the limit where it started to the side where
   the count is now, whatever is dropped by a shutdown in between.
   */
  lemma {:induction false} HitsAndMissesAlternate(r: Reporter, ops: seq<Operation>, h: HandlerId)
    requires r.limit > 0 && LimitEvents(Told(r.inbox, h)) == []
    requires forall n :: 0 <= n <= |ops| ==> ListensToBoth(Run(r, ops[..n]), h)
    ensures Run(r, ops).limit == r.limit
    ensures var events := LimitEvents(Told(Run(r, ops).inbox, h));
            && Alternates(events, AtLimit(r), AtLimit(Run(r, ops)))
            && (!AtLimit(r) ==> Hits(events) - Misses(events) == if AtLimit(Run(r, ops)) then 1 else 0)
            && (!AtLimit(r) && events != [] ==> events[0].Hit?)
    decreases |ops|
  {
    if ops != [] {
      var init := ops[..|ops| - 1];
      assert forall n :: 0 <= n <= |init| ==> init[..n] == ops[..n];
      HitsAndMissesAlternate(r, init, h);
      assert init == ops[..|ops| - 1];
      AlternatesStep(Run(r, init), ops[|ops| - 1], h, AtLimit(r));
    }
    var events := LimitEvents(Told(Run(r, ops).inbox, h));
    AlternatingBalance(events, AtLimit(r), AtLimit(Run(r, ops)));
  }

  /** The reporter after changes by these numbers of connections. */
  function HandledAll(r: Reporter, deltas: seq<Int64>): Reporter
  {
    if deltas == [] then r else Handled(HandledAll(r, deltas[..|deltas| - 1]), Connect(deltas[|deltas| - 1]))
  }

  /**
   A reporter that starts without connections counts the changes, and the balance of the hits and misses it
   tells is 1 exactly while the count is at the limit.
   */
  lemma {:induction false} BalanceTellsLoad(r: Reporter, deltas: seq<Int64>, h: HandlerId)
    requires r.limit > 0 && r.connections == 0 && ListensToBoth(r, h) && LimitEvents(Told(r.inbox, h)) == []
    ensures var r' := HandledAll(r, deltas);
            && r'.limit == r.limit && r'.handlers == r.handlers && r'.connections == Count(deltas)
            && var events := LimitEvents(Told(r'.inbox, h));
            && Alternates(events, false, Count(deltas) >= r.limit)
            && Hits(events) - Misses(events) == if Count(deltas) >= r.limit then 1 else 0
  {
    if deltas != [] {
      var init, last := deltas[..|deltas| - 1], deltas[|deltas| - 1];
      BalanceTellsLoad(r, init, h);
      AlternatesChange(HandledAll(r, init), Connect(last), h, false);
    }
    AlternatingBalance(LimitEvents(Told(HandledAll(r, deltas).inbox, h)), false, Count(deltas) >= r.limit);
  }

  // ---------- The implementation ----------

  class Queue {
    const limit: nat
    var connections: Int64
    var running: bool
    var notifier: seq<Change>
    var handlers: map<Kind, set<HandlerId>>
    var inbox: map<HandlerId, seq<Event>>

    function View(): Reporter
      reads this
    {
      Reporter(limit, connections, running, notifier, handlers, inbox)
    }

    constructor (limit: nat)
      ensures View() == Reporter(limit, 0, false, [], map[], map[])
    {
      this.limit := limit;
      connections, running, notifier := 0, false, [];
      handlers, inbox := map[], map[];
    }

    method Start()
      modifies this
      ensures View() == Apply(old(View()), Operation.Start)
    {
      if !running {
        notifier := [];
        running := true;
      }
    }

    /** Stops the reporting loop; notifications it has not handled yet are drained. */
    method Shutdown()
      modifies this
      ensures View() == Apply(old(View()), Operation.Shutdown)
    {
      if running {
        while notifier != []
          invariant View() == old(View()).(pending := notifier)
        {
          notifier := notifier[1..];
        }
        running := false;
      }
      notifier := [];
    }

    /** Must not be called while the queue is stopped; waits while it is full. */
    method Notify(change: Change)
      requires running && |notifier| < QUEUE_SIZE
      modifies this
      ensures View() == Apply(old(View()), Operation.Notify(change))
    {
      notifier := notifier + [change];
    }

    method RegisterEventHandler(kind: Kind, handler: HandlerId)
      modifies this
      ensures View() == Apply(old(View()), Register(kind, handler))
    {
      if !running {
        if kind !in handlers {
          handlers := handlers[kind := {}];
        }
        handlers := handlers[kind := handlers[kind] + {handler}];
      }
    }

    method UnregisterEventHandler(kind: Kind, handler: HandlerId)
      modifies this
      ensures View() == Apply(old(View()), Unregister(kind, handler))
    {
      if !running && kind in handlers && handler in handlers[kind] {
        handlers := handlers[kind := handlers[kind] - {handler}];
      }
    }

    /** Calls every handler registered for the kind of event, in any order. */
    method Dispatch(kind: Kind, event: Event)
      modifies this`inbox
      ensures inbox == Deliver(old(inbox), Registered(handlers, kind), event)
    {
      var todo := Registered(handlers, kind);
      ghost var done, before := {}, inbox;
      DeliverToNobody(inbox, event);
      while todo != {}
        invariant todo !! done && todo + done == Registered(handlers, kind)
        invariant inbox == Deliver(before, done, event)
        decreases todo
      {
        var handler :| handler in todo;
        DeliverOneMore(before, done, handler, event);
        inbox := inbox[handler := Told(inbox, handler) + [event]];
        todo := todo - {handler};
        done := done + {handler};
      }
    }

    method HandleConnect(connected: Int64)
      modifies this
      ensures View() == Handled(old(View()), Connect(connected))
    {
      var newconn: Int64;
      if connected < 0 && Negate(connected) > connections {
        newconn := 0;
      } else if connected > Wrap(MAX_INT32 - connections) {
        newconn := MAX_INT32;
      } else {
        newconn := Wrap(connections + connected);
      }
      if limit != 0 {
        if connections >= limit {
          if newconn < limit {
            Dispatch(LimitMiss, Miss(connections, newconn));
          }
        } else {
          if newconn >= limit {
            Dispatch(LimitHit, Hit(connections, newconn));
          }
        }
      }
      connections := newconn;
    }

    /** One round of the reporting loop: takes the next message and handles it. */
    method HandleNext()
      requires running && notifier != []
      modifies this
      ensures View() == Apply(old(View()), Operation.Handle)
    {
      var message := notifier[0];
      notifier := notifier[1..];
      match message
      case Connect(delta) => HandleConnect(delta);
      case Beat(time) => Dispatch(Heartbeat, Pulse(time));
    }
  }
}
