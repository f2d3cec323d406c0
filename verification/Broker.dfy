/**
 The stream broker as a system of concurrent processes (streaming/streamer.go,
 streaming/connection.go, the queue side of streaming/client.go, and the shared state of
 streaming/acl.go and event/queue.go).

 Any number of streamers share one access controller and one load reporter. Each streamer has a
 request channel, the command eaters that drain it, any number of `Stream` calls, and any number of
 HTTP handlers. Every channel send, receive or rendezvous, every compare-and-swap, and every locked
 section is one atomic step. A run is a sequence of steps taken in any order by any process.

 `Enabled` says when a step can happen and `Next` what it does; both follow the code also where it
 misbehaves: sending on or closing a closed queue ends the program (`panicked`).
 */
module Broker {
  import Words
  import opened Bytes
  import opened Framing
  import opened AccessControl
  import EventQueue

  type StreamerId = nat
  type CallId = nat
  type ClientId = nat

  // ---------- State ----------

  datatype Streamer = Streamer(
    queueSize: nat,          // capacity of each client's queue
    preamble: seq<Byte>,
    running: bool,           // the flag that lets only one Stream call in
    eaters: nat,             // command eaters still receiving requests
    sent: nat,               // packets put into client queues
    dropped: nat,            // packets not put into a full queue
    fanout: seq<nat>)        // history: pool size at each packet distributed

  /** A request received by a streaming session and not carried out yet. */
  datatype Request = Add(client: ClientId) | Remove(client: ClientId) | Inhibit | Allow

  /** Where a `Stream` call is. */
  datatype Phase =
    | Calling
    | Rejected
    | Handover                                           // flag taken, sending the start command
    | Selecting
    | Distributing(packet: Packet, todo: set<ClientId>)
    | Handling(request: Request)
    | Stopping                                           // input closed, flag not yet cleared
    | Discarding                                         // draining leftover input
    | Closing(todo: set<ClientId>)                       // closing the queues still in the pool
    | Finished

  /** A `Stream` call and the input queue that `pull` fills for it with the packets found in `source`. */
  datatype Call = Call(
    streamer: StreamerId,
    phase: Phase,
    pool: set<ClientId>,
    inhibit: bool,
    source: seq<Byte>,
    pushed: seq<Packet>,       // history: everything put into the input queue
    input: seq<Packet>,
    hungUp: bool,              // input queue closed
    distributed: seq<Packet>,  // history: packets taken from the input queue to be distributed
    discarded: seq<Packet>)    // history: packets taken from it by the final drain

  /** Where an HTTP handler is. */
  datatype Stage =
    | Requesting   // sending the add request
    | Waiting      // request received, not answered
    | Refused
    | Admitted     // added to the pool
    | Greeting     // announced to the reporter, about to send the preamble
    | Serving
    | Leaving      // sending the remove request
    | Draining
    | Drained
    | Departed     // taken back from the reporter
    | Released

  /** History: what happened to one packet offered to a client that had taken `taken` packets. */
  datatype Offer = Offer(kept: bool, taken: nat)

  datatype Client = Client(
    streamer: StreamerId,
    stage: Stage,
    session: CallId,         // the call that admitted the client
    queue: seq<Packet>,
    open: bool,              // the queue has not been closed
    sawClose: bool,          // the connection's Closed flag
    output: seq<Byte>,       // bytes passed to the HTTP response
    joined: nat,             // history: packets the session had distributed before
    offers: seq<Offer>,
    written: seq<Packet>,
    drained: seq<Packet>)

  datatype Notice = Notice(client: ClientId, delta: int)

  datatype State = State(
    streamers: map<StreamerId, Streamer>,
    calls: map<CallId, Call>,
    clients: map<ClientId, Client>,
    control: Control,
    notices: seq<Notice>,           // the reporter's message queue
    heard: seq<Words.Int64>,   // the changes the reporter has applied
    counted: set<ClientId>,         // history: the clients the reporter has counted in and not out
    panicked: bool)

  // ---------- Steps ----------

  /** The end of a pull: what it does to the input queue. */
  datatype PullMove = Push | HangUp

  /** Steps of a Stream call that touch nothing but the call. */
  datatype CallMove = EndFanOut | SeeHangUp | Discard | BeginClosing | TakeCommand(on: bool)

  /** Steps of a handler that touch nothing but its connection. */
  datatype ClientMove = Greet(ok: bool) | Write(ok: bool) | SeeClose | Quit | Drain | DrainEnd

  datatype Action =
    | Open(k: CallId, streamer: StreamerId, source: seq<Byte>)
    | Pull(k: CallId, pull: PullMove)
    | CompareAndSwap(k: CallId)
    | HandStart(k: CallId)                         // the start command reaches an eater
    | MisdirectStart(k: CallId, other: CallId)     // the start command reaches another session
    | Receive(k: CallId)                           // take a packet to distribute
    | OfferTo(k: CallId, h: ClientId)
    | Move(k: CallId, move: CallMove)
    | ClearFlag(k: CallId)
    | CloseOne(k: CallId, h: ClientId)
    | Relaunch(k: CallId)
    | TakeAdd(k: CallId, h: ClientId)
    | TakeRemove(k: CallId, h: ClientId)
    | Process(k: CallId)                           // carry out the request taken
    | Arrive(h: ClientId, streamer: StreamerId)
    | EatAdd(h: ClientId)
    | EatRemove(h: ClientId)
    | Serve(h: ClientId, act: ClientMove)
    | Announce(h: ClientId)
    | Farewell(h: ClientId)
    | Release(h: ClientId)
    | InhibitAll(on: bool)
    | Report

  predicate CanPull(c: Call, m: PullMove)
  {
    match m
    case Push => !c.hungUp && |c.pushed| < |Scan(c.source)|
    case HangUp => !c.hungUp && |c.pushed| == |Scan(c.source)|
  }

  function Pulled(c: Call, m: PullMove): Call
    requires CanPull(c, m)
  {
    match m
    case Push =>
      var packet := Scan(c.source)[|c.pushed|];
      c.(pushed := c.pushed + [packet], input := c.input + [packet])
    case HangUp => c.(hungUp := true)
  }

  predicate CanMove(c: Call, m: CallMove)
  {
    match m
    case EndFanOut => c.phase.Distributing? && c.phase.todo == {}
    case SeeHangUp => c.phase.Selecting? && c.input == [] && c.hungUp
    case Discard => c.phase.Discarding? && c.input != []
    case BeginClosing => c.phase.Discarding? && c.input == [] && c.hungUp
    case TakeCommand(on) => c.phase.Selecting?
  }

  function Moved(c: Call, m: CallMove): Call
    requires CanMove(c, m)
  {
    match m
    case EndFanOut => c.(phase := Selecting)
    case SeeHangUp => c.(phase := Stopping)
    case Discard => c.(input := c.input[1..], discarded := c.discarded + [c.input[0]])
    case BeginClosing => c.(phase := Closing(c.pool))
    case TakeCommand(on) => c.(phase := Handling(if on then Inhibit else Allow))
  }

  predicate CanServe(c: Client, act: ClientMove, preamble: seq<Byte>)
  {
    match act
    case Greet(ok) => c.stage.Greeting? && (preamble == [] ==> ok)
    case Write(_) => c.stage.Serving? && c.queue != []
    case SeeClose => c.stage.Serving? && c.queue == [] && !c.open
    case Quit => c.stage.Serving?
    case Drain => c.stage.Draining? && c.queue != []
    case DrainEnd => c.stage.Draining? && c.queue == [] && !c.open
  }

  function Served(c: Client, act: ClientMove, preamble: seq<Byte>): Client
    requires CanServe(c, act, preamble)
  {
    match act
    case Greet(ok) => c.(stage := if ok then Serving else Leaving, output := c.output + preamble)
    case Write(ok) =>
      c.(stage := if ok then Serving else Leaving,
         queue := c.queue[1..],
         output := c.output + c.queue[0],
         written := c.written + [c.queue[0]])
    case SeeClose => c.(stage := Leaving, sawClose := true)
    case Quit => c.(stage := Leaving)
    case Drain => c.(queue := c.queue[1..], drained := c.drained + [c.queue[0]])
    case DrainEnd => c.(stage := Drained)
  }

  /** A queue after a packet was offered to it without waiting. */
  function Enqueued(queue: seq<Packet>, packet: Packet, queueSize: nat): seq<Packet>
  {
    if |queue| < queueSize then queue + [packet] else queue
  }

  function Offered(c: Client, packet: Packet, queueSize: nat): Client
  {
    c.(queue := Enqueued(c.queue, packet, queueSize),
       offers := c.offers + [Offer(|c.queue| < queueSize, |c.written| + |c.drained|)])
  }

  function NewCall(streamer: StreamerId, source: seq<Byte>): Call
  {
    Call(streamer, Calling, {}, false, source, [], [], false, [], [])
  }

  function NewClient(streamer: StreamerId): Client
  {
    Client(streamer, Requesting, 0, [], true, false, [], 0, [], [], [])
  }

  /** Both ends of a rendezvous on a request channel: the client that sends, the session that receives. */
  predicate CanTake(s: State, k: CallId, h: ClientId, stage: Stage)
  {
    && k in s.calls && h in s.clients
    && s.calls[k].streamer == s.clients[h].streamer
    && s.calls[k].phase.Selecting? && s.clients[h].stage == stage
  }

  predicate CanEat(s: State, h: ClientId, stage: Stage)
  {
    && h in s.clients && s.clients[h].streamer in s.streamers
    && s.streamers[s.clients[h].streamer].eaters > 0
    && s.clients[h].stage == stage
  }

  predicate Known(s: State, k: CallId)
  {
    k in s.calls && s.calls[k].streamer in s.streamers
  }

  predicate CanNotify(s: State, h: ClientId, stage: Stage)
  {
    h in s.clients && s.clients[h].stage == stage && |s.notices| < EventQueue.QUEUE_SIZE
  }

  predicate CanProcess(s: State, k: CallId)
  {
    && k in s.calls && s.calls[k].phase.Handling?
    && match s.calls[k].phase.request
       case Add(h) => h in s.clients
       case Remove(h) => h in s.clients
       case Inhibit => s.calls[k].pool <= s.clients.Keys
       case Allow => true
  }

  predicate Enabled(s: State, a: Action)
  {
    && !s.panicked
    && match a
       case Open(k, st, _) => k !in s.calls && st in s.streamers
       case Pull(k, m) => k in s.calls && CanPull(s.calls[k], m)
       case CompareAndSwap(k) => Known(s, k) && s.calls[k].phase.Calling?
       case HandStart(k) =>
         Known(s, k) && s.calls[k].phase.Handover? && s.streamers[s.calls[k].streamer].eaters > 0
       case MisdirectStart(k, other) =>
         && k in s.calls && other in s.calls && s.calls[k].streamer == s.calls[other].streamer
         && s.calls[k].phase.Handover? && s.calls[other].phase.Selecting?
       case Receive(k) => Known(s, k) && s.calls[k].phase.Selecting? && s.calls[k].input != []
       case OfferTo(k, h) =>
         Known(s, k) && h in s.clients && s.calls[k].phase.Distributing? && h in s.calls[k].phase.todo
       case Move(k, m) => k in s.calls && CanMove(s.calls[k], m)
       case ClearFlag(k) => Known(s, k) && s.calls[k].phase.Stopping?
       case CloseOne(k, h) => k in s.calls && h in s.clients && s.calls[k].phase.Closing? && h in s.calls[k].phase.todo
       case Relaunch(k) => Known(s, k) && s.calls[k].phase.Closing? && s.calls[k].phase.todo == {}
       case TakeAdd(k, h) => CanTake(s, k, h, Requesting)
       case TakeRemove(k, h) => CanTake(s, k, h, Leaving)
       case Process(k) => CanProcess(s, k)
       case Arrive(h, st) => h !in s.clients && st in s.streamers
       case EatAdd(h) => CanEat(s, h, Requesting)
       case EatRemove(h) => CanEat(s, h, Leaving)
       case Serve(h, act) =>
         && h in s.clients && s.clients[h].streamer in s.streamers
         && CanServe(s.clients[h], act, s.streamers[s.clients[h].streamer].preamble)
       case Announce(h) => CanNotify(s, h, Admitted)
       case Farewell(h) => CanNotify(s, h, Drained)
       case Release(h) => h in s.clients && s.clients[h].stage.Departed?
       case InhibitAll(_) => true
       case Report => s.notices != []
  }

  function SetStage(s: State, h: ClientId, stage: Stage): map<ClientId, Client>
    requires h in s.clients
  {
    s.clients[h := s.clients[h].(stage := stage)]
  }

  function SetPhase(s: State, k: CallId, phase: Phase): map<CallId, Call>
    requires k in s.calls
  {
    s.calls[k := s.calls[k].(phase := phase)]
  }

  /** Closing a closed queue is a run-time panic. */
  function CloseQueue(s: State, h: ClientId): State
    requires h in s.clients
  {
    if s.clients[h].open then s.(clients := s.clients[h := s.clients[h].(open := false)])
    else s.(panicked := true)
  }

  /** The broker is asked only while the session accepts connections. */
  function ProcessAdd(s: State, k: CallId, h: ClientId): State
    requires k in s.calls && h in s.clients
  {
    var c := s.calls[k];
    if !c.inhibit && s.control.Admits() then
      s.(control := s.control.Accepted(),
         calls := s.calls[k := c.(phase := Selecting, pool := c.pool + {h})],
         clients := s.clients[h := s.clients[h].(stage := Admitted, session := k, joined := |c.distributed|)])
    else
      s.(calls := SetPhase(s, k, Selecting), clients := SetStage(s, h, Refused))
  }

  function ProcessRemove(s: State, k: CallId, h: ClientId): State
    requires k in s.calls && h in s.clients
  {
    var s' := if s.clients[h].sawClose then s else CloseQueue(s, h);
    s'.(calls := s.calls[k := s.calls[k].(phase := Selecting, pool := s.calls[k].pool - {h})])
  }

  function ProcessInhibit(s: State, k: CallId): State
    requires k in s.calls && s.calls[k].pool <= s.clients.Keys
  {
    var pool := s.calls[k].pool;
    s.(calls := s.calls[k := s.calls[k].(phase := Selecting, inhibit := true)],
       clients := map h | h in s.clients :: if h in pool then s.clients[h].(open := false) else s.clients[h],
       panicked := exists h :: h in pool && !s.clients[h].open)
  }

  function Processed(s: State, k: CallId): State
    requires CanProcess(s, k)
  {
    match s.calls[k].phase.request
    case Add(h) => ProcessAdd(s, k, h)
    case Remove(h) => ProcessRemove(s, k, h)
    case Inhibit => ProcessInhibit(s, k)
    case Allow => s.(calls := s.calls[k := s.calls[k].(phase := Selecting, inhibit := false)])
  }

  function SwapFlag(s: State, k: CallId): State
    requires Known(s, k)
  {
    var st := s.calls[k].streamer;
    if s.streamers[st].running then s.(calls := SetPhase(s, k, Rejected))
    else s.(calls := SetPhase(s, k, Handover), streamers := s.streamers[st := s.streamers[st].(running := true)])
  }

  function HandedStart(s: State, k: CallId): State
    requires Known(s, k) && s.streamers[s.calls[k].streamer].eaters > 0
  {
    var st := s.calls[k].streamer;
    s.(calls := SetPhase(s, k, Selecting),
       streamers := s.streamers[st := s.streamers[st].(eaters := s.streamers[st].eaters - 1)])
  }

  function ClearedFlag(s: State, k: CallId): State
    requires Known(s, k)
  {
    var st := s.calls[k].streamer;
    s.(calls := SetPhase(s, k, Discarding), streamers := s.streamers[st := s.streamers[st].(running := false)])
  }

  function Relaunched(s: State, k: CallId): State
    requires Known(s, k)
  {
    var st := s.calls[k].streamer;
    s.(calls := SetPhase(s, k, Finished),
       streamers := s.streamers[st := s.streamers[st].(eaters := s.streamers[st].eaters + 1)])
  }

  function ReceivePacket(s: State, k: CallId): State
    requires Known(s, k) && s.calls[k].input != []
  {
    var c, st := s.calls[k], s.streamers[s.calls[k].streamer];
    s.(calls := s.calls[k := c.(phase := Distributing(c.input[0], c.pool), input := c.input[1..],
                                distributed := c.distributed + [c.input[0]])],
       streamers := s.streamers[c.streamer := st.(fanout := st.fanout + [|c.pool|])])
  }

  function OfferPacket(s: State, k: CallId, h: ClientId): State
    requires Known(s, k) && h in s.clients && s.calls[k].phase.Distributing?
  {
    var c, st, client := s.calls[k], s.streamers[s.calls[k].streamer], s.clients[h];
    if !client.open then s.(panicked := true)
    else
      var kept := |client.queue| < st.queueSize;
      s.(calls := s.calls[k := c.(phase := c.phase.(todo := c.phase.todo - {h}))],
         streamers := s.streamers[c.streamer := if kept then st.(sent := st.sent + 1) else st.(dropped := st.dropped + 1)],
         clients := s.clients[h := Offered(client, c.phase.packet, st.queueSize)])
  }

  function ReportNotice(s: State): State
    requires s.notices != []
  {
    var n := s.notices[0];
    s.(notices := s.notices[1..],
       heard := s.heard + [if n.delta > 0 then 1 else -1],
       counted := if n.delta > 0 then s.counted + {n.client} else s.counted - {n.client})
  }

  function Next(s: State, a: Action): State
    requires Enabled(s, a)
  {
    match a
    case Open(k, st, source) => s.(calls := s.calls[k := NewCall(st, source)])
    case Pull(k, m) => s.(calls := s.calls[k := Pulled(s.calls[k], m)])
    case CompareAndSwap(k) => SwapFlag(s, k)
    case HandStart(k) => HandedStart(s, k)
    case MisdirectStart(k, _) => s.(calls := SetPhase(s, k, Selecting))
    case Receive(k) => ReceivePacket(s, k)
    case OfferTo(k, h) => OfferPacket(s, k, h)
    case Move(k, m) => s.(calls := s.calls[k := Moved(s.calls[k], m)])
    case ClearFlag(k) => ClearedFlag(s, k)
    case CloseOne(k, h) => CloseQueue(s, h).(calls := SetPhase(s, k, Closing(s.calls[k].phase.todo - {h})))
    case Relaunch(k) => Relaunched(s, k)
    case TakeAdd(k, h) => s.(calls := SetPhase(s, k, Handling(Add(h))), clients := SetStage(s, h, Waiting))
    case TakeRemove(k, h) => s.(calls := SetPhase(s, k, Handling(Remove(h))), clients := SetStage(s, h, Draining))
    case Process(k) => Processed(s, k)
    case Arrive(h, st) => s.(clients := s.clients[h := NewClient(st)])
    case EatAdd(h) => s.(clients := SetStage(s, h, Refused))
    case EatRemove(h) => s.(clients := SetStage(s, h, Draining))
    case Serve(h, act) =>
      var c := s.clients[h];
      s.(clients := s.clients[h := Served(c, act, s.streamers[c.streamer].preamble)])
    case Announce(h) => s.(clients := SetStage(s, h, Greeting), notices := s.notices + [Notice(h, 1)])
    case Farewell(h) => s.(clients := SetStage(s, h, Departed), notices := s.notices + [Notice(h, -1)])
    case Release(h) => s.(clients := SetStage(s, h, Released), control := s.control.Released())
    case InhibitAll(on) => s.(control := s.control.(inhibit := on))
    case Report => ReportNotice(s)
  }

  // ---------- Runs ----------

  /** Streamers just created, nobody connected. */
  predicate Init(s: State)
  {
    && (forall st :: st in s.streamers ==>
          var x := s.streamers[st];
          !x.running && x.eaters == 1 && x.sent == 0 && x.dropped == 0 && x.fanout == [])
    && s.calls == map[] && s.clients == map[]
    && s.control.connections == 0
    && s.notices == [] && s.heard == [] && s.counted == {}
    && !s.panicked
  }

  /** The steps can be taken in this order from `s`. */
  predicate IsRun(s: State, steps: seq<Action>)
    decreases |steps|
  {
    steps == [] || (Enabled(s, steps[0]) && IsRun(Next(s, steps[0]), steps[1..]))
  }

  function After(s: State, steps: seq<Action>): State
    requires IsRun(s, steps)
    decreases |steps|
  {
    if steps == [] then s else After(Next(s, steps[0]), steps[1..])
  }
}
