/**
 The life of an HTTP handler (streaming/streamer.go, `ServeHTTP`, and streaming/connection.go): it goes
 through its stages in one direction, each of its requests is received once, and at every stage but the
 last some process can take a step that brings it further.
 */
module Handlers {
  import opened Broker
  import Ownership
  import opened Queues
  import opened Delivery
  import opened Theorems
  import opened Progress

  // ---------- The stages ----------

  /** How far the handler has come. */
  function Rank(stage: Stage): nat
  {
    match stage
    case Requesting => 0
    case Waiting => 1
    case Refused => 10
    case Admitted => 2
    case Greeting => 3
    case Serving => 4
    case Leaving => 5
    case Draining => 6
    case Drained => 7
    case Departed => 8
    case Released => 10
  }

  /** Where a step leads the handler of client `h`: only its own steps, and the receipt and answer of its requests, move it. */
  predicate Leads(from: Stage, a: Action, h: ClientId, to: Stage)
  {
    if a == EatAdd(h) then from == Requesting && to == Refused
    else if a.TakeAdd? && a.h == h then from == Requesting && to == Waiting
    else if a.Process? then to == from || (from == Waiting && (to == Admitted || to == Refused))
    else if a == Announce(h) then from == Admitted && to == Greeting
    else if a.Serve? && a.h == h then
      match a.act
      case Greet(ok) => from == Greeting && to == if ok then Serving else Leaving
      case Write(ok) => from == Serving && to == if ok then Serving else Leaving
      case SeeClose => from == Serving && to == Leaving
      case Quit => from == Serving && to == Leaving
      case Drain => from == Draining && to == Draining
      case DrainEnd => from == Draining && to == Drained
    else if (a.TakeRemove? && a.h == h) || a == EatRemove(h) then from == Leaving && to == Draining
    else if a == Farewell(h) then from == Drained && to == Departed
    else if a == Release(h) then from == Departed && to == Released
    else to == from
  }

  lemma ProcessLeads(s: State, k: CallId, h: ClientId)
    requires Inv(s) && Enabled(s, Process(k)) && h in s.clients
    ensures h in Processed(s, k).clients
    ensures Leads(s.clients[h].stage, Process(k), h, Processed(s, k).clients[h].stage)
    ensures s.calls[k].phase == Handling(Add(h)) ==> Processed(s, k).clients[h].stage != s.clients[h].stage
  {
  }

  lemma ServeLeads(s: State, g: ClientId, act: ClientMove, h: ClientId)
    requires Enabled(s, Serve(g, act)) && h in s.clients
    ensures h in Next(s, Serve(g, act)).clients
    ensures Leads(s.clients[h].stage, Serve(g, act), h, Next(s, Serve(g, act)).clients[h].stage)
  {
  }

  lemma ReceiptLeads(s: State, a: Action, h: ClientId)
    requires Enabled(s, a) && h in s.clients
    requires a.TakeAdd? || a.TakeRemove? || a.EatAdd? || a.EatRemove?
    ensures h in Next(s, a).clients && Leads(s.clients[h].stage, a, h, Next(s, a).clients[h].stage)
  {
  }

  lemma OwnStepLeads(s: State, a: Action, h: ClientId)
    requires Enabled(s, a) && h in s.clients
    requires a.Announce? || a.Farewell? || a.Release? || a.Arrive?
    ensures h in Next(s, a).clients && Leads(s.clients[h].stage, a, h, Next(s, a).clients[h].stage)
  {
  }

  lemma StepLeads(s: State, a: Action, h: ClientId)
    requires Inv(s) && Enabled(s, a) && h in s.clients
    ensures h in Next(s, a).clients && Leads(s.clients[h].stage, a, h, Next(s, a).clients[h].stage)
  {
    if a.Process? {
      ProcessLeads(s, a.k, h);
    } else if a.Serve? {
      ServeLeads(s, a.h, a.act, h);
    } else if a.TakeAdd? || a.TakeRemove? || a.EatAdd? || a.EatRemove? {
      ReceiptLeads(s, a, h);
    } else if a.Announce? || a.Farewell? || a.Release? || a.Arrive? {
      OwnStepLeads(s, a, h);
    }
  }

  /** A step in which the handler moves on. */
  lemma StagesAscend(from: Stage, a: Action, h: ClientId, to: Stage)
    requires Leads(from, a, h, to)
    ensures to == from || Rank(from) < Rank(to)
  {
  }

  lemma ProcessBringsNobody(s: State, k: CallId)
    requires Enabled(s, Process(k))
    ensures Processed(s, k).clients.Keys == s.clients.Keys
  {
  }

  /** A new handler starts by asking to be added. */
  lemma HandlersArrive(s: State, a: Action, h: ClientId)
    requires Enabled(s, a) && h !in s.clients && h in Next(s, a).clients
    ensures a.Arrive? && a.h == h && Next(s, a).clients[h].stage.Requesting?
  {
    if a.Process? {
      ProcessBringsNobody(s, a.k);
    }
  }

  // ---------- Each request is received once ----------

  /** The client's add request is received, by a session or by an eater... */
  predicate AddReceived(a: Action, h: ClientId)
  {
    (a.TakeAdd? && a.h == h) || a == EatAdd(h)
  }

  /** ...and its remove request. */
  predicate RemoveReceived(a: Action, h: ClientId)
  {
    (a.TakeRemove? && a.h == h) || a == EatRemove(h)
  }

  function AddsReceived(steps: seq<Action>, h: ClientId): nat
  {
    if steps == [] then 0 else (if AddReceived(steps[0], h) then 1 else 0) + AddsReceived(steps[1..], h)
  }

  function RemovesReceived(steps: seq<Action>, h: ClientId): nat
  {
    if steps == [] then 0 else (if RemoveReceived(steps[0], h) then 1 else 0) + RemovesReceived(steps[1..], h)
  }

  /** The stage of a handler, or that it has still to come. */
  function RankIn(s: State, h: ClientId): nat
  {
    if h in s.clients then Rank(s.clients[h].stage) else 0
  }

  lemma StageOfReceipt(from: Stage, a: Action, h: ClientId, to: Stage)
    requires Leads(from, a, h, to)
    ensures Rank(from) <= Rank(to)
    ensures AddReceived(a, h) ==> Rank(from) == 0 < Rank(to)
    ensures RemoveReceived(a, h) ==> Rank(from) == 5 < Rank(to)
  {
  }

  lemma ReceivedInStage(s: State, a: Action, h: ClientId)
    requires Inv(s) && Enabled(s, a)
    ensures RankIn(s, h) <= RankIn(Next(s, a), h)
    ensures AddReceived(a, h) ==> RankIn(s, h) == 0 < RankIn(Next(s, a), h)
    ensures RemoveReceived(a, h) ==> RankIn(s, h) == 5 < RankIn(Next(s, a), h)
  {
    if h in s.clients {
      StepLeads(s, a, h);
      StageOfReceipt(s.clients[h].stage, a, h, Next(s, a).clients[h].stage);
    }
  }

  lemma {:induction false} ReceivedFromHere(s: State, steps: seq<Action>, h: ClientId)
    requires Healthy(s) && IsRun(s, steps)
    ensures RankIn(s, h) <= RankIn(After(s, steps), h)
    ensures AddsReceived(steps, h) <= if RankIn(s, h) == 0 then 1 else 0
    ensures RemovesReceived(steps, h) <= if RankIn(s, h) <= 5 then 1 else 0
    decreases |steps|
  {
    if steps != [] {
      ReceivedInStage(s, steps[0], h);
      StepKeepsHealthy(s, steps[0]);
      ReceivedFromHere(Next(s, steps[0]), steps[1..], h);
    }
  }

  /** In every run each handler's add request is received at most once, and so is its remove request. */
  lemma RequestsAreReceivedOnce(s: State, steps: seq<Action>, h: ClientId)
    requires Init(s) && IsRun(s, steps)
    ensures AddsReceived(steps, h) <= 1 && RemovesReceived(steps, h) <= 1
  {
    InitIsHealthy(s);
    ReceivedFromHere(s, steps, h);
  }

  /** The stages in which a handler stays. */
  predicate Final(stage: Stage)
  {
    stage.Refused? || stage.Released?
  }

  lemma {:induction false} FinalForGood(s: State, steps: seq<Action>, h: ClientId)
    requires Healthy(s) && IsRun(s, steps) && h in s.clients && Final(s.clients[h].stage)
    ensures h in After(s, steps).clients && After(s, steps).clients[h].stage == s.clients[h].stage
    decreases |steps|
  {
    if steps != [] {
      StepLeads(s, steps[0], h);
      StepKeepsHealthy(s, steps[0]);
      FinalForGood(Next(s, steps[0]), steps[1..], h);
    }
  }

  /** A client whose add request is eaten is refused, and stays refused in the rest of the run. */
  lemma EatenIsRefused(s: State, steps: seq<Action>, h: ClientId)
    requires Reachable(s) && Enabled(s, EatAdd(h)) && IsRun(Next(s, EatAdd(h)), steps)
    ensures var t := After(Next(s, EatAdd(h)), steps);
            h in t.clients && t.clients[h].stage.Refused? && !Accepted(t.clients[h].stage)
  {
    ReachableIsHealthy(s);
    StepLeads(s, EatAdd(h), h);
    StepKeepsHealthy(s, EatAdd(h));
    FinalForGood(Next(s, EatAdd(h)), steps, h);
  }

  // ---------- Why a handler leaves ----------

  /** A failed write, a queue seen closed, or a client gone. */
  predicate EndsServing(a: Action, h: ClientId)
  {
    a == Serve(h, Greet(false)) || a == Serve(h, Write(false)) || a == Serve(h, SeeClose) || a == Serve(h, Quit)
  }

  lemma LeavesByLeads(from: Stage, a: Action, h: ClientId, to: Stage)
    requires Leads(from, a, h, to) && !from.Leaving?
    ensures to.Leaving? <==> EndsServing(a, h)
  {
  }

  /** A handler stops serving exactly when a write fails, it sees its queue closed, or its client goes away. */
  lemma LeavesExactlyWhen(s: State, a: Action, h: ClientId)
    requires Reachable(s) && Enabled(s, a) && h in s.clients && !s.clients[h].stage.Leaving?
    ensures h in Next(s, a).clients && (Next(s, a).clients[h].stage.Leaving? <==> EndsServing(a, h))
  {
    assert Inv(s) by { ReachableIsHealthy(s); }
    StepLeads(s, a, h);
    LeavesByLeads(s.clients[h].stage, a, h, Next(s, a).clients[h].stage);
  }

  // ---------- Every handler gets further ----------

  /**
   The step brings the handler further, or makes room for it: it reaches a later stage, its queue gets
   shorter while it drains it or is closed, a notification is taken off the queue that it waits for, or
   the busy session that receives its requests comes closer to doing so.
   */
  ghost predicate Helps(s: State, a: Action, h: ClientId)
    requires Enabled(s, a) && h in s.clients
  {
    var s' := Next(s, a);
    && h in s'.clients
    && (|| Rank(s.clients[h].stage) < Rank(s'.clients[h].stage)
        || (s.clients[h].stage.Draining? && |s'.clients[h].queue| < |s.clients[h].queue|)
        || (s.clients[h].stage.Draining? && s.clients[h].open && !s'.clients[h].open)
        || ((s.clients[h].stage.Admitted? || s.clients[h].stage.Drained?) && |s'.notices| < |s.notices|)
        || (exists k :: ComesCloser(s, s', h, k)))
  }

  predicate ComesCloser(s: State, s': State, h: ClientId, k: CallId)
    requires h in s.clients
  {
    && k in s.calls && s.calls[k].streamer == s.clients[h].streamer && Ownership.Owns(s.calls[k].phase)
    && !s.calls[k].phase.Selecting?
    && (s'.panicked || (k in s'.calls && StepsLeft(s'.calls[k]) < StepsLeft(s.calls[k])))
  }

  lemma HelpedByReceipt(s: State, h: ClientId, a: Action)
    requires Inv(s) && Enabled(s, a) && h in s.clients && (AddReceived(a, h) || RemoveReceived(a, h))
    ensures Helps(s, a, h)
  {
    ReceiptLeads(s, a, h);
    StageOfReceipt(s.clients[h].stage, a, h, Next(s, a).clients[h].stage);
  }

  lemma HelpedBySession(s: State, h: ClientId, k: CallId) returns (a: Action)
    requires Inv(s) && AllFed(s.calls) && !s.panicked && h in s.clients && GetsThrough(s, h, k)
    requires s.clients[h].stage.Requesting? || s.clients[h].stage.Leaving?
    ensures Enabled(s, a) && Helps(s, a, h)
  {
    if s.calls[k].phase.Selecting? {
      a := if s.clients[h].stage.Requesting? then TakeAdd(k, h) else TakeRemove(k, h);
      HelpedByReceipt(s, h, a);
    } else {
      a := NextOwnStep(s, k);
      assert h in Next(s, a).clients by { StepLeads(s, a, h); }
      assert ComesCloser(s, Next(s, a), h, k) by { OwnStepsAreBounded(s, k, a); }
    }
  }

  lemma HelpedWithRequest(s: State, h: ClientId) returns (a: Action)
    requires Reachable(s) && !s.panicked && h in s.clients
    requires s.clients[h].stage.Requesting? || s.clients[h].stage.Leaving?
    ensures Enabled(s, a) && Helps(s, a, h)
  {
    RequestsGetThrough(s, h);
    assert Inv(s) && AllFed(s.calls) by { ReachableIsHealthy(s); }
    if GetsEaten(s, h) {
      a := if s.clients[h].stage.Requesting? then EatAdd(h) else EatRemove(h);
      HelpedByReceipt(s, h, a);
    } else {
      var k :| GetsThrough(s, h, k);
      a := HelpedBySession(s, h, k);
    }
  }

  lemma HelpedWithAnswer(s: State, h: ClientId) returns (a: Action)
    requires Reachable(s) && !s.panicked && h in s.clients && s.clients[h].stage.Waiting?
    ensures Enabled(s, a) && Helps(s, a, h)
  {
    EveryAddIsAnswered(s, h);
    var k :| k in s.calls && s.calls[k].phase == Handling(Add(h)) && Enabled(s, Process(k));
    a := Process(k);
    assert Inv(s) by { ReachableIsHealthy(s); }
    ProcessLeads(s, k, h);
    StagesAscend(s.clients[h].stage, a, h, Next(s, a).clients[h].stage);
  }

  lemma HelpedWithNotice(s: State, h: ClientId) returns (a: Action)
    requires Reachable(s) && !s.panicked && h in s.clients
    requires s.clients[h].stage.Admitted? || s.clients[h].stage.Drained?
    ensures Enabled(s, a) && Helps(s, a, h)
  {
    NotificationsGetThrough(s, h);
    var own := if s.clients[h].stage.Admitted? then Announce(h) else Farewell(h);
    if Enabled(s, own) {
      a := own;
      OwnStepLeads(s, a, h);
    } else {
      a := Report;
    }
  }

  lemma HelpedToDrain(s: State, h: ClientId) returns (a: Action)
    requires Reachable(s) && !s.panicked && h in s.clients && s.clients[h].stage.Draining?
    requires s.clients[h].streamer in s.streamers
    ensures Enabled(s, a) && Helps(s, a, h)
  {
    NoStrandedHandler(s, h);
    if s.clients[h].open {
      assert !s.clients[h].sawClose by { ReachableIsHealthy(s); }
      var k := s.clients[h].session;
      a := Process(k);
      assert Next(s, a) == ProcessRemove(s, k, h);
    } else if s.clients[h].queue != [] {
      a := Serve(h, Drain);
    } else {
      a := Serve(h, DrainEnd);
    }
  }

  lemma HelpedInside(s: State, h: ClientId) returns (a: Action)
    requires Reachable(s) && !s.panicked && h in s.clients && s.clients[h].streamer in s.streamers
    requires s.clients[h].stage.Greeting? || s.clients[h].stage.Serving? || s.clients[h].stage.Departed?
    ensures Enabled(s, a) && Helps(s, a, h)
  {
    a := match s.clients[h].stage {
      case Greeting => Serve(h, Greet(true))
      case Serving => Serve(h, Quit)
      case Departed => Release(h)
    };
    if s.clients[h].stage.Departed? {
      OwnStepLeads(s, a, h);
    } else {
      ServeLeads(s, h, a.act, h);
    }
  }

  /** In every run without a panic, some process can take a step that helps any handler that is not done. */
  lemma EveryHandlerGetsFurther(s: State, h: ClientId) returns (a: Action)
    requires Reachable(s) && !s.panicked && h in s.clients && !Final(s.clients[h].stage)
    ensures Enabled(s, a) && Helps(s, a, h)
  {
    assert s.clients[h].streamer in s.streamers by {
      ReachableIsHealthy(s);
      assert AllSound(s.streamers, s.clients);
    }
    var stage := s.clients[h].stage;
    if stage.Requesting? || stage.Leaving? {
      a := HelpedWithRequest(s, h);
    } else if stage.Waiting? {
      a := HelpedWithAnswer(s, h);
    } else if stage.Admitted? || stage.Drained? {
      a := HelpedWithNotice(s, h);
    } else if stage.Draining? {
      a := HelpedToDrain(s, h);
    } else {
      a := HelpedInside(s, h);
    }
  }
}
