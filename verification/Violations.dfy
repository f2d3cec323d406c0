/** Runs that break queue safety or the bound on the pools: the code does not always meet the conditions of these theorems. */
module Violations {
  import opened AccessControl
  import opened Broker
  import opened Queues
  import opened Admission
  import opened Theorems

  /** A run to `s` that can be extended step by step. */
  ghost predicate RunTo(s0: State, steps: seq<Action>, s: State)
  {
    IsRun(s0, steps) && After(s0, steps) == s
  }

  lemma {:induction false} OneMoreStep(s0: State, steps: seq<Action>, s: State, a: Action)
    requires RunTo(s0, steps, s) && Enabled(s, a)
    ensures RunTo(s0, steps + [a], Next(s, a))
    decreases |steps|
  {
    if steps == [] {
      assert steps + [a] == [a] && [a][1..] == [];
      assert IsRun(Next(s, a), []);
    } else {
      assert (steps + [a])[0] == steps[0] && (steps + [a])[1..] == steps[1..] + [a];
      OneMoreStep(Next(s0, steps[0]), steps[1..], s, a);
    }
  }

  lemma Extend(s: State, a: Action)
    requires Reachable(s) && Enabled(s, a)
    ensures Reachable(Next(s, a))
  {
    var s0, steps :| Init(s0) && IsRun(s0, steps) && After(s0, steps) == s;
    OneMoreStep(s0, steps, s, a);
  }

  // ---------- The parts of a run ----------

  function Running(st: Streamer): Streamer { st.(running := true, eaters := 0) }

  /** A stream starts that will not receive any data. */
  lemma StartSession(s: State, k: CallId) returns (t: State)
    requires Reachable(s) && !s.panicked && k !in s.calls && 0 in s.streamers
    requires !s.streamers[0].running && s.streamers[0].eaters == 1
    ensures Reachable(t)
    ensures t == s.(calls := s.calls[k := NewCall(0, []).(phase := Selecting)],
                    streamers := s.streamers[0 := Running(s.streamers[0])])
  {
    t := s;
    Extend(t, Open(k, 0, []));
    t := Next(t, Open(k, 0, []));
    Extend(t, CompareAndSwap(k));
    t := SwapFlag(t, k);
    Extend(t, HandStart(k));
    t := HandedStart(t, k);
    assert t.calls == s.calls[k := NewCall(0, []).(phase := Selecting)];
    assert t.streamers == s.streamers[0 := Running(s.streamers[0])];
  }

  function Admitting(s: State, k: CallId, h: ClientId): State
    requires k in s.calls
  {
    s.(calls := s.calls[k := s.calls[k].(pool := s.calls[k].pool + {h})],
       clients := s.clients[h := NewClient(0).(stage := Stage.Admitted, session := k, joined := |s.calls[k].distributed|)],
       control := s.control.Accepted())
  }

  lemma AskForAdmission(s: State, k: CallId, h: ClientId) returns (t: State)
    requires Reachable(s) && !s.panicked && 0 in s.streamers
    requires k in s.calls && s.calls[k].streamer == 0 && s.calls[k].phase.Selecting? && h !in s.clients
    ensures Reachable(t)
    ensures t == s.(calls := s.calls[k := s.calls[k].(phase := Handling(Add(h)))],
                    clients := s.clients[h := NewClient(0).(stage := Waiting)])
  {
    t := s;
    Extend(t, Arrive(h, 0));
    t := Next(t, Arrive(h, 0));
    Extend(t, TakeAdd(k, h));
    t := Next(t, TakeAdd(k, h));
    assert t.clients == s.clients[h := NewClient(0).(stage := Waiting)];
  }

  lemma AdmitClient(s: State, k: CallId, h: ClientId) returns (t: State)
    requires Reachable(s) && !s.panicked && 0 in s.streamers && s.control.Admits()
    requires k in s.calls && s.calls[k].streamer == 0 && s.calls[k].phase.Selecting? && !s.calls[k].inhibit
    requires h !in s.clients
    ensures Reachable(t) && t == Admitting(s, k, h)
  {
    t := AskForAdmission(s, k, h);
    Extend(t, Process(k));
    t := ProcessAdd(t, k, h);
    assert t.calls == Admitting(s, k, h).calls;
    assert t.clients == Admitting(s, k, h).clients;
  }

  /** The client is announced and gets its (empty) preamble. */
  lemma GreetClient(s: State, h: ClientId) returns (t: State)
    requires Reachable(s) && !s.panicked && h in s.clients && s.clients[h].stage.Admitted?
    requires s.clients[h].streamer in s.streamers && s.streamers[s.clients[h].streamer].preamble == []
    requires s.notices == [] && s.clients[h].output == []
    ensures Reachable(t)
    ensures t == s.(clients := s.clients[h := s.clients[h].(stage := Serving)], notices := [Notice(h, 1)])
  {
    t := s;
    assert s.clients[h].output + s.streamers[s.clients[h].streamer].preamble == [];
    Extend(t, Announce(h));
    t := Next(t, Announce(h));
    Extend(t, Serve(h, Greet(true)));
    t := Next(t, Serve(h, Greet(true)));
    assert t.clients == s.clients[h := s.clients[h].(stage := Serving)];
  }

  /** The input ends, and the session leaves its loop. */
  lemma EndInput(s: State, k: CallId) returns (t: State)
    requires Reachable(s) && !s.panicked && Known(s, k) && s.calls[k].phase.Selecting?
    requires !s.calls[k].hungUp && s.calls[k].source == [] && s.calls[k].pushed == [] && s.calls[k].input == []
    ensures Reachable(t)
    ensures t == s.(calls := s.calls[k := s.calls[k].(hungUp := true, phase := Stopping)])
  {
    t := s;
    Extend(t, Action.Pull(k, HangUp));
    t := Next(t, Action.Pull(k, HangUp));
    Extend(t, Move(k, SeeHangUp));
    t := Next(t, Move(k, SeeHangUp));
    assert t.calls == s.calls[k := s.calls[k].(hungUp := true, phase := Stopping)];
  }

  /** The input ends and the session starts closing the queues in its pool. */
  lemma StopSession(s: State, k: CallId) returns (t: State)
    requires Reachable(s) && !s.panicked && Known(s, k) && s.calls[k].phase.Selecting?
    requires !s.calls[k].hungUp && s.calls[k].source == [] && s.calls[k].pushed == [] && s.calls[k].input == []
    ensures Reachable(t)
    ensures t == s.(calls := s.calls[k := s.calls[k].(hungUp := true, phase := Closing(s.calls[k].pool))],
                    streamers := s.streamers[s.calls[k].streamer := s.streamers[s.calls[k].streamer].(running := false)])
  {
    t := EndInput(s, k);
    Extend(t, ClearFlag(k));
    t := ClearedFlag(t, k);
    Extend(t, Move(k, BeginClosing));
    t := Next(t, Move(k, BeginClosing));
    assert t.calls == s.calls[k := s.calls[k].(hungUp := true, phase := Closing(s.calls[k].pool))];
  }

  // ---------- The runs ----------

  function Fresh(): State
  {
    State(map[0 := Streamer(1, [], false, 1, 0, 0, [])], map[], map[], Control(0, 0, false), [], [], {}, false)
  }

  lemma FreshIsReachable()
    ensures Reachable(Fresh())
  {
    assert Init(Fresh()) && IsRun(Fresh(), []) && After(Fresh(), []) == Fresh();
  }

  /** A session with one client that is being served. */
  lemma OneClient() returns (t: State)
    ensures Reachable(t) && !t.panicked
    ensures t.calls == map[0 := NewCall(0, []).(phase := Selecting, pool := {0})]
    ensures t.clients == map[0 := NewClient(0).(stage := Serving, session := 0)]
    ensures t.streamers == map[0 := Streamer(1, [], true, 0, 0, 0, [])]
    ensures t.control == Control(0, 1, false) && t.notices == [Notice(0, 1)]
  {
    FreshIsReachable();
    t := StartSession(Fresh(), 0);
    t := AdmitClient(t, 0, 0);
    t := GreetClient(t, 0);
    assert t.calls[0].pool == {0};
    assert t.calls == map[0 := NewCall(0, []).(phase := Selecting, pool := {0})];
    assert t.clients == map[0 := NewClient(0).(stage := Serving, session := 0)];
    assert t.streamers == map[0 := Streamer(1, [], true, 0, 0, 0, [])];
  }

  /** A session with one client that is about to send its remove request. */
  lemma OneLostClient() returns (t: State)
    ensures Reachable(t) && !t.panicked
    ensures t.calls == map[0 := NewCall(0, []).(phase := Selecting, pool := {0})]
    ensures t.clients == map[0 := NewClient(0).(stage := Leaving, session := 0)]
    ensures t.streamers == map[0 := Streamer(1, [], true, 0, 0, 0, [])]
  {
    t := OneClient();
    Extend(t, Serve(0, Quit));
    t := Next(t, Serve(0, Quit));
  }

  /**
   A remove request that is sent before the session ends and received by the next session closes the
   queue a second time.
   */
  lemma LateRemovePanics() returns (t: State)
    ensures Reachable(t) && t.panicked
  {
    t := OneLostClient();
    t := StopSession(t, 0);
    Extend(t, CloseOne(0, 0));
    t := Next(t, CloseOne(0, 0));
    Extend(t, Relaunch(0));
    t := Relaunched(t, 0);
    t := StartSession(t, 1);
    Extend(t, TakeRemove(1, 0));
    t := Next(t, TakeRemove(1, 0));
    Extend(t, Process(1));
    t := Next(t, Process(1));
  }

  /** Going offline leaves closed queues in the pool, and the end of the session closes them again. */
  lemma InhibitPanics() returns (t: State)
    ensures Reachable(t) && t.panicked
  {
    t := OneLostClient();
    Extend(t, Move(0, TakeCommand(true)));
    t := Next(t, Move(0, TakeCommand(true)));
    Extend(t, Process(0));
    t := Next(t, Process(0));
    assert !t.panicked;
    t := StopSession(t, 0);
    Extend(t, CloseOne(0, 0));
    t := Next(t, CloseOne(0, 0));
  }

  /** The client of a session that went offline. */
  function Offline(stage: Stage, sawClose: bool): Client
  {
    NewClient(0).(stage := stage, session := 0, open := false, sawClose := sawClose)
  }

  /** The session goes offline with its client in the pool. */
  lemma OfflineSession() returns (t: State)
    ensures Reachable(t) && !t.panicked && 0 in t.streamers
    ensures t.calls == map[0 := NewCall(0, []).(phase := Selecting, pool := {0}, inhibit := true)]
    ensures t.clients == map[0 := Offline(Serving, false)]
    ensures t.control == Control(0, 1, false) && t.notices == [Notice(0, 1)]
  {
    t := OneClient();
    Extend(t, Move(0, TakeCommand(true)));
    t := Next(t, Move(0, TakeCommand(true)));
    Extend(t, Process(0));
    t := ProcessInhibit(t, 0);
    assert t.clients == map[0 := Offline(Serving, false)];
    assert t.calls == map[0 := NewCall(0, []).(phase := Selecting, pool := {0}, inhibit := true)];
  }

  /** The client sees its queue closed, and its remove request is received. */
  lemma OfflineClient() returns (t: State)
    ensures Reachable(t) && !t.panicked && 0 in t.streamers
    ensures t.calls == map[0 := NewCall(0, []).(phase := Handling(Remove(0)), pool := {0}, inhibit := true)]
    ensures t.clients == map[0 := Offline(Draining, true)]
    ensures t.control == Control(0, 1, false) && t.notices == [Notice(0, 1)]
  {
    t := OfflineSession();
    Extend(t, Serve(0, SeeClose));
    t := Next(t, Serve(0, SeeClose));
    assert t.clients == map[0 := Offline(Leaving, true)];
    Extend(t, TakeRemove(0, 0));
    t := Next(t, TakeRemove(0, 0));
    assert t.clients == map[0 := Offline(Draining, true)];
    assert t.calls == map[0 := NewCall(0, []).(phase := Handling(Remove(0)), pool := {0}, inhibit := true)];
  }

  lemma DrainedClient() returns (t: State)
    ensures Reachable(t) && !t.panicked && 0 in t.streamers
    ensures t.calls == map[0 := NewCall(0, []).(phase := Handling(Remove(0)), pool := {0}, inhibit := true)]
    ensures t.clients == map[0 := Offline(Departed, true)] && t.control == Control(0, 1, false)
  {
    t := OfflineClient();
    Extend(t, Serve(0, DrainEnd));
    t := Next(t, Serve(0, DrainEnd));
    assert t.clients == map[0 := Offline(Drained, true)];
    Extend(t, Farewell(0));
    t := Next(t, Farewell(0));
    assert t.clients == map[0 := Offline(Departed, true)];
  }

  /**
   After going offline with a client in the pool, the client can be released while its remove request
   is still being carried out: for a moment the pool holds more clients than the counter says.
   */
  lemma ReleasedInPool() returns (t: State)
    ensures Reachable(t) && !t.panicked && !NoneReleasedInPool(t)
    ensures 0 in t.calls && Sizes(Pools(t.calls), [0]) > t.control.connections
  {
    t := DrainedClient();
    Extend(t, Release(0));
    t := Next(t, Release(0));
    assert t.clients == map[0 := Offline(Released, true)];
    OnePool(t.calls, 0);
  }

  lemma OnePool(calls: map<CallId, Call>, k: CallId)
    requires k in calls
    ensures Sizes(Pools(calls), [k]) == |Members(calls[k])|
  {
    assert [k][..0] == [];
    assert Sizes(Pools(calls), []) == 0;
  }
}
