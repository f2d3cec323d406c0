/**
 The connection count of the load reporter. Notifications travel through a queue of their own, so
 the count lags behind; it is the true count minus what the queued notifications will change.
 */
module Reporting {
  import opened Broker
  import Words
  import EventQueue
  import opened Queues
  import opened Admission

  /** The handler has announced its client and not taken it back. */
  predicate IsAnnounced(stage: Stage)
  {
    stage.Greeting? || stage.Serving? || stage.Leaving? || stage.Draining? || stage.Drained?
  }

  function Announced(clients: map<ClientId, Client>): set<ClientId>
  {
    set h | h in clients && IsAnnounced(clients[h].stage)
  }

  // ---------- Replaying the queued notifications ----------

  function Counted(counted: set<ClientId>, n: Notice): set<ClientId>
  {
    if n.delta > 0 then counted + {n.client} else counted - {n.client}
  }

  /** The notice counts in a client not counted, or out one that is. */
  predicate Applies(counted: set<ClientId>, n: Notice)
  {
    (n.delta == 1 && n.client !in counted) || (n.delta == -1 && n.client in counted)
  }

  function Replay(counted: set<ClientId>, notices: seq<Notice>): set<ClientId>
    decreases |notices|
  {
    if notices == [] then counted else Replay(Counted(counted, notices[0]), notices[1..])
  }

  predicate Replayable(counted: set<ClientId>, notices: seq<Notice>)
    decreases |notices|
  {
    notices == [] || (Applies(counted, notices[0]) && Replayable(Counted(counted, notices[0]), notices[1..]))
  }

  function Deltas(notices: seq<Notice>): int
  {
    if notices == [] then 0 else notices[0].delta + Deltas(notices[1..])
  }

  lemma {:induction false} ReplayOneMore(counted: set<ClientId>, notices: seq<Notice>, n: Notice)
    requires Replayable(counted, notices) && Applies(Replay(counted, notices), n)
    ensures Replayable(counted, notices + [n])
    ensures Replay(counted, notices + [n]) == Counted(Replay(counted, notices), n)
    decreases |notices|
  {
    if notices == [] {
      assert notices + [n] == [n] && [n][1..] == [];
    } else {
      assert (notices + [n])[1..] == notices[1..] + [n];
      ReplayOneMore(Counted(counted, notices[0]), notices[1..], n);
    }
  }

  /** After every prefix of the queue the count is the number of clients counted then. */
  lemma {:induction false} ReplayCounts(counted: set<ClientId>, notices: seq<Notice>)
    requires Replayable(counted, notices)
    ensures |Replay(counted, notices)| == |counted| + Deltas(notices)
    decreases |notices|
  {
    if notices != [] {
      ReplayCounts(Counted(counted, notices[0]), notices[1..]);
    }
  }

  lemma {:induction false} ReplayablePrefix(counted: set<ClientId>, notices: seq<Notice>, i: nat)
    requires Replayable(counted, notices) && i <= |notices|
    ensures Replayable(counted, notices[..i])
    decreases |notices|
  {
    if i > 0 {
      assert notices[..i][1..] == notices[1..][..i - 1];
      ReplayablePrefix(Counted(counted, notices[0]), notices[1..], i - 1);
    }
  }

  // ---------- The invariant ----------

  /** The queued notifications lead from the clients counted by the reporter to those announced. */
  ghost predicate Pending(s: State)
  {
    && |s.notices| <= EventQueue.QUEUE_SIZE
    && Replayable(s.counted, s.notices)
    && Replay(s.counted, s.notices) == Announced(s.clients)
    && Single(s.heard)
  }

  /** All changes count one client in or out. */
  predicate Single(deltas: seq<Words.Int64>)
  {
    forall i :: 0 <= i < |deltas| ==> deltas[i] == 1 || deltas[i] == -1
  }

  /** The reporter's connection count. */
  function Reported(s: State): Words.Int64
  {
    EventQueue.Count(s.heard)
  }

  /** The reporter's count is the number of clients it was told of. */
  ghost predicate Accurate(s: State)
  {
    Reported(s) == |s.counted|
  }

  /** So many clients can be counted. */
  ghost predicate InRange(clients: set<ClientId>)
  {
    |clients| <= EventQueue.MAX_INT32
  }

  /** Whatever the reporter will have counted after any of the queued notifications is in range. */
  ghost predicate StaysInRange(counted: set<ClientId>, notices: seq<Notice>)
    decreases |notices|
  {
    InRange(counted) && (notices != [] ==> StaysInRange(Counted(counted, notices[0]), notices[1..]))
  }

  lemma {:induction false} InRangeOneMore(counted: set<ClientId>, notices: seq<Notice>, n: Notice)
    requires StaysInRange(counted, notices) && InRange(Counted(Replay(counted, notices), n))
    ensures StaysInRange(counted, notices + [n])
    decreases |notices|
  {
    if notices == [] {
      assert notices + [n] == [n] && [n][1..] == [];
      assert StaysInRange(Counted(counted, n), []);
    } else {
      assert (notices + [n])[1..] == notices[1..] + [n];
      InRangeOneMore(Counted(counted, notices[0]), notices[1..], n);
    }
  }

  lemma AnnouncedUpdated(clients: map<ClientId, Client>, h: ClientId, c: Client)
    ensures Announced(clients[h := c]) == if IsAnnounced(c.stage) then Announced(clients) + {h} else Announced(clients) - {h}
  {
  }

  lemma SameAnnounced(clients: map<ClientId, Client>, clients': map<ClientId, Client>, h: ClientId)
    requires h in clients' && clients' == clients[h := clients'[h]]
    requires IsAnnounced(clients'[h].stage) <==> h in clients && IsAnnounced(clients[h].stage)
    ensures Announced(clients') == Announced(clients)
  {
    AnnouncedUpdated(clients, h, clients'[h]);
  }

  /** What a notification does to the queue and to the clients announced. */
  ghost predicate Notified(s: State, s': State, n: Notice)
  {
    && s'.notices == s.notices + [n] && s'.heard == s.heard && s'.counted == s.counted
    && Announced(s'.clients) == Counted(Announced(s.clients), n)
    && Applies(Announced(s.clients), n)
  }

  lemma AnnounceNotifies(s: State, h: ClientId)
    requires Enabled(s, Announce(h))
    ensures Notified(s, Next(s, Announce(h)), Notice(h, 1))
  {
    AnnouncedUpdated(s.clients, h, s.clients[h].(stage := Greeting));
  }

  lemma FarewellNotifies(s: State, h: ClientId)
    requires Enabled(s, Farewell(h))
    ensures Notified(s, Next(s, Farewell(h)), Notice(h, -1))
  {
    AnnouncedUpdated(s.clients, h, s.clients[h].(stage := Departed));
  }

  lemma NotifiedKeepsPending(s: State, s': State, n: Notice)
    requires Pending(s) && Notified(s, s', n) && |s.notices| < EventQueue.QUEUE_SIZE
    ensures Pending(s') && (Accurate(s') <==> Accurate(s))
    ensures StaysInRange(s.counted, s.notices) && InRange(Announced(s'.clients)) ==> StaysInRange(s'.counted, s'.notices)
  {
    ReplayOneMore(s.counted, s.notices, n);
    if StaysInRange(s.counted, s.notices) && InRange(Announced(s'.clients)) {
      InRangeOneMore(s.counted, s.notices, n);
    }
  }

  lemma CountedSize(counted: set<ClientId>, n: Notice)
    requires Applies(counted, n)
    ensures |Counted(counted, n)| == |counted| + n.delta
  {
  }

  lemma CountOneMore(deltas: seq<Words.Int64>, d: Words.Int64)
    ensures EventQueue.Count(deltas + [d]) == EventQueue.NextCount(EventQueue.Count(deltas), d)
  {
    assert (deltas + [d])[..|deltas|] == deltas;
  }

  /**
   The reporter applies a notification without clamping exactly if the clients it then counts are
   within its range; the lower clamp is never used.
   */
  lemma ReportIsExact(s: State)
    requires Pending(s) && Accurate(s) && s.notices != []
    ensures Reported(ReportNotice(s)) == Reported(s) + s.notices[0].delta <==> InRange(ReportNotice(s).counted)
    ensures Accurate(ReportNotice(s)) <==> InRange(ReportNotice(s).counted)
    ensures Pending(ReportNotice(s))
    ensures StaysInRange(s.counted, s.notices) ==> StaysInRange(ReportNotice(s).counted, ReportNotice(s).notices)
  {
    var n := s.notices[0];
    CountedSize(s.counted, n);
    CountOneMore(s.heard, n.delta);
    ReportKeepsPending(s);
    EventQueue.ClosedForm(s.heard);
    EventQueue.CountIsExact(Reported(s), n.delta);
  }

  lemma ReportKeepsPending(s: State)
    requires Pending(s) && s.notices != []
    ensures Pending(ReportNotice(s))
    ensures StaysInRange(s.counted, s.notices) ==> StaysInRange(ReportNotice(s).counted, ReportNotice(s).notices)
  {
  }

  /** A count in range of what it should be says that this is in range. */
  lemma AccurateIsInRange(s: State)
    requires Pending(s) && Accurate(s)
    ensures InRange(s.counted)
  {
    EventQueue.ClosedForm(s.heard);
  }

  // ---------- Steps ----------

  lemma StageKeepsAnnounced(s: State, h: ClientId, stage: Stage)
    requires h in s.clients && IsAnnounced(stage) == IsAnnounced(s.clients[h].stage)
    ensures Announced(SetStage(s, h, stage)) == Announced(s.clients)
  {
    SameAnnounced(s.clients, SetStage(s, h, stage), h);
  }

  lemma ProcessKeepsAnnounced(s: State, k: CallId)
    requires Inv(s) && CanProcess(s, k)
    ensures Announced(Processed(s, k).clients) == Announced(s.clients)
  {
    var s' := Processed(s, k);
    match s.calls[k].phase.request {
      case Add(h) => SameAnnounced(s.clients, s'.clients, h);
      case Remove(h) =>
        if s'.clients != s.clients {
          SameAnnounced(s.clients, s'.clients, h);
        }
      case Inhibit =>
      case Allow =>
    }
  }

  lemma ClientStepKeepsAnnounced(s: State, a: Action)
    requires Enabled(s, a)
    requires a.OfferTo? || a.CloseOne? || a.Serve? || a.Arrive?
    ensures Announced(Next(s, a).clients) == Announced(s.clients)
  {
    var s' := Next(s, a);
    if s'.clients != s.clients {
      SameAnnounced(s.clients, s'.clients, a.h);
    }
  }

  lemma RequestStepKeepsAnnounced(s: State, a: Action)
    requires Enabled(s, a)
    requires a.TakeAdd? || a.TakeRemove? || a.EatAdd? || a.EatRemove? || a.Release?
    ensures Announced(Next(s, a).clients) == Announced(s.clients)
  {
    if a.TakeAdd? {
      StageKeepsAnnounced(s, a.h, Waiting);
    } else if a.TakeRemove? || a.EatRemove? {
      StageKeepsAnnounced(s, a.h, Draining);
    } else if a.EatAdd? {
      StageKeepsAnnounced(s, a.h, Refused);
    } else {
      StageKeepsAnnounced(s, a.h, Released);
    }
  }

  lemma QuietStepKeepsAnnounced(s: State, a: Action)
    requires Inv(s) && Enabled(s, a)
    requires !a.Report? && !a.Announce? && !a.Farewell?
    ensures Announced(Next(s, a).clients) == Announced(s.clients)
  {
    if a.Process? {
      ProcessKeepsAnnounced(s, a.k);
    } else if a.TakeAdd? || a.TakeRemove? || a.EatAdd? || a.EatRemove? || a.Release? {
      RequestStepKeepsAnnounced(s, a);
    } else if a.OfferTo? || a.CloseOne? || a.Serve? || a.Arrive? {
      ClientStepKeepsAnnounced(s, a);
    }
  }

  lemma QuietStepKeepsNotices(s: State, a: Action)
    requires Enabled(s, a) && !a.Report? && !a.Announce? && !a.Farewell?
    ensures var s' := Next(s, a);
            s'.notices == s.notices && s'.heard == s.heard && s'.counted == s.counted
  {
  }

  /** What a step preserves of the count and its range. */
  ghost predicate Preserved(s: State, s': State)
  {
    && Pending(s')
    && (StaysInRange(s.counted, s.notices) && InRange(Announced(s'.clients)) ==> StaysInRange(s'.counted, s'.notices))
    && (Accurate(s) ==> (Accurate(s') <==> InRange(s'.counted)))
  }

  lemma QuietStepPreserves(s: State, a: Action)
    requires Inv(s) && Pending(s) && Enabled(s, a)
    requires !a.Report? && !a.Announce? && !a.Farewell?
    ensures Preserved(s, Next(s, a))
  {
    QuietStepKeepsAnnounced(s, a);
    QuietStepKeepsNotices(s, a);
    if Accurate(s) {
      AccurateIsInRange(s);
    }
  }

  lemma NotifiedPreserves(s: State, s': State, n: Notice)
    requires Pending(s) && Notified(s, s', n) && |s.notices| < EventQueue.QUEUE_SIZE
    ensures Preserved(s, s')
  {
    NotifiedKeepsPending(s, s', n);
    if Accurate(s) {
      AccurateIsInRange(s);
    }
  }

  lemma ReportPreserves(s: State)
    requires Pending(s) && s.notices != []
    ensures Preserved(s, ReportNotice(s))
  {
    ReportKeepsPending(s);
    if Accurate(s) {
      ReportIsExact(s);
    }
  }

  lemma AnnouncePreserves(s: State, h: ClientId)
    requires Pending(s) && Enabled(s, Announce(h))
    ensures Preserved(s, Next(s, Announce(h)))
  {
    AnnounceNotifies(s, h);
    NotifiedPreserves(s, Next(s, Announce(h)), Notice(h, 1));
  }

  lemma FarewellPreserves(s: State, h: ClientId)
    requires Pending(s) && Enabled(s, Farewell(h))
    ensures Preserved(s, Next(s, Farewell(h)))
  {
    FarewellNotifies(s, h);
    NotifiedPreserves(s, Next(s, Farewell(h)), Notice(h, -1));
  }

  /** A step keeps the count accurate exactly if the clients then counted are in range. */
  lemma StepKeepsPending(s: State, a: Action)
    requires Inv(s) && Pending(s) && Enabled(s, a)
    ensures Preserved(s, Next(s, a))
  {
    if a.Report? {
      ReportPreserves(s);
    } else if a.Announce? {
      AnnouncePreserves(s, a.h);
    } else if a.Farewell? {
      FarewellPreserves(s, a.h);
    } else {
      QuietStepPreserves(s, a);
    }
  }

  /**
   The number of clients counted plus the pending changes is the number of clients announced and not
   taken back, and never falls below zero on the way there.
   */
  lemma CountAgreesWithHandlers(s: State)
    requires Pending(s)
    ensures |s.counted| + Deltas(s.notices) == |Announced(s.clients)|
    ensures forall i :: 0 <= i <= |s.notices| ==> |s.counted| + Deltas(s.notices[..i]) >= 0
  {
    ReplayCounts(s.counted, s.notices);
    forall i | 0 <= i <= |s.notices|
      ensures |s.counted| + Deltas(s.notices[..i]) >= 0
    {
      ReplayablePrefix(s.counted, s.notices, i);
      ReplayCounts(s.counted, s.notices[..i]);
    }
  }

  /** The clients announced are among those the access controller counts. */
  lemma AnnouncedAreActive(s: State)
    requires Counts(s)
    ensures |Announced(s.clients)| <= s.control.connections
  {
    SubsetSize(Announced(s.clients), Active(s.clients));
  }
}
