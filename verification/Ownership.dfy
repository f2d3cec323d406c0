/**
 Who receives from a streamer's request channel. The channel passes from a command eater to a
 streaming session and back; at any time exactly one process receives from it, and the running flag
 is held by at most one `Stream` call.
 */
module Ownership {
  import opened Broker

  /** The call has taken over the request channel and not given it back. */
  predicate Owns(p: Phase)
  {
    p.Selecting? || p.Distributing? || p.Handling? || p.Stopping? || p.Discarding? || p.Closing?
  }

  /** The call has set the running flag and not cleared it. */
  predicate HoldsFlag(p: Phase)
  {
    p.Handover? || p.Selecting? || p.Distributing? || p.Handling? || p.Stopping?
  }

  // ---------- Tokens ----------

  /** One token per streamer; `holders` tells which calls hold which streamer's token, `out` which tokens are out. */
  ghost predicate Exclusive(out: set<StreamerId>, holders: map<CallId, StreamerId>)
  {
    && (forall k :: k in holders ==> holders[k] in out)
    && (forall k, l :: k in holders && l in holders && holders[k] == holders[l] ==> k == l)
    && (forall st :: st in out ==> exists k :: k in holders && holders[k] == st)
  }

  lemma TokenTaken(out: set<StreamerId>, holders: map<CallId, StreamerId>, k: CallId, st: StreamerId)
    requires Exclusive(out, holders) && st !in out && k !in holders
    ensures Exclusive(out + {st}, holders[k := st])
  {
    var holders' := holders[k := st];
    forall st' | st' in out + {st}
      ensures exists l :: l in holders' && holders'[l] == st'
    {
      if st' == st {
        assert holders'[k] == st;
      } else {
        var l :| l in holders && holders[l] == st';
        assert holders'[l] == st';
      }
    }
  }

  lemma TokenReturned(out: set<StreamerId>, holders: map<CallId, StreamerId>, k: CallId)
    requires Exclusive(out, holders) && k in holders
    ensures Exclusive(out - {holders[k]}, holders - {k})
  {
    var holders' := holders - {k};
    forall st' | st' in out - {holders[k]}
      ensures exists l :: l in holders' && holders'[l] == st'
    {
      var l :| l in holders && holders[l] == st';
      assert l in holders';
    }
  }

  // ---------- The two tokens of a streamer ----------

  function FlagsSet(streamers: map<StreamerId, Streamer>): set<StreamerId>
  {
    set st | st in streamers && streamers[st].running
  }

  function FlagHolders(calls: map<CallId, Call>): map<CallId, StreamerId>
  {
    map k | k in calls && HoldsFlag(calls[k].phase) :: calls[k].streamer
  }

  function WithoutEater(streamers: map<StreamerId, Streamer>): set<StreamerId>
  {
    set st | st in streamers && streamers[st].eaters == 0
  }

  function Owners(calls: map<CallId, Call>): map<CallId, StreamerId>
  {
    map k | k in calls && Owns(calls[k].phase) :: calls[k].streamer
  }

  ghost predicate Inv(streamers: map<StreamerId, Streamer>, calls: map<CallId, Call>)
  {
    && (forall k :: k in calls ==> calls[k].streamer in streamers)
    && (forall st :: st in streamers ==> streamers[st].eaters <= 1)
    && Exclusive(FlagsSet(streamers), FlagHolders(calls))
    && Exclusive(WithoutEater(streamers), Owners(calls))
  }

  lemma CallUpdated(calls: map<CallId, Call>, k: CallId, c: Call)
    ensures FlagHolders(calls[k := c]) ==
            if HoldsFlag(c.phase) then FlagHolders(calls)[k := c.streamer] else FlagHolders(calls) - {k}
    ensures Owners(calls[k := c]) ==
            if Owns(c.phase) then Owners(calls)[k := c.streamer] else Owners(calls) - {k}
  {
  }

  lemma StreamerUpdated(streamers: map<StreamerId, Streamer>, st: StreamerId, x: Streamer)
    ensures FlagsSet(streamers[st := x]) ==
            if x.running then FlagsSet(streamers) + {st} else FlagsSet(streamers) - {st}
    ensures WithoutEater(streamers[st := x]) ==
            if x.eaters == 0 then WithoutEater(streamers) + {st} else WithoutEater(streamers) - {st}
  {
  }

  /** How a step may move a token: not at all, from the streamer to the call, or back. */
  predicate MovesToken(out: bool, out': bool, held: bool, held': bool)
  {
    || (out' == out && held' == held)
    || (!out && out' && !held && held')
    || (out && !out' && held && !held')
  }

  lemma TokenMoved(out: set<StreamerId>, holders: map<CallId, StreamerId>, k: CallId, st: StreamerId, out': bool, held': bool)
    requires Exclusive(out, holders)
    requires k in holders ==> holders[k] == st
    requires MovesToken(st in out, out', k in holders, held')
    ensures Exclusive(if out' then out + {st} else out - {st}, if held' then holders[k := st] else holders - {k})
  {
    if (st in out) == out' {
      assert (if out' then out + {st} else out - {st}) == out;
      assert (if held' then holders[k := st] else holders - {k}) == holders;
    } else if out' {
      TokenTaken(out, holders, k, st);
    } else {
      TokenReturned(out, holders, k);
    }
  }

  /** The new value of a call and of its streamer move each of the two tokens lawfully. */
  predicate Lawful(c: Call, c': Call, x: Streamer, x': Streamer)
  {
    && c'.streamer == c.streamer && x'.eaters <= 1
    && MovesToken(x.running, x'.running, HoldsFlag(c.phase), HoldsFlag(c'.phase))
    && MovesToken(x.eaters == 0, x'.eaters == 0, Owns(c.phase), Owns(c'.phase))
  }

  lemma UpdateKeepsInv(streamers: map<StreamerId, Streamer>, calls: map<CallId, Call>, k: CallId, c: Call, x: Streamer)
    requires Inv(streamers, calls) && k in calls
    requires Lawful(calls[k], c, streamers[calls[k].streamer], x)
    ensures Inv(streamers[c.streamer := x], calls[k := c])
  {
    CallUpdated(calls, k, c);
    StreamerUpdated(streamers, c.streamer, x);
    TokenMoved(FlagsSet(streamers), FlagHolders(calls), k, c.streamer, x.running, HoldsFlag(c.phase));
    TokenMoved(WithoutEater(streamers), Owners(calls), k, c.streamer, x.eaters == 0, Owns(c.phase));
  }

  lemma NewCallKeepsInv(streamers: map<StreamerId, Streamer>, calls: map<CallId, Call>, k: CallId, c: Call)
    requires Inv(streamers, calls) && k !in calls && c.streamer in streamers && c.phase.Calling?
    ensures Inv(streamers, calls[k := c])
  {
    CallUpdated(calls, k, c);
    assert FlagHolders(calls) - {k} == FlagHolders(calls) && Owners(calls) - {k} == Owners(calls);
  }

  /** The start command never reaches another session. */
  lemma StartIsNotMisdirected(s: State, k: CallId, other: CallId)
    requires Inv(s.streamers, s.calls)
    ensures !Enabled(s, MisdirectStart(k, other))
  {
    if k in s.calls && other in s.calls && s.calls[k].phase.Handover? && s.calls[other].phase.Selecting? {
      assert k in FlagHolders(s.calls) && other in FlagHolders(s.calls);
    }
  }

  /** Who holds a token has taken it from the streamer. */
  lemma HeldIsOut(streamers: map<StreamerId, Streamer>, calls: map<CallId, Call>, k: CallId)
    requires Inv(streamers, calls) && k in calls
    ensures HoldsFlag(calls[k].phase) ==> streamers[calls[k].streamer].running
    ensures Owns(calls[k].phase) ==> streamers[calls[k].streamer].eaters == 0
  {
    assert HoldsFlag(calls[k].phase) ==> FlagHolders(calls)[k] in FlagsSet(streamers);
    assert Owns(calls[k].phase) ==> Owners(calls)[k] in WithoutEater(streamers);
  }

  lemma CallUpdateKeepsInv(streamers: map<StreamerId, Streamer>, calls: map<CallId, Call>, k: CallId, c: Call)
    requires Inv(streamers, calls) && k in calls && c.streamer == calls[k].streamer
    requires Owns(c.phase) == Owns(calls[k].phase) && HoldsFlag(c.phase) == HoldsFlag(calls[k].phase)
    ensures Inv(streamers, calls[k := c])
  {
    UpdateKeepsInv(streamers, calls, k, c, streamers[c.streamer]);
    assert streamers[c.streamer := streamers[c.streamer]] == streamers;
  }

  lemma ProcessKeepsInv(s: State, k: CallId)
    requires Inv(s.streamers, s.calls) && CanProcess(s, k)
    ensures Inv(Processed(s, k).streamers, Processed(s, k).calls)
  {
    var s' := Processed(s, k);
    assert s'.streamers == s.streamers;
    assert s'.calls == s.calls[k := s'.calls[k]];
    CallUpdateKeepsInv(s.streamers, s.calls, k, s'.calls[k]);
  }

  lemma OfferKeepsInv(s: State, k: CallId, h: ClientId)
    requires Inv(s.streamers, s.calls) && Enabled(s, OfferTo(k, h))
    ensures Inv(OfferPacket(s, k, h).streamers, OfferPacket(s, k, h).calls)
  {
    var s' := OfferPacket(s, k, h);
    if s.clients[h].open {
      UpdateKeepsInv(s.streamers, s.calls, k, s'.calls[k], s'.streamers[s.calls[k].streamer]);
    }
  }

  lemma SwapKeepsInv(s: State, k: CallId)
    requires Inv(s.streamers, s.calls) && Enabled(s, CompareAndSwap(k))
    ensures Inv(SwapFlag(s, k).streamers, SwapFlag(s, k).calls)
  {
    var s', st := SwapFlag(s, k), s.calls[k].streamer;
    if s.streamers[st].running {
      CallUpdateKeepsInv(s.streamers, s.calls, k, s'.calls[k]);
    } else {
      UpdateKeepsInv(s.streamers, s.calls, k, s'.calls[k], s'.streamers[st]);
    }
  }

  lemma TransferKeepsInv(s: State, a: Action)
    requires Inv(s.streamers, s.calls) && Enabled(s, a)
    requires a.CompareAndSwap? || a.HandStart? || a.ClearFlag? || a.Relaunch?
    ensures Inv(Next(s, a).streamers, Next(s, a).calls)
  {
    if a.CompareAndSwap? {
      SwapKeepsInv(s, a.k);
    } else {
      HeldIsOut(s.streamers, s.calls, a.k);
      var s', st := Next(s, a), s.calls[a.k].streamer;
      UpdateKeepsInv(s.streamers, s.calls, a.k, s'.calls[a.k], s'.streamers[st]);
    }
  }

  lemma StepKeepsInv(s: State, a: Action)
    requires Inv(s.streamers, s.calls) && Enabled(s, a)
    ensures Inv(Next(s, a).streamers, Next(s, a).calls)
  {
    if a.Open? {
      NewCallKeepsInv(s.streamers, s.calls, a.k, NewCall(a.streamer, a.source));
    } else if a.MisdirectStart? {
      StartIsNotMisdirected(s, a.k, a.other);
    } else if a.Process? {
      ProcessKeepsInv(s, a.k);
    } else if a.OfferTo? {
      OfferKeepsInv(s, a.k, a.h);
    } else if a.Receive? {
      var s' := ReceivePacket(s, a.k);
      UpdateKeepsInv(s.streamers, s.calls, a.k, s'.calls[a.k], s'.streamers[s.calls[a.k].streamer]);
    } else if a.Pull? || a.Move? || a.CloseOne? || a.TakeAdd? || a.TakeRemove? {
      CallUpdateKeepsInv(s.streamers, s.calls, a.k, Next(s, a).calls[a.k]);
    } else if a.CompareAndSwap? || a.HandStart? || a.ClearFlag? || a.Relaunch? {
      TransferKeepsInv(s, a);
    }
  }

  // ---------- As a count ----------

  function HoldersOf(holders: map<CallId, StreamerId>, st: StreamerId): set<CallId>
  {
    set k | k in holders && holders[k] == st
  }

  lemma OneHolder(out: set<StreamerId>, holders: map<CallId, StreamerId>, st: StreamerId)
    requires Exclusive(out, holders)
    ensures |HoldersOf(holders, st)| == if st in out then 1 else 0
  {
    if st in out {
      var k :| k in holders && holders[k] == st;
      assert HoldersOf(holders, st) == {k};
    } else {
      assert HoldersOf(holders, st) == {};
    }
  }

  /** The eaters and the sessions that own the channel are one process in total. */
  lemma OneReceiver(streamers: map<StreamerId, Streamer>, calls: map<CallId, Call>, st: StreamerId)
    requires Inv(streamers, calls) && st in streamers
    ensures streamers[st].eaters + |HoldersOf(Owners(calls), st)| == 1
    ensures |HoldersOf(FlagHolders(calls), st)| == if streamers[st].running then 1 else 0
  {
    OneHolder(WithoutEater(streamers), Owners(calls), st);
    OneHolder(FlagsSet(streamers), FlagHolders(calls), st);
  }

  /** Two sessions that own the same streamer's channel are the same. */
  lemma SameOwner(streamers: map<StreamerId, Streamer>, calls: map<CallId, Call>, k: CallId, l: CallId)
    requires Inv(streamers, calls) && k in calls && l in calls
    requires Owns(calls[k].phase) && Owns(calls[l].phase) && calls[k].streamer == calls[l].streamer
    ensures k == l
  {
    assert Owners(calls)[k] == Owners(calls)[l];
  }

  /** While an eater receives, no session of the streamer owns the channel. */
  lemma EaterExcludesOwner(streamers: map<StreamerId, Streamer>, calls: map<CallId, Call>, k: CallId)
    requires Inv(streamers, calls) && k in calls && streamers[calls[k].streamer].eaters > 0
    ensures !Owns(calls[k].phase)
  {
    var st := calls[k].streamer;
    assert st !in WithoutEater(streamers);
    assert k in Owners(calls) <==> Owns(calls[k].phase);
    assert forall l :: l in Owners(calls) ==> Owners(calls)[l] != st;
  }

  lemma InitHasInv(s: State)
    requires Init(s)
    ensures Inv(s.streamers, s.calls)
  {
    assert FlagsSet(s.streamers) == {} && WithoutEater(s.streamers) == {};
    assert FlagHolders(s.calls) == map[] && Owners(s.calls) == map[];
  }
}
