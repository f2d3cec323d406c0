/** The connection limit that all streamers share: the counter is the number of clients let in and not out again. */
module Admission {
  import opened Lists
  import opened Broker
  import opened Queues

  predicate IsActive(stage: Stage)
  {
    Accepted(stage) && !stage.Released?
  }

  function Active(clients: map<ClientId, Client>): set<ClientId>
  {
    set h | h in clients && IsActive(clients[h].stage)
  }

  ghost predicate Counts(s: State)
  {
    s.control.connections == |Active(s.clients)| && s.control.WithinLimit()
  }

  lemma ActiveUpdated(clients: map<ClientId, Client>, h: ClientId, c: Client)
    ensures Active(clients[h := c]) == if IsActive(c.stage) then Active(clients) + {h} else Active(clients) - {h}
  {
  }

  lemma SameActive(clients: map<ClientId, Client>, clients': map<ClientId, Client>, h: ClientId)
    requires h in clients' && clients' == clients[h := clients'[h]]
    requires IsActive(clients'[h].stage) <==> h in clients && IsActive(clients[h].stage)
    ensures Active(clients') == Active(clients)
  {
    ActiveUpdated(clients, h, clients'[h]);
  }

  lemma AddKeepsCounts(s: State, k: CallId, h: ClientId)
    requires Inv(s) && Counts(s) && CanProcess(s, k) && s.calls[k].phase == Handling(Add(h))
    ensures Counts(ProcessAdd(s, k, h))
  {
    var s' := ProcessAdd(s, k, h);
    assert s.clients[h].stage.Waiting? && h !in Active(s.clients);
    ActiveUpdated(s.clients, h, s'.clients[h]);
    if s'.clients[h].stage.Admitted? {
      assert Active(s'.clients) == Active(s.clients) + {h};
    } else {
      assert Active(s'.clients) == Active(s.clients);
    }
  }

  lemma ProcessKeepsCounts(s: State, k: CallId)
    requires Inv(s) && Counts(s) && CanProcess(s, k)
    ensures Counts(Processed(s, k))
  {
    match s.calls[k].phase.request {
      case Add(h) => AddKeepsCounts(s, k, h);
      case Remove(h) =>
        if Processed(s, k).clients != s.clients {
          SameActive(s.clients, Processed(s, k).clients, h);
        }
      case Inhibit => assert Active(Processed(s, k).clients) == Active(s.clients);
      case Allow =>
    }
  }

  /** A release always finds a connection to remove. */
  lemma ReleaseKeepsCounts(s: State, h: ClientId)
    requires Counts(s) && Enabled(s, Release(h))
    ensures s.control.connections > 0
    ensures Counts(Next(s, Release(h)))
  {
    assert h in Active(s.clients);
    ActiveUpdated(s.clients, h, s.clients[h].(stage := Released));
  }

  lemma StageKeepsActive(s: State, h: ClientId, stage: Stage)
    requires h in s.clients && IsActive(stage) == IsActive(s.clients[h].stage)
    ensures Active(SetStage(s, h, stage)) == Active(s.clients)
  {
    SameActive(s.clients, SetStage(s, h, stage), h);
  }

  lemma OtherKeepsCounts(s: State, a: Action)
    requires Counts(s) && Enabled(s, a)
    requires a.OfferTo? || a.CloseOne? || a.Serve? || a.Arrive?
    ensures Counts(Next(s, a))
  {
    var s' := Next(s, a);
    if s'.clients != s.clients {
      SameActive(s.clients, s'.clients, a.h);
    }
  }

  lemma StageStepKeepsCounts(s: State, a: Action)
    requires Counts(s) && Enabled(s, a)
    requires a.TakeAdd? || a.TakeRemove? || a.EatAdd? || a.EatRemove? || a.Announce? || a.Farewell?
    ensures Counts(Next(s, a))
  {
    StageKeepsActive(s, a.h, Next(s, a).clients[a.h].stage);
  }

  lemma StepKeepsCounts(s: State, a: Action)
    requires Inv(s) && Counts(s) && Enabled(s, a)
    ensures Counts(Next(s, a))
  {
    if a.Process? {
      ProcessKeepsCounts(s, a.k);
    } else if a.Release? {
      ReleaseKeepsCounts(s, a.h);
    } else if a.OfferTo? || a.CloseOne? || a.Serve? || a.Arrive? {
      OtherKeepsCounts(s, a);
    } else if a.TakeAdd? || a.TakeRemove? || a.EatAdd? || a.EatRemove? || a.Announce? || a.Farewell? {
      StageStepKeepsCounts(s, a);
    }
  }

  // ---------- The pools ----------

  /** The clients of a call without the one whose remove request it is carrying out. */
  function Staying(c: Call): set<ClientId>
  {
    Members(c) - if Removing(c.phase) then {c.phase.request.client} else {}
  }

  function Pools(calls: map<CallId, Call>): map<CallId, set<ClientId>>
  {
    map k | k in calls :: Members(calls[k])
  }

  function StayingPools(calls: map<CallId, Call>): map<CallId, set<ClientId>>
  {
    map k | k in calls :: Staying(calls[k])
  }

  function Sizes(pools: map<CallId, set<ClientId>>, ks: seq<CallId>): nat
    requires forall i :: 0 <= i < |ks| ==> ks[i] in pools
  {
    if ks == [] then 0 else Sizes(pools, ks[..|ks| - 1]) + |pools[ks[|ks| - 1]]|
  }

  function Union(pools: map<CallId, set<ClientId>>, ks: seq<CallId>): set<ClientId>
    requires forall i :: 0 <= i < |ks| ==> ks[i] in pools
  {
    if ks == [] then {} else Union(pools, ks[..|ks| - 1]) + pools[ks[|ks| - 1]]
  }

  /** The clients were admitted by the listed calls. */
  ghost predicate AdmittedBy(clients: map<ClientId, Client>, ks: seq<CallId>, hs: set<ClientId>)
  {
    forall h :: h in hs ==> h in clients && clients[h].session in ks
  }

  /** Pools, or parts of pools, share no client. */
  lemma {:induction false} PoolsAreDisjoint(s: State, pools: map<CallId, set<ClientId>>, ks: seq<CallId>)
    requires Inv(s)
    requires forall k :: k in pools ==> k in s.calls && pools[k] <= Members(s.calls[k])
    requires (forall i :: 0 <= i < |ks| ==> ks[i] in pools) && Distinct(ks)
    ensures AdmittedBy(s.clients, ks, Union(pools, ks))
    ensures Sizes(pools, ks) == |Union(pools, ks)|
  {
    if ks != [] {
      var init, k := ks[..|ks| - 1], ks[|ks| - 1];
      PoolsAreDisjoint(s, pools, init);
      forall h | h in pools[k]
        ensures h in s.clients && s.clients[h].session == k
      {
        MemberOfSession(s.calls, s.clients, k, h);
      }
      assert k !in init;
      assert Union(pools, init) !! pools[k];
    }
  }

  lemma SubsetSize(a: set<ClientId>, b: set<ClientId>)
    requires a <= b
    ensures |a| <= |b|
  {
    assert |b| == |a| + |b - a| by { assert b == a + (b - a); }
  }

  lemma {:induction false} UnionWithin(pools: map<CallId, set<ClientId>>, ks: seq<CallId>, hs: set<ClientId>)
    requires forall i :: 0 <= i < |ks| ==> ks[i] in pools && pools[ks[i]] <= hs
    ensures Union(pools, ks) <= hs
  {
    if ks != [] {
      UnionWithin(pools, ks[..|ks| - 1], hs);
    }
  }

  /** Parts of pools that hold only active clients hold together no more than the counter says. */
  lemma ActivePoolsWithinLimit(s: State, pools: map<CallId, set<ClientId>>, ks: seq<CallId>)
    requires Inv(s) && Counts(s)
    requires forall k :: k in pools ==> k in s.calls && pools[k] <= Members(s.calls[k]) && pools[k] <= Active(s.clients)
    requires (forall i :: 0 <= i < |ks| ==> ks[i] in pools) && Distinct(ks)
    ensures Sizes(pools, ks) <= s.control.connections
    ensures s.control.max != 0 ==> Sizes(pools, ks) <= s.control.max
  {
    PoolsAreDisjoint(s, pools, ks);
    UnionWithin(pools, ks, Active(s.clients));
    SubsetSize(Union(pools, ks), Active(s.clients));
  }

  lemma StayingAreActive(s: State, k: CallId)
    requires Inv(s) && k in s.calls
    ensures Staying(s.calls[k]) <= Active(s.clients)
  {
    forall h | h in Staying(s.calls[k])
      ensures h in Active(s.clients)
    {
      assert h in s.calls[k].pool && PooledBy(s.calls, k, s.clients[h], h);
    }
  }

  /** No session is carrying out the remove request of a pooled client that was released in the meantime. */
  ghost predicate NoneReleasedInPool(s: State)
  {
    forall k :: k in s.calls && Removing(s.calls[k].phase) ==>
      var h := s.calls[k].phase.request.client;
      h in s.calls[k].pool ==> h in s.clients && !s.clients[h].stage.Released?
  }

  /** All pooled clients are counted exactly if none of them was released while its remove request is carried out. */
  lemma PooledAreActive(s: State)
    requires Inv(s)
    ensures (forall k :: k in s.calls ==> Members(s.calls[k]) <= Active(s.clients)) <==> NoneReleasedInPool(s)
  {
    if NoneReleasedInPool(s) {
      forall k, h | k in s.calls && h in Members(s.calls[k])
        ensures h in Active(s.clients)
      {
        assert h in s.calls[k].pool && PooledBy(s.calls, k, s.clients[h], h);
      }
    }
    if forall k :: k in s.calls ==> Members(s.calls[k]) <= Active(s.clients) {
      forall k | k in s.calls && Removing(s.calls[k].phase) && s.calls[k].phase.request.client in s.calls[k].pool
        ensures s.calls[k].phase.request.client in s.clients && !s.clients[s.calls[k].phase.request.client].stage.Released?
      {
        assert s.calls[k].phase.request.client in Members(s.calls[k]);
      }
    }
  }

  /** The session that admitted the client is carrying out its remove request. */
  predicate UnderRemoval(s: State, h: ClientId)
    requires h in s.clients
  {
    var k := s.clients[h].session;
    k in s.calls && s.calls[k].phase == Handling(Remove(h)) && h in s.calls[k].pool
  }

  /** A release keeps the pools free of released clients exactly if the client is not being removed. */
  lemma ReleaseKeepsPoolsCounted(s: State, h: ClientId)
    requires Inv(s) && NoneReleasedInPool(s) && Enabled(s, Release(h))
    ensures NoneReleasedInPool(Next(s, Release(h))) <==> !UnderRemoval(s, h)
  {
    var s' := Next(s, Release(h));
    if UnderRemoval(s, h) {
      assert Removing(s'.calls[s.clients[h].session].phase);
    } else {
      forall k | k in s'.calls && Removing(s'.calls[k].phase)
        ensures var g := s'.calls[k].phase.request.client;
                g in s'.calls[k].pool ==> g in s'.clients && !s'.clients[g].stage.Released?
      {
        var g := s.calls[k].phase.request.client;
        if g in s.calls[k].pool {
          assert PooledBy(s.calls, k, s.clients[g], g);
        }
      }
    }
  }

  lemma OtherStepReleasesNobody(s: State, a: Action, h: ClientId)
    requires Enabled(s, a) && !a.Release? && h in s.clients && !s.clients[h].stage.Released?
    ensures h in Next(s, a).clients && !Next(s, a).clients[h].stage.Released?
  {
    if a.Process? && s.calls[a.k].phase.request.Inhibit? {
      assert h in ProcessInhibit(s, a.k).clients;
    }
  }

  lemma ProcessingEndsRemovals(s: State, c: CallId, k: CallId)
    requires CanProcess(s, c)
    requires k in Processed(s, c).calls && Removing(Processed(s, c).calls[k].phase)
    ensures k in s.calls && Processed(s, c).calls[k] == s.calls[k]
  {
  }

  lemma RemovalsAreTaken(s: State, a: Action, k: CallId)
    requires Enabled(s, a) && !a.TakeRemove?
    requires k in Next(s, a).calls && Removing(Next(s, a).calls[k].phase)
    ensures k in s.calls && Next(s, a).calls[k].phase == s.calls[k].phase && Next(s, a).calls[k].pool == s.calls[k].pool
  {
    if a.Process? {
      ProcessingEndsRemovals(s, a.k, k);
    }
  }

  lemma TakeRemoveKeepsPoolsCounted(s: State, k: CallId, h: ClientId)
    requires NoneReleasedInPool(s) && Enabled(s, TakeRemove(k, h))
    ensures NoneReleasedInPool(Next(s, TakeRemove(k, h)))
  {
  }

  /** No other step releases a client. */
  lemma OtherStepKeepsPoolsCounted(s: State, a: Action)
    requires NoneReleasedInPool(s) && Enabled(s, a) && !a.Release?
    ensures NoneReleasedInPool(Next(s, a))
  {
    if a.TakeRemove? {
      TakeRemoveKeepsPoolsCounted(s, a.k, a.h);
    } else {
      var s' := Next(s, a);
      forall k | k in s'.calls && Removing(s'.calls[k].phase) && s'.calls[k].phase.request.client in s'.calls[k].pool
        ensures var g := s'.calls[k].phase.request.client; g in s'.clients && !s'.clients[g].stage.Released?
      {
        RemovalsAreTaken(s, a, k);
        OtherStepReleasesNobody(s, a, s.calls[k].phase.request.client);
      }
    }
  }

  /** While the pooled queues are open, no pooled client has been released. */
  lemma OpenPoolsAreActive(s: State)
    requires TendedInv(s) && QueueSafe(s)
    ensures NoneReleasedInPool(s)
  {
    forall k | k in s.calls && Removing(s.calls[k].phase) && s.calls[k].phase.request.client in s.calls[k].pool
      ensures s.calls[k].phase.request.client in s.clients && !s.clients[s.calls[k].phase.request.client].stage.Released?
    {
      assert s.calls[k].phase.request.client in Members(s.calls[k]);
    }
  }
}
