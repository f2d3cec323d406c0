/**
 The connection loop of an upstream client (streaming/client.go): it goes round its list of servers
 and starts attempts no more often than the configured time allows.
 */
module Reconnect {

  type Url = string

  /** Which server of the list, when the deadline after the attempt was set, and when the connection was lost again. */
  datatype Attempt = Attempt(server: nat, url: Url, stamp: nat, ended: nat)

  /** What the clock does: by how much waiting takes longer than asked for, and how long a connection lasts. */
  datatype Delay = Delay(late: nat, lasted: nat)

  /** The next deadline is set `wait` after the one before, or when the connection ends, whichever is later. */
  predicate PacedAt(attempts: seq<Attempt>, wait: nat, delays: seq<Delay>, i: nat)
    requires 0 < i < |attempts| <= |delays|
  {
    attempts[i].stamp == Later(attempts[i - 1].ended, attempts[i - 1].stamp + wait) + delays[i].late
  }

  predicate Paced(attempts: seq<Attempt>, wait: nat, delays: seq<Delay>)
    requires |attempts| <= |delays|
  {
    forall i :: 0 < i < |attempts| ==> PacedAt(attempts, wait, delays, i)
  }

  function Later(a: nat, b: nat): nat
  {
    if a < b then b else a
  }

  /** Whose turn it is in the i-th place of a round of n. */
  function Turn(i: nat, n: nat): (r: nat)
    requires n > 0
    ensures r < n && r <= i
  {
    if i < n then i else Turn(i - n, n)
  }

  predicate RoundRobin(attempts: seq<Attempt>, urls: seq<Url>)
    requires urls != []
  {
    forall i :: 0 <= i < |attempts| ==>
      attempts[i].server == Turn(i, |urls|) && attempts[i].url == urls[attempts[i].server]
  }

  lemma PacedOneMore(attempts: seq<Attempt>, wait: nat, delays: seq<Delay>, a: Attempt)
    requires |attempts| < |delays| && Paced(attempts, wait, delays)
    requires attempts != [] ==> PacedAt(attempts + [a], wait, delays, |attempts|)
    ensures Paced(attempts + [a], wait, delays)
  {
    forall i | 0 < i < |attempts|
      ensures PacedAt(attempts + [a], wait, delays, i)
    {
      assert PacedAt(attempts, wait, delays, i);
    }
  }

  lemma RoundRobinOneMore(attempts: seq<Attempt>, urls: seq<Url>, a: Attempt)
    requires urls != [] && RoundRobin(attempts, urls)
    requires a.server == Turn(|attempts|, |urls|) && a.url == urls[a.server]
    ensures RoundRobin(attempts + [a], urls)
  {
  }

  /** The attempts made by the time that `delays` has been used up. A waiting time of 0 means a single attempt. */
  method Loop(urls: seq<Url>, wait: nat, begin: nat, delays: seq<Delay>) returns (attempts: seq<Attempt>)
    requires urls != []
    ensures |attempts| == if wait == 0 && |delays| > 1 then 1 else |delays|
    ensures RoundRobin(attempts, urls)
    ensures Paced(attempts, wait, delays)
    ensures attempts != [] ==> attempts[0].stamp == begin && attempts[0].server == 0
    ensures forall i :: 0 <= i < |attempts| ==> attempts[i].ended == attempts[i].stamp + delays[i].lasted
    ensures forall i :: 0 <= i < |attempts| ==> attempts[i].stamp <= attempts[i].ended
  {
    attempts := [];
    var first := true;
    var clock, stamp := begin, begin;
    var deadline := begin + wait;
    var next := 0;
    while (first || wait != 0) && |attempts| < |delays|
      invariant |attempts| <= |delays|
      invariant first <==> attempts == []
      invariant wait == 0 && !first ==> |attempts| == 1
      invariant next == Turn(|attempts|, |urls|)
      invariant deadline == stamp + wait && stamp <= clock
      invariant first ==> stamp == clock == begin
      invariant !first ==> attempts[|attempts| - 1].stamp == stamp && attempts[|attempts| - 1].ended == clock
      invariant !first ==> attempts[0].stamp == begin
      invariant RoundRobin(attempts, urls) && Paced(attempts, wait, delays)
      invariant forall i :: 0 <= i < |attempts| ==> attempts[i].ended == attempts[i].stamp + delays[i].lasted
      decreases |delays| - |attempts|
    {
      if first {
        first := false;
      } else {
        if clock < deadline {
          clock := deadline;
        }
        clock := clock + delays[|attempts|].late;
        stamp := clock;
        deadline := clock + wait;
      }
      var server := next;
      NextTurn(|attempts|, |urls|);
      next := (next + 1) % |urls|;
      clock := clock + delays[|attempts|].lasted;
      PacedOneMore(attempts, wait, delays, Attempt(server, urls[server], stamp, clock));
      RoundRobinOneMore(attempts, urls, Attempt(server, urls[server], stamp, clock));
      attempts := attempts + [Attempt(server, urls[server], stamp, clock)];
    }
  }

  lemma {:induction false} NextTurn(i: nat, n: nat)
    requires n > 0
    ensures Turn(i + 1, n) == (Turn(i, n) + 1) % n
  {
    if i >= n {
      NextTurn(i - n, n);
    } else if i + 1 == n {
      assert Turn(n, n) == Turn(0, n) == 0;
    }
  }

  /** Attempts that are d apart in order are at least d times the waiting time apart. */
  lemma {:induction false} AttemptsAreSpaced(attempts: seq<Attempt>, wait: nat, delays: seq<Delay>, i: nat, j: nat)
    requires |attempts| <= |delays| && Paced(attempts, wait, delays) && i <= j < |attempts|
    ensures attempts[i].stamp + (j - i) * wait <= attempts[j].stamp
    decreases j
  {
    if i < j {
      AttemptsAreSpaced(attempts, wait, delays, i, j - 1);
      assert PacedAt(attempts, wait, delays, j);
      assert (j - i) * wait == (j - 1 - i) * wait + wait;
    }
  }

  /**
   No attempt starts before the connection of the one before is lost, nor before the waiting time since that one
   is over, and apart from what the clock adds it starts as soon as both are.
   */
  lemma StartsAsSoonAsItMay(attempts: seq<Attempt>, wait: nat, delays: seq<Delay>, i: nat, t: nat)
    requires |attempts| <= |delays| && Paced(attempts, wait, delays) && 0 < i < |attempts|
    ensures attempts[i - 1].ended <= attempts[i].stamp && attempts[i - 1].stamp + wait <= attempts[i].stamp
    ensures attempts[i - 1].ended <= t && attempts[i - 1].stamp + wait <= t ==> attempts[i].stamp <= t + delays[i].late
  {
    assert PacedAt(attempts, wait, delays, i);
  }

  lemma {:induction false} SameTurn(i: nat, j: nat, n: nat)
    requires n > 0 && i < j && Turn(i, n) == Turn(j, n)
    ensures j - i >= n
    decreases j
  {
    if i >= n {
      SameTurn(i - n, j - n, n);
    } else {
      assert j >= n;
      assert Turn(j - n, n) <= j - n;
    }
  }

  lemma {:induction false} TurnComes(from: nat, n: nat, k: nat) returns (i: nat)
    requires k < n
    ensures from <= i < from + n && Turn(i, n) == k
    decreases from
  {
    if from >= n {
      var j := TurnComes(from - n, n, k);
      i := j + n;
    } else {
      i := if k >= from then k else k + n;
    }
  }

  lemma {:induction false} MulMonotone(a: nat, b: nat, w: nat)
    requires a <= b
    ensures a * w <= b * w
  {
    if w > 0 {
      MulMonotone(a, b, w - 1);
      assert a * w == a * (w - 1) + a && b * w == b * (w - 1) + b;
    }
  }

  predicate TriedBetween(attempts: seq<Attempt>, i: nat, j: nat, server: nat)
  {
    exists m :: i < m < j <= |attempts| && attempts[m].server == server
  }

  lemma OthersAreTried(attempts: seq<Attempt>, urls: seq<Url>, i: nat, j: nat, server: nat)
    requires urls != [] && RoundRobin(attempts, urls) && server < |urls|
    requires i < j < |attempts| && j - i >= |urls| && server != attempts[j].server
    requires attempts[i].server == attempts[j].server
    ensures TriedBetween(attempts, i, j, server)
  {
    var m := TurnComes(i + 1, |urls|, server);
    assert m <= j && attempts[m].server == server;
  }

  /**
   The same server is tried again only after all the others were tried in between, and no sooner than
   as many waiting times later as there are servers.
   */
  lemma SameServerIsSpared(attempts: seq<Attempt>, urls: seq<Url>, wait: nat, delays: seq<Delay>, i: nat, j: nat)
    requires urls != [] && |attempts| <= |delays| && RoundRobin(attempts, urls) && Paced(attempts, wait, delays)
    requires i < j < |attempts| && attempts[i].server == attempts[j].server
    ensures attempts[i].stamp + |urls| * wait <= attempts[j].stamp
    ensures forall k: nat :: k < |urls| && k != attempts[i].server ==> TriedBetween(attempts, i, j, k)
  {
    SameTurn(i, j, |urls|);
    assert attempts[i].stamp + |urls| * wait <= attempts[j].stamp by {
      AttemptsAreSpaced(attempts, wait, delays, i, j);
      MulMonotone(|urls|, j - i, wait);
    }
    forall k: nat | k < |urls| && k != attempts[i].server
      ensures TriedBetween(attempts, i, j, k)
    {
      OthersAreTried(attempts, urls, i, j, k);
    }
  }

  /** Any n attempts in a row try every server. */
  lemma EveryServerIsTried(attempts: seq<Attempt>, urls: seq<Url>, from: nat, k: nat)
    requires urls != [] && RoundRobin(attempts, urls)
    requires from + |urls| <= |attempts| && k < |urls|
    ensures exists i :: from <= i < from + |urls| && attempts[i].server == k && attempts[i].url == urls[k]
  {
    var i := TurnComes(from, |urls|, k);
    assert attempts[i].server == k;
  }
}
