/**
 What a streaming session does with its pool between two commands (streaming/streamer.go), on the
 connections themselves. `Broker` breaks these methods into the steps that other processes can see.
 */
module Pool {

  import opened Framing
  import opened AccessControl
  import opened Lists
  import opened Broker

  class Connection {
    const capacity: nat
    var queue: seq<Packet>
    var open: bool      // the queue can be sent to
    var closed: bool    // the client has seen the end of the queue

    constructor (capacity: nat)
      ensures this.capacity == capacity && queue == [] && open && !closed
    {
      this.capacity, queue, open, closed := capacity, [], true, false;
    }

    /** Sends to the queue, unless it is full. Sending to a closed queue would be a run-time panic. */
    method Offer(packet: Packet) returns (kept: bool)
      requires open
      modifies this`queue
      ensures kept <==> |old(queue)| < capacity
      ensures queue == Enqueued(old(queue), packet, capacity)
    {
      kept := |queue| < capacity;
      if kept {
        queue := queue + [packet];
      }
    }

    /** Closing a closed queue would be a run-time panic. */
    method Close()
      requires open
      modifies this`open
      ensures !open
    {
      open := false;
    }
  }

  ghost predicate AllOpen(pool: set<Connection>)
    reads pool
  {
    forall c :: c in pool ==> c.open
  }

  /** The connections that can take a packet. */
  ghost function WithRoom(pool: set<Connection>): set<Connection>
    reads pool
  {
    set c | c in pool && |c.queue| < c.capacity
  }

  /** Offers a packet to every connection in the pool, none waiting for another. */
  method FanOut(pool: set<Connection>, packet: Packet) returns (took: nat, full: nat)
    requires AllOpen(pool)
    modifies pool`queue
    ensures forall c :: c in pool ==> c.queue == Enqueued(old(c.queue), packet, c.capacity)
    ensures took == |old(WithRoom(pool))| && took + full == |pool|
  {
    took, full := 0, 0;
    var todo := pool;
    ghost var room := WithRoom(pool);
    assert room * todo == room;
    while todo != {}
      invariant todo <= pool
      invariant forall c :: c in pool ==> c.queue == if c in todo then old(c.queue) else Enqueued(old(c.queue), packet, c.capacity)
      invariant took + |room * todo| == |room| && took + full + |todo| == |pool|
      decreases todo
    {
      var conn :| conn in todo;
      assert room * (todo - {conn}) == room * todo - {conn};
      assert conn in room <==> |old(conn.queue)| < conn.capacity;
      var kept := conn.Offer(packet);
      if kept {
        took := took + 1;
      } else {
        full := full + 1;
      }
      todo := todo - {conn};
    }
  }

  class Session {
    var pool: set<Connection>
    var inhibit: bool
    var sent: nat
    var dropped: nat

    constructor ()
      ensures pool == {} && !inhibit && sent == dropped == 0
    {
      pool, inhibit, sent, dropped := {}, false, 0, 0;
    }

    method Distribute(packet: Packet)
      requires AllOpen(pool)
      modifies this`sent, this`dropped, pool`queue
      ensures forall c :: c in pool ==> c.queue == Enqueued(old(c.queue), packet, c.capacity)
      ensures sent == old(sent) + |old(WithRoom(pool))|
      ensures sent + dropped == old(sent) + old(dropped) + |pool|
    {
      var took, full := FanOut(pool, packet);
      sent, dropped := sent + took, dropped + full;
    }

    /** The broker is asked only while the session accepts connections. */
    method Add(conn: Connection, broker: AccessController) returns (ok: bool)
      modifies this`pool, broker
      ensures ok <==> !inhibit && old(broker.View()).Admits()
      ensures pool == if ok then old(pool) + {conn} else old(pool)
      ensures broker.View() == if inhibit then old(broker.View()) else old(broker.View()).Accepted()
    {
      ok := false;
      if !inhibit {
        ok := broker.Accept();
      }
      if ok {
        pool := pool + {conn};
      }
    }

    method Remove(conn: Connection)
      requires !conn.closed ==> conn.open
      modifies this`pool, conn`open
      ensures pool == old(pool) - {conn}
      ensures conn.open == (old(conn.open) && conn.closed)
    {
      if !conn.closed {
        conn.Close();
      }
      pool := pool - {conn};
    }

    /** Closes the queues of the pool, each once. */
    method CloseAll()
      requires AllOpen(pool)
      modifies pool`open
      ensures forall c :: c in pool ==> !c.open
    {
      var todo := pool;
      while todo != {}
        invariant todo <= pool
        invariant forall c :: c in pool ==> c.open == (c in todo)
        decreases todo
      {
        var conn :| conn in todo;
        conn.Close();
        todo := todo - {conn};
      }
    }

    /** The connections stay in the pool, although their queues are closed now. */
    method Inhibit()
      requires AllOpen(pool)
      modifies this`inhibit, pool`open
      ensures inhibit && forall c :: c in pool ==> !c.open
      ensures AllOpen(pool) <==> pool == {}
    {
      inhibit := true;
      CloseAll();
    }

    method Allow()
      modifies this`inhibit
      ensures !inhibit
    {
      inhibit := false;
    }
  }

  // ---------- The fan-out as a run of the broker ----------

  /** The fan-out of one packet without a pause, in a given order. */
  function Offers(k: CallId, hs: seq<ClientId>): seq<Action>
  {
    if hs == [] then [] else [OfferTo(k, hs[0])] + Offers(k, hs[1..])
  }

  function RoomsLeft(clients: map<ClientId, Client>, hs: seq<ClientId>, queueSize: nat): nat
    requires forall i :: 0 <= i < |hs| ==> hs[i] in clients
  {
    if hs == [] then 0
    else (if |clients[hs[0]].queue| < queueSize then 1 else 0) + RoomsLeft(clients, hs[1..], queueSize)
  }

  lemma {:induction false} SameRooms(clients: map<ClientId, Client>, clients': map<ClientId, Client>, hs: seq<ClientId>, queueSize: nat)
    requires forall i :: 0 <= i < |hs| ==> hs[i] in clients && hs[i] in clients' && clients[hs[i]] == clients'[hs[i]]
    ensures RoomsLeft(clients, hs, queueSize) == RoomsLeft(clients', hs, queueSize)
  {
    if hs != [] {
      SameRooms(clients, clients', hs[1..], queueSize);
    }
  }

  /** The session offers a packet to these clients, whose queues are open. */
  ghost predicate Offering(s: State, k: CallId, hs: seq<ClientId>)
  {
    && !s.panicked && Known(s, k) && s.calls[k].phase.Distributing? && Distinct(hs)
    && (forall h :: h in s.calls[k].phase.todo <==> h in hs)
    && (forall i :: 0 <= i < |hs| ==> hs[i] in s.clients && s.clients[hs[i]].open)
  }

  lemma NextOffer(s: State, k: CallId, hs: seq<ClientId>)
    requires Offering(s, k, hs) && hs != []
    ensures Enabled(s, OfferTo(k, hs[0])) && Offering(OfferPacket(s, k, hs[0]), k, hs[1..])
  {
    assert hs[0] in hs;
    var s' := OfferPacket(s, k, hs[0]);
    forall h
      ensures h in s'.calls[k].phase.todo <==> h in hs[1..]
    {
      assert h in hs <==> h == hs[0] || h in hs[1..];
    }
  }

  /**
   Whatever the order, the offers of the broker do to the queues and the counters what `FanOut` does:
   each queue in the pool is offered the packet once, and each offer is counted as sent or dropped.
   */
  lemma {:induction false} OffersFanOut(s: State, k: CallId, hs: seq<ClientId>)
    requires Offering(s, k, hs)
    ensures IsRun(s, Offers(k, hs))
    ensures var t, c := After(s, Offers(k, hs)), s.calls[k];
            var st := s.streamers[c.streamer];
            && t.clients.Keys == s.clients.Keys && Known(t, k) && t.calls[k] == c.(phase := Distributing(c.phase.packet, {}))
            && (forall h :: h in s.clients && h in hs ==> t.clients[h].queue == Enqueued(s.clients[h].queue, c.phase.packet, st.queueSize))
            && (forall h :: h in s.clients && h !in hs ==> t.clients[h] == s.clients[h])
            && t.streamers[c.streamer].sent == st.sent + RoomsLeft(s.clients, hs, st.queueSize)
            && t.streamers[c.streamer].sent + t.streamers[c.streamer].dropped == st.sent + st.dropped + |hs|
    decreases |hs|
  {
    var c := s.calls[k];
    if hs == [] {
      assert c.phase.todo == {};
    } else {
      var s', rest := OfferPacket(s, k, hs[0]), hs[1..];
      NextOffer(s, k, hs);
      assert Offers(k, hs)[0] == OfferTo(k, hs[0]) && Offers(k, hs)[1..] == Offers(k, rest);
      OffersFanOut(s', k, rest);
      SameRooms(s.clients, s'.clients, rest, s.streamers[c.streamer].queueSize);
      assert forall h :: h in hs <==> h == hs[0] || h in rest;
    }
  }
}
