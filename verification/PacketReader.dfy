/**
 Reading packets from a source (protocol/packet.go) and pulling them into the input queue of a
 stream (streaming/client.go, `pull`).
 */
module PacketReader {
  import opened Bytes
  import opened Framing
  import opened Input

  /**
   Fills `buffer` from index `start` on. On success the buffer holds the next pending bytes;
   on failure fewer bytes were pending than fit.
   */
  method Fill(source: Source, buffer: array<Byte>, start: nat) returns (err: bool)
    requires source.Valid() && start <= buffer.Length && buffer !in source.Footprint()
    modifies source.Footprint(), buffer
    ensures err <==> |old(source.pending)| < buffer.Length - start
    ensures !err ==> source.Valid()
    ensures !err ==> buffer[..] + source.pending == old(buffer[..start]) + old(source.pending)
  {
    ghost var all := buffer[..start] + source.pending;
    var offset := start;
    err := false;
    while offset < buffer.Length
      invariant start <= offset <= buffer.Length
      invariant source.Valid()
      invariant buffer[..offset] + source.pending == all
      decreases source.work
    {
      var n;
      n, err := source.Read(buffer, offset);
      if err {
        return;
      }
      offset := offset + n;
    }
    assert buffer[..] == buffer[..offset];
  }

  /**
   `ReadMpegTsPacket`: reads a block of 188 bytes; if it does not start with the sync byte, scans
   for one and reads the rest of the packet that starts there. A null packet without an error
   means that the block held no sync byte.
   */
  method ReadMpegTsPacket(source: Source) returns (packet: array?<Byte>, err: bool)
    requires source.Valid()
    modifies source.Footprint()
    ensures packet != null ==> fresh(packet) && !err
    ensures var (outcome, rest) := ReadBlock(old(source.pending));
            && (err <==> outcome.OutOfData?)
            && (packet != null <==> outcome.Assembled?)
            && (packet != null ==> packet[..] == outcome.packet)
            && (!err ==> source.Valid() && source.pending == rest)
  {
    ghost var pending := source.pending;
    var garbage := new Byte[PACKET_SIZE];
    err := Fill(source, garbage, 0);
    if err {
      return null, true;
    }
    ghost var rest := source.pending;
    assert pending == garbage[..] + rest;
    ReadBlockOf(garbage[..], rest);
    if garbage[0] == SYNC_BYTE {
      assert SyncPosition(garbage[..]) == 0;
      assert garbage[..][0..] + rest[..0] == garbage[..];
      return garbage, false;
    }
    var sync := FindSync(garbage);
    if sync == garbage.Length {
      return null, false;
    }
    packet, err := Realign(source, garbage, sync);
  }

  /** The scan for the sync byte. */
  method FindSync(garbage: array<Byte>) returns (sync: nat)
    ensures sync == SyncPosition(garbage[..])
  {
    sync := 0;
    while sync < garbage.Length && garbage[sync] != SYNC_BYTE
      invariant sync <= garbage.Length
      invariant forall j :: 0 <= j < sync ==> garbage[j] != SYNC_BYTE
    {
      sync := sync + 1;
    }
    SyncPositionIsFirst(garbage[..], sync);
  }

  lemma SyncPositionIsFirst(block: seq<Byte>, i: nat)
    requires i <= |block|
    requires forall j :: 0 <= j < i ==> block[j] != SYNC_BYTE
    requires i < |block| ==> block[i] == SYNC_BYTE
    ensures SyncPosition(block) == i
  {
  }

  lemma SplitConcatenation(a: seq<Byte>, b: seq<Byte>, c: seq<Byte>, d: seq<Byte>)
    requires a + b == c + d && |c| <= |a|
    ensures a == c + d[..|a| - |c|] && b == d[|a| - |c|..]
  {
    assert a == (a + b)[..|a|] == (c + d)[..|a|];
    assert b == (a + b)[|a|..] == (c + d)[|a|..];
  }

  /** Moves the bytes from the sync byte on to a new packet and reads what is missing. */
  method Realign(source: Source, garbage: array<Byte>, sync: nat) returns (packet: array?<Byte>, err: bool)
    requires source.Valid() && garbage !in source.Footprint()
    requires garbage.Length == PACKET_SIZE && sync < PACKET_SIZE
    modifies source.Footprint()
    ensures err <==> |old(source.pending)| < sync
    ensures packet == null <==> err
    ensures packet != null ==> fresh(packet) && source.Valid()
    ensures packet != null ==> packet[..] == garbage[sync..] + old(source.pending)[..sync]
    ensures packet != null ==> source.pending == old(source.pending)[sync..]
  {
    packet := new Byte[PACKET_SIZE];
    var kept := packet.Length - sync;
    forall i | 0 <= i < kept {
      packet[i] := garbage[sync + i];
    }
    assert packet[..kept] == garbage[sync..];
    err := Fill(source, packet, kept);
    if err {
      packet := null;
    } else {
      SplitConcatenation(packet[..], source.pending, garbage[sync..], old(source.pending));
    }
  }

  lemma BlocksFromNext(pending: seq<Byte>, queued: seq<Packet>, all: seq<Packet>)
    requires queued + Blocks(pending) == all
    ensures match ReadBlock(pending)
            case (OutOfData, _) => queued == all
            case (NoSync, rest) => queued + Blocks(rest) == all
            case (Assembled(next), rest) => queued + [next] + Blocks(rest) == all
  {
    match ReadBlock(pending)
    case (OutOfData, _) =>
    case (NoSync, _) =>
    case (Assembled(next), rest) => assert queued + ([next] + Blocks(rest)) == queued + [next] + Blocks(rest);
  }

  /** A block that is read takes at least a packet's length off the stream. */
  lemma BlockTakesBytes(s: seq<Byte>)
    ensures var (outcome, rest) := ReadBlock(s); !outcome.OutOfData? ==> |rest| + PACKET_SIZE <= |s|
  {
  }

  lemma {:induction false} EndedStays(p: Search, n: nat)
    requires p.ended
    ensures Rounds(p, n) == p
    decreases n
  {
    if n > 0 {
      EndedStays(p, n - 1);
    }
  }

  /**
   The pull loop: reads packets until the source fails and puts each into the queue. The queue is
   created, and the stream started, when the first packet arrives; it is closed at the end. `rounds`
   tells how long the loop is watched. Returns what was put into the queue by then, whether it was
   created, the received-packets count, and whether the loop has ended.
   */
  method Pull(source: Source, rounds: nat) returns (queued: seq<Packet>, started: bool, received: nat, ended: bool)
    requires source.Valid()
    modifies source.Footprint()
    ensures queued == Rounds(NewSearch(old(source.pending)), rounds).packets
    ensures ended == Rounds(NewSearch(old(source.pending)), rounds).ended
    ensures queued <= Scan(old(source.pending))
    ensures ended ==> queued == Scan(old(source.pending))
    ensures !ended ==> source.Valid() && queued + Scan(source.pending) == Scan(old(source.pending))
    ensures rounds * PACKET_SIZE > |old(source.pending)| ==> ended
    ensures started <==> queued != []
    ensures received == |queued|
  {
    queued, started, received := [], false, 0;
    var running := true;
    var round := 0;
    ghost var all := Blocks(source.pending);
    ghost var search := NewSearch(source.pending);
    while running && round < rounds
      invariant running ==> source.Valid() && queued + Blocks(source.pending) == all
      invariant running ==> |source.pending| + round * PACKET_SIZE <= |old(source.pending)|
      invariant !running ==> queued == all
      invariant round <= rounds && Rounds(search, rounds - round) == Rounds(NewSearch(old(source.pending)), rounds)
      invariant search.packets == queued && search.ended == !running && (running ==> search.rest == source.pending)
      invariant started <==> queued != []
      invariant received == |queued|
      decreases rounds - round, running
    {
      ghost var pending := source.pending;
      var packet, err := ReadMpegTsPacket(source);
      BlocksFromNext(pending, queued, all);
      BlockTakesBytes(pending);
      if err {
        running := false;
      } else if packet != null {
        started := true;
        received := received + 1;
        queued := queued + [packet[..]];
      }
      round, search := round + 1, Round(search);
    }
    ended := !running;
    if ended {
      EndedStays(search, rounds - round);
    }
    BlocksRefineScan(old(source.pending));
    if running {
      BlocksRefineScan(source.pending);
    }
  }

  /** The same from the network on, in both ways that a client reads: watched long enough, the loop ends. */
  method PullFeed(feed: Feed, rounds: nat) returns (queued: seq<Packet>, ended: bool)
    ensures queued == Rounds(NewSearch(feed.Delivered()), rounds).packets
    ensures ended == Rounds(NewSearch(feed.Delivered()), rounds).ended
    ensures queued <= Scan(feed.Delivered())
    ensures ended ==> queued == Scan(feed.Delivered())
    ensures rounds * PACKET_SIZE > |feed.Delivered()| ==> ended
  {
    var source: Source;
    if feed.Stream? {
      var connection := new Upstream(feed.arrivals, true);
      source := new Source.Direct(connection);
    } else {
      var socket := new Upstream(feed.arrivals, false);
      var reader := new FixedReader(socket, feed.size);
      source := new Source.Buffered(reader);
    }
    assert source.pending == feed.Delivered();
    var started, received;
    queued, started, received, ended := Pull(source, rounds);
  }
}
