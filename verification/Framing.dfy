/**
 MPEG transport stream framing, as a function of the bytes received
 (ISO/IEC 13818-1, sections 2.4.3.2 and 2.4.3.3: a packet is 188 bytes long and starts with 0x47).

 Three descriptions of the same framing are given and proved equal:
 a scanner that looks at one byte at a time, the sequence of blocks that `ReadMpegTsPacket` reads,
 and a declarative condition on the positions of the packets in the stream.
 */
module Framing {

  import opened Bytes

  type Packet = seq<Byte>

  const PACKET_SIZE: nat := 188
  const SYNC_BYTE: Byte := 0x47

  // ---------- The one-byte-at-a-time scanner ----------

  /** Drop bytes until the sync byte, take a whole packet, repeat. */
  function Scan(s: seq<Byte>): seq<Packet>
  {
    if s == [] then []
    else if s[0] != SYNC_BYTE then Scan(s[1..])
    else if |s| < PACKET_SIZE then []
    else [s[..PACKET_SIZE]] + Scan(s[PACKET_SIZE..])
  }

  // ---------- The block-wise reader ----------

  datatype Outcome = Assembled(packet: Packet) | NoSync | OutOfData

  /** Position of the first sync byte, or the length of the block when it has none. */
  function SyncPosition(block: seq<Byte>): (i: nat)
    ensures i <= |block|
    ensures forall j :: 0 <= j < i ==> block[j] != SYNC_BYTE
    ensures i < |block| ==> block[i] == SYNC_BYTE
  {
    if block == [] || block[0] == SYNC_BYTE then 0 else 1 + SyncPosition(block[1..])
  }

  /** What one call of `ReadMpegTsPacket` makes of the pending bytes, and the bytes it leaves. */
  function ReadBlock(s: seq<Byte>): (r: (Outcome, seq<Byte>))
    ensures !r.0.OutOfData? ==> |r.1| < |s|
  {
    if |s| < PACKET_SIZE then (OutOfData, [])
    else
      var sync := SyncPosition(s[..PACKET_SIZE]);
      if sync == PACKET_SIZE then (NoSync, s[PACKET_SIZE..])
      else if |s| < sync + PACKET_SIZE then (OutOfData, [])
      else (Assembled(s[sync..sync + PACKET_SIZE]), s[sync + PACKET_SIZE..])
  }

  /** The same, in terms of the first block read and the bytes that follow it. */
  lemma ReadBlockOf(block: seq<Byte>, rest: seq<Byte>)
    requires |block| == PACKET_SIZE
    ensures var sync := SyncPosition(block);
            ReadBlock(block + rest) ==
              if sync == PACKET_SIZE then (NoSync, rest)
              else if |rest| < sync then (OutOfData, [])
              else (Assembled(block[sync..] + rest[..sync]), rest[sync..])
  {
    var sync, s := SyncPosition(block), block + rest;
    assert s[..PACKET_SIZE] == block && s[PACKET_SIZE..] == rest;
    if sync < PACKET_SIZE && sync <= |rest| {
      assert s[sync..sync + PACKET_SIZE] == block[sync..] + rest[..sync];
      assert s[sync + PACKET_SIZE..] == rest[sync..];
    }
  }

  /** The packets of repeated calls, up to the first error. */
  function Blocks(s: seq<Byte>): seq<Packet>
    decreases |s|
  {
    match ReadBlock(s)
    case (OutOfData, _) => []
    case (NoSync, rest) => Blocks(rest)
    case (Assembled(packet), rest) => [packet] + Blocks(rest)
  }

  lemma {:induction false} ScanSkipsGarbage(s: seq<Byte>, n: nat)
    requires n <= |s|
    requires forall j :: 0 <= j < n ==> s[j] != SYNC_BYTE
    ensures Scan(s) == Scan(s[n..])
  {
    if n == 0 {
      assert s[0..] == s;
    } else {
      ScanSkipsGarbage(s[1..], n - 1);
      assert s[1..][n - 1..] == s[n..];
    }
  }

  lemma {:induction false} ScanOfShortStream(s: seq<Byte>)
    requires |s| < PACKET_SIZE
    ensures Scan(s) == []
  {
    if s != [] && s[0] != SYNC_BYTE {
      ScanOfShortStream(s[1..]);
    }
  }

  /** The block-wise reader produces exactly the packets of the byte scanner, also at the end of the stream. */
  lemma {:induction false} BlocksRefineScan(s: seq<Byte>)
    ensures Blocks(s) == Scan(s)
    decreases |s|
  {
    if |s| < PACKET_SIZE {
      ScanOfShortStream(s);
    } else {
      var sync := SyncPosition(s[..PACKET_SIZE]);
      ScanSkipsGarbage(s, sync);
      if sync == PACKET_SIZE {
        BlocksRefineScan(s[PACKET_SIZE..]);
      } else if |s| < sync + PACKET_SIZE {
        ScanOfShortStream(s[sync..]);
      } else {
        assert s[sync..][..PACKET_SIZE] == s[sync..sync + PACKET_SIZE];
        assert s[sync..][PACKET_SIZE..] == s[sync + PACKET_SIZE..];
        BlocksRefineScan(s[sync + PACKET_SIZE..]);
      }
    }
  }

  // ---------- Where the packets lie in the stream ----------

  ghost predicate Inside(p: int, ws: seq<nat>)
  {
    exists i :: 0 <= i < |ws| && ws[i] <= p < ws[i] + PACKET_SIZE
  }

  lemma InsideFirstOrRest(p: int, ws: seq<nat>)
    requires ws != []
    ensures Inside(p, ws) <==> ws[0] <= p < ws[0] + PACKET_SIZE || Inside(p, ws[1..])
  {
    if i :| 0 < i < |ws| && ws[i] <= p < ws[i] + PACKET_SIZE {
      assert ws[1..][i - 1] == ws[i];
    }
    if i :| 0 <= i < |ws[1..]| && ws[1..][i] <= p < ws[1..][i] + PACKET_SIZE {
      assert ws[i + 1] == ws[1..][i];
    }
  }

  /** The windows are whole packets, start with the sync byte, and follow one another without overlap. */
  ghost predicate Windows(s: seq<Byte>, from: nat, ws: seq<nat>)
  {
    && (forall i :: 0 <= i < |ws| ==> from <= ws[i] && ws[i] + PACKET_SIZE <= |s| && s[ws[i]] == SYNC_BYTE)
    && (forall i, j :: 0 <= i < j < |ws| ==> ws[i] + PACKET_SIZE <= ws[j])
  }

  /** Windows that miss nothing: a sync byte left outside has no whole packet after it. */
  ghost predicate IsFraming(s: seq<Byte>, from: nat, ws: seq<nat>)
  {
    && Windows(s, from, ws)
    && (forall p :: from <= p < |s| && s[p] == SYNC_BYTE && !Inside(p, ws) ==> p + PACKET_SIZE > |s|)
  }

  function Cut(s: seq<Byte>, ws: seq<nat>): (ps: seq<Packet>)
    requires forall i :: 0 <= i < |ws| ==> ws[i] + PACKET_SIZE <= |s|
  {
    seq(|ws|, i requires 0 <= i < |ws| => s[ws[i]..ws[i] + PACKET_SIZE])
  }

  /** Packet positions found by the scanner when it starts at `from`. */
  function Positions(s: seq<Byte>, from: nat): (ws: seq<nat>)
    ensures forall i :: 0 <= i < |ws| ==> ws[i] + PACKET_SIZE <= |s|
    decreases |s| - from
  {
    if from >= |s| then []
    else if s[from] != SYNC_BYTE then Positions(s, from + 1)
    else if from + PACKET_SIZE > |s| then []
    else [from] + Positions(s, from + PACKET_SIZE)
  }

  lemma CutFirst(s: seq<Byte>, w: nat, ws: seq<nat>)
    requires w + PACKET_SIZE <= |s| && forall i :: 0 <= i < |ws| ==> ws[i] + PACKET_SIZE <= |s|
    ensures Cut(s, [w] + ws) == [s[w..w + PACKET_SIZE]] + Cut(s, ws)
  {
  }

  lemma {:induction false} ScanCutsAtPositions(s: seq<Byte>, from: nat)
    requires from <= |s|
    ensures Scan(s[from..]) == Cut(s, Positions(s, from))
    decreases |s| - from
  {
    if from < |s| {
      if s[from] != SYNC_BYTE {
        assert s[from..][1..] == s[from + 1..];
        ScanCutsAtPositions(s, from + 1);
      } else if from + PACKET_SIZE <= |s| {
        assert s[from..][..PACKET_SIZE] == s[from..from + PACKET_SIZE];
        assert s[from..][PACKET_SIZE..] == s[from + PACKET_SIZE..];
        ScanCutsAtPositions(s, from + PACKET_SIZE);
        CutFirst(s, from, Positions(s, from + PACKET_SIZE));
      }
    }
  }

  lemma {:induction false} PositionsAreFraming(s: seq<Byte>, from: nat)
    ensures IsFraming(s, from, Positions(s, from))
    decreases |s| - from
  {
    var ws := Positions(s, from);
    if from < |s| {
      if s[from] != SYNC_BYTE {
        PositionsAreFraming(s, from + 1);
      } else if from + PACKET_SIZE <= |s| {
        var rest := Positions(s, from + PACKET_SIZE);
        PositionsAreFraming(s, from + PACKET_SIZE);
        assert ws[1..] == rest;
        forall p | from <= p < |s| && s[p] == SYNC_BYTE && !Inside(p, ws)
          ensures p + PACKET_SIZE > |s|
        {
          InsideFirstOrRest(p, ws);
        }
      }
    }
  }

  lemma FirstWindow(s: seq<Byte>, from: nat, ws: seq<nat>)
    requires IsFraming(s, from, ws)
    requires from + PACKET_SIZE <= |s| && s[from] == SYNC_BYTE
    ensures ws != [] && ws[0] == from && IsFraming(s, from + PACKET_SIZE, ws[1..])
  {
    assert Inside(from, ws);
    forall p | from + PACKET_SIZE <= p < |s| && s[p] == SYNC_BYTE && !Inside(p, ws[1..])
      ensures p + PACKET_SIZE > |s|
    {
      InsideFirstOrRest(p, ws);
    }
  }

  lemma {:induction false} FramingIsUnique(s: seq<Byte>, from: nat, ws: seq<nat>)
    requires IsFraming(s, from, ws)
    ensures ws == Positions(s, from)
    decreases |s| - from
  {
    assert ws != [] ==> from <= ws[0] && ws[0] + PACKET_SIZE <= |s|;
    if from >= |s| {
      // no window fits
    } else if s[from] != SYNC_BYTE {
      FramingIsUnique(s, from + 1, ws);
    } else if from + PACKET_SIZE > |s| {
      // no window fits
    } else {
      FirstWindow(s, from, ws);
      FramingIsUnique(s, from + PACKET_SIZE, ws[1..]);
    }
  }

  /** The framing condition determines the packets: it has exactly one solution, the scanner's. */
  lemma FramingTheorem(s: seq<Byte>, ws: seq<nat>)
    ensures IsFraming(s, 0, ws) <==> ws == Positions(s, 0)
    ensures IsFraming(s, 0, ws) ==> Blocks(s) == Cut(s, ws)
  {
    PositionsAreFraming(s, 0);
    ScanCutsAtPositions(s, 0);
    BlocksRefineScan(s);
    assert s[0..] == s;
    if IsFraming(s, 0, ws) {
      FramingIsUnique(s, 0, ws);
    }
  }

  /** Appending bytes never takes back a packet: the framing of a prefix is a prefix of the framing. */
  lemma {:induction false} ScanIsMonotone(s: seq<Byte>, more: seq<Byte>)
    ensures Scan(s) <= Scan(s + more)
    decreases |s|
  {
    if s != [] {
      if s[0] != SYNC_BYTE {
        assert (s + more)[1..] == s[1..] + more;
        ScanIsMonotone(s[1..], more);
      } else if |s| >= PACKET_SIZE {
        assert (s + more)[..PACKET_SIZE] == s[..PACKET_SIZE];
        assert (s + more)[PACKET_SIZE..] == s[PACKET_SIZE..] + more;
        ScanIsMonotone(s[PACKET_SIZE..], more);
      }
    }
  }

  /** One packet: 188 bytes of which the first is 0x47. */
  lemma OnePacket(payload: seq<Byte>, first: Byte)
    requires |payload| == 187
    requires forall i :: 0 <= i < 187 ==> payload[i] != 0x47
    ensures Scan([first] + payload) == if first == 0x47 then [[first] + payload] else []
    ensures Scan(([first] + payload)[..187]) == []
  {
    var s := [first] + payload;
    assert |s| == 188 && s[188..] == [] && s[..188] == s && Scan([]) == [];
    if first == 0x47 {
      assert Scan(s) == [s[..188]] + Scan(s[188..]);
    } else {
      assert forall j :: 0 < j < 188 ==> s[j] == payload[j - 1];
      ScanSkipsGarbage(s, 188);
    }
    ScanOfShortStream(s[..187]);
  }

  // ---------- Pulling packets in rounds ----------

  /** The packets found so far, the bytes still to come, and whether the end was reached. */
  datatype Search = Search(packets: seq<Packet>, rest: seq<Byte>, ended: bool)

  function NewSearch(s: seq<Byte>): Search
  {
    Search([], s, false)
  }

  /** One call of the block reader. */
  function Round(p: Search): Search
  {
    if p.ended then p
    else
      match ReadBlock(p.rest)
      case (OutOfData, _) => p.(ended := true)
      case (NoSync, rest) => p.(rest := rest)
      case (Assembled(packet), rest) => Search(p.packets + [packet], rest, false)
  }

  function Rounds(p: Search, n: nat): Search
    decreases n
  {
    if n == 0 then p else Rounds(Round(p), n - 1)
  }

  /** What was found and what is still to be found. */
  function Prospect(p: Search): seq<Packet>
  {
    if p.ended then p.packets else p.packets + Blocks(p.rest)
  }

  lemma RoundKeepsProspect(p: Search)
    ensures Prospect(Round(p)) == Prospect(p)
  {
    if !p.ended {
      match ReadBlock(p.rest)
      case (OutOfData, _) =>
      case (NoSync, _) =>
      case (Assembled(packet), rest) =>
        assert p.packets + ([packet] + Blocks(rest)) == p.packets + [packet] + Blocks(rest);
    }
  }

  lemma {:induction false} RoundsKeepProspect(p: Search, n: nat)
    ensures Prospect(Rounds(p, n)) == Prospect(p)
    decreases n
  {
    if n > 0 {
      RoundKeepsProspect(p);
      RoundsKeepProspect(Round(p), n - 1);
    }
  }

  /** Any number of the packets is found after some number of rounds. */
  lemma {:induction false} PacketsAreFound(p: Search, i: nat) returns (n: nat)
    requires !p.ended && i <= |Blocks(p.rest)|
    ensures var q := Rounds(p, n); !q.ended && q.packets == p.packets + Blocks(p.rest)[..i]
    decreases |p.rest|
  {
    if i == 0 {
      n := 0;
    } else {
      var m := PacketsAreFound(Round(p), if ReadBlock(p.rest).0.Assembled? then i - 1 else i);
      n := m + 1;
    }
  }

  /** After some number of rounds the end is reached, with all packets found. */
  lemma {:induction false} EndIsFound(p: Search) returns (n: nat)
    requires !p.ended
    ensures var q := Rounds(p, n); q.ended && q.packets == p.packets + Blocks(p.rest)
    decreases |p.rest|
  {
    if ReadBlock(p.rest).0.OutOfData? {
      n := 1;
      assert Rounds(p, 1) == Rounds(Round(p), 0);
    } else {
      var m := EndIsFound(Round(p));
      n := m + 1;
    }
    RoundsKeepProspect(p, n);
  }
}
