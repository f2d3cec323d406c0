/**
 The two views of a pulled stream are one: what the pull loop puts into the input queue, round by round
 (`Framing.Rounds`, which `PacketReader.Pull` carries out), and the steps `Push` and `HangUp` of the broker.
 */
module Upstream {
  import opened Bytes
  import opened Framing
  import opened Broker
  import opened Delivery
  import opened Theorems
  import Words
  import Tallies

  /** The call's input queue is where the pull loop is after some round. */
  predicate At(c: Call, p: Search)
  {
    c.pushed == p.packets && c.hungUp == p.ended
  }

  /** In every run the input queue of every call is at a round of the loop that pulls its stream. */
  lemma InputIsPulled(s: State, k: CallId) returns (n: nat)
    requires Reachable(s) && k in s.calls
    ensures At(s.calls[k], Rounds(NewSearch(s.calls[k].source), n))
  {
    var c := s.calls[k];
    assert Fed(c) by {
      assert AllFed(s.calls) by { ReachableIsHealthy(s); }
    }
    var start := NewSearch(c.source);
    BlocksRefineScan(c.source);
    if c.hungUp {
      n := EndIsFound(start);
    } else {
      n := PacketsAreFound(start, |c.pushed|);
    }
  }

  /** Each round of the loop is a step of the broker, or changes nothing that it sees. */
  lemma RoundIsAStep(c: Call, n: nat)
    requires var p := Rounds(NewSearch(c.source), n); At(c, p)
    ensures var q := Round(Rounds(NewSearch(c.source), n));
            || At(c, q)
            || (CanPull(c, Push) && At(Pulled(c, Push), q))
            || (CanPull(c, HangUp) && At(Pulled(c, HangUp), q))
  {
    var p := Rounds(NewSearch(c.source), n);
    RoundsKeepProspect(NewSearch(c.source), n);
    BlocksRefineScan(c.source);
    assert Prospect(p) == Scan(c.source);
    if !p.ended {
      match ReadBlock(p.rest)
      case (OutOfData, _) =>
        assert p.packets + [] == p.packets;
        assert At(Pulled(c, HangUp), Round(p));
      case (NoSync, _) =>
      case (Assembled(packet), rest) =>
        assert Scan(c.source) == p.packets + ([packet] + Blocks(rest));
        assert Scan(c.source)[|c.pushed|] == packet;
        assert At(Pulled(c, Push), Round(p));
    }
  }

  lemma {:induction false} RoundsAdd(p: Search, n: nat)
    ensures Rounds(p, n + 1) == Round(Rounds(p, n))
    decreases n
  {
    if n > 0 {
      RoundsAdd(Round(p), n - 1);
    }
  }

  /** The calls that `Push` and `HangUp` can make of a new one. */
  predicate CanPullAll(c: Call, moves: seq<PullMove>)
    decreases |moves|
  {
    moves == [] || (CanPull(c, moves[0]) && CanPullAll(Pulled(c, moves[0]), moves[1..]))
  }

  function PulledAll(c: Call, moves: seq<PullMove>): Call
    requires CanPullAll(c, moves)
    decreases |moves|
  {
    if moves == [] then c else PulledAll(Pulled(c, moves[0]), moves[1..])
  }

  lemma {:induction false} OneMoreMove(c: Call, moves: seq<PullMove>, m: PullMove)
    requires CanPullAll(c, moves) && CanPull(PulledAll(c, moves), m)
    ensures CanPullAll(c, moves + [m]) && PulledAll(c, moves + [m]) == Pulled(PulledAll(c, moves), m)
    decreases |moves|
  {
    if moves == [] {
      assert moves + [m] == [m] && [m][1..] == [];
    } else {
      assert (moves + [m])[0] == moves[0] && (moves + [m])[1..] == moves[1..] + [m];
      OneMoreMove(Pulled(c, moves[0]), moves[1..], m);
    }
  }

  lemma {:induction false} SameSource(c: Call, moves: seq<PullMove>)
    requires CanPullAll(c, moves)
    ensures PulledAll(c, moves).source == c.source
    decreases |moves|
  {
    if moves != [] {
      SameSource(Pulled(c, moves[0]), moves[1..]);
    }
  }

  /** Whatever the pull loop has done after some rounds, steps of the broker lead there as well. */
  lemma {:induction false} PulledByMoves(st: StreamerId, bytes: seq<Byte>, n: nat) returns (moves: seq<PullMove>)
    ensures CanPullAll(NewCall(st, bytes), moves)
    ensures At(PulledAll(NewCall(st, bytes), moves), Rounds(NewSearch(bytes), n))
  {
    moves := [];
    if n > 0 {
      moves := PulledByMoves(st, bytes, n - 1);
      var c := PulledAll(NewCall(st, bytes), moves);
      SameSource(NewCall(st, bytes), moves);
      RoundIsAStep(c, n - 1);
      RoundsAdd(NewSearch(bytes), n - 1);
      var q := Rounds(NewSearch(bytes), n);
      if !At(c, q) {
        var m := if CanPull(c, Push) && At(Pulled(c, Push), q) then Push else HangUp;
        OneMoreMove(NewCall(st, bytes), moves, m);
        moves := moves + [m];
      }
    }
  }

  // ---------- Packets in bytes ----------

  /** Whole packets: windows of the stream of their bytes. */
  predicate Whole(packets: seq<Packet>)
  {
    forall i :: 0 <= i < |packets| ==> |packets[i]| == 188
  }

  lemma {:induction false} BytesOfPackets(packets: seq<Packet>)
    requires Whole(packets)
    ensures |Concat(packets)| == |packets| * 188
  {
    if packets != [] {
      BytesOfPackets(packets[..|packets| - 1]);
    }
  }

  /** The byte counters of the statistics count the bytes of the packets that the packet counters count. */
  lemma BytesAreCounted(packets: seq<Packet>)
    requires Whole(packets)
    ensures Tallies.Octets(Words.WrapUnsigned(|packets|)) == Words.WrapUnsigned(|Concat(packets)|)
  {
    BytesOfPackets(packets);
    var turns := |packets| / 0x1_0000_0000_0000_0000;
    Words.WrapSkips(|packets| * 188, turns * 188);
  }
}
