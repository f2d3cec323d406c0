/**
 The counters of one stream as a value (metrics/stats.go). Each counter is 64 bits wide and wraps
 around, so that tallies form a commutative group under `Plus`. The connection count and the
 streaming time are signed in the source; here they are kept in two's complement (`Words.Signed`).
 */
module Tallies {

  import opened Words

  type Tally = t: seq<Word64> | |t| == 5 witness [0, 0, 0, 0, 0]

  const CONNECTIONS: nat := 0
  const RECEIVED: nat := 1
  const SENT: nat := 2
  const DROPPED: nat := 3
  const DURATION: nat := 4

  const ZERO: Tally := [0, 0, 0, 0, 0]

  function Plus(a: Tally, b: Tally): Tally
  {
    seq(5, i requires 0 <= i < 5 => WrapUnsigned(a[i] as int + b[i]))
  }

  /** What leads from `b` to `a`. */
  function Minus(a: Tally, b: Tally): Tally
  {
    seq(5, i requires 0 <= i < 5 => WrapUnsigned(a[i] as int - b[i]))
  }

  lemma PlusIsAssociative(a: Tally, b: Tally, c: Tally)
    ensures Plus(Plus(a, b), c) == Plus(a, Plus(b, c))
  {
    forall i | 0 <= i < 5
      ensures Plus(Plus(a, b), c)[i] == Plus(a, Plus(b, c))[i]
    {
      WrapIsAssociative(a[i], b[i], c[i]);
    }
  }

  lemma PlusIsCommutative(a: Tally, b: Tally)
    ensures Plus(a, b) == Plus(b, a)
    ensures Plus(a, ZERO) == a
  {
  }

  /** A difference is the one tally that leads from the first snapshot to the second. */
  lemma MinusUndoesPlus(a: Tally, b: Tally, d: Tally)
    ensures Plus(a, d) == b <==> d == Minus(b, a)
  {
    forall i | 0 <= i < 5
      ensures Plus(a, d)[i] == b[i] <==> d[i] == Minus(b, a)[i]
    {
      WrapUndo(a[i], b[i], d[i]);
    }
  }

  // ---------- Bytes ----------

  /** Bytes received, sent and dropped. */
  type Volume = v: seq<Word64> | |v| == 3 witness [0, 0, 0]

  function Octets(packets: Word64): Word64
  {
    WrapUnsigned(packets * 188)
  }

  /** The bytes in the packets of a tally. */
  function VolumeOf(t: Tally): Volume
  {
    seq(3, i requires 0 <= i < 3 => Octets(t[i + 1]))
  }

  function PlusVolume(a: Volume, b: Volume): Volume
  {
    seq(3, i requires 0 <= i < 3 => WrapUnsigned(a[i] as int + b[i]))
  }

  lemma OctetsAddUp(a: Word64, b: Word64)
    ensures WrapUnsigned(Octets(a) + Octets(b)) == Octets(WrapUnsigned(a + b))
  {
    var carry := (a + b) / 0x1_0000_0000_0000_0000;
    WrapSkips((a + b) * 188, carry * 188);
    WrapAdds(a * 188, b * 188);
  }

  /** The volume of a sum is the sum of the volumes, even where the counters wrap around. */
  lemma VolumesAddUp(a: Tally, b: Tally)
    ensures PlusVolume(VolumeOf(a), VolumeOf(b)) == VolumeOf(Plus(a, b))
  {
    forall i | 0 <= i < 3
      ensures PlusVolume(VolumeOf(a), VolumeOf(b))[i] == VolumeOf(Plus(a, b))[i]
    {
      OctetsAddUp(a[i + 1], b[i + 1]);
    }
  }

  // ---------- Sums over the streams ----------

  /** The sum of all tallies in `m`. The order in which they are picked does not matter: see `SumWithout`. */
  ghost function Sum(m: map<string, Tally>): Tally
    decreases |m|
  {
    if m == map[] then ZERO
    else
      var name :| name in m;
      Plus(m[name], Sum(m - {name}))
  }

  lemma {:induction false} SumWithout(m: map<string, Tally>, name: string)
    requires name in m
    ensures Sum(m) == Plus(m[name], Sum(m - {name}))
    decreases |m|
  {
    var first :| first in m && Sum(m) == Plus(m[first], Sum(m - {first}));
    if first != name {
      SumWithout(m - {first}, name);
      SumWithout(m - {name}, first);
      assert m - {first} - {name} == m - {name} - {first};
      var rest := Sum(m - {first} - {name});
      PlusIsAssociative(m[first], m[name], rest);
      PlusIsAssociative(m[name], m[first], rest);
      PlusIsCommutative(m[first], m[name]);
    }
  }

  /** The tally of one more stream is added to the sum. */
  lemma SumWith(m: map<string, Tally>, name: string, t: Tally)
    requires name !in m
    ensures Sum(m[name := t]) == Plus(Sum(m), t)
  {
    SumWithout(m[name := t], name);
    assert m[name := t] - {name} == m;
    PlusIsCommutative(Sum(m), t);
  }
}
