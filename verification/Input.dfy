/**
 The byte sources a stream is pulled from: a raw upstream connection that hands out data in
 arbitrary pieces, and the `FixedReader` that turns datagrams into a byte stream
 (protocol/reader.go).

 What the network will do is a script, the sequence of arrivals. Nothing is assumed about it:
 pieces may be of any size, also empty, and the connection may fail at any point, with or without
 data. Statements about all scripts are statements about every way to split the upstream bytes.
 */
module Input {
  import opened Bytes

  /** One answer of the network: data, or an error that may come with data. */
  datatype Arrival = Data(bytes: seq<Byte>) | Broken(bytes: seq<Byte>)

  function Min(a: nat, b: nat): nat { if a < b then a else b }

  /** The bytes that arrive before the first error. */
  function Unbroken(arrivals: seq<Arrival>): seq<Byte>
  {
    if arrivals == [] || arrivals[0].Broken? then []
    else arrivals[0].bytes + Unbroken(arrivals[1..])
  }

  /** The contents of the datagrams that arrive before the first error or empty datagram, each cut to `size`. */
  function Datagrams(arrivals: seq<Arrival>, size: nat): seq<Byte>
  {
    if arrivals == [] || arrivals[0].Broken? || Min(|arrivals[0].bytes|, size) == 0 then []
    else arrivals[0].bytes[..Min(|arrivals[0].bytes|, size)] + Datagrams(arrivals[1..], size)
  }

  /** Datagrams that are not empty and fit are read in full: framing sees the flat concatenation. */
  lemma {:induction false} DatagramsAreFlat(arrivals: seq<Arrival>, size: nat)
    requires forall a :: a in arrivals && a.Data? ==> 0 < |a.bytes| <= size
    ensures Datagrams(arrivals, size) == Unbroken(arrivals)
  {
    if arrivals != [] && arrivals[0].Data? {
      assert arrivals[0] in arrivals;
      assert arrivals[0].bytes[..|arrivals[0].bytes|] == arrivals[0].bytes;
      DatagramsAreFlat(arrivals[1..], size);
    }
  }

  /** Everything the datagrams hold that arrive before the first error, each cut to `size`. */
  function Received(arrivals: seq<Arrival>, size: nat): seq<Byte>
  {
    if arrivals == [] || arrivals[0].Broken? then []
    else arrivals[0].bytes[..Min(|arrivals[0].bytes|, size)] + Received(arrivals[1..], size)
  }

  /** How many arrivals come before the first error. */
  function Lifetime(arrivals: seq<Arrival>): (n: nat)
    ensures n <= |arrivals|
  {
    if arrivals == [] || arrivals[0].Broken? then 0 else 1 + Lifetime(arrivals[1..])
  }

  predicate Empty(arrival: Arrival, size: nat) { Min(|arrival.bytes|, size) == 0 }

  /** No data follows a datagram that is empty after the cut, up to the first error. */
  ghost predicate NothingAfterEmpty(arrivals: seq<Arrival>, size: nat)
  {
    forall i, j :: 0 <= i < j < Lifetime(arrivals) && Empty(arrivals[i], size) ==> Empty(arrivals[j], size)
  }

  lemma {:induction false} NothingReceived(arrivals: seq<Arrival>, size: nat)
    ensures Received(arrivals, size) == [] <==> forall j :: 0 <= j < Lifetime(arrivals) ==> Empty(arrivals[j], size)
  {
    if Lifetime(arrivals) > 0 {
      var rest := arrivals[1..];
      NothingReceived(rest, size);
      assert forall j :: 0 < j < Lifetime(arrivals) ==> arrivals[j] == rest[j - 1];
      assert forall j :: 0 <= j < Lifetime(rest) ==> rest[j] == arrivals[j + 1];
    }
  }

  /**
   An empty datagram ends the stream, although the socket goes on: the reader delivers everything
   received exactly when no data follows an empty datagram.
   */
  lemma {:induction false} EmptyDatagramEndsStream(arrivals: seq<Arrival>, size: nat)
    ensures Datagrams(arrivals, size) <= Received(arrivals, size)
    ensures Datagrams(arrivals, size) == Received(arrivals, size) <==> NothingAfterEmpty(arrivals, size)
  {
    if Lifetime(arrivals) > 0 {
      var rest := arrivals[1..];
      EmptyDatagramEndsStream(rest, size);
      NothingReceived(rest, size);
      assert forall j :: 0 < j < Lifetime(arrivals) ==> arrivals[j] == rest[j - 1];
      assert forall j :: 0 <= j < Lifetime(rest) ==> rest[j] == arrivals[j + 1];
    }
  }

  /** The reader misses the data behind an empty datagram. */
  lemma EmptyDatagramLosesData()
    ensures Datagrams([Data([]), Data([1])], 1) == [] && Received([Data([]), Data([1])], 1) == [1]
  {
    assert [Data([]), Data([1])][1..] == [Data([1])] && [Data([1])][1..] == [];
    assert Received([Data([1])], 1) == [1] + Received([], 1);
  }

  /** What a client is connected to: a byte stream, or a datagram socket behind a reader of the given size. */
  datatype Feed = Stream(arrivals: seq<Arrival>) | Socket(arrivals: seq<Arrival>, size: nat)
  {
    /** The bytes its reader delivers. */
    function Delivered(): seq<Byte>
    {
      if Stream? then Unbroken(arrivals) else Datagrams(arrivals, size)
    }

    /** The bytes the network hands out before the first error. */
    function Contents(): seq<Byte>
    {
      if Stream? then Unbroken(arrivals) else Received(arrivals, size)
    }
  }

  lemma DeliveredIsPrefix(feed: Feed)
    ensures feed.Delivered() <= feed.Contents()
  {
    EmptyDatagramEndsStream(feed.arrivals, if feed.Stream? then 0 else feed.size);
  }

  /** After the first n bytes of the first arrival were read, the others are still to come. */
  lemma UnbrokenAfterRead(arrivals: seq<Arrival>, rest: seq<Arrival>, n: nat)
    requires arrivals != [] && arrivals[0].Data? && n <= |arrivals[0].bytes|
    requires rest == if n < |arrivals[0].bytes| then [Data(arrivals[0].bytes[n..])] + arrivals[1..] else arrivals[1..]
    ensures arrivals[0].bytes[..n] + Unbroken(rest) == Unbroken(arrivals)
  {
    var bytes := arrivals[0].bytes;
    assert bytes == bytes[..n] + bytes[n..];
    if n < |bytes| {
      assert rest[0] == Data(bytes[n..]) && rest[1..] == arrivals[1..];
      assert bytes[..n] + (bytes[n..] + Unbroken(arrivals[1..])) == bytes + Unbroken(arrivals[1..]);
    }
  }

  /**
   A connection. `keepsRest` distinguishes byte streams, where data that did not fit into the
   caller's buffer is delivered by the next read, from datagram sockets, where it is lost.
   */
  class Upstream {
    const keepsRest: bool
    var arrivals: seq<Arrival>
    ghost var handedOut: seq<Byte>

    constructor (arrivals: seq<Arrival>, keepsRest: bool)
      ensures this.arrivals == arrivals && this.keepsRest == keepsRest && handedOut == []
    {
      this.arrivals := arrivals;
      this.keepsRest := keepsRest;
      handedOut := [];
    }

    /** Reads into `p` from index `from` on; the script's end is the end of the stream. */
    method Read(p: array<Byte>, from: nat) returns (n: nat, err: bool)
      requires from <= p.Length
      modifies this, p
      ensures n <= p.Length - from
      ensures forall i :: 0 <= i < p.Length && !(from <= i < from + n) ==> p[i] == old(p[i])
      ensures handedOut == old(handedOut) + p[from..from + n]
      ensures err <==> old(arrivals) == [] || old(arrivals[0]).Broken?
      ensures old(arrivals) == [] ==> n == 0
      ensures old(arrivals) != [] ==>
                var bytes := old(arrivals[0].bytes);
                n == Min(|bytes|, p.Length - from) && p[from..from + n] == bytes[..n]
      ensures arrivals == if old(arrivals) == [] then []
                          else if keepsRest && !err && n < |old(arrivals[0].bytes)|
                          then [Data(old(arrivals[0].bytes[n..]))] + old(arrivals[1..])
                          else old(arrivals[1..])
    {
      if arrivals == [] {
        return 0, true;
      }
      var bytes := arrivals[0].bytes;
      err := arrivals[0].Broken?;
      n := Min(|bytes|, p.Length - from);
      forall i | 0 <= i < n {
        p[from + i] := bytes[i];
      }
      var rest := arrivals[1..];
      arrivals := if keepsRest && !err && n < |bytes| then [Data(bytes[n..])] + rest else rest;
      handedOut := handedOut + p[from..from + n];
    }
  }

  /** A buffered reader that always asks the connection for the same amount of data. */
  class FixedReader {
    const reader: Upstream
    const packetSize: nat
    var buffer: seq<Byte>
    ghost var delivered: seq<Byte>

    /** Conservation: every byte received was delivered or is still buffered, once and in order. */
    ghost predicate Valid()
      reads this, reader
    {
      delivered + buffer == reader.handedOut
    }

    constructor (reader: Upstream, packetSize: nat)
      requires reader.handedOut == []
      ensures Valid() && this.reader == reader && this.packetSize == packetSize
      ensures buffer == [] && delivered == []
    {
      this.reader := reader;
      this.packetSize := packetSize;
      buffer := [];
      delivered := [];
    }

    /** Asks the connection once, for `packetSize` bytes, and buffers what it received. */
    method Refill() returns (err: bool)
      requires Valid() && buffer == []
      modifies this, reader
      ensures Valid() && delivered == old(delivered)
      ensures err <==> old(reader.arrivals) == [] || old(reader.arrivals[0]).Broken?
      ensures old(reader.arrivals) == [] ==> buffer == []
      ensures old(reader.arrivals) != [] ==>
                buffer == old(reader.arrivals[0].bytes)[..Min(|old(reader.arrivals[0].bytes)|, packetSize)]
      ensures old(reader.arrivals) != [] && !reader.keepsRest ==> reader.arrivals == old(reader.arrivals[1..])
    {
      var chunk := new Byte[packetSize];
      var m;
      m, err := reader.Read(chunk, 0);
      buffer := chunk[..m];
    }

    /** Reads what is buffered, after a refill when nothing is. */
    method Read(p: array<Byte>, from: nat) returns (n: nat, err: bool)
      requires Valid() && from <= p.Length
      modifies this, reader, p
      ensures Valid()
      ensures n <= p.Length - from
      ensures forall i :: 0 <= i < p.Length && !(from <= i < from + n) ==> p[i] == old(p[i])
      ensures delivered == old(delivered) + p[from..from + n]
      // buffered data is delivered without asking the connection
      ensures old(buffer) != [] ==>
                && !err && reader.arrivals == old(reader.arrivals) && reader.handedOut == old(reader.handedOut)
                && n == Min(|old(buffer)|, p.Length - from)
                && p[from..from + n] + buffer == old(buffer)
      // otherwise one read is made; its error is passed on, and an empty answer counts as the end of the stream
      ensures old(buffer) == [] && (old(reader.arrivals) == [] || old(reader.arrivals[0]).Broken?) ==> err
      ensures old(buffer) == [] && old(reader.arrivals) != [] ==>
                var got := old(reader.arrivals[0].bytes)[..Min(|old(reader.arrivals[0].bytes)|, packetSize)];
                && (old(reader.arrivals[0]).Data? ==> (err <==> got == [] && from < p.Length))
                && n == Min(|got|, p.Length - from)
                && p[from..from + n] + buffer == got
      ensures old(buffer) == [] && old(reader.arrivals) != [] && !reader.keepsRest ==>
                reader.arrivals == old(reader.arrivals[1..])
    {
      err := false;
      if buffer == [] {
        err := Refill();
      }
      ghost var filled := buffer;
      if !err && buffer == [] && from < p.Length {
        n, err := 0, true;
      } else {
        n := Min(|buffer|, p.Length - from);
        forall i | 0 <= i < n {
          p[from + i] := buffer[i];
        }
      }
      assert p[from..from + n] == filled[..n];
      delivered := delivered + buffer[..n];
      buffer := buffer[n..];
    }
  }

  /** What a client reads from: a byte stream directly, or a datagram socket through a fixed reader. */
  class Source {
    const connection: Upstream
    const fixed: FixedReader?
    /** The bytes a reader will get before its first error. */
    ghost var pending: seq<Byte>
    /** Decreases with every read that does not fail. */
    ghost var work: nat

    ghost function Footprint(): set<object>
    {
      {this, connection} + if fixed == null then {} else {fixed}
    }

    ghost predicate Valid()
      reads Footprint()
    {
      && work == |pending| + |connection.arrivals|
      && (fixed == null ==>
            && connection.keepsRest
            && pending == Unbroken(connection.arrivals))
      && (fixed != null ==>
            && !connection.keepsRest
            && fixed.reader == connection && fixed.Valid()
            && pending == fixed.buffer + Datagrams(connection.arrivals, fixed.packetSize))
    }

    constructor Direct(connection: Upstream)
      requires connection.keepsRest
      ensures Valid() && Footprint() == {this, connection}
      ensures pending == Unbroken(connection.arrivals)
    {
      this.connection, fixed := connection, null;
      pending := Unbroken(connection.arrivals);
      work := |Unbroken(connection.arrivals)| + |connection.arrivals|;
    }

    constructor Buffered(reader: FixedReader)
      requires reader.Valid() && !reader.reader.keepsRest
      ensures Valid() && Footprint() == {this, reader, reader.reader}
      ensures pending == reader.buffer + Datagrams(reader.reader.arrivals, reader.packetSize)
    {
      connection, fixed := reader.reader, reader;
      pending := reader.buffer + Datagrams(reader.reader.arrivals, reader.packetSize);
      work := |reader.buffer + Datagrams(reader.reader.arrivals, reader.packetSize)| + |reader.reader.arrivals|;
    }

    method ReadDirect(p: array<Byte>, from: nat) returns (n: nat, err: bool)
      requires Valid() && from < p.Length && p !in Footprint() && fixed == null
      modifies Footprint(), p
      ensures n <= p.Length - from
      ensures forall i :: 0 <= i < from ==> p[i] == old(p[i])
      ensures err ==> old(pending) == []
      ensures !err ==> Valid() && p[from..from + n] + pending == old(pending) && work < old(work)
    {
      ghost var before := connection.arrivals;
      n, err := connection.Read(p, from);
      if !err {
        UnbrokenAfterRead(before, connection.arrivals, n);
        pending := Unbroken(connection.arrivals);
        work := |pending| + |connection.arrivals|;
      }
    }

    method ReadBuffered(p: array<Byte>, from: nat) returns (n: nat, err: bool)
      requires Valid() && from < p.Length && p !in Footprint() && fixed != null
      modifies Footprint(), p
      ensures n <= p.Length - from
      ensures forall i :: 0 <= i < from ==> p[i] == old(p[i])
      ensures err ==> old(pending) == []
      ensures !err ==> Valid() && p[from..from + n] + pending == old(pending) && work < old(work)
    {
      ghost var before, buffered := connection.arrivals, fixed.buffer;
      n, err := fixed.Read(p, from);
      if !err {
        pending := fixed.buffer + Datagrams(connection.arrivals, fixed.packetSize);
        work := |pending| + |connection.arrivals|;
        if buffered == [] {
          assert Datagrams(before, fixed.packetSize)
              == p[from..from + n] + fixed.buffer + Datagrams(connection.arrivals, fixed.packetSize);
        }
      }
    }

    /**
     The contract all framing relies on: a read either fails, and then no byte was pending,
     or it delivers the next pending bytes, as many as it says.
     */
    method Read(p: array<Byte>, from: nat) returns (n: nat, err: bool)
      requires Valid() && from < p.Length && p !in Footprint()
      modifies Footprint(), p
      ensures n <= p.Length - from
      ensures p[..from + n] == old(p[..from]) + p[from..from + n]
      ensures err ==> old(pending) == []
      ensures !err ==> Valid() && p[from..from + n] + pending == old(pending) && work < old(work)
    {
      if fixed == null {
        n, err := ReadDirect(p, from);
      } else {
        n, err := ReadBuffered(p, from);
      }
    }
  }
}
