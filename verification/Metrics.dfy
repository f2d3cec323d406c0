/**
 The statistics collector (metrics/stats.go). Streams count events in their `Collector`. A periodic
 tick turns the growth of every collector since the tick before into totals per stream and into
 global totals.
 */
module Metrics {

  import opened Words
  import opened Tallies

  /** The state of a collector, or the totals of a stream. */
  datatype Reading = Reading(counters: Tally, connected: bool)
  {
    /** What was counted since an earlier reading. */
    function Since(earlier: Reading): Reading
    {
      Reading(Minus(counters, earlier.counters), connected)
    }

    function Grown(growth: Reading): Reading
    {
      Reading(Plus(counters, growth.counters), growth.connected)
    }

    function Heard(event: Event): Reading
    {
      Reading(Plus(counters, Effect(event)), Link(connected, event))
    }
  }

  // ---------- What the counters should say ----------

  datatype Event =
    | ConnectionAdded
    | ConnectionRemoved
    | PacketReceived
    | PacketSent
    | PacketDropped
    | SourceConnected
    | SourceDisconnected
    | StreamDuration(duration: Int64)

  function Only(counter: nat, change: int): Tally
    requires counter < 5
  {
    ZERO[counter := WrapUnsigned(change)]
  }

  function Effect(event: Event): Tally
  {
    match event
    case ConnectionAdded => Only(CONNECTIONS, 1)
    case ConnectionRemoved => Only(CONNECTIONS, -1)
    case PacketReceived => Only(RECEIVED, 1)
    case PacketSent => Only(SENT, 1)
    case PacketDropped => Only(DROPPED, 1)
    case SourceConnected => ZERO
    case SourceDisconnected => ZERO
    case StreamDuration(duration) => Only(DURATION, duration)
  }

  /** The state of the upstream connection after an event. */
  function Link(connected: bool, event: Event): bool
  {
    match event
    case SourceConnected => true
    case SourceDisconnected => false
    case _ => connected
  }

  /** What the statistics loop sees: an event of a stream, or its own ticker. */
  datatype Step = Traffic(name: string, event: Event) | Tick

  /** What the events of stream `name` in `steps` amount to. */
  ghost function Recorded(steps: seq<Step>, name: string): Tally
  {
    if steps == [] then ZERO
    else
      var (before, last) := (Recorded(steps[..|steps| - 1], name), steps[|steps| - 1]);
      if last.Traffic? && last.name == name then Plus(before, Effect(last.event)) else before
  }

  /** What they amount to up to the last tick. */
  ghost function Reported(steps: seq<Step>, name: string): Tally
  {
    if steps == [] then ZERO
    else if steps[|steps| - 1] == Tick then Recorded(steps, name)
    else Reported(steps[..|steps| - 1], name)
  }

  ghost function Linked(connected: bool, steps: seq<Step>, name: string): bool
  {
    if steps == [] then connected
    else
      var (before, last) := (Linked(connected, steps[..|steps| - 1], name), steps[|steps| - 1]);
      if last.Traffic? && last.name == name then Link(before, last.event) else before
  }

  /** The upstream state shown for a stream: the one of its collector at the last tick. */
  ghost function Shown(shown: bool, connected: bool, steps: seq<Step>, name: string): bool
  {
    if steps == [] then shown
    else if steps[|steps| - 1] == Tick then Linked(connected, steps, name)
    else Shown(shown, connected, steps[..|steps| - 1], name)
  }

  lemma NextStep(shown: bool, connected: bool, seen: seq<Step>, step: Step, name: string)
    ensures var more := seen + [step];
            && Recorded(more, name)
               == (if step.Traffic? && step.name == name then Plus(Recorded(seen, name), Effect(step.event)) else Recorded(seen, name))
            && Linked(connected, more, name)
               == (if step.Traffic? && step.name == name then Link(Linked(connected, seen, name), step.event) else Linked(connected, seen, name))
            && Reported(more, name) == (if step == Tick then Recorded(seen, name) else Reported(seen, name))
            && Shown(shown, connected, more, name)
               == (if step == Tick then Linked(connected, seen, name) else Shown(shown, connected, seen, name))
  {
    assert (seen + [step])[..|seen|] == seen;
  }

  /** The growth between two readings of a collector is the growth of what was recorded. */
  lemma TotalsTelescope(totals: Tally, origin: Tally, reported: Tally, recorded: Tally)
    ensures Plus(Plus(totals, reported), Minus(Plus(origin, recorded), Plus(origin, reported))) == Plus(totals, recorded)
  {
    var growth := Minus(Plus(origin, recorded), Plus(origin, reported));
    MinusUndoesPlus(Plus(origin, reported), Plus(origin, recorded), growth);
    PlusIsAssociative(origin, reported, growth);
    MinusUndoesPlus(origin, Plus(origin, recorded), Plus(reported, growth));
    MinusUndoesPlus(origin, Plus(origin, recorded), recorded);
    PlusIsAssociative(totals, reported, growth);
  }

  /**
   A collector, its clone from the last tick and the totals of its stream agree with what happened
   since the loop started, when the collector read `origin` and the totals `base`.
   */
  ghost predicate Agrees(now: Reading, clone: Reading, total: Reading, origin: Reading, base: Reading, seen: seq<Step>, name: string)
  {
    && now == Reading(Plus(origin.counters, Recorded(seen, name)), Linked(origin.connected, seen, name))
    && clone.counters == Plus(origin.counters, Reported(seen, name))
    && total == Reading(Plus(base.counters, Reported(seen, name)), Shown(base.connected, origin.connected, seen, name))
  }

  lemma AgreesAtFirst(origin: Reading, base: Reading, name: string)
    ensures Agrees(origin, origin, base, origin, base, [], name)
  {
    PlusIsCommutative(origin.counters, ZERO);
    PlusIsCommutative(base.counters, ZERO);
  }

  lemma TrafficKeepsAgrees(now: Reading, clone: Reading, total: Reading, origin: Reading, base: Reading, seen: seq<Step>, step: Step, name: string)
    requires Agrees(now, clone, total, origin, base, seen, name) && step.Traffic?
    ensures step.name != name ==> Agrees(now, clone, total, origin, base, seen + [step], name)
    ensures step.name == name ==> Agrees(now.Heard(step.event), clone, total, origin, base, seen + [step], name)
  {
    NextStep(base.connected, origin.connected, seen, step, name);
    PlusIsAssociative(origin.counters, Recorded(seen, name), Effect(step.event));
  }

  /** The same between the two halves of a tick: `change` is what was counted since the tick before. */
  ghost predicate Measured(now: Reading, change: Reading, total: Reading, origin: Reading, base: Reading, seen: seq<Step>, name: string)
  {
    exists clone :: Agrees(now, clone, total, origin, base, seen, name) && change == now.Since(clone)
  }

  lemma TickKeepsAgrees(now: Reading, change: Reading, total: Reading, origin: Reading, base: Reading, seen: seq<Step>, name: string)
    requires Measured(now, change, total, origin, base, seen, name)
    ensures Agrees(now, now, total.Grown(change), origin, base, seen + [Tick], name)
  {
    NextStep(base.connected, origin.connected, seen, Tick, name);
    TotalsTelescope(base.counters, origin.counters, Reported(seen, name), Recorded(seen, name));
  }

  predicate Counts(step: Step, name: string, event: Event)
  {
    step == Traffic(name, event)
  }

  ghost function Places(steps: seq<Step>, name: string, event: Event): set<nat>
  {
    set i | 0 <= i < |steps| && Counts(steps[i], name, event)
  }

  /** How often `event` happens to stream `name`. */
  ghost function Occurrences(steps: seq<Step>, name: string, event: Event): nat
  {
    |Places(steps, name, event)|
  }

  lemma PlacesOfLast(steps: seq<Step>, name: string, event: Event)
    requires steps != []
    ensures var n := |steps| - 1;
            && Places(steps, name, event)
               == Places(steps[..n], name, event) + (if Counts(steps[n], name, event) then {n} else {})
            && n !in Places(steps[..n], name, event)
  {
  }

  lemma OccurrencesOfLast(steps: seq<Step>, name: string, event: Event)
    requires steps != []
    ensures var n := |steps| - 1;
            Occurrences(steps, name, event)
            == Occurrences(steps[..n], name, event) + (if Counts(steps[n], name, event) then 1 else 0)
  {
    PlacesOfLast(steps, name, event);
  }

  lemma {:induction false} CounterCounts(steps: seq<Step>, name: string, counter: nat, event: Event)
    requires counter < 5
    requires forall e: Event :: Effect(e)[counter] == if e == event then 1 else 0
    ensures Recorded(steps, name)[counter] == WrapUnsigned(Occurrences(steps, name, event))
  {
    if steps != [] {
      var n := |steps| - 1;
      CounterCounts(steps[..n], name, counter, event);
      OccurrencesOfLast(steps, name, event);
      WrapAdds(Occurrences(steps[..n], name, event), if Counts(steps[n], name, event) then 1 else 0);
      if steps[n].Traffic? && steps[n].name == name {
        assert Effect(steps[n].event)[counter] == if Counts(steps[n], name, event) then 1 else 0;
      }
    }
  }

  /** The packet counters count packets. */
  lemma RecordedCounts(steps: seq<Step>, name: string)
    ensures Recorded(steps, name)[RECEIVED] == WrapUnsigned(Occurrences(steps, name, PacketReceived))
    ensures Recorded(steps, name)[SENT] == WrapUnsigned(Occurrences(steps, name, PacketSent))
    ensures Recorded(steps, name)[DROPPED] == WrapUnsigned(Occurrences(steps, name, PacketDropped))
  {
    CounterCounts(steps, name, RECEIVED, PacketReceived);
    CounterCounts(steps, name, SENT, PacketSent);
    CounterCounts(steps, name, DROPPED, PacketDropped);
  }

  /** How many more connections were added to stream `name` than removed. */
  ghost function Balance(steps: seq<Step>, name: string): int
  {
    Occurrences(steps, name, ConnectionAdded) - Occurrences(steps, name, ConnectionRemoved)
  }

  lemma BalanceOfLast(steps: seq<Step>, name: string)
    requires steps != []
    ensures var n := |steps| - 1;
            Balance(steps, name) == Balance(steps[..n], name)
              + (if Counts(steps[n], name, ConnectionAdded) then 1 else 0)
              - (if Counts(steps[n], name, ConnectionRemoved) then 1 else 0)
  {
    OccurrencesOfLast(steps, name, ConnectionAdded);
    OccurrencesOfLast(steps, name, ConnectionRemoved);
  }

  lemma {:induction false} RecordedBalance(steps: seq<Step>, name: string)
    ensures Recorded(steps, name)[CONNECTIONS] == WrapUnsigned(Balance(steps, name))
  {
    if steps != [] {
      var n := |steps| - 1;
      var balance := Balance(steps[..n], name);
      RecordedBalance(steps[..n], name);
      BalanceOfLast(steps, name);
      if Counts(steps[n], name, ConnectionAdded) {
        WrapAdds(balance, 1);
      } else if Counts(steps[n], name, ConnectionRemoved) {
        WrapAdds(balance, -1);
      } else {
        WrapAdds(balance, 0);
      }
    }
  }

  /** The connection counter, read as a signed integer, counts the connections that are still there. */
  lemma RecordedConnections(steps: seq<Step>, name: string)
    ensures Signed(Recorded(steps, name)[CONNECTIONS]) == Wrap(Balance(steps, name))
  {
    RecordedBalance(steps, name);
    SignedWraps(Balance(steps, name));
  }

  /** The sum of the streaming times reported for stream `name`. */
  ghost function TimeReported(steps: seq<Step>, name: string): int
  {
    if steps == [] then 0
    else
      var (before, last) := (TimeReported(steps[..|steps| - 1], name), steps[|steps| - 1]);
      if last.Traffic? && last.name == name && last.event.StreamDuration? then before + last.event.duration else before
  }

  lemma {:induction false} RecordedTime(steps: seq<Step>, name: string)
    ensures Recorded(steps, name)[DURATION] == WrapUnsigned(TimeReported(steps, name))
  {
    if steps != [] {
      var n := |steps| - 1;
      var time := TimeReported(steps[..n], name);
      RecordedTime(steps[..n], name);
      if steps[n].Traffic? && steps[n].name == name && steps[n].event.StreamDuration? {
        WrapAdds(time, steps[n].event.duration);
      } else {
        WrapAdds(time, 0);
      }
    }
  }

  /** The time counter, read as a signed integer, is the sum of the streaming times reported. */
  lemma RecordedDuration(steps: seq<Step>, name: string)
    ensures Signed(Recorded(steps, name)[DURATION]) == Wrap(TimeReported(steps, name))
  {
    RecordedTime(steps, name);
    SignedWraps(TimeReported(steps, name));
  }

  /** `Reported` is what was recorded up to the last tick. */
  lemma {:induction false} ReportedUpToLastTick(steps: seq<Step>, name: string, k: nat)
    requires k <= |steps|
    requires k == 0 || steps[k - 1] == Tick
    requires forall i :: k <= i < |steps| ==> steps[i] != Tick
    ensures Reported(steps, name) == Recorded(steps[..k], name)
  {
    if k < |steps| {
      var n := |steps| - 1;
      assert steps[..n][..k] == steps[..k];
      ReportedUpToLastTick(steps[..n], name, k);
    } else {
      assert steps[..k] == steps;
    }
  }

  /** The last time that the upstream connection of the stream came up or went away, it came up. */
  ghost predicate CameUpLast(steps: seq<Step>, name: string)
  {
    exists i :: 0 <= i < |steps| && steps[i] == Traffic(name, SourceConnected)
                && forall j :: i < j < |steps| ==> steps[j] != Traffic(name, SourceDisconnected)
  }

  ghost predicate NeverWentAway(steps: seq<Step>, name: string)
  {
    forall j :: 0 <= j < |steps| ==> steps[j] != Traffic(name, SourceDisconnected)
  }

  lemma CameUpLastIn(steps: seq<Step>, name: string)
    requires steps != []
    ensures var init, last := steps[..|steps| - 1], steps[|steps| - 1];
            CameUpLast(steps, name) <==>
              last == Traffic(name, SourceConnected) || (CameUpLast(init, name) && last != Traffic(name, SourceDisconnected))
  {
    var init, n := steps[..|steps| - 1], |steps| - 1;
    if steps[n] == Traffic(name, SourceConnected) {
      assert CameUpLast(steps, name);
    } else {
      if CameUpLast(init, name) && steps[n] != Traffic(name, SourceDisconnected) {
        var i :| 0 <= i < |init| && init[i] == Traffic(name, SourceConnected)
                 && forall j :: i < j < |init| ==> init[j] != Traffic(name, SourceDisconnected);
        assert steps[i] == Traffic(name, SourceConnected);
        assert forall j :: i < j < n ==> steps[j] == init[j];
      }
      if CameUpLast(steps, name) {
        var i :| 0 <= i < |steps| && steps[i] == Traffic(name, SourceConnected)
                 && forall j :: i < j < |steps| ==> steps[j] != Traffic(name, SourceDisconnected);
        assert init[i] == Traffic(name, SourceConnected);
        assert forall j :: i < j < n ==> steps[j] == init[j];
      }
    }
  }

  /** A stream is connected exactly if its upstream connection came up last, or was up and never went away. */
  lemma {:induction false} LinkedIsLast(connected: bool, steps: seq<Step>, name: string)
    ensures Linked(connected, steps, name) <==> CameUpLast(steps, name) || (connected && NeverWentAway(steps, name))
  {
    if steps != [] {
      var init, n := steps[..|steps| - 1], |steps| - 1;
      LinkedIsLast(connected, init, name);
      CameUpLastIn(steps, name);
      assert NeverWentAway(steps, name) <==> NeverWentAway(init, name) && steps[n] != Traffic(name, SourceDisconnected);
    }
  }

  /** What the totals show of the upstream connection is how it was at the last tick, if there was one. */
  lemma {:induction false} ShownUpToLastTick(shown: bool, connected: bool, steps: seq<Step>, name: string, k: nat)
    requires k <= |steps|
    requires k == 0 || steps[k - 1] == Tick
    requires forall i :: k <= i < |steps| ==> steps[i] != Tick
    ensures Shown(shown, connected, steps, name) == if k == 0 then shown else Linked(connected, steps[..k], name)
  {
    if k < |steps| {
      var n := |steps| - 1;
      assert steps[..n][..k] == steps[..k];
      ShownUpToLastTick(shown, connected, steps[..n], name, k);
    } else {
      assert steps[..k] == steps;
    }
  }

  // ---------- The collectors ----------

  class Collector {
    var counters: Tally
    var connected: bool

    function View(): Reading
      reads this
    {
      Reading(counters, connected)
    }

    constructor (counters: Tally, connected: bool)
      ensures this.counters == counters && this.connected == connected
    {
      this.counters, this.connected := counters, connected;
    }

    method Count(counter: nat, change: int)
      requires counter < 5
      modifies this`counters
      ensures counters == Plus(old(counters), Only(counter, change))
    {
      WrapAdds(counters[counter], change);
      counters := counters[counter := WrapUnsigned(counters[counter] + change)];
    }

    method Record(event: Event)
      modifies this
      ensures View() == old(View()).Heard(event)
    {
      match event {
        case ConnectionAdded => Count(CONNECTIONS, 1);
        case ConnectionRemoved => Count(CONNECTIONS, -1);
        case PacketReceived => Count(RECEIVED, 1);
        case PacketSent => Count(SENT, 1);
        case PacketDropped => Count(DROPPED, 1);
        case SourceConnected => connected := true;
        case SourceDisconnected => connected := false;
        case StreamDuration(duration) => Count(DURATION, duration);
      }
    }

    method Clone() returns (copy: Collector)
      ensures fresh(copy) && copy.View() == View()
    {
      copy := new Collector(counters, connected);
    }

    /** Replaces the counters by what leads from them to those of `to`. */
    method InvSub(to: Collector)
      modifies this
      ensures View() == old(to.View()).Since(old(View()))
    {
      counters := Minus(to.counters, counters);
      connected := to.connected;
    }
  }

  // ---------- Totals ----------

  class StreamStatistics {
    const maxConnections: Word64
    const fullConnections: Word64
    var totals: Tally
    var bytes: Volume
    var connected: bool

    function View(): Reading
      reads this
    {
      Reading(totals, connected)
    }

    /** The byte totals are 188 times the packet totals. */
    ghost predicate BytesAgree()
      reads this
    {
      bytes == VolumeOf(totals)
    }

    constructor (maxConnections: Word64, fullConnections: Word64)
      ensures totals == ZERO && !connected && BytesAgree()
      ensures this.maxConnections == maxConnections && this.fullConnections == fullConnections
    {
      this.maxConnections, this.fullConnections := maxConnections, fullConnections;
      totals, bytes, connected := ZERO, VolumeOf(ZERO), false;
    }

    method Reset()
      modifies this
      ensures totals == ZERO && !connected && BytesAgree()
    {
      totals, bytes, connected := ZERO, VolumeOf(ZERO), false;
    }

    /** Adds what a collector has counted since the tick before. */
    method Add(diff: Collector)
      modifies this
      ensures View() == old(View()).Grown(diff.View()) && BytesAgree()
    {
      totals := Plus(totals, diff.counters);
      bytes := VolumeOf(totals);
      connected := diff.connected;
    }

    /** Adds the totals of a stream to those of all streams. */
    method Include(stream: StreamStatistics)
      requires stream != this && stream.BytesAgree()
      modifies this
      ensures totals == Plus(old(totals), stream.totals)
      ensures connected == (old(connected) || stream.connected)
      ensures old(BytesAgree()) ==> BytesAgree()
    {
      VolumesAddUp(totals, stream.totals);
      totals := Plus(totals, stream.totals);
      bytes := PlusVolume(bytes, stream.bytes);
      if stream.connected {
        connected := true;
      }
    }
  }

  // ---------- Maps of objects ----------

  ghost predicate Distinct<T>(objects: map<string, T>)
  {
    forall a, b :: a in objects && b in objects && a != b ==> objects[a] != objects[b]
  }

  ghost predicate Apart(a: map<string, Collector>, b: map<string, Collector>)
  {
    forall m, n :: m in a && n in b ==> a[m] != b[n]
  }

  ghost function Readings(collectors: map<string, Collector>): map<string, Reading>
    reads collectors.Values
  {
    map name | name in collectors :: collectors[name].View()
  }

  ghost function Sums(streams: map<string, StreamStatistics>): map<string, Reading>
    reads streams.Values
  {
    map name | name in streams :: streams[name].View()
  }

  /** The counters of the streams in `names`. */
  ghost function Tallied(readings: map<string, Reading>, names: set<string>): map<string, Tally>
  {
    map name | name in readings && name in names :: readings[name].counters
  }

  ghost predicate AnyConnected(readings: map<string, Reading>, names: set<string>)
  {
    exists name :: name in names && name in readings && readings[name].connected
  }

  ghost predicate BytesAgree(streams: map<string, StreamStatistics>, names: set<string>)
    reads streams.Values
  {
    forall name :: name in names && name in streams ==> streams[name].BytesAgree()
  }

  /** A map that has been brought from `before` to `after` for the streams in `done`. */
  ghost function Partly(before: map<string, Reading>, after: map<string, Reading>, done: set<string>): map<string, Reading>
  {
    map name | name in before :: if name in done && name in after then after[name] else before[name]
  }

  ghost predicate OneByOne(all: set<string>, todo: set<string>, done: set<string>)
  {
    todo == all - done && done <= all
  }

  lemma StartOneByOne(was: map<string, Reading>, total: map<string, Reading>)
    ensures OneByOne(was.Keys, was.Keys, {})
    ensures Partly(was, total, {}) == was && Tallied(total, {}) == map[] && !AnyConnected(total, {})
  {
  }

  lemma NextOneByOne(was: map<string, Reading>, total: map<string, Reading>, todo: set<string>, done: set<string>, name: string)
    requires was.Keys == total.Keys && OneByOne(was.Keys, todo, done) && name in todo
    ensures OneByOne(was.Keys, todo - {name}, done + {name})
    ensures Partly(was, total, done)[name := total[name]] == Partly(was, total, done + {name})
    ensures Partly(was, total, done)[name] == was[name]
    ensures Sum(Tallied(total, done + {name})) == Plus(Sum(Tallied(total, done)), total[name].counters)
    ensures AnyConnected(total, done + {name}) <==> AnyConnected(total, done) || total[name].connected
  {
    PartlyOneMore(was, total, done, name);
    TalliedOneMore(total, done, name);
  }

  lemma EndOneByOne(was: map<string, Reading>, total: map<string, Reading>, done: set<string>)
    requires was.Keys == total.Keys && OneByOne(was.Keys, {}, done)
    ensures done == was.Keys && Partly(was, total, done) == total
  {
    forall name | name in was.Keys
      ensures name in done
    {
      assert name !in was.Keys - done;
    }
  }

  ghost function Growths(before: map<string, Reading>, growth: map<string, Reading>): map<string, Reading>
    requires before.Keys <= growth.Keys
  {
    map name | name in before :: before[name].Grown(growth[name])
  }

  lemma PartlyOneMore(before: map<string, Reading>, after: map<string, Reading>, done: set<string>, name: string)
    requires name in before && name in after
    ensures Partly(before, after, done)[name := after[name]] == Partly(before, after, done + {name})
  {
  }

  lemma TalliedOneMore(readings: map<string, Reading>, done: set<string>, name: string)
    requires name in readings && name !in done
    ensures Sum(Tallied(readings, done + {name})) == Plus(Sum(Tallied(readings, done)), readings[name].counters)
    ensures AnyConnected(readings, done + {name}) <==> AnyConnected(readings, done) || readings[name].connected
  {
    SumWith(Tallied(readings, done), name, readings[name].counters);
    assert Tallied(readings, done)[name := readings[name].counters] == Tallied(readings, done + {name});
    if AnyConnected(readings, done) {
      var other :| other in done && other in readings && readings[other].connected;
      assert other in done + {name};
    }
    assert name in done + {name};
  }

  /** The global totals are the sums of the totals of the streams, in packets and in bytes. */
  ghost predicate Summed(streams: map<string, StreamStatistics>, global: StreamStatistics)
    reads streams.Values, global
  {
    && global.totals == Sum(Tallied(Sums(streams), streams.Keys))
    && global.connected == AnyConnected(Sums(streams), streams.Keys)
    && BytesAgree(streams, streams.Keys)
    && global.BytesAgree()
  }

  // ---------- The loops over the streams ----------

  /** Clones one more collector, and turns its previous clone into what was counted in between. */
  method Advance(internal: map<string, Collector>, previous: map<string, Collector>, current: map<string, Collector>, name: string)
      returns (update: Collector)
    requires name in internal && name in previous
    requires Apart(previous, internal)
    requires Distinct(current) && Apart(current, previous)
    modifies previous[name]
    ensures fresh(update) && update.View() == old(internal[name].View())
    ensures previous[name].View() == old(internal[name].View().Since(previous[name].View()))
    ensures Distinct(current[name := update]) && Apart(current[name := update], previous)
  {
    update := internal[name].Clone();
    previous[name].InvSub(update);
  }

  /** Clones the collectors, and turns the previous clones into what was counted in between. */
  method Delta(internal: map<string, Collector>, previous: map<string, Collector>)
      returns (current: map<string, Collector>)
    requires internal.Keys <= previous.Keys
    requires Distinct(previous) && Apart(previous, internal)
    modifies previous.Values
    ensures current.Keys == internal.Keys && Distinct(current) && Apart(current, previous)
    ensures forall name :: name in current ==> fresh(current[name]) && current[name].View() == old(internal[name].View())
    ensures forall name :: name in internal ==> internal[name].View() == old(internal[name].View())
    ensures forall name :: name in internal ==> previous[name].View() == old(internal[name].View().Since(previous[name].View()))
  {
    current := map[];
    var todo := internal.Keys;
    while todo != {}
      invariant todo <= internal.Keys && current.Keys == internal.Keys - todo
      invariant Distinct(current) && Apart(current, previous)
      invariant forall name :: name in current ==> fresh(current[name])
      invariant forall name :: name in current ==> current[name].View() == old(internal[name].View())
      invariant forall name :: name in internal ==> internal[name].View() == old(internal[name].View())
      invariant forall name :: name in current ==> previous[name].View() == old(internal[name].View().Since(previous[name].View()))
      invariant forall name :: name in todo ==> previous[name].View() == old(previous[name].View())
      decreases todo
    {
      var name :| name in todo;
      var update := Advance(internal, previous, current, name);
      current, todo := current[name := update], todo - {name};
    }
  }

  /** Adds what was counted of one stream to its totals, and these to the global totals. */
  method Collect(streams: map<string, StreamStatistics>, global: StreamStatistics, name: string, change: map<string, Collector>, ghost done: set<string>)
    requires Distinct(streams) && global !in streams.Values
    requires name in streams && name in change && BytesAgree(streams, done) && global.BytesAgree()
    modifies streams[name], global
    ensures Readings(change) == old(Readings(change))
    ensures Sums(streams) == old(Sums(streams))[name := old(Sums(streams))[name].Grown(Readings(change)[name])]
    ensures BytesAgree(streams, done + {name}) && global.BytesAgree()
    ensures global.totals == Plus(old(global.totals), Sums(streams)[name].counters)
    ensures global.connected == (old(global.connected) || Sums(streams)[name].connected)
  {
    streams[name].Add(change[name]);
    global.Include(streams[name]);
  }

  /** Adds what was counted to the totals of the streams and sums them up. */
  method Update(streams: map<string, StreamStatistics>, global: StreamStatistics, change: map<string, Collector>)
    requires Distinct(streams) && global !in streams.Values
    requires streams.Keys <= change.Keys
    modifies streams.Values, global
    ensures forall name :: name in streams ==> streams[name].View() == old(streams[name].View().Grown(change[name].View()))
    ensures Summed(streams, global)
  {
    ghost var was, growth, done := Sums(streams), Readings(change), {};
    ghost var total := Growths(was, growth);
    global.Reset();
    StartOneByOne(was, total);
    var todo := streams.Keys;
    while todo != {}
      invariant OneByOne(was.Keys, todo, done)
      invariant Readings(change) == growth
      invariant Sums(streams) == Partly(was, total, done)
      invariant BytesAgree(streams, done) && global.BytesAgree()
      invariant global.totals == Sum(Tallied(total, done))
      invariant global.connected == AnyConnected(total, done)
      decreases todo
    {
      var name :| name in todo;
      NextOneByOne(was, total, todo, done, name);
      Collect(streams, global, name, change, done);
      todo, done := todo - {name}, done + {name};
    }
    EndOneByOne(was, total, done);
    forall name | name in streams
      ensures streams[name].View() == was[name].Grown(growth[name])
    {
      assert streams[name].View() == Sums(streams)[name];
    }
  }

  // ---------- The statistics loop ----------

  datatype Registry = Registry(internal: map<string, Collector>, streams: map<string, StreamStatistics>, global: StreamStatistics)
  {
    ghost predicate Valid()
    {
      && internal.Keys == streams.Keys
      && Distinct(internal)
      && Distinct(streams)
      && global !in streams.Values
    }
  }

  /** What the collectors read and what the totals were when the loop started. */
  datatype Origin = Origin(readings: map<string, Reading>, totals: map<string, Reading>)

  /** The clones of the last tick are objects of their own, and every stream agrees with what happened since `origin`. */
  ghost predicate Tracks(r: Registry, previous: map<string, Collector>, origin: Origin, seen: seq<Step>)
    reads r.internal.Values, previous.Values, r.streams.Values
  {
    && Distinct(previous) && Apart(previous, r.internal)
    && r.internal.Keys == r.streams.Keys == previous.Keys == origin.readings.Keys == origin.totals.Keys
    && forall name :: name in r.internal ==>
         Agrees(r.internal[name].View(), previous[name].View(), r.streams[name].View(),
                origin.readings[name], origin.totals[name], seen, name)
  }

  /** The first half of a tick: `previous` becomes what was counted since the tick before. */
  method Measure(r: Registry, previous: map<string, Collector>, ghost origin: Origin, ghost seen: seq<Step>)
      returns (current: map<string, Collector>)
    requires r.Valid() && Tracks(r, previous, origin, seen)
    modifies previous.Values
    ensures current.Keys == r.internal.Keys && Distinct(current) && Apart(current, r.internal)
    ensures forall name :: name in current ==> fresh(current[name]) && current[name].View() == r.internal[name].View()
    ensures forall name :: name in r.internal ==>
              Measured(r.internal[name].View(), previous[name].View(), r.streams[name].View(),
                       origin.readings[name], origin.totals[name], seen, name)
  {
    current := Delta(r.internal, previous);
    forall name | name in r.internal
      ensures Measured(r.internal[name].View(), previous[name].View(), r.streams[name].View(),
                       origin.readings[name], origin.totals[name], seen, name)
    {
      assert Agrees(r.internal[name].View(), old(previous[name].View()), r.streams[name].View(),
                    origin.readings[name], origin.totals[name], seen, name);
    }
  }

  /** The second half: the totals grow by `change`. */
  method Settle(r: Registry, change: map<string, Collector>, current: map<string, Collector>, ghost origin: Origin, ghost seen: seq<Step>)
    requires r.Valid() && Distinct(current) && Apart(current, r.internal)
    requires r.internal.Keys == change.Keys == current.Keys == origin.readings.Keys == origin.totals.Keys
    requires forall name :: name in r.internal ==>
               Agrees(r.internal[name].View(), current[name].View(), r.streams[name].View().Grown(change[name].View()),
                      origin.readings[name], origin.totals[name], seen, name)
    modifies r.streams.Values, r.global
    ensures Tracks(r, current, origin, seen) && Summed(r.streams, r.global)
  {
    Update(r.streams, r.global, change);
  }

  /** The ticker: the totals grow by what was counted since the tick before. */
  method OnTick(r: Registry, previous: map<string, Collector>, ghost origin: Origin, ghost seen: seq<Step>)
      returns (current: map<string, Collector>)
    requires r.Valid() && Tracks(r, previous, origin, seen)
    modifies previous.Values, r.streams.Values, r.global
    ensures forall name :: name in current ==> fresh(current[name])
    ensures Tracks(r, current, origin, seen + [Tick]) && Summed(r.streams, r.global)
  {
    current := Measure(r, previous, origin, seen);
    forall name | name in r.internal
      ensures Agrees(r.internal[name].View(), current[name].View(), r.streams[name].View().Grown(previous[name].View()),
                     origin.readings[name], origin.totals[name], seen + [Tick], name)
    {
      TickKeepsAgrees(r.internal[name].View(), previous[name].View(), r.streams[name].View(),
                      origin.readings[name], origin.totals[name], seen, name);
    }
    Settle(r, previous, current, origin, seen + [Tick]);
  }

  /** One collector counts an event; all else stays as it is. */
  method Hear(r: Registry, hit: string, event: Event, ghost previous: map<string, Collector>)
    requires r.Valid() && hit in r.internal && Apart(previous, r.internal)
    modifies r.internal[hit]
    ensures r.internal[hit].View() == old(r.internal[hit].View()).Heard(event)
    ensures forall name :: name in r.internal && name != hit ==> r.internal[name].View() == old(r.internal[name].View())
    ensures forall name :: name in previous ==> previous[name].View() == old(previous[name].View())
    ensures forall name :: name in r.streams ==> r.streams[name].View() == old(r.streams[name].View())
    ensures Summed(r.streams, r.global) == old(Summed(r.streams, r.global))
  {
    r.internal[hit].Record(event);
  }

  /** An event of one stream. */
  method OnTraffic(r: Registry, hit: string, event: Event, ghost previous: map<string, Collector>, ghost origin: Origin, ghost seen: seq<Step>)
    requires r.Valid() && hit in r.internal && Tracks(r, previous, origin, seen)
    modifies r.internal[hit]
    ensures Tracks(r, previous, origin, seen + [Traffic(hit, event)])
    ensures old(Summed(r.streams, r.global)) ==> Summed(r.streams, r.global)
  {
    Hear(r, hit, event, previous);
    forall name | name in r.internal
      ensures Agrees(r.internal[name].View(), previous[name].View(), r.streams[name].View(),
                     origin.readings[name], origin.totals[name], seen + [Traffic(hit, event)], name)
    {
      TrafficKeepsAgrees(old(r.internal[name].View()), previous[name].View(), r.streams[name].View(),
                         origin.readings[name], origin.totals[name], seen, Traffic(hit, event), name);
    }
  }

  /** The state of the loop after `seen`; `summed` tells whether the global totals were right when it started. */
  ghost predicate Running(r: Registry, previous: map<string, Collector>, origin: Origin, summed: bool, seen: seq<Step>)
    reads r.internal.Values, previous.Values, r.streams.Values, r.global
  {
    Tracks(r, previous, origin, seen) && (summed || Tick in seen ==> Summed(r.streams, r.global))
  }

  method OnStep(r: Registry, step: Step, previous: map<string, Collector>, ghost origin: Origin, ghost summed: bool, ghost seen: seq<Step>)
      returns (next: map<string, Collector>)
    requires r.Valid() && Running(r, previous, origin, summed, seen)
    requires step.Traffic? ==> step.name in r.internal
    modifies r.internal.Values, previous.Values, r.streams.Values, r.global
    ensures next == previous || forall name :: name in next ==> fresh(next[name])
    ensures Running(r, next, origin, summed, seen + [step])
  {
    match step {
      case Traffic(name, event) =>
        OnTraffic(r, name, event, previous, origin, seen);
        next := previous;
      case Tick =>
        next := OnTick(r, previous, origin, seen);
    }
  }

  /** The first clones of all collectors. */
  method Snapshot(internal: map<string, Collector>) returns (current: map<string, Collector>)
    ensures current.Keys == internal.Keys && Distinct(current) && Apart(current, internal)
    ensures forall name :: name in current ==> fresh(current[name]) && current[name].View() == internal[name].View()
  {
    current := map[];
    var todo := internal.Keys;
    while todo != {}
      invariant todo <= internal.Keys && current.Keys == internal.Keys - todo
      invariant Distinct(current)
      invariant forall name :: name in current ==> fresh(current[name]) && current[name].View() == internal[name].View()
      decreases todo
    {
      var name :| name in todo;
      var copy := internal[name].Clone();
      current, todo := current[name := copy], todo - {name};
    }
  }

  /** Starts to track: the first snapshot is taken, and nothing has happened yet. */
  method Begin(r: Registry, ghost origin: Origin) returns (previous: map<string, Collector>)
    requires r.Valid()
    requires origin == Origin(Readings(r.internal), Sums(r.streams))
    ensures Tracks(r, previous, origin, [])
    ensures forall name :: name in previous ==> fresh(previous[name])
  {
    previous := Snapshot(r.internal);
    forall name | name in r.internal
      ensures Agrees(r.internal[name].View(), previous[name].View(), r.streams[name].View(),
                     origin.readings[name], origin.totals[name], [], name)
    {
      AgreesAtFirst(origin.readings[name], origin.totals[name], name);
    }
  }

  /**
   Runs the statistics loop: events of the streams and ticks come in any order until it is stopped.
   The totals have then grown by what happened up to the last tick, and they have been summed up.
   */
  method Loop(r: Registry, steps: seq<Step>)
    requires r.Valid()
    requires forall i :: 0 <= i < |steps| && steps[i].Traffic? ==> steps[i].name in r.internal
    modifies r.internal.Values, r.streams.Values, r.global
    ensures forall name :: name in r.internal ==>
              && r.internal[name].counters == Plus(old(r.internal[name].counters), Recorded(steps, name))
              && r.internal[name].connected == Linked(old(r.internal[name].connected), steps, name)
    ensures forall name :: name in r.streams ==>
              && r.streams[name].totals == Plus(old(r.streams[name].totals), Reported(steps, name))
              && r.streams[name].connected == Shown(old(r.streams[name].connected), old(r.internal[name].connected), steps, name)
    ensures Tick in steps || old(Summed(r.streams, r.global)) ==> Summed(r.streams, r.global)
  {
    ghost var origin, summed := Origin(Readings(r.internal), Sums(r.streams)), Summed(r.streams, r.global);
    ghost var seen: seq<Step> := [];
    var previous := Begin(r, origin);
    for k := 0 to |steps|
      invariant seen == steps[..k]
      invariant forall name :: name in previous ==> fresh(previous[name])
      invariant Running(r, previous, origin, summed, seen)
    {
      previous := OnStep(r, steps[k], previous, origin, summed, seen);
      seen := seen + [steps[k]];
    }
    assert seen == steps;
  }

  class Statistics {
    var internal: map<string, Collector>
    var streams: map<string, StreamStatistics>
    const global: StreamStatistics

    ghost predicate Valid()
      reads this
    {
      Registry(internal, streams, global).Valid()
    }

    constructor (maxconns: Word64, fullconns: Word64)
      ensures Valid() && fresh(global) && streams == map[] && Summed(streams, global)
      ensures global.maxConnections == maxconns && global.fullConnections == fullconns
    {
      internal, streams := map[], map[];
      global := new StreamStatistics(maxconns, fullconns);
    }

    method RegisterStream(name: string) returns (current: Collector)
      requires Valid()
      modifies this
      ensures Valid() && fresh(current) && current.View() == Reading(ZERO, false)
      ensures internal == old(internal)[name := current]
      ensures streams.Keys == old(streams).Keys + {name} && fresh(streams[name]) && streams[name].View() == Reading(ZERO, false)
      ensures forall other :: other in old(streams) && other != name ==> streams[other] == old(streams)[other]
    {
      current := new Collector(ZERO, false);
      var stream := new StreamStatistics(0, 0);
      internal := internal[name := current];
      streams := streams[name := stream];
    }

    method RemoveStream(name: string)
      requires Valid()
      modifies this
      ensures Valid()
      ensures internal == old(internal) - {name} && streams == old(streams) - {name}
    {
      internal := internal - {name};
      streams := streams - {name};
    }
  }
}
