/**
 Who gets in: the answer to an add request, from the commands that were given in the run and the clients
 that were let in. The commands are read off the steps, not off the state.
 */
module Commands {
  import opened Broker
  import opened Queues
  import opened Admission
  import opened Theorems

  // ---------- The commands given ----------

  /** A command that a session has received and not carried out. */
  datatype Pending = Nothing | Order(on: bool)

  /** The commands of one session: one it is about to carry out, and whether the last one carried out was to go offline. */
  datatype Orders = Orders(pending: Pending, offline: bool)

  const NO_ORDERS := Orders(Nothing, false)

  function NextOrders(o: Orders, a: Action, k: CallId): Orders
  {
    if a.Move? && a.k == k && a.move.TakeCommand? then o.(pending := Order(a.move.on))
    else if (a.TakeAdd? || a.TakeRemove?) && a.k == k then o.(pending := Nothing)
    else if a.Process? && a.k == k && o.pending.Order? then Orders(Nothing, o.pending.on)
    else o
  }

  function OrdersAfter(o: Orders, steps: seq<Action>, k: CallId): Orders
    decreases |steps|
  {
    if steps == [] then o else OrdersAfter(NextOrders(o, steps[0], k), steps[1..], k)
  }

  /** The last command to the shared controller, or how it was before. */
  function Barred(inhibit: bool, steps: seq<Action>): bool
    decreases |steps|
  {
    if steps == [] then inhibit
    else Barred(if steps[0].InhibitAll? then steps[0].on else inhibit, steps[1..])
  }

  predicate Obeys(s: State, k: CallId, o: Orders)
  {
    if k in s.calls then
      && s.calls[k].inhibit == o.offline
      && (s.calls[k].phase == Handling(Inhibit) <==> o.pending == Order(true))
      && (s.calls[k].phase == Handling(Allow) <==> o.pending == Order(false))
    else o == NO_ORDERS
  }

  lemma ProcessObeys(s: State, c: CallId, k: CallId, o: Orders)
    requires Enabled(s, Process(c)) && Obeys(s, k, o)
    ensures Obeys(Processed(s, c), k, NextOrders(o, Process(c), k))
  {
  }

  lemma MoveObeys(s: State, c: CallId, m: CallMove, k: CallId, o: Orders)
    requires c in s.calls && CanMove(s.calls[c], m) && Obeys(s, k, o)
    ensures Obeys(s.(calls := s.calls[c := Moved(s.calls[c], m)]), k, NextOrders(o, Move(c, m), k))
  {
  }

  lemma StepObeys(s: State, a: Action, k: CallId, o: Orders)
    requires Enabled(s, a) && Obeys(s, k, o)
    ensures Obeys(Next(s, a), k, NextOrders(o, a, k))
  {
    if a.Process? {
      ProcessObeys(s, a.k, k, o);
    } else if a.Move? {
      MoveObeys(s, a.k, a.move, k, o);
    }
  }

  lemma {:induction false} RunObeys(s: State, steps: seq<Action>, k: CallId, o: Orders)
    requires IsRun(s, steps) && Obeys(s, k, o)
    ensures Obeys(After(s, steps), k, OrdersAfter(o, steps, k))
    decreases |steps|
  {
    if steps != [] {
      StepObeys(s, steps[0], k, o);
      RunObeys(Next(s, steps[0]), steps[1..], k, NextOrders(o, steps[0], k));
    }
  }

  lemma ProcessIsBarred(s: State, k: CallId)
    requires Enabled(s, Process(k))
    ensures Processed(s, k).control.inhibit == s.control.inhibit
  {
  }

  lemma StepIsBarred(s: State, a: Action)
    requires Enabled(s, a)
    ensures Next(s, a).control.inhibit == if a.InhibitAll? then a.on else s.control.inhibit
  {
    if a.Process? {
      ProcessIsBarred(s, a.k);
    }
  }

  lemma {:induction false} RunIsBarred(s: State, steps: seq<Action>)
    requires IsRun(s, steps)
    ensures After(s, steps).control.inhibit == Barred(s.control.inhibit, steps)
    ensures After(s, steps).control.max == s.control.max
    decreases |steps|
  {
    if steps != [] {
      StepIsBarred(s, steps[0]);
      LimitIsConstant(s, steps[0]);
      RunIsBarred(Next(s, steps[0]), steps[1..]);
    }
  }

  // ---------- The answer ----------

  /** What a request to be added leads to when the session carries it out. */
  ghost predicate Answered(t: State, t': State, k: CallId, h: ClientId, admitted: bool)
  {
    && k in t.calls && k in t'.calls && h in t.clients && h in t'.clients
    && t'.clients[h].stage == (if admitted then Admitted else Refused)
    && (admitted ==> t'.clients[h].session == k)
    && t'.calls[k].pool == t.calls[k].pool + if admitted then {h} else {}
  }

  lemma AddIsAnswered(t: State, k: CallId, h: ClientId)
    requires Enabled(t, Process(k)) && t.calls[k].phase == Handling(Add(h))
    ensures Answered(t, Next(t, Process(k)), k, h,
                     !t.calls[k].inhibit && !t.control.inhibit && (t.control.max == 0 || t.control.connections < t.control.max))
  {
  }

  /**
   An add request is granted exactly if the last command the session carried out, if any, was not to go
   offline, the last command to the controller was not to refuse everyone, and there is no limit or
   fewer clients than the limit are let in and not released. Otherwise it is refused.
   */
  lemma AdmissionIsExact(s: State, steps: seq<Action>, k: CallId, h: ClientId)
    requires Init(s) && IsRun(s, steps)
    requires Enabled(After(s, steps), Process(k)) && After(s, steps).calls[k].phase == Handling(Add(h))
    ensures var t := After(s, steps);
            Answered(t, Next(t, Process(k)), k, h,
                     && !OrdersAfter(NO_ORDERS, steps, k).offline
                     && !Barred(s.control.inhibit, steps)
                     && (s.control.max == 0 || |Active(t.clients)| < s.control.max))
  {
    var t := After(s, steps);
    RunObeys(s, steps, k, NO_ORDERS);
    RunIsBarred(s, steps);
    assert t.control.connections == |Active(t.clients)| by {
      InitIsHealthy(s);
      RunKeepsHealthy(s, steps);
    }
    AddIsAnswered(t, k, h);
  }

  // ---------- An offline session ----------

  /** The session carries out no command to go online again. */
  predicate StaysOffline(o: Orders, steps: seq<Action>, k: CallId)
    decreases |steps|
  {
    o.offline && (steps != [] ==> StaysOffline(NextOrders(o, steps[0], k), steps[1..], k))
  }

  /** Every add request that the session carries out is refused. */
  ghost predicate RefusesAll(s: State, steps: seq<Action>, k: CallId)
    requires IsRun(s, steps)
    decreases |steps|
  {
    steps != [] ==>
      var s' := Next(s, steps[0]);
      && (steps[0] == Process(k) && s.calls[k].phase.request.Add? ==>
            var h := s.calls[k].phase.request.client; h in s'.clients && s'.clients[h].stage.Refused?)
      && RefusesAll(s', steps[1..], k)
  }

  lemma OfflineProcess(s: State, c: CallId, k: CallId)
    requires Enabled(s, Process(c)) && k in s.calls && s.calls[k].inhibit
    ensures k in Processed(s, c).calls && Processed(s, c).calls[k].pool <= s.calls[k].pool
    ensures c == k && s.calls[k].phase.request.Add? ==>
              var h := s.calls[k].phase.request.client; h in Processed(s, c).clients && Processed(s, c).clients[h].stage.Refused?
  {
  }

  lemma OfflineStep(s: State, a: Action, k: CallId)
    requires Enabled(s, a) && k in s.calls && s.calls[k].inhibit
    ensures k in Next(s, a).calls && Next(s, a).calls[k].pool <= s.calls[k].pool
    ensures a == Process(k) && s.calls[k].phase.request.Add? ==>
              var h := s.calls[k].phase.request.client; h in Next(s, a).clients && Next(s, a).clients[h].stage.Refused?
  {
    if a.Process? {
      OfflineProcess(s, a.k, k);
    }
  }

  lemma {:induction false} OfflineRun(s: State, steps: seq<Action>, k: CallId, o: Orders)
    requires IsRun(s, steps) && k in s.calls && Obeys(s, k, o) && StaysOffline(o, steps, k)
    ensures RefusesAll(s, steps, k)
    ensures k in After(s, steps).calls && After(s, steps).calls[k].pool <= s.calls[k].pool
    decreases |steps|
  {
    if steps != [] {
      OfflineStep(s, steps[0], k);
      StepObeys(s, steps[0], k, o);
      OfflineRun(Next(s, steps[0]), steps[1..], k, NextOrders(o, steps[0], k));
    }
  }

  /**
   From when a session has carried out the command to go offline until it carries out the one to go online,
   it refuses everyone, and its pool gains no client.
   */
  lemma OfflineRefuses(s: State, before: seq<Action>, steps: seq<Action>, k: CallId)
    requires Init(s) && IsRun(s, before) && IsRun(After(s, before), steps) && k in After(s, before).calls
    requires StaysOffline(OrdersAfter(NO_ORDERS, before, k), steps, k)
    ensures var t := After(s, before);
            && RefusesAll(t, steps, k)
            && k in After(t, steps).calls && After(t, steps).calls[k].pool <= t.calls[k].pool
  {
    RunObeys(s, before, k, NO_ORDERS);
    OfflineRun(After(s, before), steps, k, OrdersAfter(NO_ORDERS, before, k));
  }
}
