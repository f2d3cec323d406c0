/**
 The law of the connection broker (streaming/acl.go): what it answers is determined by the calls made and
 the answers given before.
 */
module AccessLaw {
  import opened AccessControl

  datatype Query = Accept | Release | SetInhibit(inhibit: bool)

  /** What the controller is after a query... */
  function Asked(c: Control, query: Query): Control
  {
    match query
    case Accept => c.Accepted()
    case Release => c.Released()
    case SetInhibit(on) => c.(inhibit := on)
  }

  function AskedAll(c: Control, queries: seq<Query>): Control
  {
    if queries == [] then c else Asked(AskedAll(c, queries[..|queries| - 1]), queries[|queries| - 1])
  }

  /** ...and what it answers: whether it accepts, or whether there was a connection to remove. */
  function Answer(c: Control, query: Query): bool
  {
    match query
    case Accept => c.Admits()
    case Release => c.connections > 0
    case SetInhibit(_) => true
  }

  function Answers(c: Control, queries: seq<Query>): seq<bool>
  {
    if queries == [] then []
    else
      var init := queries[..|queries| - 1];
      Answers(c, init) + [Answer(AskedAll(c, init), queries[|queries| - 1])]
  }

  /** How many of the queries were `query` and answered yes. */
  function Yes(queries: seq<Query>, answers: seq<bool>, query: Query): nat
    requires |queries| == |answers|
  {
    if queries == [] then 0
    else
      var n := |queries| - 1;
      Yes(queries[..n], answers[..n], query) + if queries[n] == query && answers[n] then 1 else 0
  }

  lemma YesOneMore(queries: seq<Query>, answers: seq<bool>, last: Query, answer: bool)
    requires |queries| == |answers|
    ensures forall query: Query ::
              Yes(queries + [last], answers + [answer], query)
              == Yes(queries, answers, query) + if last == query && answer then 1 else 0
  {
    assert (queries + [last])[..|queries|] == queries && (answers + [answer])[..|queries|] == answers;
  }

  /** The connections accepted and not released again. */
  function Inside(queries: seq<Query>, answers: seq<bool>): int
    requires |queries| == |answers|
  {
    Yes(queries, answers, Accept) - Yes(queries, answers, Release)
  }

  /** The last inhibit or permission was an inhibit. */
  ghost predicate Inhibited(queries: seq<Query>)
  {
    exists i :: 0 <= i < |queries| && queries[i] == SetInhibit(true) && forall j :: i < j < |queries| ==> queries[j] != SetInhibit(false)
  }

  lemma InhibitedOneMore(queries: seq<Query>, query: Query)
    ensures Inhibited(queries + [query]) <==> query == SetInhibit(true) || (Inhibited(queries) && query != SetInhibit(false))
  {
    var all := queries + [query];
    if query == SetInhibit(true) {
      assert all[|queries|] == SetInhibit(true);
    } else if Inhibited(queries) && query != SetInhibit(false) {
      var i :| 0 <= i < |queries| && queries[i] == SetInhibit(true) && forall j :: i < j < |queries| ==> queries[j] != SetInhibit(false);
      assert all[i] == SetInhibit(true);
    }
    if Inhibited(all) && query != SetInhibit(true) {
      var i :| 0 <= i < |all| && all[i] == SetInhibit(true) && forall j :: i < j < |all| ==> all[j] != SetInhibit(false);
      assert queries[i] == SetInhibit(true) && all[|queries|] == query;
      assert forall j :: i < j < |queries| ==> all[j] == queries[j];
    }
  }

  /** The state is what the answers say. */
  lemma {:induction false} StateIsAnswered(n: nat, queries: seq<Query>)
    ensures var c := AskedAll(Control(n, 0, false), queries);
            && |Answers(Control(n, 0, false), queries)| == |queries|
            && c.max == n && c.connections == Inside(queries, Answers(Control(n, 0, false), queries))
            && (c.inhibit <==> Inhibited(queries))
  {
    if queries != [] {
      var init, last := queries[..|queries| - 1], queries[|queries| - 1];
      StateIsAnswered(n, init);
      InhibitedOneMore(init, last);
      assert queries == init + [last];
      var before, answer := Answers(Control(n, 0, false), init), Answer(AskedAll(Control(n, 0, false), init), last);
      assert Answers(Control(n, 0, false), queries) == before + [answer];
      YesOneMore(init, before, last, answer);
      assert Yes(queries, before + [answer], Accept) == Yes(init, before, Accept) + if last == Accept && answer then 1 else 0;
      assert Yes(queries, before + [answer], Release) == Yes(init, before, Release) + if last == Release && answer then 1 else 0;
    }
  }

  lemma {:induction false} AnswersOfPrefix(c: Control, queries: seq<Query>, i: nat)
    requires i <= |queries|
    ensures |Answers(c, queries)| == |queries| && Answers(c, queries[..i]) == Answers(c, queries)[..i]
  {
    if i < |queries| {
      AnswersOfPrefix(c, queries[..|queries| - 1], i);
      assert queries[..|queries| - 1][..i] == queries[..i];
    } else {
      assert queries[..i] == queries;
      if queries != [] {
        AnswersOfPrefix(c, queries[..|queries| - 1], 0);
      }
    }
  }

  /**
   The law of the controller: from its creation on, a connection is accepted exactly if the last inhibit
   was taken back and fewer connections than the limit, if there is one, were accepted and not
   released; a release finds one exactly if there is one.
   */
  lemma AnswersAreExact(n: nat, queries: seq<Query>, i: nat)
    requires i < |queries|
    ensures |Answers(Control(n, 0, false), queries)| == |queries|
    ensures var answers := Answers(Control(n, 0, false), queries);
            && (queries[i] == Accept ==>
                  (answers[i] <==> !Inhibited(queries[..i]) && (n == 0 || Inside(queries[..i], answers[..i]) < n)))
            && (queries[i] == Release ==> (answers[i] <==> Inside(queries[..i], answers[..i]) > 0))
            && 0 <= Inside(queries[..i], answers[..i]) && (n != 0 ==> Inside(queries[..i], answers[..i]) <= n)
  {
    var c := Control(n, 0, false);
    AnswersOfPrefix(c, queries, i);
    AnswersOfPrefix(c, queries, i + 1);
    assert queries[..i + 1][..i] == queries[..i];
    StateIsAnswered(n, queries[..i]);
    StaysWithinLimit(n, queries[..i]);
    assert Answers(c, queries[..i + 1])[i] == Answer(AskedAll(c, queries[..i]), queries[i]);
  }

  lemma {:induction false} StaysWithinLimit(n: nat, queries: seq<Query>)
    ensures AskedAll(Control(n, 0, false), queries).max == n && AskedAll(Control(n, 0, false), queries).WithinLimit()
  {
    if queries != [] {
      StaysWithinLimit(n, queries[..|queries| - 1]);
    }
  }

  /** The limit is reached: of calls that only ask for admission the first n are accepted and no more, or all if n is 0. */
  lemma {:induction false} LimitIsReached(n: nat, queries: seq<Query>)
    requires forall i :: 0 <= i < |queries| ==> queries[i] == Accept
    ensures |Answers(Control(n, 0, false), queries)| == |queries|
    ensures forall i :: 0 <= i < |queries| ==> (Answers(Control(n, 0, false), queries)[i] <==> n == 0 || i < n)
    ensures AskedAll(Control(n, 0, false), queries) == Control(n, if n == 0 || |queries| < n then |queries| else n, false)
  {
    if queries != [] {
      LimitIsReached(n, queries[..|queries| - 1]);
    }
  }
}
