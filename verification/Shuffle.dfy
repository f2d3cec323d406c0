/**
 The Fisher-Yates shuffle (util/shuffle.go). The random choices are a parameter: in round i an index
 between i and the end. The shuffle reaches every arrangement, and each by exactly one vector of
 choices if the elements are distinct, so uniform choices give uniform shuffles.
 */
module Shuffle {
  import opened Lists

  function Swap<T>(s: seq<T>, i: nat, j: nat): (t: seq<T>)
    requires i < |s| && j < |s|
    ensures |t| == |s| && t[i] == s[j] && t[j] == s[i]
    ensures forall k :: 0 <= k < |s| && k != i && k != j ==> t[k] == s[k]
  {
    s[i := s[j]][j := s[i]]
  }

  /** One index per position, not before it. */
  predicate Choices(choices: seq<nat>, n: nat)
  {
    |choices| == n && forall i :: 0 <= i < n ==> i <= choices[i] < n
  }

  /** The list after the rounds from `i` on. */
  function Rounds<T>(s: seq<T>, choices: seq<nat>, i: nat): (t: seq<T>)
    requires Choices(choices, |s|) && i <= |s|
    ensures |t| == |s|
    decreases |s| - i
  {
    if i == |s| then s else Rounds(Swap(s, i, choices[i]), choices, i + 1)
  }

  function Shuffled<T>(s: seq<T>, choices: seq<nat>): seq<T>
    requires Choices(choices, |s|)
  {
    Rounds(s, choices, 0)
  }

  lemma SwapKeepsElements<T>(s: seq<T>, i: nat, j: nat)
    requires i <= j < |s|
    ensures multiset(Swap(s, i, j)) == multiset(s)
  {
    var t := Swap(s, i, j);
    if i == j {
      assert t == s;
    } else {
      assert s == s[..i] + [s[i]] + s[i + 1..j] + [s[j]] + s[j + 1..];
      assert t == s[..i] + [s[j]] + s[i + 1..j] + [s[i]] + s[j + 1..];
    }
  }

  /** The rounds from `i` on rearrange the list without touching what comes before. */
  lemma {:induction false} RoundsRearrange<T>(s: seq<T>, choices: seq<nat>, i: nat)
    requires Choices(choices, |s|) && i <= |s|
    ensures multiset(Rounds(s, choices, i)) == multiset(s)
    ensures Rounds(s, choices, i)[..i] == s[..i]
    decreases |s| - i
  {
    if i < |s| {
      var t := Swap(s, i, choices[i]);
      SwapKeepsElements(s, i, choices[i]);
      RoundsRearrange(t, choices, i + 1);
      var u := Rounds(s, choices, i);
      assert u[..i] == u[..i + 1][..i] == t[..i + 1][..i] == s[..i];
    }
  }

  // ---------- From an arrangement back to the choices ----------

  function Find<T(==)>(s: seq<T>, x: T, i: nat): (r: nat)
    requires i <= |s| && x in s[i..]
    ensures i <= r < |s| && s[r] == x
    ensures forall k :: i <= k < r ==> s[k] != x
    decreases |s| - i
  {
    if s[i] == x then i
    else
      assert s[i..] == [s[i]] + s[i + 1..];
      Find(s, x, i + 1)
  }

  lemma SameRest<T>(s: seq<T>, t: seq<T>, i: nat)
    requires multiset(s) == multiset(t) && i <= |s| && |s| == |t| && s[..i] == t[..i]
    ensures multiset(s[i..]) == multiset(t[i..])
  {
    assert s == s[..i] + s[i..] && t == t[..i] + t[i..];
    assert multiset(s[i..]) == multiset(s) - multiset(s[..i]);
    assert multiset(t[i..]) == multiset(t) - multiset(t[..i]);
  }

  /** The lists hold the same elements and agree before index `i`. */
  ghost predicate AgreeBefore<T>(s: seq<T>, t: seq<T>, i: nat)
  {
    |s| == |t| && i <= |s| && multiset(s) == multiset(t) && s[..i] == t[..i]
  }

  lemma NextIsThere<T>(s: seq<T>, t: seq<T>, i: nat)
    requires AgreeBefore(s, t, i) && i < |s|
    ensures t[i] in s[i..]
  {
    SameRest(s, t, i);
    assert t[i] == t[i..][0];
    assert t[i] in multiset(t[i..]);
  }

  lemma SwapAgreesFurther<T>(s: seq<T>, t: seq<T>, i: nat, r: nat)
    requires AgreeBefore(s, t, i) && i <= r < |s| && s[r] == t[i]
    ensures AgreeBefore(Swap(s, i, r), t, i + 1)
  {
    SwapKeepsElements(s, i, r);
    assert Swap(s, i, r)[..i + 1] == s[..i] + [t[i]] == t[..i + 1];
  }

  /** The choices, from round `i` on, that take `s` to `t`; the rounds before are left alone. */
  ghost function ChoicesFrom<T>(s: seq<T>, t: seq<T>, i: nat): (choices: seq<nat>)
    requires AgreeBefore(s, t, i)
    ensures |choices| == |s| - i && forall k :: 0 <= k < |choices| ==> i + k <= choices[k] < |s|
    decreases |s| - i
  {
    if i == |s| then []
    else
      NextIsThere(s, t, i);
      var r := Find(s, t[i], i);
      SwapAgreesFurther(s, t, i, r);
      [r] + ChoicesFrom(Swap(s, i, r), t, i + 1)
  }

  lemma {:induction false} ChoicesLeadThere<T>(s: seq<T>, t: seq<T>, i: nat, choices: seq<nat>)
    requires AgreeBefore(s, t, i)
    requires Choices(choices, |s|) && choices[i..] == ChoicesFrom(s, t, i)
    ensures Rounds(s, choices, i) == t
    decreases |s| - i
  {
    if i == |s| {
      assert s == s[..i] && t == t[..i];
    } else {
      NextIsThere(s, t, i);
      var r := Find(s, t[i], i);
      SwapAgreesFurther(s, t, i, r);
      assert choices[i] == choices[i..][0] == r;
      assert choices[i + 1..] == choices[i..][1..];
      ChoicesLeadThere(Swap(s, i, r), t, i + 1, choices);
    }
  }

  /** Every arrangement of the list is the result of some choices. */
  lemma ShuffleReachesAll<T>(s: seq<T>, t: seq<T>)
    requires multiset(s) == multiset(t)
    ensures exists choices :: Choices(choices, |s|) && Shuffled(s, choices) == t
  {
    assert |s| == |multiset(s)| == |multiset(t)| == |t|;
    var choices := ChoicesFrom(s, t, 0);
    assert choices[0..] == choices;
    ChoicesLeadThere(s, t, 0, choices);
  }

  lemma SwapKeepsDistinct<T>(s: seq<T>, i: nat, j: nat)
    requires i <= j < |s| && Distinct(s)
    ensures Distinct(Swap(s, i, j))
  {
  }

  /** Round i decides what stands at index i in the end. */
  lemma FirstChoice<T>(s: seq<T>, choices: seq<nat>, i: nat)
    requires Choices(choices, |s|) && i < |s|
    ensures |Rounds(s, choices, i)| == |s| && Rounds(s, choices, i)[i] == s[choices[i]]
  {
    var t := Swap(s, i, choices[i]);
    RoundsRearrange(t, choices, i + 1);
    assert t[..i + 1][i] == Rounds(s, choices, i)[..i + 1][i];
  }

  lemma {:induction false} RoundsDetermineChoices<T>(s: seq<T>, a: seq<nat>, b: seq<nat>, i: nat)
    requires Distinct(s) && Choices(a, |s|) && Choices(b, |s|) && i <= |s|
    requires Rounds(s, a, i) == Rounds(s, b, i)
    ensures a[i..] == b[i..]
    decreases |s| - i
  {
    if i < |s| {
      var sa, sb := Swap(s, i, a[i]), Swap(s, i, b[i]);
      FirstChoice(s, a, i);
      FirstChoice(s, b, i);
      assert a[i] == b[i];
      SwapKeepsDistinct(s, i, a[i]);
      RoundsDetermineChoices(sa, a, b, i + 1);
      assert a[i..] == [a[i]] + a[i + 1..] && b[i..] == [b[i]] + b[i + 1..];
    }
  }

  function InPlace(n: nat): (choices: seq<nat>)
    ensures Choices(choices, n)
  {
    seq(n, i => i)
  }

  lemma {:induction false} InPlaceChangesNothing<T>(s: seq<T>, choices: seq<nat>, i: nat)
    requires Choices(choices, |s|) && i <= |s|
    requires forall k :: i <= k < |s| ==> Swap(s, k, choices[k]) == s
    ensures Rounds(s, choices, i) == s
    decreases |s| - i
  {
    if i < |s| {
      InPlaceChangesNothing(s, choices, i + 1);
    }
  }

  /** Different vectors of choices give different arrangements. */
  ghost predicate Injective<T(!new)>(s: seq<T>)
  {
    forall a, b :: Choices(a, |s|) && Choices(b, |s|) && Shuffled(s, a) == Shuffled(s, b) ==> a == b
  }

  /** Choosing one of two equal elements or the other gives the same result. */
  lemma RepeatedElementsConfuse<T(!new)>(s: seq<T>, i: nat, j: nat)
    requires i < j < |s| && s[i] == s[j]
    ensures !Injective(s)
  {
    var a := InPlace(|s|);
    var b := a[i := j];
    assert forall k :: 0 <= k < |s| ==> Swap(s, k, a[k]) == s && Swap(s, k, b[k]) == s;
    InPlaceChangesNothing(s, a, 0);
    InPlaceChangesNothing(s, b, 0);
    assert Shuffled(s, a) == Shuffled(s, b) && a[i] != b[i];
  }

  /** Different choices give different arrangements exactly if the elements are distinct. */
  lemma ShuffleIsExact<T(!new)>(s: seq<T>)
    ensures Injective(s) <==> Distinct(s)
  {
    if Distinct(s) {
      forall a, b | Choices(a, |s|) && Choices(b, |s|) && Shuffled(s, a) == Shuffled(s, b)
        ensures a == b
      {
        RoundsDetermineChoices(s, a, b, 0);
        assert a[0..] == a && b[0..] == b;
      }
    } else {
      var i, j :| 0 <= i < j < |s| && s[i] == s[j];
      RepeatedElementsConfuse(s, i, j);
    }
  }

  // ---------- The implementation ----------

  /**
   Shuffles a copy. `draws[i]` is what the random source answers in round i: a number below N - i.
   */
  method ShuffleCopy<T>(list: array<T>, draws: seq<nat>) returns (ret: array<T>)
    requires |draws| == list.Length && forall i :: 0 <= i < |draws| ==> draws[i] < list.Length - i
    ensures fresh(ret)
    ensures list[..] == old(list[..])
    ensures var choices := seq(|draws|, i requires 0 <= i < |draws| => i + draws[i]);
            Choices(choices, list.Length) && ret[..] == Shuffled(list[..], choices)
    ensures multiset(ret[..]) == multiset(list[..])
  {
    var n := list.Length;
    ret := new T[n](i requires 0 <= i < n reads list => list[i]);
    assert ret[..] == list[..];
    ghost var choices := seq(|draws|, i requires 0 <= i < |draws| => i + draws[i]);
    assert Choices(choices, n);
    for i := 0 to n
      invariant fresh(ret) && ret.Length == n && list[..] == old(list[..])
      invariant Rounds(ret[..], choices, i) == Shuffled(old(list[..]), choices)
    {
      var r := i + draws[i];
      ghost var before := ret[..];
      ret[r], ret[i] := ret[i], ret[r];
      assert ret[..] == Swap(before, i, r);
    }
    RoundsRearrange(list[..], choices, 0);
  }
}
