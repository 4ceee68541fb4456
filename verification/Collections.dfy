module Collections {

  datatype Option<+T> = None | Some(value: T)

  lemma SomeInt(s: set<int>)
    ensures s == {} || exists x :: x in s
  {
    if forall x :: x !in s { assert s == {}; }
  }

  lemma SomeString(s: set<string>)
    ensures s == {} || exists x :: x in s
  {
    if forall x :: x !in s { assert s == {}; }
  }

  // What rest holds at one key, when whole had that key dropped or not.
  predicate Rest<T(==)>(whole: map<string, T>, rest: map<string, T>, key: string, dropped: bool) {
    (key in rest <==> key in whole && !dropped) && (key in rest ==> rest[key] == whole[key])
  }

  lemma SameMap<T>(a: map<string, T>, b: map<string, T>)
    requires forall key: string :: Rest(a, b, key, false)
    ensures a == b
  {
    assert forall key: string :: Rest(a, b, key, false) ==> (key in a <==> key in b);
  }

  // Of two sequences with the same elements, where the last of one stands in
  // the other, and what is left of both without it.
  lemma LastElsewhere<T>(first: seq<T>, second: seq<T>) returns (j: nat)
    requires first != [] && multiset(first) == multiset(second)
    ensures j < |second| && second[j] == first[|first| - 1]
    ensures multiset(first[..|first| - 1]) == multiset(second[..j] + second[j + 1..])
  {
    var n := |first| - 1;
    assert first == first[..n] + [first[n]];
    assert first[n] in multiset(second);
    j :| 0 <= j < |second| && second[j] == first[n];
    var rest := second[..j] + second[j + 1..];
    assert second == second[..j] + ([second[j]] + second[j + 1..]);
    assert multiset(rest) == multiset(second[..j]) + multiset(second[j + 1..]);
    CancelOne(multiset(first[..n]), multiset(rest), first[n]);
  }

  lemma CancelOne<T>(a: multiset<T>, b: multiset<T>, x: T)
    requires a + multiset{x} == b + multiset{x}
    ensures a == b
  {
    assert a == a + multiset{x} - multiset{x};
    assert b == b + multiset{x} - multiset{x};
  }

  lemma SameCount<T>(first: seq<T>, second: seq<T>)
    requires multiset(first) == multiset(second)
    ensures |first| == |second|
  {
    assert |multiset(first)| == |multiset(second)|;
  }
}
