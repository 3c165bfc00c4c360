/** Shared vocabulary: optional values and the two ends of a sequence. */
module Basics {

  datatype Option<+T> = None | Some(value: T)

  function Last<T>(s: seq<T>): T
    requires s != []
  {
    s[|s| - 1]
  }

  function Init<T>(s: seq<T>): seq<T>
    requires s != []
  {
    s[..|s| - 1]
  }

  lemma Snoc<T>(s: seq<T>)
    requires s != []
    ensures s == Init(s) + [Last(s)]
    ensures forall x :: x in s <==> x in Init(s) || x == Last(s)
  {
    assert s == Init(s) + [Last(s)];
  }

  /** `a` arises from `b` by leaving elements out. */
  predicate Subsequence<T(==)>(a: seq<T>, b: seq<T>) {
    a == []
    || (b != [] && ((Last(a) == Last(b) && Subsequence(Init(a), Init(b))) || Subsequence(a, Init(b))))
  }

  lemma {:induction false} SubsequenceAppend<T>(a: seq<T>, b: seq<T>, x: T)
    requires Subsequence(a, b)
    ensures Subsequence(a, b + [x]) && Subsequence(a + [x], b + [x])
  {
    assert Init(a + [x]) == a && Init(b + [x]) == b;
  }

  lemma {:induction false} SubsequenceReflexive<T>(a: seq<T>)
    ensures Subsequence(a, a)
  {
    if a != [] {
      SubsequenceReflexive(Init(a));
    }
  }

  lemma {:induction false} SubsequenceTransitive<T>(a: seq<T>, b: seq<T>, c: seq<T>)
    requires Subsequence(a, b) && Subsequence(b, c)
    ensures Subsequence(a, c)
    decreases |a| + |b| + |c|
  {
    if a != [] {
      if Last(b) == Last(c) && Subsequence(Init(b), Init(c)) {
        if Last(a) == Last(b) && Subsequence(Init(a), Init(b)) {
          SubsequenceTransitive(Init(a), Init(b), Init(c));
        } else {
          SubsequenceTransitive(a, Init(b), Init(c));
        }
      } else {
        SubsequenceTransitive(a, b, Init(c));
      }
    }
  }

  lemma {:induction false} SubsequenceConcat<T>(a: seq<T>, b: seq<T>, c: seq<T>)
    requires Subsequence(a, b)
    ensures Subsequence(a, b + c) && Subsequence(a + c, b + c)
  {
    if c == [] {
      assert a + c == a && b + c == b;
    } else {
      SubsequenceConcat(a, b, Init(c));
      Snoc(c);
      assert a + c == (a + Init(c)) + [Last(c)] && b + c == (b + Init(c)) + [Last(c)];
      SubsequenceAppend(a + Init(c), b + Init(c), Last(c));
      SubsequenceAppend(a, b + Init(c), Last(c));
    }
  }

  lemma {:induction false} SubsequenceMembers<T>(a: seq<T>, b: seq<T>)
    requires Subsequence(a, b)
    ensures forall x :: x in a ==> x in b
  {
    if a != [] {
      Snoc(a);
      Snoc(b);
      if Last(a) == Last(b) && Subsequence(Init(a), Init(b)) {
        SubsequenceMembers(Init(a), Init(b));
      } else {
        SubsequenceMembers(a, Init(b));
      }
    }
  }
}
