/** Small vocabulary shared by every module: optional values and duplicate-free ID lists. */
module Basics {

  datatype Option<+T> = None | Some(value: T)

  ghost predicate NoDup<T>(s: seq<T>) {
    forall i, j :: 0 <= i < j < |s| ==> s[i] != s[j]
  }

  ghost predicate Apart<T(!new)>(s: seq<T>, t: seq<T>) {
    forall x :: x in s ==> x !in t
  }

  ghost function SetOf<T(!new)>(s: seq<T>): (r: set<T>)
    ensures forall x :: x in r <==> x in s
  {
    set x | x in s
  }

  lemma {:induction false} SetOfSize<T(!new)>(s: seq<T>)
    ensures |SetOf(s)| <= |s|
    ensures NoDup(s) ==> |SetOf(s)| == |s|
  {
    if s != [] {
      var n := |s| - 1;
      SetOfSize(s[..n]);
      assert s == s[..n] + [s[n]];
      assert SetOf(s) == SetOf(s[..n]) + {s[n]};
    }
  }

  lemma {:induction false} SubsetSize<T>(a: set<T>, b: set<T>)
    requires a <= b
    ensures |a| <= |b|
  {
    if a != {} {
      var x :| x in a;
      SubsetSize(a - {x}, b - {x});
    }
  }

  lemma SetSizes<T>(a: set<T>, b: set<T>, c: set<T>)
    requires a <= b + c
    ensures |a| <= |b| + |c|
  {
    SubsetSize(c - b, c);
    assert b + c == b + (c - b);
    SubsetSize(a, b + c);
  }
}
