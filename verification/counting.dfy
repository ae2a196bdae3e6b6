/** Counting elements of a sequence, and comparing sets through a map. */
module Counting {

  ghost function CountIf<T>(s: seq<T>, p: T -> bool): (n: nat)
    ensures n <= |s|
  {
    if s == [] then 0
    else CountIf(s[..|s| - 1], p) + (if p(s[|s| - 1]) then 1 else 0)
  }

  lemma {:induction false} CountUpdate<T>(s: seq<T>, p: T -> bool, i: nat, x: T)
    requires i < |s|
    ensures CountIf(s[i := x], p) + (if p(s[i]) then 1 else 0) == CountIf(s, p) + (if p(x) then 1 else 0)
    decreases |s|
  {
    var u := s[i := x];
    if i == |s| - 1 {
      assert u[..|s| - 1] == s[..|s| - 1];
    } else {
      assert u[..|s| - 1] == s[..|s| - 1][i := x];
      CountUpdate(s[..|s| - 1], p, i, x);
    }
  }

  lemma {:induction false} CountNone<T>(s: seq<T>, p: T -> bool)
    requires forall i :: 0 <= i < |s| ==> !p(s[i])
    ensures CountIf(s, p) == 0
  {
    if s != [] { CountNone(s[..|s| - 1], p); }
  }

  lemma {:induction false} CountImplies<T>(s: seq<T>, t: seq<T>, p: T -> bool, q: T -> bool)
    requires |s| == |t| && forall i :: 0 <= i < |s| && p(s[i]) ==> q(t[i])
    ensures CountIf(s, p) <= CountIf(t, q)
  {
    if s != [] { CountImplies(s[..|s| - 1], t[..|t| - 1], p, q); }
  }

  lemma {:induction false} SubsetSize(a: set<nat>, b: set<nat>)
    requires a <= b
    ensures |a| <= |b|
  {
    if a != {} {
      var x :| x in a;
      SubsetSize(a - {x}, b - {x});
    }
  }

  // A set all of whose members are images of another's is no larger.
  lemma {:induction false} ImageBound(a: set<nat>, b: set<nat>, f: nat -> nat)
    requires forall x :: x in a ==> exists y :: y in b && f(y) == x
    ensures |a| <= |b|
    decreases |b|
  {
    if a != {} {
      var x :| x in a;
      var y :| y in b && f(y) == x;
      forall z | z in a - {x}
        ensures exists v :: v in b - {y} && f(v) == z
      {
        var v :| v in b && f(v) == z;
        assert v in b - {y};
      }
      ImageBound(a - {x}, b - {y}, f);
    }
  }

  // The same when the map is a table.
  lemma OwnersBound(a: set<nat>, b: set<nat>, own: seq<nat>)
    requires forall x :: x in a ==> exists y :: y in b && y < |own| && own[y] == x
    ensures |a| <= |b|
  {
    var f := (y: nat) => if y < |own| then own[y] else 0;
    forall x | x in a
      ensures exists y :: y in b && f(y) == x
    {
      var y :| y in b && y < |own| && own[y] == x;
      assert f(y) == x;
    }
    ImageBound(a, b, f);
  }

  ghost function SumBy<T>(s: seq<T>, f: T -> nat): nat {
    if s == [] then 0 else SumBy(s[..|s| - 1], f) + f(s[|s| - 1])
  }

  lemma {:induction false} SumUpdate<T>(s: seq<T>, f: T -> nat, i: nat, x: T)
    requires i < |s|
    ensures SumBy(s[i := x], f) + f(s[i]) == SumBy(s, f) + f(x)
    decreases |s|
  {
    var u := s[i := x];
    if i == |s| - 1 {
      assert u[..|s| - 1] == s[..|s| - 1];
    } else {
      assert u[..|s| - 1] == s[..|s| - 1][i := x];
      SumUpdate(s[..|s| - 1], f, i, x);
    }
  }

  lemma {:induction false} SumConstant<T>(s: seq<T>, f: T -> nat, k: nat)
    requires forall i :: 0 <= i < |s| ==> f(s[i]) == k
    ensures SumBy(s, f) == k * |s|
  {
    if s != [] { SumConstant(s[..|s| - 1], f, k); }
  }
}
