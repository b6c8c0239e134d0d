/** Lists without duplicates that enumerate a set, of frames, threads or processes. */
module Lists {
  ghost predicate NoDup(s: seq<nat>) {
    forall i, j | 0 <= i < j < |s| :: s[i] != s[j]
  }

  /** s lists exactly the elements of p, each once. */
  ghost predicate Enum(s: seq<nat>, p: set<nat>) {
    NoDup(s) && forall x :: x in s <==> x in p
  }

  function Without(s: seq<nat>, x: nat): seq<nat> {
    if s == [] then [] else if s[0] == x then s[1..] else [s[0]] + Without(s[1..], x)
  }

  lemma {:induction false} WithoutHas(s: seq<nat>, x: nat, y: nat)
    requires NoDup(s)
    ensures y in Without(s, x) <==> y in s && y != x
  {
    if s != [] {
      assert s == [s[0]] + s[1..];
      if s[0] != x {
        WithoutHas(s[1..], x, y);
      } else {
        assert x !in s[1..];
      }
    }
  }

  lemma {:induction false} WithoutNoDup(s: seq<nat>, x: nat)
    requires NoDup(s)
    ensures NoDup(Without(s, x))
    ensures |Without(s, x)| == |s| - (if x in s then 1 else 0)
  {
    if s != [] && s[0] != x {
      WithoutNoDup(s[1..], x);
      WithoutHas(s[1..], x, s[0]);
    }
  }

  lemma {:induction false} WithoutAt(q: seq<nat>, i: nat)
    requires i < |q| && q[i] !in q[..i]
    ensures Without(q, q[i]) == q[..i] + q[i + 1..]
  {
    if i > 0 {
      assert q[0] in q[..i];
      assert q[1..][..i - 1] == q[..i][1..];
      WithoutAt(q[1..], i - 1);
    }
  }

  lemma {:induction false} WithoutNone(q: seq<nat>, x: nat)
    requires x !in q
    ensures Without(q, x) == q
  {
    if q != [] {
      WithoutNone(q[1..], x);
    }
  }

  lemma {:induction false} WithoutLast(q: seq<nat>)
    requires NoDup(q) && q != []
    ensures Without(q, q[|q| - 1]) == q[..|q| - 1]
  {
    if |q| > 1 {
      WithoutLast(q[1..]);
      assert q[1..][..|q| - 2] == q[1..|q| - 1];
    }
  }

  lemma EnumWithout(s: seq<nat>, p: set<nat>, x: nat)
    requires Enum(s, p)
    ensures Enum(Without(s, x), p - {x})
    ensures |Without(s, x)| == |s| - (if x in p then 1 else 0)
  {
    WithoutNoDup(s, x);
    forall y
      ensures y in Without(s, x) <==> y in p - {x}
    {
      WithoutHas(s, x, y);
    }
  }

  lemma EnumOne(s: seq<nat>, x: nat)
    requires Enum(s, {x})
    ensures s == [x]
  {
    EnumWithout(s, {x}, x);
    HeadIn(Without(s, x));
    HeadIn(s);
  }

  lemma HeadIn(s: seq<nat>)
    ensures s == [] || s[0] in s
  {
  }

  lemma EnumAdd(s: seq<nat>, p: set<nat>, x: nat)
    requires Enum(s, p) && x !in p
    ensures Enum(s + [x], p + {x}) && Enum([x] + s, p + {x})
  {
  }

  lemma NoDupAppend(s: seq<nat>, r: seq<nat>)
    requires NoDup(s) && NoDup(r) && forall x | x in s :: x !in r
    ensures NoDup(s + r)
  {
    forall i, j | 0 <= i < |s| && 0 <= j < |r|
      ensures s[i] != r[j]
    {
      assert s[i] in s && r[j] in r;
    }
  }

  /** The elements come in the order of their time stamps. */
  ghost predicate InOrder(s: seq<nat>, stamp: map<nat, nat>) {
    && (forall x | x in s :: x in stamp)
    && forall i, j | 0 <= i < j < |s| :: stamp[s[i]] < stamp[s[j]]
  }

  /** Taking one out keeps the order of the rest. */
  lemma {:induction false} WithoutOrder(s: seq<nat>, x: nat, stamp: map<nat, nat>)
    requires InOrder(s, stamp)
    ensures InOrder(Without(s, x), stamp)
    ensures forall y | y in Without(s, x) :: y in s
  {
    if s != [] {
      HeadFirst(s, stamp);
      assert s == [s[0]] + s[1..];
      if s[0] != x {
        WithoutOrder(s[1..], x, stamp);
        OrderPrepend(s[0], Without(s[1..], x), stamp);
      }
    }
  }

  lemma HeadFirst(s: seq<nat>, stamp: map<nat, nat>)
    requires InOrder(s, stamp) && s != []
    ensures s[0] in stamp && InOrder(s[1..], stamp) && forall y | y in s[1..] :: stamp[s[0]] < stamp[y]
  {
    assert forall i | 0 <= i < |s[1..]| :: s[1..][i] == s[i + 1];
  }

  lemma OrderPrepend(x: nat, s: seq<nat>, stamp: map<nat, nat>)
    requires InOrder(s, stamp) && x in stamp && forall y | y in s :: stamp[x] < stamp[y]
    ensures InOrder([x] + s, stamp)
  {
  }

  /** An element with the latest stamp goes to the back. */
  lemma OrderAppend(s: seq<nat>, x: nat, stamp: map<nat, nat>, now: nat)
    requires InOrder(s, stamp) && x !in s && forall y | y in s :: stamp[y] < now
    ensures InOrder(s + [x], stamp[x := now])
  {
  }
}
