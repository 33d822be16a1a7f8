/** A Redis sorted set: members with scores, ordered by score and, among equal
    scores, by the member text. */
module SortedSet {
  import opened Options

  type ZSet = map<string, real>

  predicate LexLeq(a: string, b: string) {
    a == [] || (b != [] && (a[0] < b[0] || (a[0] == b[0] && LexLeq(a[1..], b[1..]))))
  }

  predicate Before(z: ZSet, a: string, b: string)
    requires a in z && b in z
  {
    z[a] < z[b] || (z[a] == z[b] && LexLeq(a, b))
  }

  ghost predicate IsMin(z: ZSet, m: string) {
    m in z && forall x :: x in z ==> Before(z, m, x)
  }

  /** `ZRANGEBYSCORE key lo hi`: bounds inclusive, in the set's order. */
  ghost predicate IsRange(z: ZSet, lo: real, hi: real, members: seq<string>) {
    && Enumerates(members, set x | x in z && lo <= z[x] <= hi)
    && forall i, k :: 0 <= i < k < |members| ==>
         members[i] in z && members[k] in z && Before(z, members[i], members[k])
  }

  lemma {:induction false} LexTotal(a: string, b: string)
    ensures LexLeq(a, b) || LexLeq(b, a)
    ensures LexLeq(a, b) && LexLeq(b, a) ==> a == b
    decreases |a|
  {
    if a != [] && b != [] && a[0] == b[0] {
      LexTotal(a[1..], b[1..]);
      assert a == [a[0]] + a[1..] && b == [b[0]] + b[1..];
    }
  }

  /** The order of texts: a prefix comes first, else the first difference decides. */
  lemma {:induction false} LexLeqIff(a: string, b: string)
    ensures LexLeq(a, b) <==>
            a <= b || exists k :: 0 <= k < |a| && k < |b| && a[..k] == b[..k] && a[k] < b[k]
    decreases |a|
  {
    if a != [] && b != [] && a[0] == b[0] {
      LexLeqIff(a[1..], b[1..]);
      assert a == [a[0]] + a[1..] && b == [b[0]] + b[1..];
      if k :| 0 <= k < |a| && k < |b| && a[..k] == b[..k] && a[k] < b[k] {
        assert a[1..][..k - 1] == a[..k][1..] && b[1..][..k - 1] == b[..k][1..];
        assert a[1..][k - 1] < b[1..][k - 1];
      }
      if k :| 0 <= k < |a[1..]| && k < |b[1..]| && a[1..][..k] == b[1..][..k] && a[1..][k] < b[1..][k] {
        assert a[..k + 1] == [a[0]] + a[1..][..k] && b[..k + 1] == [b[0]] + b[1..][..k];
        assert a[k + 1] < b[k + 1];
      }
    } else if a != [] && b != [] {
      assert a[..0] == b[..0];
    }
  }

  lemma LexAntisymmetric(a: string, b: string)
    requires LexLeq(a, b) && LexLeq(b, a)
    ensures a == b
  {
    LexTotal(a, b);
  }

  lemma {:induction false} LexTransitive(a: string, b: string, c: string)
    requires LexLeq(a, b) && LexLeq(b, c)
    ensures LexLeq(a, c)
    decreases |a|
  {
    if a != [] && a[0] == b[0] && b[0] == c[0] {
      LexTransitive(a[1..], b[1..], c[1..]);
    }
  }

  lemma BeforeTransitive(z: ZSet, a: string, b: string, c: string)
    requires a in z && b in z && c in z && Before(z, a, b) && Before(z, b, c)
    ensures Before(z, a, c)
  {
    if z[a] == z[c] {
      LexTransitive(a, b, c);
    }
  }

  /** Which member ZPOPMIN takes is determined by the set alone. */
  lemma MinUnique(z: ZSet, a: string, b: string)
    requires IsMin(z, a) && IsMin(z, b)
    ensures a == b
  {
    LexTotal(a, b);
  }

  /** The member ZPOPMIN would take, found by one pass over the members. */
  method FindMin(z: ZSet) returns (m: string)
    requires z != map[]
    ensures IsMin(z, m)
  {
    var rest := z.Keys;
    m :| m in rest;
    rest := rest - {m};
    LexTotal(m, m);
    while rest != {}
      invariant rest <= z.Keys && m in z && m !in rest
      invariant forall x :: x in z && x !in rest ==> Before(z, m, x)
      decreases |rest|
    {
      var x :| x in rest;
      rest := rest - {x};
      LexTotal(x, x);
      LexTotal(m, x);
      if !Before(z, m, x) {
        forall y | y in z && y !in rest
          ensures Before(z, x, y)
        {
          if y != x {
            BeforeTransitive(z, x, m, y);
          }
        }
        m := x;
      }
    }
  }

  lemma {:induction false} MinExists(z: ZSet, keys: set<string>)
    requires keys <= z.Keys && keys != {}
    ensures exists m :: m in keys && forall x :: x in keys ==> Before(z, m, x)
    decreases |keys|
  {
    var k :| k in keys;
    LexTotal(k, k);
    var rest := keys - {k};
    if rest == {} {
      assert keys == {k};
      assert k in keys && forall x :: x in keys ==> Before(z, k, x);
    } else {
      MinExists(z, rest);
      var m :| m in rest && forall x :: x in rest ==> Before(z, m, x);
      LexTotal(k, m);
      if Before(z, m, k) {
        assert m in keys && forall x :: x in keys ==> Before(z, m, x);
      } else {
        forall x | x in keys ensures Before(z, k, x) {
          if x != k { BeforeTransitive(z, k, m, x); }
        }
      }
    }
  }

  ghost function MinMember(z: ZSet): (m: string)
    requires z != map[]
    ensures IsMin(z, m)
  {
    MinExists(z, z.Keys);
    var m :| m in z.Keys && forall x :: x in z.Keys ==> Before(z, m, x);
    m
  }

  /** The members taken so far are in order, and ahead of all that remain. */
  ghost predicate TakenInOrder(z: ZSet, members: seq<string>, rest: ZSet) {
    && (forall x :: x in members ==> x in z && x !in rest) && Distinct(members)
    && (forall x :: x in rest ==> x in z && rest[x] == z[x])
    && (forall i, k :: 0 <= i < k < |members| ==> Before(z, members[i], members[k]))
    && forall i, x :: 0 <= i < |members| && x in rest ==> Before(z, members[i], x)
  }

  lemma TakeNext(z: ZSet, members: seq<string>, rest: ZSet, m: string)
    requires TakenInOrder(z, members, rest) && IsMin(rest, m)
    ensures TakenInOrder(z, members + [m], rest - {m})
  {
    hide LexLeq;
    assert forall x :: x in rest ==> Before(rest, m, x);
  }

  /** ZRANGEBYSCORE as repeated extraction of the least remaining member. */
  method RangeByScore(z: ZSet, lo: real, hi: real) returns (members: seq<string>)
    ensures IsRange(z, lo, hi, members)
  {
    hide LexLeq, IsMin;
    var rest := map x | x in z && lo <= z[x] <= hi :: z[x];
    ghost var all := rest;
    members := [];
    while rest != map[]
      invariant forall x :: x in all <==> x in members || x in rest
      invariant TakenInOrder(z, members, rest)
      decreases |rest|
    {
      var m := FindMin(rest);
      TakeNext(z, members, rest, m);
      assert m in rest by { MinIsIn(rest, m); }
      members := members + [m];
      rest := rest - {m};
    }
  }

  lemma MinIsIn(z: ZSet, m: string)
    requires IsMin(z, m)
    ensures m in z
  {
  }
}
