/** Lexicographic order on strings, and a set listed in that order. */
module SortedStrings {
  predicate AtMost(a: string, b: string) {
    a == [] || (b != [] && (a[0] < b[0] || (a[0] == b[0] && AtMost(a[1..], b[1..]))))
  }

  lemma Total(a: string, b: string)
    ensures AtMost(a, b) || AtMost(b, a)
  {
  }

  lemma {:induction false} Antisymmetric(a: string, b: string)
    requires AtMost(a, b) && AtMost(b, a)
    ensures a == b
  {
    if a != [] {
      Antisymmetric(a[1..], b[1..]);
      assert a == [a[0]] + a[1..] && b == [b[0]] + b[1..];
    }
  }

  lemma {:induction false} Transitive(a: string, b: string, c: string)
    requires AtMost(a, b) && AtMost(b, c)
    ensures AtMost(a, c)
  {
    if a != [] && a[0] == b[0] == c[0] {
      Transitive(a[1..], b[1..], c[1..]);
    }
  }

  predicate IsLeast(m: string, s: set<string>) {
    m in s && forall x :: x in s ==> AtMost(m, x)
  }

  lemma {:induction false} UniqueLeast(s: set<string>)
    requires s != {}
    ensures exists m :: IsLeast(m, s)
    ensures forall a, b :: IsLeast(a, s) && IsLeast(b, s) ==> a == b
  {
    var x :| x in s;
    Total(x, x);
    if s == {x} {
      assert IsLeast(x, s);
    } else {
      UniqueLeast(s - {x});
      var y :| IsLeast(y, s - {x});
      Total(x, y);
      var m := if AtMost(x, y) then x else y;
      forall z | z in s ensures AtMost(m, z) {
        if z != x && m == x { Transitive(x, y, z); }
      }
      assert IsLeast(m, s);
    }
    forall a, b | IsLeast(a, s) && IsLeast(b, s) ensures a == b { Antisymmetric(a, b); }
  }

  ghost predicate Ordered(list: seq<string>) {
    forall i, j :: 0 <= i < j < |list| ==> AtMost(list[i], list[j]) && list[i] != list[j]
  }

  /** `sorted(set(values))` */
  function Sorted(s: set<string>): (list: seq<string>)
    ensures Ordered(list)
    ensures forall x :: x in list <==> x in s
  {
    if s == {} then []
    else
      UniqueLeast(s);
      var m :| IsLeast(m, s);
      [m] + Sorted(s - {m})
  }

  /** There is only one ordered list of given elements. */
  lemma {:induction false} OrderedOnce(a: seq<string>, b: seq<string>)
    requires Ordered(a) && Ordered(b) && forall x :: x in a <==> x in b
    ensures a == b
  {
    assert (b != [] ==> b[0] in a) && (a != [] ==> a[0] in b);
    if a != [] {
      FirstIsLeast(a, b[0]);
      FirstIsLeast(b, a[0]);
      Antisymmetric(a[0], b[0]);
      forall x ensures x in a[1..] <==> x in b[1..] {
        assert x in a[1..] <==> x in a && x != a[0];
        assert x in b[1..] <==> x in b && x != b[0];
      }
      OrderedOnce(a[1..], b[1..]);
    }
  }

  lemma FirstIsLeast(list: seq<string>, x: string)
    requires Ordered(list) && x in list
    ensures AtMost(list[0], x)
  {
    Total(list[0], list[0]);
    var k :| 0 <= k < |list| && list[k] == x;
  }
}
