/** The byte-wise string order behind sort.Strings, and the sorted enumeration
    of a set of strings that the reducers use to visit Go maps in a fixed order. */
module Order {

  /** Lexicographic order; a proper prefix comes first. */
  predicate StrLe(a: string, b: string) {
    a == [] || (b != [] && (a[0] < b[0] || (a[0] == b[0] && StrLe(a[1..], b[1..]))))
  }

  lemma {:induction false} StrLeTotal(a: string, b: string)
    ensures StrLe(a, b) || StrLe(b, a)
  {
    if a != [] && b != [] {
      StrLeTotal(a[1..], b[1..]);
    }
  }

  lemma {:induction false} StrLeAntisymmetric(a: string, b: string)
    requires StrLe(a, b) && StrLe(b, a)
    ensures a == b
  {
    if a != [] && b != [] {
      StrLeAntisymmetric(a[1..], b[1..]);
      assert a == [a[0]] + a[1..] && b == [b[0]] + b[1..];
    }
  }

  lemma {:induction false} StrLeTransitive(a: string, b: string, c: string)
    requires StrLe(a, b) && StrLe(b, c)
    ensures StrLe(a, c)
  {
    if a != [] && a[0] == b[0] && b[0] == c[0] {
      StrLeTransitive(a[1..], b[1..], c[1..]);
    }
  }

  /** `a` is a prefix of `b`, or smaller at the first place where they differ. */
  predicate Precedes(a: string, b: string) {
    a <= b || exists k :: 0 <= k < |a| && k < |b| && a[..k] == b[..k] && a[k] < b[k]
  }

  lemma {:induction false} StrLeIs(a: string, b: string)
    ensures StrLe(a, b) <==> Precedes(a, b)
    decreases |a|
  {
    if a != [] && b != [] && a[0] == b[0] {
      var x, y := a[1..], b[1..];
      StrLeIs(x, y);
      assert a == [a[0]] + x && b == [a[0]] + y;
      assert a <= b <==> x <= y;
      if k :| 0 <= k < |x| && k < |y| && x[..k] == y[..k] && x[k] < y[k] {
        assert a[..k + 1] == [a[0]] + x[..k] && b[..k + 1] == [a[0]] + y[..k] && a[k + 1] < b[k + 1];
      }
      if k :| 0 <= k < |a| && k < |b| && a[..k] == b[..k] && a[k] < b[k] {
        assert x[..k - 1] == a[..k][1..] && y[..k - 1] == b[..k][1..] && x[k - 1] < y[k - 1];
      }
    } else if a != [] && b != [] {
      assert a[..0] == b[..0];
      if k :| 0 <= k < |a| && k < |b| && a[..k] == b[..k] && a[k] < b[k] {
        assert k == 0 || a[..k][0] == b[..k][0];
      }
    }
  }

  predicate IsLeast(m: string, ids: set<string>) {
    m in ids && forall x | x in ids :: StrLe(m, x)
  }

  lemma {:induction false} LeastExists(ids: set<string>) returns (m: string)
    requires ids != {}
    ensures IsLeast(m, ids)
    decreases ids
  {
    var x :| x in ids;
    StrLeTotal(x, x);
    if ids == {x} {
      m := x;
    } else {
      var y := LeastExists(ids - {x});
      StrLeTotal(x, y);
      m := if StrLe(x, y) then x else y;
      forall z | z in ids ensures StrLe(m, z) {
        if z != x && m == x {
          StrLeTransitive(x, y, z);
        }
      }
    }
  }

  lemma LeastUnique(ids: set<string>)
    ensures forall a, b | IsLeast(a, ids) && IsLeast(b, ids) :: a == b
  {
    forall a, b | IsLeast(a, ids) && IsLeast(b, ids) ensures a == b {
      StrLeAntisymmetric(a, b);
    }
  }

  lemma LeastWitness(ids: set<string>)
    requires ids != {}
    ensures exists m :: IsLeast(m, ids)
  {
    var m := LeastExists(ids);
  }

  function Least(ids: set<string>): (m: string)
    requires ids != {}
    ensures IsLeast(m, ids)
  {
    LeastWitness(ids);
    LeastUnique(ids);
    var m :| IsLeast(m, ids);
    m
  }

  function Sorted(ids: set<string>): seq<string>
    decreases ids
  {
    if ids == {} then [] else
      var m := Least(ids);
      [m] + Sorted(ids - {m})
  }

  /** Sorted lists the elements in ascending order, each once. */
  lemma {:induction false} SortedIs(ids: set<string>)
    ensures forall x :: x in Sorted(ids) <==> x in ids
    ensures |Sorted(ids)| == |ids| && Distinct(Sorted(ids))
    ensures forall i, j | 0 <= i < j < |Sorted(ids)| :: StrLe(Sorted(ids)[i], Sorted(ids)[j])
    decreases ids
  {
    if ids != {} {
      SortedIs(ids - {Least(ids)});
    }
  }

  predicate Distinct<T(==)>(r: seq<T>) {
    forall i, j | 0 <= i < j < |r| :: r[i] != r[j]
  }
}
