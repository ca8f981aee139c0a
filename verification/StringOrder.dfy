/** Python's `sorted` on a set of strings: code-point order, ascending, without repetition. */
module StringOrder {

  predicate Leq(a: string, b: string) {
    a == [] || (b != [] && (a[0] < b[0] || (a[0] == b[0] && Leq(a[1..], b[1..]))))
  }

  lemma {:induction false} LeqTotal(a: string, b: string)
    ensures Leq(a, b) || Leq(b, a)
  {
    if a != [] && b != [] && a[0] == b[0] {
      LeqTotal(a[1..], b[1..]);
    }
  }

  lemma {:induction false} LeqAntisymmetric(a: string, b: string)
    requires Leq(a, b) && Leq(b, a)
    ensures a == b
  {
    if a != [] {
      LeqAntisymmetric(a[1..], b[1..]);
      assert a == [a[0]] + a[1..] && b == [b[0]] + b[1..];
    }
  }

  lemma {:induction false} LeqTransitive(a: string, b: string, c: string)
    requires Leq(a, b) && Leq(b, c)
    ensures Leq(a, c)
  {
    if a != [] && a[0] == b[0] && b[0] == c[0] {
      LeqTransitive(a[1..], b[1..], c[1..]);
    }
  }

  /** Ascending and free of repetition. */
  ghost predicate Ascending(ids: seq<string>) {
    forall i, j :: 0 <= i < j < |ids| ==> Leq(ids[i], ids[j]) && ids[i] != ids[j]
  }

  ghost function Elements(ids: seq<string>): set<string> {
    set id | id in ids
  }

  predicate IsLeast(id: string, ids: set<string>) {
    id in ids && forall other :: other in ids ==> Leq(id, other)
  }

  lemma {:induction false} LeastExists(ids: set<string>)
    requires ids != {}
    ensures exists id :: IsLeast(id, ids)
    decreases |ids|
  {
    var x :| x in ids;
    var rest := ids - {x};
    LeqTotal(x, x);
    if rest == {} {
      assert ids == {x};
      assert IsLeast(x, ids);
    } else {
      LeastExists(rest);
      var m :| IsLeast(m, rest);
      LeqTotal(x, m);
      if Leq(x, m) {
        forall other | other in ids ensures Leq(x, other) {
          if other != x { LeqTransitive(x, m, other); }
        }
        assert IsLeast(x, ids);
      } else {
        assert IsLeast(m, ids);
      }
    }
  }

  function Least(ids: set<string>): (id: string)
    requires ids != {}
    ensures IsLeast(id, ids)
  {
    LeastExists(ids);
    assert forall a, b :: IsLeast(a, ids) && IsLeast(b, ids) ==> a == b by {
      forall a, b | IsLeast(a, ids) && IsLeast(b, ids) ensures a == b { LeqAntisymmetric(a, b); }
    }
    var id :| IsLeast(id, ids);
    id
  }

  lemma {:induction false} PrependLeast(first: string, rest: seq<string>, ids: set<string>)
    requires IsLeast(first, ids) && Ascending(rest) && Elements(rest) == ids - {first}
    ensures Ascending([first] + rest) && Elements([first] + rest) == ids
  {
    hide Leq;
    var all := [first] + rest;
    assert forall j :: 0 <= j < |rest| ==> rest[j] in Elements(rest);
    forall i, j | 0 <= i < j < |all| ensures Leq(all[i], all[j]) && all[i] != all[j] {
      assert all[j] == rest[j - 1];
      if i > 0 { assert all[i] == rest[i - 1]; }
    }
    forall id ensures id in Elements(all) <==> id in ids {
      assert id in all <==> id == first || id in rest;
      assert id in rest <==> id in Elements(rest);
    }
  }

  /** `sorted(ids)`. */
  function Sorted(ids: set<string>): (r: seq<string>)
    ensures Ascending(r) && Elements(r) == ids
    decreases |ids|
  {
    if ids == {} then []
    else
      var first := Least(ids);
      var rest := Sorted(ids - {first});
      PrependLeast(first, rest, ids);
      [first] + rest
  }

  lemma {:induction false} EmptyElements(a: seq<string>)
    ensures a == [] <==> Elements(a) == {}
  {
    if a != [] { assert a[0] in Elements(a); }
  }

  lemma {:induction false} TailElements(a: seq<string>)
    requires a != [] && Ascending(a)
    ensures Elements(a[1..]) == Elements(a) - {a[0]}
  {
    forall id | id in Elements(a) - {a[0]} ensures id in a[1..] {
      var i :| 0 <= i < |a| && a[i] == id;
      assert a[1..][i - 1] == id;
    }
  }

  /** A set has one ascending listing, so an ascending sequence with the right elements is `sorted`. */
  lemma {:induction false} AscendingUnique(a: seq<string>, b: seq<string>)
    requires Ascending(a) && Ascending(b) && Elements(a) == Elements(b)
    ensures a == b
  {
    assert forall id :: id in a <==> id in Elements(a);
    assert forall id :: id in b <==> id in Elements(b);
    EmptyElements(a);
    EmptyElements(b);
    if a != [] {
      assert a[0] in b;
      assert b[0] in a;
      LeqTotal(a[0], a[0]);
      LeqTotal(b[0], b[0]);
      LeqAntisymmetric(a[0], b[0]);
      assert a == [a[0]] + a[1..] && b == [b[0]] + b[1..];
      TailElements(a);
      TailElements(b);
      AscendingUnique(a[1..], b[1..]);
    }
  }
}
