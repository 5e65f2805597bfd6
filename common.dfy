/** Small helpers shared by the what-if and the optimization components. */
module Common {

  /** JavaScript `null` versus a value. */
  datatype Option<+T> = None | Some(value: T)

  /** No element occurs twice (a checkbox selection list). */
  predicate NoDup<T(==)>(s: seq<T>)
  {
    forall i, j :: 0 <= i < j < |s| ==> s[i] != s[j]
  }

  /** `s.filter((y) => y !== x)`: every occurrence of `x` dropped, the rest kept in order. */
  function Remove<T(==,!new)>(s: seq<T>, x: T): (r: seq<T>)
    ensures forall y :: y in r <==> y in s && y != x
    ensures |r| <= |s|
    ensures x !in s ==> r == s
  {
    if s == [] then []
    else if s[0] == x then Remove(s[1..], x)
    else [s[0]] + Remove(s[1..], x)
  }

  /**
   * The checkbox handler of both pages:
   * `prev.includes(x) ? prev.filter((p) => p !== x) : [...prev, x]`.
   */
  function Toggle<T(==,!new)>(prev: seq<T>, x: T): (r: seq<T>)
    ensures x in r <==> x !in prev
    ensures forall y :: y != x ==> (y in r <==> y in prev)
    ensures x !in prev ==> r == prev + [x]
    ensures x in prev ==> r == Remove(prev, x)
  {
    if x in prev then Remove(prev, x) else prev + [x]
  }

  /**
   * The filter distributes over concatenation and keeps a one-element list
   * exactly when that element differs from `x`; together these fix the
   * result as the other elements in their original order, each occurrence kept.
   */
  lemma {:induction false} RemoveAppend<T(!new)>(s1: seq<T>, s2: seq<T>, x: T)
    ensures Remove(s1 + s2, x) == Remove(s1, x) + Remove(s2, x)
    ensures forall y :: Remove([y], x) == if y == x then [] else [y]
  {
    if s1 != [] {
      RemoveAppend(s1[1..], s2, x);
      assert (s1 + s2)[1..] == s1[1..] + s2;
    } else {
      assert s1 + s2 == s2;
    }
    forall y ensures Remove([y], x) == if y == x then [] else [y] {
      assert [y][1..] == [];
    }
  }

  /** In a duplicate-free list the filter cuts out the one occurrence of `x` and leaves the rest in place. */
  lemma RemoveCutsOut<T(!new)>(s: seq<T>, i: int)
    requires NoDup(s) && 0 <= i < |s|
    ensures Remove(s, s[i]) == s[..i] + s[i + 1..]
  {
    var x := s[i];
    var before, after := s[..i], s[i + 1..];
    assert s == (before + [x]) + after;
    assert x !in before by {
      forall j | 0 <= j < |before| ensures before[j] != x {
        assert before[j] == s[j];
      }
    }
    assert x !in after by {
      forall j | 0 <= j < |after| ensures after[j] != x {
        assert after[j] == s[i + 1 + j];
      }
    }
    RemoveAppend(before + [x], after, x);
    RemoveAppend(before, [x], x);
    assert Remove(before, x) == before && Remove(after, x) == after;
  }

  /** Unticking a box in a duplicate-free selection removes that one item and keeps the others in order. */
  lemma ToggleCutsOut<T(!new)>(prev: seq<T>, x: T)
    requires NoDup(prev) && x in prev
    ensures exists i :: 0 <= i < |prev| && prev[i] == x && Toggle(prev, x) == prev[..i] + prev[i + 1..]
  {
    var i :| 0 <= i < |prev| && prev[i] == x;
    RemoveCutsOut(prev, i);
  }

  /** Dropping elements keeps a duplicate-free list duplicate-free. */
  lemma {:induction false} RemoveKeepsNoDup<T(!new)>(s: seq<T>, x: T)
    requires NoDup(s)
    ensures NoDup(Remove(s, x))
  {
    if s != [] {
      assert NoDup(s[1..]) by {
        forall i, j | 0 <= i < j < |s[1..]| ensures s[1..][i] != s[1..][j] {
          assert s[1..][i] == s[i + 1] && s[1..][j] == s[j + 1];
        }
      }
      RemoveKeepsNoDup(s[1..], x);
      if s[0] != x {
        var rest := Remove(s[1..], x);
        assert s[0] !in s[1..];
        assert s[0] !in rest;
        var r := [s[0]] + rest;
        forall i, j | 0 <= i < j < |r| ensures r[i] != r[j] {
          if i == 0 {
            assert r[j] == rest[j - 1];
          } else {
            assert r[i] == rest[i - 1] && r[j] == rest[j - 1];
          }
        }
      }
    }
  }

  /** A toggled selection never holds the same item twice. */
  lemma ToggleKeepsNoDup<T(!new)>(prev: seq<T>, x: T)
    requires NoDup(prev)
    ensures NoDup(Toggle(prev, x))
  {
    if x in prev {
      RemoveKeepsNoDup(prev, x);
    }
  }
}
