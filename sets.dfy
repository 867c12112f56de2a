/** A JavaScript `Set` kept as a sequence in insertion order, and the facts
    about sequences without repeats that drawing from one needs. */
module Sets {
  /** No element occurs twice (the model of a JavaScript `Set` kept as a sequence). */
  predicate Distinct<T(==)>(s: seq<T>) {
    forall i, j | 0 <= i < j < |s| :: s[i] != s[j]
  }

  /** Elements that each map back to their own position under `position` are distinct. */
  lemma DistinctByPosition<T>(s: seq<T>, position: T -> int)
    requires forall i | 0 <= i < |s| :: position(s[i]) == i
    ensures Distinct(s)
  {
  }

  /** `Set.prototype.add` on a set kept as a sequence in insertion order. */
  function Insert<T(==)>(s: seq<T>, x: T): (r: seq<T>)
    requires Distinct(s)
    ensures Distinct(r)
    ensures x in r && s <= r
    ensures forall y | y in r :: y in s || y == x
    ensures |r| == if x in s then |s| else |s| + 1
  {
    if x in s then s else s + [x]
  }

  lemma {:induction false} DistinctAtMostOnce<T>(s: seq<T>, x: T)
    requires Distinct(s)
    ensures multiset(s)[x] <= 1
  {
    if s != [] {
      var t := s[1..];
      assert s == [s[0]] + t;
      assert Distinct(t) by {
        forall i, j | 0 <= i < j < |t| ensures t[i] != t[j] {
          assert t[i] == s[i + 1] && t[j] == s[j + 1];
        }
      }
      DistinctAtMostOnce(t, x);
      if x == s[0] {
        assert x !in t by {
          forall k | 0 <= k < |t| ensures t[k] != x {
            assert t[k] == s[k + 1];
          }
        }
      }
    }
  }

  lemma RepeatCountsTwice<T>(s: seq<T>, i: int, j: int)
    requires 0 <= i < j < |s| && s[i] == s[j]
    ensures multiset(s)[s[i]] >= 2
  {
    var x := s[i];
    assert s == s[..j] + s[j..];
    assert s[..j][i] == x;
    assert s[j..][0] == x;
    assert multiset(s) == multiset(s[..j]) + multiset(s[j..]);
  }

  /** Anything drawn without repetition from a distinct sequence is distinct;
      in particular a permutation of a distinct sequence is distinct. */
  lemma DistinctSubMultiset<T>(big: seq<T>, small: seq<T>)
    requires Distinct(big)
    requires multiset(small) <= multiset(big)
    ensures Distinct(small)
  {
    forall i, j | 0 <= i < j < |small| ensures small[i] != small[j] {
      if small[i] == small[j] {
        RepeatCountsTwice(small, i, j);
        DistinctAtMostOnce(big, small[i]);
        assert false;
      }
    }
  }

  /** Whatever a sub-multiset holds, the larger one holds too. */
  lemma SubMultisetMembers<T>(small: seq<T>, big: seq<T>)
    requires multiset(small) <= multiset(big)
    ensures forall x | x in small :: x in big
  {
    forall x | x in small ensures x in big {
      assert multiset(small)[x] > 0;
    }
  }
}
