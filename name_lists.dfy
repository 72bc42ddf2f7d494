/** Lists of names and the facts about them the registries and key tables rely on. */
module NameLists {

  /** No name occurs twice. */
  predicate Distinct(keys: seq<string>) {
    forall i, j :: 0 <= i < j < |keys| ==> keys[i] != keys[j]
  }

  lemma {:induction false} DistinctSetSize(keys: seq<string>)
    requires Distinct(keys)
    ensures |set k | k in keys| == |keys|
  {
    if |keys| > 0 {
      var rest := keys[1..];
      assert Distinct(rest) by {
        forall i, j | 0 <= i < j < |rest| ensures rest[i] != rest[j] {
          assert rest[i] == keys[i + 1] && rest[j] == keys[j + 1];
        }
      }
      DistinctSetSize(rest);
      assert keys[0] !in rest by {
        forall i | 0 <= i < |rest| ensures rest[i] != keys[0] {
          assert rest[i] == keys[i + 1];
        }
      }
      assert (set k | k in keys) == (set k | k in rest) + {keys[0]} by {
        assert keys == [keys[0]] + rest;
      }
    }
  }

  /** Names of xs in the block starting at lo1 differ from the later names of the block starting at lo2. */
  predicate Apart(xs: seq<string>, lo1: nat, lo2: nat) {
    forall i, j :: lo1 <= i < lo1 + 6 && lo2 <= j < lo2 + 6 && i < j < |xs| ==> xs[i] != xs[j]
  }

  /** A long literal list is distinct when every pair of its blocks of six is apart. */
  lemma DistinctBySixes(xs: seq<string>)
    requires forall k: nat, l: nat :: k <= l && l * 6 < |xs| ==> Apart(xs, k * 6, l * 6)
    ensures Distinct(xs)
  {
    forall i, j | 0 <= i < j < |xs| ensures xs[i] != xs[j] {
      assert Apart(xs, (i / 6) * 6, (j / 6) * 6);
    }
  }

  /** Every part of a distinct concatenation is distinct. */
  lemma DistinctParts(a: seq<string>, b: seq<string>)
    requires Distinct(a + b)
    ensures Distinct(a) && Distinct(b)
    ensures forall x :: x in a ==> x !in b
  {
    forall i, j | 0 <= i < j < |b| ensures b[i] != b[j] {
      assert b[i] == (a + b)[|a| + i] && b[j] == (a + b)[|a| + j];
    }
    forall i, j | 0 <= i < j < |a| ensures a[i] != a[j] {
      assert a[i] == (a + b)[i] && a[j] == (a + b)[j];
    }
    forall x | x in a ensures x !in b {
      var i :| 0 <= i < |a| && a[i] == x;
      forall j | 0 <= j < |b| ensures b[j] != x {
        assert (a + b)[i] == x && (a + b)[|a| + j] == b[j];
      }
    }
  }
}
