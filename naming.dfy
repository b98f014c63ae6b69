/** Disambiguation of monster names on the competition's name map. */
module Naming {
  import opened Text

  /** `baseName + "#" + suffix` */
  function Tagged(base: string, n: nat): string
  {
    base + "#" + NatToString(n)
  }

  lemma TaggedInjective(base: string, a: nat, b: nat)
    ensures Tagged(base, a) == Tagged(base, b) <==> a == b
  {
    if Tagged(base, a) == Tagged(base, b) {
      var k := |base| + 1;
      assert Tagged(base, a)[k..] == NatToString(a);
      assert Tagged(base, b)[k..] == NatToString(b);
      NatToStringInjective(a, b);
    }
  }

  /** The tagged names with suffixes 1 to n. */
  function TaggedUpTo(base: string, n: nat): set<string>
  {
    set m | 1 <= m <= n :: Tagged(base, m)
  }

  lemma {:induction false} TaggedUpToSize(base: string, n: nat)
    ensures |TaggedUpTo(base, n)| == n
  {
    if n > 0 {
      TaggedUpToSize(base, n - 1);
      assert TaggedUpTo(base, n) == TaggedUpTo(base, n - 1) + {Tagged(base, n)};
      if Tagged(base, n) in TaggedUpTo(base, n - 1) {
        var m :| 1 <= m <= n - 1 && Tagged(base, m) == Tagged(base, n);
        TaggedInjective(base, m, n);
      }
    }
  }

  /**
   * `nameDuplicateMonsters`: a name not yet taken is kept; otherwise the result is
   * `base#n` for the smallest n >= 1 whose tagged name is free. Either way the result is free.
   */
  method DisplayName(taken: set<string>, base: string) returns (name: string)
    ensures name !in taken
    ensures base !in taken ==> name == base
    ensures base in taken ==>
      (exists n: nat :: 1 <= n && name == Tagged(base, n) && forall m: nat :: 1 <= m < n ==> Tagged(base, m) in taken)
  {
    if base !in taken {
      return base;
    }
    var suffix: nat := 1;
    while Tagged(base, suffix) in taken
      invariant 1 <= suffix
      invariant TaggedUpTo(base, suffix - 1) <= taken
      decreases |taken| - suffix
    {
      assert TaggedUpTo(base, suffix) <= taken;
      TaggedUpToSize(base, suffix);
      SubsetSize(TaggedUpTo(base, suffix), taken);
      suffix := suffix + 1;
    }
    name := Tagged(base, suffix);
    forall m: nat | 1 <= m < suffix ensures Tagged(base, m) in taken {
      assert Tagged(base, m) in TaggedUpTo(base, suffix - 1);
    }
  }

  lemma SubsetSize<T>(a: set<T>, b: set<T>)
    requires a <= b
    ensures |a| <= |b|
  {
    assert b == a + (b - a);
  }
}
