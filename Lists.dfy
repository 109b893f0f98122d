/** `Array.from(new Set(xs))`: the distinct elements of a list, in the order in which
    they first occur. */
module Lists {

  predicate NoDuplicates<T(==)>(s: seq<T>) {
    forall i, j | 0 <= i < j < |s| :: s[i] != s[j]
  }

  predicate Disjoint<T(==)>(a: seq<T>, b: seq<T>) {
    forall x | x in a :: x !in b
  }

  /** The position of the first occurrence of `x` in `s`. */
  function FirstIndex<T(==)>(s: seq<T>, x: T): (k: nat)
    requires x in s
    ensures k < |s| && s[k] == x
    ensures forall i | 0 <= i < k :: s[i] != x
  {
    if s[0] == x then 0 else 1 + FirstIndex(s[1..], x)
  }

  /** Appending elements does not move a first occurrence. */
  lemma FirstIndexOfPrefix<T>(a: seq<T>, b: seq<T>, x: T)
    requires x in a
    ensures FirstIndex(a + b, x) == FirstIndex(a, x)
  {
    var k, k' := FirstIndex(a, x), FirstIndex(a + b, x);
    assert (a + b)[k] == x;
    assert k' <= k;
    assert a[k'] == (a + b)[k'];
  }

  /** A `Set` keeps insertion order and ignores an element it already holds: the
      distinct elements, in the order of their first occurrences. */
  function Dedup<T(==)>(s: seq<T>): (r: seq<T>)
    ensures NoDuplicates(r)
    ensures forall x | x in s :: x in r
    ensures forall x | x in r :: x in s
    ensures |r| <= |s|
    ensures forall i, j | 0 <= i < j < |r| :: FirstIndex(s, r[i]) < FirstIndex(s, r[j])
  {
    if s == [] then []
    else
      var init, x := s[..|s| - 1], s[|s| - 1];
      var rest := Dedup(init);
      var r := if x in rest then rest else rest + [x];
      assert s == init + [x];
      assert forall i, j | 0 <= i < j < |r| :: FirstIndex(s, r[i]) < FirstIndex(s, r[j]) by {
        forall i, j | 0 <= i < j < |r| ensures FirstIndex(s, r[i]) < FirstIndex(s, r[j]) {
          assert r[i] in init;
          FirstIndexOfPrefix(init, [x], r[i]);
          if j < |rest| {
            assert r[i] == rest[i] && r[j] == rest[j];
            FirstIndexOfPrefix(init, [x], r[j]);
          } else {
            assert r[j] == x && x !in init;
            assert FirstIndex(s, x) == |s| - 1;
          }
        }
      }
      r
  }

  /** A list without duplicates passes through unchanged. */
  lemma {:induction false} DedupOfDistinct<T>(s: seq<T>)
    requires NoDuplicates(s)
    ensures Dedup(s) == s
  {
    if s != [] {
      var init := s[..|s| - 1];
      assert NoDuplicates(init);
      DedupOfDistinct(init);
      assert s[|s| - 1] !in init;
      assert init + [s[|s| - 1]] == s;
    }
  }

  /** Every element of `s` is `x`. */
  predicate Uniform<T(==)>(s: seq<T>, x: T) {
    forall i | 0 <= i < |s| :: s[i] == x
  }

  /** A non-empty list made of one element repeated collapses to that element. */
  lemma {:induction false} DedupOfRepeated<T>(s: seq<T>, x: T)
    requires s != []
    requires Uniform(s, x)
    ensures Dedup(s) == [x]
  {
    if |s| > 1 {
      DedupOfRepeated(s[..|s| - 1], x);
    } else {
      assert s == [x];
    }
  }

  /** Two lists with no element in common deduplicate independently: the first
      occurrences of the first list all come before those of the second. */
  lemma {:induction false} DedupDisjointAppend<T>(a: seq<T>, b: seq<T>)
    requires Disjoint(a, b)
    ensures Dedup(a + b) == Dedup(a) + Dedup(b)
  {
    if b == [] {
      assert a + b == a;
    } else {
      var b' := b[..|b| - 1];
      var x := b[|b| - 1];
      assert Disjoint(a, b');
      DedupDisjointAppend(a, b');
      assert (a + b)[..|a + b| - 1] == a + b';
      assert (a + b)[|a + b| - 1] == x;
      assert x !in a;
      assert x in Dedup(a + b') <==> x in Dedup(b');
    }
  }

  /** What deduplicating a uniform block leaves of it. */
  function Collapse<T>(s: seq<T>, x: T): seq<T> {
    if s == [] then [] else [x]
  }

  /** Appending a block that repeats one new element adds that element once. */
  lemma DedupAppendUniform<T>(p: seq<T>, b: seq<T>, x: T)
    requires x !in p
    requires Uniform(b, x)
    ensures Dedup(p + b) == Dedup(p) + Collapse(b, x)
  {
    DedupDisjointAppend(p, b);
    if b != [] {
      DedupOfRepeated(b, x);
    } else {
      assert Dedup(b) == [];
    }
  }

  /** The blocks one after the other. */
  function Concat<T>(blocks: seq<seq<T>>): seq<T> {
    if blocks == [] then [] else Concat(blocks[..|blocks| - 1]) + blocks[|blocks| - 1]
  }

  /** Each block reduced to its tag, empty blocks dropped. */
  function CollapseAll<T>(blocks: seq<seq<T>>, tags: seq<T>): seq<T>
    requires |blocks| == |tags|
  {
    if blocks == [] then []
    else CollapseAll(blocks[..|blocks| - 1], tags[..|tags| - 1]) + Collapse(blocks[|blocks| - 1], tags[|tags| - 1])
  }

  lemma {:induction false} ConcatOfUniform<T>(blocks: seq<seq<T>>, tags: seq<T>, y: T)
    requires |blocks| == |tags|
    requires forall k | 0 <= k < |blocks| :: Uniform(blocks[k], tags[k])
    requires y in Concat(blocks)
    ensures y in tags
  {
    var n := |blocks|;
    if y in blocks[n - 1] {
      var i :| 0 <= i < |blocks[n - 1]| && blocks[n - 1][i] == y;
      assert tags[n - 1] == y;
    } else {
      ConcatOfUniform(blocks[..n - 1], tags[..n - 1], y);
    }
  }

  /** Blocks that each repeat their own, distinct tag deduplicate to the tags of the
      non-empty blocks, in block order. */
  lemma {:induction false} DedupOfUniformBlocks<T>(blocks: seq<seq<T>>, tags: seq<T>)
    requires |blocks| == |tags| && NoDuplicates(tags)
    requires forall k | 0 <= k < |blocks| :: Uniform(blocks[k], tags[k])
    ensures Dedup(Concat(blocks)) == CollapseAll(blocks, tags)
  {
    if blocks != [] {
      var n := |blocks|;
      var init, inits := blocks[..n - 1], tags[..n - 1];
      var x := tags[n - 1];
      assert NoDuplicates(inits);
      forall k | 0 <= k < n - 1 ensures Uniform(init[k], inits[k]) {
        assert init[k] == blocks[k] && inits[k] == tags[k];
      }
      DedupOfUniformBlocks(init, inits);
      assert x !in inits by {
        forall k | 0 <= k < n - 1 ensures inits[k] != x {
          assert inits[k] == tags[k];
        }
      }
      assert x !in Concat(init) by {
        if x in Concat(init) {
          ConcatOfUniform(init, inits, x);
        }
      }
      DedupAppendUniform(Concat(init), blocks[n - 1], x);
    }
  }

  /** Six blocks, each repeating its own distinct element, deduplicate block by block. */
  lemma DedupOfSixBlocks<T>(a: seq<T>, b: seq<T>, c: seq<T>, d: seq<T>, e: seq<T>, f: seq<T>,
                            mA: T, mB: T, mC: T, mD: T, mE: T, mF: T)
    requires Uniform(a, mA) && Uniform(b, mB) && Uniform(c, mC) && Uniform(d, mD) && Uniform(e, mE) && Uniform(f, mF)
    requires mA != mB && mA != mC && mA != mD && mA != mE && mA != mF
    requires mB != mC && mB != mD && mB != mE && mB != mF
    requires mC != mD && mC != mE && mC != mF
    requires mD != mE && mD != mF && mE != mF
    ensures Dedup(a + b + c + d + e + f)
         == Collapse(a, mA) + Collapse(b, mB) + Collapse(c, mC) + Collapse(d, mD) + Collapse(e, mE) + Collapse(f, mF)
  {
    var blocks, tags := [a, b, c, d, e, f], [mA, mB, mC, mD, mE, mF];
    assert NoDuplicates(tags);
    forall k | 0 <= k < 6 ensures Uniform(blocks[k], tags[k]) {}
    DedupOfUniformBlocks(blocks, tags);
    assert blocks[..5] == [a, b, c, d, e] && tags[..5] == [mA, mB, mC, mD, mE];
    assert blocks[..5][..4] == [a, b, c, d] && tags[..5][..4] == [mA, mB, mC, mD];
    assert blocks[..5][..4][..3] == [a, b, c] && tags[..5][..4][..3] == [mA, mB, mC];
    assert blocks[..5][..4][..3][..2] == [a, b] && tags[..5][..4][..3][..2] == [mA, mB];
    assert blocks[..5][..4][..3][..2][..1] == [a] && tags[..5][..4][..3][..2][..1] == [mA];
    assert [a][..0] == [] && [mA][..0] == [];
    assert Concat([a]) == a;
    assert CollapseAll([a], [mA]) == Collapse(a, mA);
    assert Concat([a, b]) == a + b;
    assert CollapseAll([a, b], [mA, mB]) == Collapse(a, mA) + Collapse(b, mB);
    assert Concat([a, b, c]) == a + b + c;
    assert CollapseAll([a, b, c], [mA, mB, mC]) == Collapse(a, mA) + Collapse(b, mB) + Collapse(c, mC);
    assert Concat([a, b, c, d]) == a + b + c + d;
    assert CollapseAll([a, b, c, d], [mA, mB, mC, mD])
        == Collapse(a, mA) + Collapse(b, mB) + Collapse(c, mC) + Collapse(d, mD);
    assert Concat([a, b, c, d, e]) == a + b + c + d + e;
    assert CollapseAll([a, b, c, d, e], [mA, mB, mC, mD, mE])
        == Collapse(a, mA) + Collapse(b, mB) + Collapse(c, mC) + Collapse(d, mD) + Collapse(e, mE);
  }

  /** Three blocks, each repeating its own distinct element, deduplicate block by block. */
  lemma DedupOfThreeBlocks<T>(a: seq<T>, b: seq<T>, c: seq<T>, mA: T, mB: T, mC: T)
    requires Uniform(a, mA) && Uniform(b, mB) && Uniform(c, mC)
    requires mA != mB && mA != mC && mB != mC
    ensures Dedup(a + b + c) == Collapse(a, mA) + Collapse(b, mB) + Collapse(c, mC)
  {
    var blocks, tags := [a, b, c], [mA, mB, mC];
    forall k | 0 <= k < 3 ensures Uniform(blocks[k], tags[k]) {}
    DedupOfUniformBlocks(blocks, tags);
    assert blocks[..2] == [a, b] && tags[..2] == [mA, mB];
    assert blocks[..2][..1] == [a] && tags[..2][..1] == [mA];
    assert [a][..0] == [] && [mA][..0] == [];
    assert Concat([a]) == a;
    assert CollapseAll([a], [mA]) == Collapse(a, mA);
    assert Concat([a, b]) == a + b;
    assert CollapseAll([a, b], [mA, mB]) == Collapse(a, mA) + Collapse(b, mB);
  }
}
