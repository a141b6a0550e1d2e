/**
 * The RFC 6962 Merkle tree, read from the root down.
 *
 * Hashes are a free datatype: a hash is known by how it was made, so two
 * hashes are equal only when they were made from the same parts. `Opaque`
 * stands for bytes with no known preimage, of any length.
 */
module Tree {
  import opened Basics

  datatype Hash =
    | Leaf(entry: Bytes)               // SHA-256(0x00 || entry)
    | Node(left: Hash, right: Hash)    // SHA-256(0x01 || left || right)
    | EmptyTree                        // SHA-256("")
    | Opaque(bytes: Bytes)

  const HASH_SIZE := 32

  /** A hash the proof checks accept as 32 bytes long. */
  predicate WellSized(h: Hash) {
    h.Opaque? ==> |h.bytes| == HASH_SIZE
  }

  function Pow2(d: nat): nat {
    if d == 0 then 1 else 2 * Pow2(d - 1)
  }

  predicate IsPow2(k: nat) {
    k == 1 || (k > 1 && k % 2 == 0 && IsPow2(k / 2))
  }

  ghost predicate IsSplit(n: nat, k: nat) {
    k < n <= 2 * k && IsPow2(k)
  }

  /** The largest power of two smaller than n (section 2.1 of RFC 6962). */
  ghost function Split(n: nat): (k: nat)
    requires n >= 2
    ensures k < n <= 2 * k
  {
    SplitExists(n);
    var k: nat :| IsSplit(n, k);
    k
  }

  lemma {:induction false} SplitExists(n: nat)
    requires n >= 2
    ensures exists k: nat :: IsSplit(n, k)
  {
    if n == 2 {
      assert IsSplit(2, 1);
    } else {
      SplitExists((n + 1) / 2);
      var k: nat :| IsSplit((n + 1) / 2, k);
      assert IsSplit(n, 2 * k);
    }
  }

  lemma SplitIsPow2(n: nat)
    requires n >= 2
    ensures IsPow2(Split(n))
  {
    SplitExists(n);
    assert IsSplit(n, Split(n));
  }

  lemma {:induction false} Pow2NotBetween(m: nat, k: nat)
    requires IsPow2(m) && IsPow2(k)
    ensures !(k < m < 2 * k)
  {
    if m > 1 && k > 1 {
      Pow2NotBetween(m / 2, k / 2);
    }
  }

  lemma SplitIsUnique(n: nat, k: nat)
    requires IsPow2(k) && k < n <= 2 * k
    ensures Split(n) == k
  {
    SplitIsPow2(n);
    Pow2NotBetween(k, Split(n));
    Pow2NotBetween(Split(n), k);
  }

  lemma SplitOfHalf(n: nat)
    requires n > 2
    ensures Split(n) == 2 * Split((n + 1) / 2)
  {
    var k := Split((n + 1) / 2);
    SplitIsPow2((n + 1) / 2);
    assert IsPow2(2 * k);
    SplitIsUnique(n, 2 * k);
  }

  lemma {:induction false} SplitBound(n: nat, d: nat)
    requires 2 <= n <= Pow2(d)
    ensures d >= 1 && Split(n) <= Pow2(d - 1)
  {
    if n > 2 {
      SplitOfHalf(n);
      SplitBound((n + 1) / 2, d - 1);
    }
  }

  /** The Merkle tree hash of a list of entries (section 2.1 of RFC 6962). */
  ghost function Root(entries: seq<Bytes>): Hash
    decreases |entries|
  {
    if |entries| == 0 then EmptyTree
    else if |entries| == 1 then Leaf(entries[0])
    else
      var k := Split(|entries|);
      Node(Root(entries[..k]), Root(entries[k..]))
  }

  /** The hash found at leaf i by descending from a root over n leaves. */
  ghost function LeafAt(h: Hash, n: nat, i: nat): Option<Hash>
    requires i < n
  {
    if n == 1 then Some(h)
    else if !h.Node? then None
    else
      var k := Split(n);
      if i < k then LeafAt(h.left, k, i) else LeafAt(h.right, n - k, i - k)
  }

  /** The audit path of leaf i, leaf to root (section 2.1.1 of RFC 6962). */
  ghost function AuditPath(h: Hash, n: nat, i: nat): seq<Hash>
    requires i < n && LeafAt(h, n, i).Some?
  {
    if n == 1 then []
    else
      var k := Split(n);
      if i < k then AuditPath(h.left, k, i) + [h.right]
      else AuditPath(h.right, n - k, i - k) + [h.left]
  }

  /** The root over the first m of n leaves, rebuilt from the root over all n. */
  ghost function Prefix(h: Hash, n: nat, m: nat): Option<Hash>
    requires 0 < m <= n
    decreases n
  {
    if m == n then Some(h)
    else if !h.Node? then None
    else
      var k := Split(n);
      if m <= k then Prefix(h.left, k, m)
      else
        match Prefix(h.right, n - k, m - k)
        case None => None
        case Some(r) => Some(Node(h.left, r))
  }

  /** SUBPROOF of section 2.1.2 of RFC 6962, from m leaves to n. */
  ghost function ConsistencyPath(h: Hash, n: nat, m: nat, whole: bool): seq<Hash>
    requires 0 < m <= n && Prefix(h, n, m).Some?
    decreases n
  {
    if m == n then (if whole then [] else [h])
    else
      var k := Split(n);
      if m <= k then ConsistencyPath(h.left, k, m, whole) + [h.right]
      else ConsistencyPath(h.right, n - k, m - k, false) + [h.left]
  }

  // ---------------------------------------------------------------------
  // Prefixes compose and fix the leaves they cover
  // ---------------------------------------------------------------------

  lemma {:induction false} PrefixOfPrefix(h: Hash, n: nat, m: nat, j: nat)
    requires 0 < j <= m <= n && Prefix(h, n, m).Some?
    ensures Prefix(Prefix(h, n, m).value, m, j) == Prefix(h, n, j)
    decreases n
  {
    if m < n {
      var k := Split(n);
      if m <= k {
        PrefixOfPrefix(h.left, k, m, j);
      } else {
        SplitIsPow2(n);
        SplitIsUnique(m, k);
        if k < j {
          PrefixOfPrefix(h.right, n - k, m - k, j - k);
        }
      }
    }
  }

  lemma {:induction false} PrefixKeepsLeaves(h: Hash, n: nat, m: nat, i: nat)
    requires i < m <= n && Prefix(h, n, m).Some?
    ensures LeafAt(Prefix(h, n, m).value, m, i) == LeafAt(h, n, i)
    decreases n
  {
    if m < n {
      var k := Split(n);
      if m <= k {
        PrefixKeepsLeaves(h.left, k, m, i);
      } else {
        SplitIsPow2(n);
        SplitIsUnique(m, k);
        if k <= i {
          PrefixKeepsLeaves(h.right, n - k, m - k, i - k);
        }
      }
    }
  }

  // ---------------------------------------------------------------------
  // The tree over a list of entries
  // ---------------------------------------------------------------------

  lemma {:induction false} LeafAtRoot(entries: seq<Bytes>, i: nat)
    requires i < |entries|
    ensures LeafAt(Root(entries), |entries|, i) == Some(Leaf(entries[i]))
    decreases |entries|
  {
    if |entries| > 1 {
      var k := Split(|entries|);
      if i < k {
        LeafAtRoot(entries[..k], i);
      } else {
        LeafAtRoot(entries[k..], i - k);
      }
    }
  }

  lemma RootOfTwo(entries: seq<Bytes>, k: nat)
    requires |entries| >= 2 && k == Split(|entries|)
    ensures Root(entries) == Node(Root(entries[..k]), Root(entries[k..]))
  {}

  lemma SplitOfPrefix(n: nat, m: nat)
    requires 2 <= n && Split(n) < m <= n
    ensures Split(m) == Split(n)
  {
    SplitIsPow2(n);
    SplitIsUnique(m, Split(n));
  }

  lemma {:induction false} PrefixOfRoot(entries: seq<Bytes>, m: nat)
    requires 0 < m <= |entries|
    ensures Prefix(Root(entries), |entries|, m) == Some(Root(entries[..m]))
    decreases |entries|
  {
    if m == |entries| {
      assert entries[..m] == entries;
    } else {
      var k := Split(|entries|);
      if m <= k {
        PrefixOfRoot(entries[..k], m);
        PrefixOfLeftHalf(entries, m, k);
      } else {
        PrefixOfRoot(entries[k..], m - k);
        PrefixOfRightHalf(entries, m, k);
      }
    }
  }

  lemma PrefixOfLeftHalf(entries: seq<Bytes>, m: nat, k: nat)
    requires |entries| >= 2 && 0 < m <= k == Split(|entries|)
    requires Prefix(Root(entries[..k]), k, m) == Some(Root(entries[..k][..m]))
    ensures Prefix(Root(entries), |entries|, m) == Some(Root(entries[..m]))
  {
    RootOfTwo(entries, k);
    assert entries[..k][..m] == entries[..m];
  }

  lemma PrefixOfRightHalf(entries: seq<Bytes>, m: nat, k: nat)
    requires |entries| >= 2 && Split(|entries|) == k < m < |entries|
    requires Prefix(Root(entries[k..]), |entries| - k, m - k) == Some(Root(entries[k..][..m - k]))
    ensures Prefix(Root(entries), |entries|, m) == Some(Root(entries[..m]))
  {
    RootOfTwo(entries, k);
    SplitOfPrefix(|entries|, m);
    PartsOfPrefix(entries, m, k);
    RootOfTwo(entries[..m], k);
  }

  lemma PartsOfPrefix(entries: seq<Bytes>, m: nat, k: nat)
    requires k <= m <= |entries|
    ensures entries[..m][..k] == entries[..k] && entries[..m][k..] == entries[k..][..m - k]
  {}

  lemma {:induction false} AuditPathOfRootIsSized(entries: seq<Bytes>, i: nat)
    requires i < |entries| && LeafAt(Root(entries), |entries|, i).Some?
    ensures forall p <- AuditPath(Root(entries), |entries|, i) :: WellSized(p)
    decreases |entries|
  {
    if |entries| > 1 {
      var k := Split(|entries|);
      if i < k {
        AuditPathOfRootIsSized(entries[..k], i);
      } else {
        AuditPathOfRootIsSized(entries[k..], i - k);
      }
    }
  }

  lemma {:induction false} ConsistencyPathOfRootIsSized(entries: seq<Bytes>, m: nat, whole: bool)
    requires 0 < m <= |entries| && Prefix(Root(entries), |entries|, m).Some?
    ensures forall p <- ConsistencyPath(Root(entries), |entries|, m, whole) :: WellSized(p)
    decreases |entries|
  {
    if m < |entries| {
      var k := Split(|entries|);
      if m <= k {
        ConsistencyPathOfRootIsSized(entries[..k], m, whole);
      } else {
        ConsistencyPathOfRootIsSized(entries[k..], m - k, false);
      }
    }
  }

  // ---------------------------------------------------------------------
  // Proof lengths
  // ---------------------------------------------------------------------

  lemma {:induction false} AuditPathLength(h: Hash, n: nat, i: nat, d: nat)
    requires i < n <= Pow2(d) && LeafAt(h, n, i).Some?
    ensures |AuditPath(h, n, i)| <= d
    decreases n
  {
    if n > 1 {
      var k := Split(n);
      SplitBound(n, d);
      if i < k {
        AuditPathLength(h.left, k, i, d - 1);
      } else {
        AuditPathLength(h.right, n - k, i - k, d - 1);
      }
    }
  }

  lemma {:induction false} ConsistencyPathLength(h: Hash, n: nat, m: nat, whole: bool, d: nat)
    requires 0 < m <= n <= Pow2(d) && Prefix(h, n, m).Some?
    ensures |ConsistencyPath(h, n, m, whole)| <= d + 1
    decreases n
  {
    if m < n {
      var k := Split(n);
      SplitBound(n, d);
      if m <= k {
        ConsistencyPathLength(h.left, k, m, whole, d - 1);
      } else {
        ConsistencyPathLength(h.right, n - k, m - k, false, d - 1);
      }
    }
  }

  /** In a complete tree of 2^d leaves the proof from size 3 has d + 1 hashes. */
  lemma {:induction false} ConsistencyFromThree(h: Hash, d: nat, whole: bool)
    requires d >= 2 && Pow2(d) >= 4 && Prefix(h, Pow2(d), 3).Some?
    ensures |ConsistencyPath(h, Pow2(d), 3, whole)| == d + 1
    decreases d
  {
    Pow2IsPow2(d - 1);
    SplitIsUnique(Pow2(d), Pow2(d - 1));
    if d == 2 {
      assert Pow2(2) == 4 && Split(4) == 2;
    } else {
      assert Pow2(d - 1) >= 4 by { Pow2Monotone(2, d - 1); }
      ConsistencyFromThree(h.left, d - 1, whole);
    }
  }

  lemma {:induction false} Pow2IsPow2(d: nat)
    ensures IsPow2(Pow2(d))
  {
    if d > 0 {
      Pow2IsPow2(d - 1);
    }
  }

  lemma {:induction false} Pow2Monotone(a: nat, b: nat)
    requires a <= b
    ensures Pow2(a) <= Pow2(b)
    decreases b
  {
    if a < b {
      Pow2Monotone(a, b - 1);
    }
  }
}
