/**
 * The two proof verifiers of RFC 9162 and what they accept.
 *
 * Both climb from a leaf position to the root, reading the position's bits
 * from the bottom. What they accept is stated from the top: a proof is
 * accepted exactly when it is the path that descending the root's own
 * structure reads off.
 */
module MerkleProof {
  import opened Basics
  import opened Tree

  /** Drop low zero bits of fn, and as many bits of sn. */
  function ShiftToOdd(fn: nat, sn: nat): (nat, nat) {
    if fn == 0 || fn % 2 == 1 then (fn, sn) else ShiftToOdd(fn / 2, sn / 2)
  }

  /** Drop low one bits of fn, and as many bits of sn. */
  function ShiftToEven(fn: nat, sn: nat): (nat, nat) {
    if fn % 2 == 0 then (fn, sn) else ShiftToEven(fn / 2, sn / 2)
  }

  /** Steps 2 to 5 of section 2.1.3.2 of RFC 9162, from position fn of 0..sn. */
  function Climb(fn: nat, sn: nat, r: Hash, path: seq<Hash>): Option<Hash>
    decreases |path|
  {
    if path == [] then
      if sn == 0 then Some(r) else None
    else if sn == 0 then None
    else if fn % 2 == 1 || fn == sn then
      var (f, s) := ShiftToOdd(fn, sn);
      Climb(f / 2, s / 2, Node(path[0], r), path[1..])
    else
      Climb(fn / 2, sn / 2, Node(r, path[0]), path[1..])
  }

  /** Steps 6 and 7 of section 2.1.4.2 of RFC 9162: both roots at once. */
  function ClimbTwo(fn: nat, sn: nat, fr: Hash, sr: Hash, path: seq<Hash>): Option<(Hash, Hash)>
    decreases |path|
  {
    if path == [] then
      if sn == 0 then Some((fr, sr)) else None
    else if sn == 0 then None
    else if fn % 2 == 1 || fn == sn then
      var (f, s) := ShiftToOdd(fn, sn);
      ClimbTwo(f / 2, s / 2, Node(path[0], fr), Node(path[0], sr), path[1..])
    else
      ClimbTwo(fn / 2, sn / 2, fr, Node(sr, path[0]), path[1..])
  }

  /** Inclusion of `leaf` at position i of the n leaves under `root`. */
  predicate InclusionAccepted(i: nat, n: nat, leaf: Hash, path: seq<Hash>, root: Hash) {
    i < n && Climb(i, n - 1, leaf, path) == Some(root)
  }

  /**
   * Consistency of the m leaves under root1 with the n under root2. Equal
   * sizes and an empty older tree take no hashes; otherwise section 2.1.4.2
   * of RFC 9162.
   */
  predicate ConsistencyAccepted(m: nat, n: nat, path: seq<Hash>, root1: Hash, root2: Hash) {
    if n < m then false
    else if m == n then path == [] && root1 == root2
    else if m == 0 then path == []
    else if path == [] then false
    else
      var full := if IsPow2(m) then [root1] + path else path;
      var (fn, sn) := ShiftToEven(m - 1, n - 1);
      ClimbTwo(fn, sn, full[0], full[0], full[1..]) == Some((root1, root2))
  }

  // ---------------------------------------------------------------------
  // One level at a time
  // ---------------------------------------------------------------------

  /**
   * The same climb, one level of the tree per step: the last node of a level
   * that has no sibling moves up unhashed instead of being skipped ahead.
   */
  function ClimbLevels(fn: nat, sn: nat, fr: Hash, sr: Hash, path: seq<Hash>): Option<(Hash, Hash)>
    decreases sn
  {
    if sn == 0 then
      if path == [] then Some((fr, sr)) else None
    else if fn == sn && fn % 2 == 0 then ClimbLevels(fn / 2, sn / 2, fr, sr, path)
    else if path == [] then None
    else if fn % 2 == 1 then
      ClimbLevels(fn / 2, sn / 2, Node(path[0], fr), Node(path[0], sr), path[1..])
    else
      ClimbLevels(fn / 2, sn / 2, fr, Node(sr, path[0]), path[1..])
  }

  lemma {:induction false} ClimbByLevels(fn: nat, sn: nat, fr: Hash, sr: Hash, path: seq<Hash>)
    requires fn <= sn
    ensures ClimbTwo(fn, sn, fr, sr, path) == ClimbLevels(fn, sn, fr, sr, path)
    decreases sn
  {
    if sn == 0 {
    } else if fn == sn && fn % 2 == 0 {
      ClimbByLevels(fn / 2, sn / 2, fr, sr, path);
    } else if path == [] {
    } else if fn % 2 == 1 {
      ClimbByLevels(fn / 2, sn / 2, Node(path[0], fr), Node(path[0], sr), path[1..]);
    } else {
      ClimbByLevels(fn / 2, sn / 2, fr, Node(sr, path[0]), path[1..]);
    }
  }

  lemma {:induction false} ClimbIsSecond(fn: nat, sn: nat, fr: Hash, sr: Hash, path: seq<Hash>)
    ensures Climb(fn, sn, sr, path)
         == match ClimbTwo(fn, sn, fr, sr, path) { case None => None case Some(p) => Some(p.1) }
    decreases |path|
  {
    if path == [] || sn == 0 {
    } else if fn % 2 == 1 || fn == sn {
      var (f, s) := ShiftToOdd(fn, sn);
      ClimbIsSecond(f / 2, s / 2, Node(path[0], fr), Node(path[0], sr), path[1..]);
    } else {
      ClimbIsSecond(fn / 2, sn / 2, fr, Node(sr, path[0]), path[1..]);
    }
  }

  // ---------------------------------------------------------------------
  // A tree over n leaves is a tree over the pairs of its leaves
  // ---------------------------------------------------------------------

  /** The root over the first p leaves and x in place of leaf p. */
  ghost function Graft(h: Hash, n: nat, p: nat, x: Hash): Hash
    requires p < n && LeafAt(h, n, p).Some?
  {
    if n == 1 then x
    else
      var k := Split(n);
      if p < k then Graft(h.left, k, p, x)
      else Node(h.left, Graft(h.right, n - k, p - k, x))
  }

  /** Leaf q of u is where leaf p of n goes, one level up. */
  predicate Halved(n: nat, p: nat, u: nat, q: nat) {
    p < n && (n == 2 * u || n + 1 == 2 * u) && (p == 2 * q || p == 2 * q + 1)
  }

  /** The last of an odd number of leaves moves up a level as it is. */
  predicate Alone(n: nat, p: nat, q: nat) {
    p == 2 * q && p + 1 == n
  }

  /** Leaf p as its parent one level up determines it. */
  ghost function Child(n: nat, p: nat, q: nat, parent: Option<Hash>): Option<Hash> {
    if Alone(n, p, q) then parent
    else if parent == None || !parent.value.Node? then None
    else Some(if p == 2 * q then parent.value.left else parent.value.right)
  }

  /** The part of the audit path of leaf p that lies below its parent. */
  ghost function Sibling(n: nat, p: nat, q: nat, parent: Hash): seq<Hash>
    requires Alone(n, p, q) || parent.Node?
  {
    if Alone(n, p, q) then [] else if p == 2 * q then [parent.right] else [parent.left]
  }

  /** What leaf p, grafted, becomes one level up. */
  ghost function Lifted(n: nat, p: nat, q: nat, parent: Hash, x: Hash): Hash
    requires Alone(n, p, q) || parent.Node?
  {
    if p == 2 * q then x else Node(parent.left, x)
  }

  /** Halving commutes with going into either subtree. */
  lemma HalvesOfSplit(n: nat, p: nat, u: nat, q: nat)
    requires 2 < n && Halved(n, p, u, q)
    ensures 2 <= u && Split(n) == 2 * Split(u)
    ensures p < Split(n) ==> q < Split(u) && Halved(Split(n), p, Split(u), q) && !Alone(n, p, q) && !Alone(Split(n), p, q)
    ensures Split(n) <= p ==>
              && Split(u) <= q
              && Halved(n - Split(n), p - Split(n), u - Split(u), q - Split(u))
              && Alone(n, p, q) == Alone(n - Split(n), p - Split(n), q - Split(u))
              && (p == 2 * q <==> p - Split(n) == 2 * (q - Split(u)))
  {
    assert u == (n + 1) / 2;
    SplitOfHalf(n);
  }

  lemma DescendLeft(h: Hash, n: nat, p: nat, k: nat)
    requires 2 <= n && k == Split(n) && p < k && h.Node?
    ensures LeafAt(h, n, p) == LeafAt(h.left, k, p)
    ensures LeafAt(h, n, p).Some? ==>
              && AuditPath(h, n, p) == AuditPath(h.left, k, p) + [h.right]
              && forall x :: Graft(h, n, p, x) == Graft(h.left, k, p, x)
  {}

  lemma DescendRight(h: Hash, n: nat, p: nat, k: nat)
    requires 2 <= n && k == Split(n) && k <= p < n && h.Node?
    ensures LeafAt(h, n, p) == LeafAt(h.right, n - k, p - k)
    ensures LeafAt(h, n, p).Some? ==>
              && AuditPath(h, n, p) == AuditPath(h.right, n - k, p - k) + [h.left]
              && forall x :: Graft(h, n, p, x) == Node(h.left, Graft(h.right, n - k, p - k, x))
  {}

  /** Everything said of leaf p, said of the leaf's parent one level up. */
  ghost predicate Below(h: Hash, n: nat, p: nat, u: nat, q: nat, x: Hash)
    requires p < n && q < u
  {
    var up := LeafAt(h, u, q);
    && LeafAt(h, n, p) == Child(n, p, q, up)
    && (LeafAt(h, n, p).Some? ==>
          && AuditPath(h, n, p) == Sibling(n, p, q, up.value) + AuditPath(h, u, q)
          && Graft(h, n, p, x) == Graft(h, u, q, Lifted(n, p, q, up.value, x)))
  }

  lemma BelowPair(h: Hash, p: nat, x: Hash)
    requires p < 2
    ensures Below(h, 2, p, 1, 0, x)
  {
    if h.Node? {
      if p == 0 { DescendLeft(h, 2, 0, 1); } else { DescendRight(h, 2, 1, 1); }
    }
  }

  lemma BelowLeft(h: Hash, n: nat, p: nat, u: nat, q: nat, x: Hash)
    requires 2 < n && Halved(n, p, u, q) && h.Node? && p < Split(n)
    requires 2 <= u && q < Split(u) && !Alone(n, p, q) && !Alone(Split(n), p, q)
    requires Below(h.left, Split(n), p, Split(u), q, x)
    ensures Below(h, n, p, u, q, x)
  {
    DescendLeft(h, n, p, Split(n));
    DescendLeft(h, u, q, Split(u));
    if LeafAt(h, n, p).Some? {
      var s, a := Sibling(n, p, q, LeafAt(h, u, q).value), AuditPath(h.left, Split(u), q);
      assert (s + a) + [h.right] == s + (a + [h.right]);
    }
  }

  lemma BelowRight(h: Hash, n: nat, p: nat, u: nat, q: nat, x: Hash)
    requires 2 < n && Halved(n, p, u, q) && h.Node? && Split(n) <= p
    requires 2 <= u && Split(u) <= q < u
    requires Alone(n, p, q) == Alone(n - Split(n), p - Split(n), q - Split(u))
    requires p == 2 * q <==> p - Split(n) == 2 * (q - Split(u))
    requires Below(h.right, n - Split(n), p - Split(n), u - Split(u), q - Split(u), x)
    ensures Below(h, n, p, u, q, x)
  {
    DescendRight(h, n, p, Split(n));
    DescendRight(h, u, q, Split(u));
    if LeafAt(h, n, p).Some? {
      var s := Sibling(n, p, q, LeafAt(h, u, q).value);
      var a := AuditPath(h.right, u - Split(u), q - Split(u));
      assert (s + a) + [h.left] == s + (a + [h.left]);
    }
  }

  lemma {:induction false} LeafIsBelow(h: Hash, n: nat, p: nat, u: nat, q: nat, x: Hash)
    requires 2 <= n && Halved(n, p, u, q)
    ensures Below(h, n, p, u, q, x)
    decreases n
  {
    if n == 2 {
      BelowPair(h, p, x);
    } else {
      HalvesOfSplit(n, p, u, q);
      var k, v := Split(n), Split(u);
      if !h.Node? {
      } else if p < k {
        LeafIsBelow(h.left, k, p, v, q, x);
        BelowLeft(h, n, p, u, q, x);
      } else {
        if n - k > 1 {
          LeafIsBelow(h.right, n - k, p - k, u - v, q - v, x);
        }
        BelowRight(h, n, p, u, q, x);
      }
    }
  }

  /** The root holds sr as leaf p, along this path; with fr in its place it is root1. */
  ghost predicate Holds(p: nat, n: nat, fr: Hash, sr: Hash, path: seq<Hash>, root1: Hash, root2: Hash)
    requires p < n
  {
    LeafAt(root2, n, p) == Some(sr) && path == AuditPath(root2, n, p) && root1 == Graft(root2, n, p, fr)
  }

  lemma HoldsAlone(p: nat, n: nat, u: nat, q: nat, fr: Hash, sr: Hash, path: seq<Hash>, root1: Hash, root2: Hash)
    requires Halved(n, p, u, q) && Alone(n, p, q) && Below(root2, n, p, u, q, fr)
    ensures Holds(p, n, fr, sr, path, root1, root2) <==> Holds(q, u, fr, sr, path, root1, root2)
  {
    if LeafAt(root2, n, p).Some? {
      assert [] + AuditPath(root2, u, q) == AuditPath(root2, u, q);
    }
  }

  lemma HoldsOnTheRight(p: nat, n: nat, u: nat, q: nat, fr: Hash, sr: Hash, c: Hash, rest: seq<Hash>, root1: Hash, root2: Hash)
    requires Halved(n, p, u, q) && !Alone(n, p, q) && p == 2 * q + 1 && Below(root2, n, p, u, q, fr)
    ensures Holds(p, n, fr, sr, [c] + rest, root1, root2) <==> Holds(q, u, Node(c, fr), Node(c, sr), rest, root1, root2)
  {
    if LeafAt(root2, n, p).Some? {
      ConsMatches(c, rest, LeafAt(root2, u, q).value.left, AuditPath(root2, u, q));
    }
  }

  lemma HoldsOnTheLeft(p: nat, n: nat, u: nat, q: nat, fr: Hash, sr: Hash, c: Hash, rest: seq<Hash>, root1: Hash, root2: Hash)
    requires Halved(n, p, u, q) && !Alone(n, p, q) && p == 2 * q && Below(root2, n, p, u, q, fr)
    ensures Holds(p, n, fr, sr, [c] + rest, root1, root2) <==> Holds(q, u, fr, Node(sr, c), rest, root1, root2)
  {
    if LeafAt(root2, n, p).Some? {
      ConsMatches(c, rest, LeafAt(root2, u, q).value.right, AuditPath(root2, u, q));
    }
  }

  lemma HoldsNowhere(p: nat, n: nat, u: nat, q: nat, fr: Hash, sr: Hash, root1: Hash, root2: Hash)
    requires Halved(n, p, u, q) && !Alone(n, p, q) && Below(root2, n, p, u, q, fr)
    ensures !Holds(p, n, fr, sr, [], root1, root2)
  {}

  /** What a climb from position p reaches, read from the top. */
  lemma {:induction false} ClimbReadsTheTree(p: nat, n: nat, fr: Hash, sr: Hash, path: seq<Hash>, root1: Hash, root2: Hash)
    requires p < n
    ensures ClimbLevels(p, n - 1, fr, sr, path) == Some((root1, root2)) <==> Holds(p, n, fr, sr, path, root1, root2)
    decreases n
  {
    if n > 1 {
      var u, q := (n + 1) / 2, p / 2;
      assert (n - 1) / 2 == u - 1;
      LeafIsBelow(root2, n, p, u, q, fr);
      if Alone(n, p, q) {
        ClimbReadsTheTree(q, u, fr, sr, path, root1, root2);
        HoldsAlone(p, n, u, q, fr, sr, path, root1, root2);
      } else if path == [] {
        HoldsNowhere(p, n, u, q, fr, sr, root1, root2);
      } else {
        var c, rest := path[0], path[1..];
        assert path == [c] + rest;
        if p % 2 == 1 {
          ClimbReadsTheTree(q, u, Node(c, fr), Node(c, sr), rest, root1, root2);
          HoldsOnTheRight(p, n, u, q, fr, sr, c, rest, root1, root2);
        } else {
          ClimbReadsTheTree(q, u, fr, Node(sr, c), rest, root1, root2);
          HoldsOnTheLeft(p, n, u, q, fr, sr, c, rest, root1, root2);
        }
      }
    }
  }

  // ---------------------------------------------------------------------
  // Inclusion
  // ---------------------------------------------------------------------

  /**
   * An inclusion proof is accepted exactly when descending from the root
   * reaches the leaf at that position along exactly that path.
   */
  lemma InclusionCharacterized(i: nat, n: nat, leaf: Hash, path: seq<Hash>, root: Hash)
    ensures InclusionAccepted(i, n, leaf, path, root)
        <==> i < n && LeafAt(root, n, i) == Some(leaf) && path == AuditPath(root, n, i)
  {
    if i < n {
      var both := ClimbTwo(i, n - 1, leaf, leaf, path);
      ClimbIsSecond(i, n - 1, leaf, leaf, path);
      ClimbByLevels(i, n - 1, leaf, leaf, path);
      if both.Some? {
        ClimbReadsTheTree(i, n, leaf, leaf, path, both.value.0, both.value.1);
      }
      if LeafAt(root, n, i).Some? {
        ClimbReadsTheTree(i, n, leaf, leaf, path, Graft(root, n, i, leaf), root);
      }
    }
  }

  // ---------------------------------------------------------------------
  // Consistency
  // ---------------------------------------------------------------------

  /** An odd-sized prefix ends in a single leaf, and its path is that leaf's. */
  lemma {:induction false} OddPrefix(h: Hash, n: nat, m: nat)
    requires 0 < m <= n && m % 2 == 1 && (m == n ==> m == 1)
    ensures Prefix(h, n, m).Some? <==> LeafAt(h, n, m - 1).Some?
    ensures Prefix(h, n, m).Some? ==>
              var leaf := LeafAt(h, n, m - 1).value;
              && Prefix(h, n, m).value == Graft(h, n, m - 1, leaf)
              && ConsistencyPath(h, n, m, false) == [leaf] + AuditPath(h, n, m - 1)
    decreases n
  {
    if n > 1 && h.Node? {
      var k := Split(n);
      SplitIsPow2(n);
      if m <= k {
        OddPrefix(h.left, k, m);
      } else {
        OddPrefix(h.right, n - k, m - k);
      }
    }
  }

  /** The climb from the last leaf of an odd-sized older tree. */
  lemma ClimbReadsThePrefix(m: nat, n: nat, seed: Hash, rest: seq<Hash>, root1: Hash, root2: Hash)
    requires 0 < m <= n && m % 2 == 1 && (m == n ==> m == 1)
    ensures ClimbTwo(m - 1, n - 1, seed, seed, rest) == Some((root1, root2))
        <==> Prefix(root2, n, m) == Some(root1) && [seed] + rest == ConsistencyPath(root2, n, m, false)
  {
    ClimbByLevels(m - 1, n - 1, seed, seed, rest);
    ClimbReadsTheTree(m - 1, n, seed, seed, rest, root1, root2);
    OddPrefix(root2, n, m);
    if Prefix(root2, n, m).Some? {
      ConsMatches(seed, rest, LeafAt(root2, n, m - 1).value, AuditPath(root2, n, m - 1));
    }
  }

  lemma ConsMatches(a: Hash, s: seq<Hash>, b: Hash, t: seq<Hash>)
    ensures [a] + s == [b] + t <==> a == b && s == t
  {
    if [a] + s == [b] + t {
      assert ([a] + s)[0] == a && ([b] + t)[0] == b;
      assert ([a] + s)[1..] == s && ([b] + t)[1..] == t;
    }
  }

  /** Without the shortcut for the whole tree a path names at least the seed. */
  lemma {:induction false} ConsistencyPathNonempty(h: Hash, n: nat, m: nat)
    requires 0 < m <= n
    ensures Prefix(h, n, m).Some? ==> |ConsistencyPath(h, n, m, false)| >= (if m == n then 1 else 2)
    decreases n
  {
    if m < n && h.Node? {
      var k := Split(n);
      if m <= k {
        ConsistencyPathNonempty(h.left, k, m);
      } else {
        ConsistencyPathNonempty(h.right, n - k, m - k);
      }
    }
  }

  /** An even-sized older tree can be read one level up. */
  lemma {:induction false} PrefixOneLevelUp(h: Hash, n: nat, m: nat, u: nat, q: nat, whole: bool)
    requires 0 < m <= n && m == 2 * q && (n == 2 * u || n + 1 == 2 * u)
    ensures Prefix(h, n, m) == Prefix(h, u, q)
    ensures Prefix(h, n, m).Some? ==> ConsistencyPath(h, n, m, whole) == ConsistencyPath(h, u, q, whole)
    decreases n
  {
    if m < n && h.Node? {
      HalvesOfSplit(n, m, u, q);
      var k, v := Split(n), Split(u);
      if m <= k {
        PrefixOneLevelUp(h.left, k, m, v, q, whole);
      } else {
        PrefixOneLevelUp(h.right, n - k, m - k, u - v, q - v, false);
      }
    }
  }

  /** From a power of two, the path leaves out the seed: it is the older root. */
  lemma {:induction false} PathFromPow2(h: Hash, n: nat, m: nat)
    requires 0 < m <= n && IsPow2(m) && Prefix(h, n, m).Some?
    ensures ConsistencyPath(h, n, m, false) == [Prefix(h, n, m).value] + ConsistencyPath(h, n, m, true)
    decreases n
  {
    if m < n {
      var k := Split(n);
      SplitIsPow2(n);
      Pow2NotBetween(m, k);
      PathFromPow2(h.left, k, m);
    }
  }

  lemma {:induction false} PathNotFromPow2(h: Hash, n: nat, m: nat)
    requires 0 < m < n && !IsPow2(m) && Prefix(h, n, m).Some?
    ensures ConsistencyPath(h, n, m, true) == ConsistencyPath(h, n, m, false)
    decreases n
  {
    var k := Split(n);
    SplitIsPow2(n);
    if m < k {
      PathNotFromPow2(h.left, k, m);
    }
  }

  /** The climb after the shift, for an older tree of any size. */
  lemma {:induction false} ShiftedClimb(m: nat, n: nat, full: seq<Hash>, root1: Hash, root2: Hash)
    requires 0 < m < n || m == n == 1
    ensures var (fn, sn) := ShiftToEven(m - 1, n - 1);
            (full != [] && ClimbTwo(fn, sn, full[0], full[0], full[1..]) == Some((root1, root2)))
            <==> Prefix(root2, n, m) == Some(root1) && full == ConsistencyPath(root2, n, m, false)
    decreases m
  {
    if m % 2 == 1 {
      if full == [] {
        ConsistencyPathNonempty(root2, n, m);
      } else {
        ClimbReadsThePrefix(m, n, full[0], full[1..], root1, root2);
        assert [full[0]] + full[1..] == full;
      }
    } else {
      assert (m - 1) / 2 == m / 2 - 1 && (n - 1) / 2 == (n + 1) / 2 - 1;
      ShiftedClimb(m / 2, (n + 1) / 2, full, root1, root2);
      PrefixOneLevelUp(root2, n, m, (n + 1) / 2, m / 2, false);
    }
  }

  /**
   * A consistency proof is accepted exactly when the newer root's own
   * structure yields the older root as its prefix, along exactly that path.
   */
  lemma ConsistencyCharacterized(m: nat, n: nat, path: seq<Hash>, root1: Hash, root2: Hash)
    requires 0 < m
    ensures ConsistencyAccepted(m, n, path, root1, root2)
        <==> m <= n && Prefix(root2, n, m) == Some(root1) && path == ConsistencyPath(root2, n, m, true)
  {
    if m < n {
      var full := if IsPow2(m) then [root1] + path else path;
      ShiftedClimb(m, n, full, root1, root2);
      if Prefix(root2, n, m) == Some(root1) {
        ConsistencyPathNonempty(root2, n, m);
        if IsPow2(m) {
          PathFromPow2(root2, n, m);
          assert full[1..] == path;
          assert ([root1] + ConsistencyPath(root2, n, m, true))[1..] == ConsistencyPath(root2, n, m, true);
        } else {
          PathNotFromPow2(root2, n, m);
        }
      }
    }
  }
}
