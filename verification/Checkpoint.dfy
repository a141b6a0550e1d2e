/**
 * Checkpoints: reading a signed note, and checking proofs against what one
 * commits to.
 */
module Checkpoint {
  import opened Basics
  import opened Tree
  import opened MerkleProof

  /**
   * One line of a note, with what the decimal and base64 decoders make of its
   * text. An empty line is neither a size nor a root hash.
   */
  datatype Line = Blank | Text(text: Bytes, size: Option<nat>, root: Option<Hash>)

  /**
   * A signed note as served: its lines, without the newline that ends the
   * last one, and whether the signature block after its last blank line
   * carries a good signature by the pinned log key.
   */
  datatype Note = Note(lines: seq<Line>, signed: bool)

  /** `raw` is absent for a (size, root) pair the caller brings. */
  datatype Checkpoint = Checkpoint(size: nat, hash: Hash, raw: Option<Note>)

  const MAX_PROOF_LEN := 64

  predicate SameTree(a: Checkpoint, b: Checkpoint) {
    a.size == b.size && a.hash == b.hash
  }

  // ---------------------------------------------------------------------
  // Notes
  // ---------------------------------------------------------------------

  /** Index of the first blank line that ends a line before it, or |lines|. */
  function FirstBlank(lines: seq<Line>, from: nat): (i: nat)
    requires from <= |lines|
    ensures from <= i <= |lines|
    ensures forall j :: from <= j < i ==> lines[j] != Blank
    ensures i < |lines| ==> lines[i] == Blank
    decreases |lines| - from
  {
    if from == |lines| || lines[from] == Blank then from else FirstBlank(lines, from + 1)
  }

  /** Index of the last blank line that ends a line before it, or 0. */
  function LastBlank(lines: seq<Line>, to: nat): (i: nat)
    requires to <= |lines|
    ensures i == 0 || (0 < i < to && lines[i] == Blank)
    ensures forall j :: i < j < to ==> lines[j] != Blank
  {
    if to <= 1 then 0 else if lines[to - 1] == Blank then to - 1 else LastBlank(lines, to - 1)
  }

  /** Origin, size and root are the first three lines; the rest is extension. */
  function ParseBody(text: seq<Line>, origin: Bytes): Option<(nat, Hash)> {
    if |text| < 3 || text[0] == Blank || text[1] == Blank || text[2] == Blank then None
    else if text[1].size == None || text[2].root == None then None
    else if text[0].text != origin || !WellSized(text[2].root.value) then None
    else Some((text[1].size.value, text[2].root.value))
  }

  /** A checkpoint the pinned key signed for this origin. */
  function Verify(note: Note, origin: Bytes): (r: Option<Checkpoint>)
    ensures r.Some? ==> r.value.raw == Some(note)
  {
    var end := LastBlank(note.lines, |note.lines|);
    if end == 0 || !note.signed then None
    else
      match ParseBody(note.lines[..end], origin)
      case None => None
      case Some((size, root)) => Some(Checkpoint(size, root, Some(note)))
  }

  /** A checkpoint this program verified earlier, read back without its signatures. */
  function ParseTrusted(note: Note, origin: Bytes): (r: Option<Checkpoint>)
    ensures r.Some? ==> r.value.raw == Some(note)
  {
    if note.lines == [] then None
    else
      var end := FirstBlank(note.lines, 1);
      if end == |note.lines| then None
      else
        match ParseBody(note.lines[..end], origin)
        case None => None
        case Some((size, root)) => Some(Checkpoint(size, root, Some(note)))
  }

  /**
   * The two readers cut the note at different blank lines, the last one and
   * the first one, and still agree on every note that verifies.
   */
  lemma TrustedReadsWhatVerified(note: Note, origin: Bytes)
    requires Verify(note, origin).Some?
    ensures ParseTrusted(note, origin) == Verify(note, origin)
  {
    var first := FirstBlank(note.lines, 1);
    var last := LastBlank(note.lines, |note.lines|);
    assert note.lines[last] == Blank;
    assert forall j :: 0 <= j < 3 ==> note.lines[..last][j] == note.lines[j];
    assert 3 <= first <= last;
    assert forall j :: 0 <= j < 3 ==> note.lines[..first][j] == note.lines[j];
  }

  /** Of the notes that read back as trusted, exactly the signed ones verify, and to the same checkpoint. */
  lemma TrustedVerifiesExactly(note: Note, origin: Bytes)
    requires ParseTrusted(note, origin).Some?
    ensures Verify(note, origin) == ParseTrusted(note, origin) <==> note.signed
  {
    var first := FirstBlank(note.lines, 1);
    var last := LastBlank(note.lines, |note.lines|);
    assert note.lines[first] == Blank;
    assert forall j :: 0 <= j < 3 ==> note.lines[..first][j] == note.lines[j];
    assert first <= last;
    assert forall j :: 0 <= j < 3 ==> note.lines[..last][j] == note.lines[j];
  }

  // ---------------------------------------------------------------------
  // Proofs against checkpoints
  // ---------------------------------------------------------------------

  predicate CheckHashes(hashes: seq<Hash>) {
    |hashes| <= MAX_PROOF_LEN && forall h <- hashes :: WellSized(h)
  }

  predicate VerifyInclusion(cp: Checkpoint, index: nat, leaf: Hash, hashes: seq<Hash>) {
    && CheckHashes(hashes)
    && index < cp.size
    && WellSized(leaf)
    && InclusionAccepted(index, cp.size, leaf, hashes, cp.hash)
  }

  predicate VerifyConsistency(older: Checkpoint, newer: Checkpoint, hashes: seq<Hash>) {
    && CheckHashes(hashes)
    && older.size <= newer.size
    && ConsistencyAccepted(older.size, newer.size, hashes, older.hash, newer.hash)
  }

  /** The leaf hash a checkpoint commits to at an index, where its root shows it. */
  ghost function Committed(cp: Checkpoint, index: nat): Option<Hash> {
    if index < cp.size then LeafAt(cp.hash, cp.size, index) else None
  }

  /** `newer` commits to a tree whose first older.size leaves are `older`'s tree. */
  ghost predicate Extends(newer: Checkpoint, older: Checkpoint) {
    older.size <= newer.size
    && (older.size > 0 ==> Prefix(newer.hash, newer.size, older.size) == Some(older.hash))
  }

  lemma ExtendsItself(cp: Checkpoint)
    ensures Extends(cp, cp)
  {}

  lemma ExtendsTransitive(a: Checkpoint, b: Checkpoint, c: Checkpoint)
    requires Extends(b, a) && Extends(c, b)
    ensures Extends(c, a)
  {
    if a.size > 0 {
      PrefixOfPrefix(c.hash, c.size, b.size, a.size);
    }
  }

  /** An extension commits to the same leaf at every index the older tree covers. */
  lemma ExtensionKeepsLeaves(newer: Checkpoint, older: Checkpoint, index: nat)
    requires Extends(newer, older) && index < older.size
    ensures Committed(newer, index) == Committed(older, index)
  {
    PrefixKeepsLeaves(newer.hash, newer.size, older.size, index);
  }

  /** Accepted consistency is the prefix relation, for a nonempty older tree. */
  lemma ConsistencySound(older: Checkpoint, newer: Checkpoint, hashes: seq<Hash>)
    requires VerifyConsistency(older, newer, hashes)
    ensures Extends(newer, older)
  {
    if older.size > 0 {
      ConsistencyCharacterized(older.size, newer.size, hashes, older.hash, newer.hash);
    }
  }

  /** One tree extends one root alone at each size, but for size 0, where it extends any. */
  lemma PrefixFixedExactly(newer: Checkpoint, n: nat)
    ensures (forall a, b :: Extends(newer, a) && Extends(newer, b) && a.size == n && b.size == n ==> a.hash == b.hash)
        <==> n > 0
  {
    if n == 0 {
      var a, b := Checkpoint(0, Leaf([]), None), Checkpoint(0, Leaf([0]), None);
      assert Extends(newer, a) && Extends(newer, b) && a.hash != b.hash;
    }
  }

  /** Some accepted proof exists exactly for the prefixes whose path fits. */
  lemma ConsistencyComplete(older: Checkpoint, newer: Checkpoint, hashes: seq<Hash>)
    requires 0 < older.size
    ensures VerifyConsistency(older, newer, hashes)
        <==> Extends(newer, older) && CheckHashes(hashes)
             && hashes == ConsistencyPath(newer.hash, newer.size, older.size, true)
  {
    ConsistencyCharacterized(older.size, newer.size, hashes, older.hash, newer.hash);
  }

  lemma InclusionSound(cp: Checkpoint, index: nat, leaf: Hash, hashes: seq<Hash>)
    requires VerifyInclusion(cp, index, leaf, hashes)
    ensures Committed(cp, index) == Some(leaf)
  {
    InclusionCharacterized(index, cp.size, leaf, hashes, cp.hash);
  }

  /** No two leaves are accepted at one index of one checkpoint. */
  lemma InclusionUnique(cp: Checkpoint, index: nat, a: Hash, p: seq<Hash>, b: Hash, q: seq<Hash>)
    requires VerifyInclusion(cp, index, a, p) && VerifyInclusion(cp, index, b, q)
    ensures a == b && p == q
  {
    InclusionCharacterized(index, cp.size, a, p, cp.hash);
    InclusionCharacterized(index, cp.size, b, q, cp.hash);
  }

  // ---------------------------------------------------------------------
  // Honest logs, and the cap on proof lengths
  // ---------------------------------------------------------------------

  const MAX_UINT64 := 0xFFFF_FFFF_FFFF_FFFF

  const HALF_UINT64 := 0x8000_0000_0000_0000

  lemma Pow2Literals()
    ensures Pow2(63) == HALF_UINT64 && Pow2(64) == MAX_UINT64 + 1
  {
    assert Pow2(8) == 0x100;
    assert Pow2(16) == 0x1_0000 by { Pow2Sum(8, 8); }
    assert Pow2(32) == 0x1_0000_0000 by { Pow2Sum(16, 16); }
    assert Pow2(31) == 0x8000_0000;
    assert Pow2(63) == HALF_UINT64 by { Pow2Sum(32, 31); }
  }

  lemma {:induction false} Pow2Sum(a: nat, b: nat)
    ensures Pow2(a + b) == Pow2(a) * Pow2(b)
  {
    if a > 0 {
      Pow2Sum(a - 1, b);
    }
  }

  /** The checkpoint of the first n of a log's entries. */
  ghost predicate CheckpointOf(cp: Checkpoint, entries: seq<Bytes>) {
    cp.size <= |entries| && cp.hash == Root(entries[..cp.size])
  }

  /** An honest log's inclusion proof is accepted, at every uint64 size. */
  lemma HonestInclusion(entries: seq<Bytes>, cp: Checkpoint, index: nat)
    requires CheckpointOf(cp, entries) && index < cp.size <= MAX_UINT64
    ensures Committed(cp, index) == Some(Leaf(entries[index]))
    ensures VerifyInclusion(cp, index, Leaf(entries[index]), AuditPath(cp.hash, cp.size, index))
  {
    var covered := entries[..cp.size];
    LeafAtRoot(covered, index);
    AuditPathOfRootIsSized(covered, index);
    Pow2Literals();
    AuditPathLength(cp.hash, cp.size, index, 64);
    InclusionCharacterized(index, cp.size, Leaf(entries[index]), AuditPath(cp.hash, cp.size, index), cp.hash);
  }

  lemma HonestExtension(entries: seq<Bytes>, older: Checkpoint, newer: Checkpoint)
    requires CheckpointOf(older, entries) && CheckpointOf(newer, entries) && older.size <= newer.size
    ensures Extends(newer, older)
  {
    if older.size > 0 {
      PrefixOfRoot(entries[..newer.size], older.size);
      assert entries[..newer.size][..older.size] == entries[..older.size];
    }
  }

  /** An honest log's consistency proof is accepted, up to 2^63 leaves. */
  lemma HonestConsistency(entries: seq<Bytes>, older: Checkpoint, newer: Checkpoint)
    requires CheckpointOf(older, entries) && CheckpointOf(newer, entries)
    requires 0 < older.size <= newer.size <= HALF_UINT64
    ensures Extends(newer, older)
    ensures VerifyConsistency(older, newer, ConsistencyPath(newer.hash, newer.size, older.size, true))
  {
    HonestExtension(entries, older, newer);
    ConsistencyPathOfRootIsSized(entries[..newer.size], older.size, true);
    Pow2Literals();
    ConsistencyPathLength(newer.hash, newer.size, older.size, true, 63);
    ConsistencyComplete(older, newer, ConsistencyPath(newer.hash, newer.size, older.size, true));
  }

  /**
   * Past 2^63 leaves the cap refuses an honest proof: the one from size 3 has
   * 65 hashes whatever the newer size.
   */
  lemma CapRefusesHonestProof(newer: Checkpoint, older: Checkpoint)
    requires HALF_UINT64 < newer.size <= MAX_UINT64 && older.size == 3 && Extends(newer, older)
    ensures |ConsistencyPath(newer.hash, newer.size, 3, true)| == MAX_PROOF_LEN + 1
    ensures forall hashes :: !VerifyConsistency(older, newer, hashes)
  {
    Pow2Literals();
    Pow2IsPow2(63);
    SplitIsUnique(newer.size, Pow2(63));
    ConsistencyFromThree(newer.hash.left, 63, true);
    forall hashes ensures !VerifyConsistency(older, newer, hashes) {
      ConsistencyComplete(older, newer, hashes);
    }
  }

  /** The cap admits every honest consistency proof to n leaves exactly up to 2^63. */
  lemma CapFitsExactly(entries: seq<Bytes>, newer: Checkpoint)
    requires CheckpointOf(newer, entries) && 3 < newer.size <= MAX_UINT64
    ensures newer.size <= HALF_UINT64
        <==> forall older | CheckpointOf(older, entries) && 0 < older.size <= newer.size
               :: exists hashes :: VerifyConsistency(older, newer, hashes)
  {
    if newer.size <= HALF_UINT64 {
      forall older | CheckpointOf(older, entries) && 0 < older.size <= newer.size
        ensures exists hashes :: VerifyConsistency(older, newer, hashes)
      {
        HonestConsistency(entries, older, newer);
      }
    } else {
      var three := Checkpoint(3, Root(entries[..3]), None);
      assert CheckpointOf(three, entries);
      HonestExtension(entries, three, newer);
      CapRefusesHonestProof(newer, three);
    }
  }
}
