/** Reading back what the leaf printers print. */
module LeafRoundTrip {
  import opened Basics
  import opened JsonText
  import opened Json
  import opened Leaf
  import opened LeafReader

  predicate DistinctKeys(fs: seq<Field>) {
    forall i, j :: 0 <= i < j < |fs| ==> fs[i].key != fs[j].key
  }

  /** The members of an object built from these fields, decoded. */
  function ReadBack(fs: seq<Field>): (es: seq<Named>)
    ensures |es| == |fs|
    ensures forall i :: 0 <= i < |fs| ==> es[i] == Named(Name(fs[i].key), fs[i].value)
  {
    Decoded(Members(fs))
  }

  lemma ReadBackIsUnambiguous(fs: seq<Field>, keys: set<Key>)
    requires DistinctKeys(fs) && forall i :: 0 <= i < |fs| ==> fs[i].key in keys
    ensures Unambiguous(ReadBack(fs), set k | k in keys :: Name(k))
  {
    var es := ReadBack(fs);
    forall i, j | 0 <= i < j < |es| ensures es[i].name != es[j].name {
      if es[i].name == es[j].name {
        NamesDistinct(fs[i].key, fs[j].key);
      }
    }
  }

  lemma ReadsField(fs: seq<Field>, i: nat)
    requires DistinctKeys(fs) && i < |fs|
    ensures Find(ReadBack(fs), Name(fs[i].key)) == Some(fs[i].value)
  {
    ReadBackIsUnambiguous(fs, set f <- fs :: f.key);
    FindAt(ReadBack(fs), i);
  }

  lemma ReadsNoField(fs: seq<Field>, k: Key)
    requires forall i :: 0 <= i < |fs| ==> fs[i].key != k
    ensures Find(ReadBack(fs), Name(k)) == None
  {
    forall i | 0 <= i < |fs| ensures ReadBack(fs)[i].name != Name(k) {
      if Name(fs[i].key) == Name(k) {
        NamesDistinct(fs[i].key, k);
      }
    }
    FindMissing(ReadBack(fs), Name(k));
  }

  /** A printed optional string is read back as it was. */
  lemma ReadsString(es: seq<Named>, k: Key, o: Option<Text>)
    requires Find(es, Name(k)) == Some(OptTree(o)) || (Find(es, Name(k)) == None && o == None)
    ensures OptString(es, k) == Some(o)
  {
    if o.Some? {
      var body := EscapeAll(o.value);
      StrictEscaped(o.value);
      StrictIsUnquoted(body);
      WellFormedIsStrict(body);
    }
  }

  lemma ReadsFieldString(fs: seq<Field>, i: nat, o: Option<Text>)
    requires DistinctKeys(fs) && i < |fs| && fs[i].value == OptTree(o)
    ensures OptString(ReadBack(fs), fs[i].key) == Some(o)
  {
    ReadsField(fs, i);
    ReadsString(ReadBack(fs), fs[i].key, o);
  }

  lemma ReadsInsideActor(a: Actor)
    ensures var es := ReadBack(ActorFields(a));
            Unambiguous(es, ACTOR_NAMES) && OptString(es, TypeKey) == Some(a.typ)
  {
    var fs := ActorFields(a);
    assert DistinctKeys(fs);
    ReadBackIsUnambiguous(fs, ACTOR_KEYS);
    ReadsFieldString(fs, 1, a.typ);
  }

  lemma ReadsActor(es: seq<Named>, a: Option<Actor>)
    requires Find(es, Name(ActorKey)) == Some(ActorTree(a))
    ensures ProjectActor(es) == Some(a)
  {
    if a.Some? {
      ReadsInsideActor(a.value);
    }
  }

  lemma ReadsInsideResource(r: Resource)
    ensures var es := ReadBack(ResourceFields(r));
            && Unambiguous(es, RESOURCE_NAMES)
            && OptString(es, IdKey) == Some(r.id) && OptString(es, TypeKey) == Some(r.typ)
  {
    var fs := ResourceFields(r);
    assert DistinctKeys(fs);
    ReadBackIsUnambiguous(fs, RESOURCE_KEYS);
    ReadsFieldString(fs, 0, r.id);
    ReadsFieldString(fs, 2, r.typ);
  }

  lemma ReadsResource(es: seq<Named>, r: Option<Resource>)
    requires Find(es, Name(ResourceDetails)) == Some(ResourceTree(r))
    ensures ProjectResource(es) == Some(r)
  {
    if r.Some? {
      ReadsInsideResource(r.value);
    }
  }

  /** Position of a name among the twelve of field set v2. */
  function Place(k: Key): nat {
    match k
    case AccessedAt => 0
    case AccessorDepartment => 1
    case ActorKey => 2
    case CreatedAt => 3
    case IdKey => 4
    case OrganizationId => 5
    case OrganizationUuid => 6
    case ReasonCode => 7
    case ResourceDetails => 8
    case TypeKey => 9
    case UserProfileId => 10
    case WorkspaceId => 11
    case _ => 12
  }

  lemma CommonPlaces(r: Record)
    ensures forall i :: 0 <= i < 10 ==>
              Place(CommonFields(r)[i].key) == i && CommonFields(r)[i].key in TOP_KEYS && CommonFields(r)[i].key != LeafIndex
  {}

  lemma FieldsV1AreDistinct(r: Record)
    ensures var fs := FieldsV1(r);
            DistinctKeys(fs) && forall i :: 0 <= i < |fs| ==> fs[i].key in TOP_KEYS && fs[i].key != LeafIndex
  {
    var fs := FieldsV1(r);
    CommonPlaces(r);
    assert forall i :: 0 <= i < 10 ==> fs[i] == CommonFields(r)[i];
    assert forall i :: 0 <= i < |fs| ==> Place(fs[i].key) == (if i < 10 then i else 11);
  }

  lemma FieldsV2AreDistinct(r: Record)
    ensures var fs := FieldsV2(r);
            DistinctKeys(fs) && forall i :: 0 <= i < |fs| ==> fs[i].key in TOP_KEYS && fs[i].key != LeafIndex
  {
    var fs := FieldsV2(r);
    CommonPlaces(r);
    assert forall i :: 0 <= i < 10 ==> fs[i] == CommonFields(r)[i];
    assert forall i :: 0 <= i < |fs| ==> Place(fs[i].key) == (if i < 10 || |fs| == 12 then i else 11);
  }

  ghost predicate CommonReadAs(es: seq<Named>, r: Record) {
    && OptString(es, AccessedAt) == Some(r.accessedAt)
    && OptString(es, AccessorDepartment) == Some(r.accessorDepartment)
    && ProjectActor(es) == Some(r.actor)
    && OptString(es, CreatedAt) == Some(r.createdAt)
    && OptString(es, IdKey) == Some(r.id)
    && OptString(es, OrganizationId) == Some(r.organizationId)
    && OptString(es, OrganizationUuid) == Some(r.organizationUuid)
    && OptString(es, ReasonCode) == Some(r.reasonCode)
    && ProjectResource(es) == Some(r.resource)
    && OptString(es, TypeKey) == Some(r.typ)
  }

  /** The first ten fields of either set, read back. */
  lemma ReadsCommon(r: Record, fs: seq<Field>)
    requires DistinctKeys(fs) && |fs| >= 10 && fs[..10] == CommonFields(r)
    ensures CommonReadAs(ReadBack(fs), r)
  {
    var c := CommonFields(r);
    assert forall i :: 0 <= i < 10 ==> fs[i] == c[i];
    assert fs[0] == c[0] && fs[1] == c[1] && fs[3] == c[3] && fs[4] == c[4] && fs[5] == c[5];
    assert fs[2] == c[2] && fs[8] == c[8];
    assert fs[6] == c[6] && fs[7] == c[7] && fs[9] == c[9];
    ReadsFieldString(fs, 0, r.accessedAt);
    ReadsFieldString(fs, 1, r.accessorDepartment);
    ReadsField(fs, 2);
    ReadsActor(ReadBack(fs), r.actor);
    ReadsFieldString(fs, 3, r.createdAt);
    ReadsFieldString(fs, 4, r.id);
    ReadsFieldString(fs, 5, r.organizationId);
    ReadsFieldString(fs, 6, r.organizationUuid);
    ReadsFieldString(fs, 7, r.reasonCode);
    ReadsField(fs, 8);
    ReadsResource(ReadBack(fs), r.resource);
    ReadsFieldString(fs, 9, r.typ);
  }

  ghost predicate ReadAs(es: seq<Named>, r: Record) {
    && CommonReadAs(es, r)
    && OptString(es, WorkspaceId) == Some(r.workspaceId)
    && OptString(es, UserProfileId) == Some(r.userProfileId)
    && IndexOf(es) == Some(None)
  }

  lemma ReadAsProjects(es: seq<Named>, r: Record)
    requires ReadAs(es, r)
    ensures ProjectFields(es) == Some((r, None))
  {}

  lemma ReadsLast(r: Record, fs: seq<Field>)
    requires fs == FieldsV2(r) || (fs == FieldsV1(r) && r.userProfileId == None)
    requires DistinctKeys(fs) && forall i :: 0 <= i < |fs| ==> fs[i].key != LeafIndex
    ensures OptString(ReadBack(fs), WorkspaceId) == Some(r.workspaceId)
    ensures IndexOf(ReadBack(fs)) == Some(None)
  {
    assert fs[|fs| - 1] == Field(WorkspaceId, OptTree(r.workspaceId));
    ReadsFieldString(fs, |fs| - 1, r.workspaceId);
    ReadsNoField(fs, LeafIndex);
  }

  /** An object of either field set reads back as the record it came from. */
  lemma ReadsRecord(r: Record, fs: seq<Field>)
    requires fs == FieldsV2(r) || (fs == FieldsV1(r) && r.userProfileId == None)
    ensures ReadAs(ReadBack(fs), r) && Unambiguous(ReadBack(fs), TOP_NAMES)
  {
    FieldsFacts(r, fs);
    ReadBackIsUnambiguous(fs, TOP_KEYS);
    ReadsCommon(r, fs);
    ReadsLast(r, fs);
    ReadsProfile(r, fs);
  }

  lemma FieldsFacts(r: Record, fs: seq<Field>)
    requires fs == FieldsV2(r) || (fs == FieldsV1(r) && r.userProfileId == None)
    ensures DistinctKeys(fs) && |fs| >= 11 && fs[..10] == CommonFields(r)
    ensures forall i :: 0 <= i < |fs| ==> fs[i].key in TOP_KEYS && fs[i].key != LeafIndex
  {
    FieldsV1AreDistinct(r);
    FieldsV2AreDistinct(r);
  }

  lemma ReadsProfile(r: Record, fs: seq<Field>)
    requires fs == FieldsV2(r) || (fs == FieldsV1(r) && r.userProfileId == None)
    requires DistinctKeys(fs)
    ensures OptString(ReadBack(fs), UserProfileId) == Some(r.userProfileId)
  {
    if r.userProfileId.Some? {
      assert fs[10] == Field(UserProfileId, OptTree(r.userProfileId));
      ReadsFieldString(fs, 10, r.userProfileId);
    } else {
      assert forall i :: 0 <= i < 10 ==> fs[i] == CommonFields(r)[i];
      assert fs[10].key == WorkspaceId;
      ReadsNoField(fs, UserProfileId);
      ReadsString(ReadBack(fs), UserProfileId, None);
    }
  }

  /**
   * Reading the canonical JSON of a record's 0x02 entry, or of its 0x01 entry
   * when it has no id, rebuilds that record's event, entries and all.
   */
  lemma RoundTrip(r: Record, version: Byte)
    requires KnownType(r.typ) && (version == V2 || (version == V1 && r.userProfileId == None))
    ensures Parse(Entry(version, r)[1..]) == Some(EventOf(r, None))
  {
    var fs := if version == V2 then FieldsV2(r) else FieldsV1(r);
    EntryText(r, version, fs);
    ReadsRecord(r, fs);
    ReadAsProjects(ReadBack(fs), r);
    ParsesObject(fs, r);
  }

  lemma EntryText(r: Record, version: Byte, fs: seq<Field>)
    requires (version == V2 && fs == FieldsV2(r)) || (version == V1 && fs == FieldsV1(r))
    ensures Entry(version, r)[1..] == Print(ObjectOf(fs))
  {}

  /** A printed object whose members project to a record parses as its event. */
  lemma ParsesObject(fs: seq<Field>, r: Record)
    requires PlainFields(fs) && Project(ReadBack(fs)) == Some((r, None))
    ensures Parse(Print(ObjectOf(fs))) == Some(EventOf(r, None))
  {
    ParseTextPrinted(ObjectOf(fs));
  }

  // ---------------------------------------------------------------------
  // Key order
  // ---------------------------------------------------------------------

  /** Code-point order of names, by the first rune where they differ. */
  ghost predicate Precedes(a: Text, b: Text) {
    exists d :: 0 <= d < |a| && d < |b| && a[..d] == b[..d] && a[d] < b[d]
  }

  lemma PrecedesAt(a: Text, b: Text, d: nat)
    requires d < |a| && d < |b| && a[..d] == b[..d] && a[d] < b[d]
    ensures Precedes(a, b)
  {}

  /** Neighbours in the fixed order that share their first rune. */
  const SHARED_INITIALS: set<(Key, Key)> := {
    (AccessedAt, AccessorDepartment), (AccessorDepartment, ActorKey),
    (OrganizationId, OrganizationUuid), (ReasonCode, ResourceDetails) }

  lemma SharedInitialsPrecede(k: Key, l: Key)
    requires (k, l) in SHARED_INITIALS
    ensures Precedes(Name(k), Name(l))
  {
    match k
    case AccessedAt => PrecedesAt(Name(AccessedAt), Name(AccessorDepartment), 6);
    case AccessorDepartment => PrecedesAt(Name(AccessorDepartment), Name(ActorKey), 2);
    case OrganizationId => PrecedesAt(Name(OrganizationId), Name(OrganizationUuid), 13);
    case ReasonCode => PrecedesAt(Name(ReasonCode), Name(ResourceDetails), 2);
  }

  lemma InitialsPrecede(k: Key, l: Key)
    requires NameInitial(k) < NameInitial(l)
    ensures Precedes(Name(k), Name(l))
  {
    PrecedesAt(Name(k), Name(l), 0);
  }

  predicate InPlace(k: Key, l: Key) {
    (k, l) in SHARED_INITIALS || NameInitial(k) < NameInitial(l)
  }

  /** Each name precedes the next. */
  ghost predicate Sorted(fs: seq<Field>) {
    forall i {:trigger fs[i]} :: 0 <= i < |fs| - 1 ==> Precedes(Name(fs[i].key), Name(fs[i + 1].key))
  }

  lemma SortedIfInPlace(fs: seq<Field>)
    requires forall i {:trigger fs[i]} :: 0 <= i < |fs| - 1 ==> InPlace(fs[i].key, fs[i + 1].key)
    ensures Sorted(fs)
  {
    forall i | 0 <= i < |fs| - 1 ensures Precedes(Name(fs[i].key), Name(fs[i + 1].key)) {
      if (fs[i].key, fs[i + 1].key) in SHARED_INITIALS {
        SharedInitialsPrecede(fs[i].key, fs[i + 1].key);
      } else {
        InitialsPrecede(fs[i].key, fs[i + 1].key);
      }
    }
  }

  /** Fields that begin with the common ones, all of which come before the next, are in place if the rest are. */
  lemma CommonThen(r: Record, more: seq<Field>)
    requires more != [] && InPlace(TypeKey, more[0].key)
    requires forall i {:trigger more[i]} :: 0 <= i < |more| - 1 ==> InPlace(more[i].key, more[i + 1].key)
    ensures Sorted(CommonFields(r) + more)
  {
    var fs, c := CommonFields(r) + more, CommonFields(r);
    forall i | 0 <= i < |fs| - 1 ensures InPlace(fs[i].key, fs[i + 1].key) {
      if i < 9 {
        assert fs[i] == c[i] && fs[i + 1] == c[i + 1];
      } else if i == 9 {
        assert fs[9] == c[9] && fs[10] == more[0];
      } else {
        assert fs[i] == more[i - 10] && fs[i + 1] == more[i - 9];
      }
    }
    SortedIfInPlace(fs);
  }

  lemma V1IsSorted(r: Record)
    ensures Sorted(FieldsV1(r))
  {
    CommonThen(r, [Field(WorkspaceId, OptTree(r.workspaceId))]);
  }

  lemma V2IsSorted(r: Record)
    ensures Sorted(FieldsV2(r))
  {
    var last := [Field(WorkspaceId, OptTree(r.workspaceId))];
    var more := if r.userProfileId.Some? then [Field(UserProfileId, OptTree(r.userProfileId))] + last else last;
    CommonThen(r, more);
    assert FieldsV2(r) == CommonFields(r) + more;
  }

  lemma InnerAreSorted(a: Actor, o: Resource)
    ensures Sorted(ActorFields(a)) && Sorted(ResourceFields(o))
  {
    SortedIfInPlace(ActorFields(a));
    SortedIfInPlace(ResourceFields(o));
  }

  /**
   * Both renderers, and both objects they print inside, keep the code-point
   * order of names RFC 8785 requires, whatever is present.
   */
  lemma FieldsAreSorted(r: Record, a: Actor, o: Resource)
    ensures Sorted(FieldsV1(r)) && Sorted(FieldsV2(r)) && Sorted(ActorFields(a)) && Sorted(ResourceFields(o))
  {
    V1IsSorted(r);
    V2IsSorted(r);
    InnerAreSorted(a, o);
  }
}
