/**
 * Leaf entries: a version byte and the canonical JSON of a fixed set of a
 * served event's values, the strict reader of served events, and what a
 * matching leaf hash says of the event.
 */
module Leaf {
  import opened Basics
  import opened JsonText
  import opened Json
  import Tree

  // ---------------------------------------------------------------------
  // Names
  // ---------------------------------------------------------------------

  /** The member names the leaf reads, in code-point order within each object. */
  datatype Key =
    | AccessedAt | AccessorDepartment | ActorKey | CreatedAt | IdKey
    | OrganizationId | OrganizationUuid | ReasonCode | ResourceDetails
    | TypeKey | UserProfileId | WorkspaceId
    | LeafIndex | EmailAddress | ParentKey

  function Ascii(s: string): Text
    requires forall i :: 0 <= i < |s| ==> s[i] as int < 0x80
  {
    seq(|s|, i requires 0 <= i < |s| => s[i] as int)
  }

  function Name(k: Key): (t: Text)
    ensures |t| == NameLength(k) && t[0] == NameInitial(k)
  {
    match k
    case AccessedAt => Ascii("accessed_at")
    case AccessorDepartment => Ascii("accessor_department")
    case ActorKey => Ascii("actor")
    case CreatedAt => Ascii("created_at")
    case IdKey => Ascii("id")
    case OrganizationId => Ascii("organization_id")
    case OrganizationUuid => Ascii("organization_uuid")
    case ReasonCode => Ascii("reason_code")
    case ResourceDetails => Ascii("resource_details")
    case TypeKey => Ascii("type")
    case UserProfileId => Ascii("user_profile_id")
    case WorkspaceId => Ascii("workspace_id")
    case LeafIndex => Ascii("transparency_log_leaf_index")
    case EmailAddress => Ascii("email_address")
    case ParentKey => Ascii("parent")
  }

  function NameLength(k: Key): (n: nat)
    ensures n > 0
  {
    match k
    case AccessedAt => 11
    case AccessorDepartment => 19
    case ActorKey => 5
    case CreatedAt => 10
    case IdKey => 2
    case OrganizationId => 15
    case OrganizationUuid => 17
    case ReasonCode => 11
    case ResourceDetails => 16
    case TypeKey => 4
    case UserProfileId => 15
    case WorkspaceId => 12
    case LeafIndex => 27
    case EmailAddress => 13
    case ParentKey => 6
  }

  function NameInitial(k: Key): Rune {
    match k
    case AccessedAt | AccessorDepartment | ActorKey => 0x61
    case CreatedAt => 0x63
    case IdKey => 0x69
    case OrganizationId | OrganizationUuid => 0x6F
    case ReasonCode | ResourceDetails => 0x72
    case TypeKey | LeafIndex => 0x74
    case UserProfileId => 0x75
    case WorkspaceId => 0x77
    case EmailAddress => 0x65
    case ParentKey => 0x70
  }

  lemma NamesDistinct(k: Key, l: Key)
    requires Name(k) == Name(l)
    ensures k == l
  {
    assert NameLength(k) == NameLength(l) && NameInitial(k) == NameInitial(l);
  }

  /** A name as writeString prints it between quotes. */
  function Printed(k: Key): (b: Bytes)
    ensures IsBody(b) && Unquote(b) == Name(k)
  {
    StrictEscaped(Name(k));
    StrictIsUnquoted(EscapeAll(Name(k)));
    EscapeAll(Name(k))
  }

  const TOP_KEYS: set<Key> := {
    AccessedAt, AccessorDepartment, ActorKey, CreatedAt, IdKey, OrganizationId, OrganizationUuid,
    ReasonCode, ResourceDetails, TypeKey, WorkspaceId, LeafIndex, UserProfileId }

  const ACTOR_KEYS: set<Key> := { EmailAddress, TypeKey }

  const RESOURCE_KEYS: set<Key> := { IdKey, ParentKey, TypeKey }

  // ---------------------------------------------------------------------
  // Records and their two field sets
  // ---------------------------------------------------------------------

  datatype Actor = Actor(typ: Option<Text>)

  datatype Resource = Resource(id: Option<Text>, typ: Option<Text>)

  datatype Record = Record(
    id: Option<Text>, typ: Option<Text>, createdAt: Option<Text>, accessedAt: Option<Text>,
    organizationId: Option<Text>, organizationUuid: Option<Text>,
    workspaceId: Option<Text>, accessorDepartment: Option<Text>, reasonCode: Option<Text>,
    actor: Option<Actor>, resource: Option<Resource>,
    userProfileId: Option<Text>)

  datatype Field = Field(key: Key, value: Json)

  function Members(fs: seq<Field>): (ms: seq<Member>)
    ensures |ms| == |fs|
    ensures forall i :: 0 <= i < |fs| ==> ms[i] == Member(Printed(fs[i].key), fs[i].value)
  {
    seq(|fs|, i requires 0 <= i < |fs| => Member(Printed(fs[i].key), fs[i].value))
  }

  predicate PlainFields(fs: seq<Field>) {
    forall i :: 0 <= i < |fs| ==> Plain(fs[i].value)
  }

  function ObjectOf(fs: seq<Field>): (j: Json)
    requires PlainFields(fs)
    ensures Plain(j) && j.JObject? && j.members == Members(fs)
  {
    JObject(Members(fs))
  }

  function OptTree(o: Option<Text>): (j: Json)
    ensures Plain(j)
  {
    match o
    case None => JNull
    case Some(t) => StrictEscaped(t); StrictIsUnquoted(EscapeAll(t)); JString(EscapeAll(t))
  }

  function ActorFields(a: Actor): (fs: seq<Field>)
    ensures PlainFields(fs)
  {
    [Field(EmailAddress, JNull), Field(TypeKey, OptTree(a.typ))]
  }

  function ResourceFields(r: Resource): (fs: seq<Field>)
    ensures PlainFields(fs)
  {
    [Field(IdKey, OptTree(r.id)), Field(ParentKey, JNull), Field(TypeKey, OptTree(r.typ))]
  }

  function ActorTree(a: Option<Actor>): (j: Json)
    ensures Plain(j)
  {
    match a
    case None => JNull
    case Some(actor) => ObjectOf(ActorFields(actor))
  }

  function ResourceTree(r: Option<Resource>): (j: Json)
    ensures Plain(j)
  {
    match r
    case None => JNull
    case Some(resource) => ObjectOf(ResourceFields(resource))
  }

  function CommonFields(r: Record): (fs: seq<Field>)
    ensures |fs| == 10 && PlainFields(fs)
  {
    [ Field(AccessedAt, OptTree(r.accessedAt)),
      Field(AccessorDepartment, OptTree(r.accessorDepartment)),
      Field(ActorKey, ActorTree(r.actor)),
      Field(CreatedAt, OptTree(r.createdAt)),
      Field(IdKey, OptTree(r.id)),
      Field(OrganizationId, OptTree(r.organizationId)),
      Field(OrganizationUuid, OptTree(r.organizationUuid)),
      Field(ReasonCode, OptTree(r.reasonCode)),
      Field(ResourceDetails, ResourceTree(r.resource)),
      Field(TypeKey, OptTree(r.typ)) ]
  }

  /** Field set v1: eleven values. */
  function FieldsV1(r: Record): (fs: seq<Field>)
    ensures |fs| == 11 && PlainFields(fs)
  {
    CommonFields(r) + [Field(WorkspaceId, OptTree(r.workspaceId))]
  }

  /** Field set v2: the same, and user_profile_id when the event has one. */
  function FieldsV2(r: Record): (fs: seq<Field>)
    ensures |fs| == (if r.userProfileId.Some? then 12 else 11) && PlainFields(fs)
  {
    CommonFields(r)
    + (if r.userProfileId.Some? then [Field(UserProfileId, OptTree(r.userProfileId))] else [])
    + [Field(WorkspaceId, OptTree(r.workspaceId))]
  }

  function TreeV1(r: Record): (j: Json)
    ensures Plain(j)
  {
    ObjectOf(FieldsV1(r))
  }

  function TreeV2(r: Record): (j: Json)
    ensures Plain(j)
  {
    ObjectOf(FieldsV2(r))
  }

  /** The eleven values field set v1 commits. */
  function Eleven(r: Record): Record {
    r.(userProfileId := None)
  }

  // ---------------------------------------------------------------------
  // Entries, events and hashes
  // ---------------------------------------------------------------------

  const V1: Byte := 0x01
  const V2: Byte := 0x02

  function EntryV1(r: Record): Bytes {
    [V1] + Print(TreeV1(r))
  }

  function EntryV2(r: Record): Bytes {
    [V2] + Print(TreeV2(r))
  }

  datatype Event = Event(
    id: Text, organization: Text, index: Option<nat>,
    entry: Bytes, legacy: Option<Bytes>, withheld: Option<Bytes>)

  function Deref(o: Option<Text>): Text {
    if o.Some? then o.value else []
  }

  function EventOf(r: Record, index: Option<nat>): Event {
    Event(Deref(r.id), Deref(r.organizationUuid), index, EntryV2(r),
          if r.userProfileId == None then Some(EntryV1(r)) else None,
          if r.userProfileId == None then None else Some(EntryV1(r)))
  }

  function Hash(e: Event): Tree.Hash {
    Tree.Leaf(e.entry)
  }

  /** What a log that holds the event may hold at its index, the current form first. */
  function Hashes(e: Event): seq<Tree.Hash> {
    [Hash(e)] + (if e.legacy.Some? then [Tree.Leaf(e.legacy.value)] else [])
  }

  /** Whether some release would have recorded the stored hash from this serving. */
  predicate RecordedFrom(e: Event, stored: Tree.Hash) {
    stored in Hashes(e) || (e.withheld.Some? && stored == Tree.Leaf(e.withheld.value))
  }

  lemma OptTreeInjective(a: Option<Text>, b: Option<Text>)
    requires OptTree(a) == OptTree(b)
    ensures a == b
  {
    if a.Some? && b.Some? {
      EscapeAllInjective(a.value, b.value);
    }
  }

  lemma MembersInjective(a: seq<Field>, b: seq<Field>, i: nat)
    requires Members(a) == Members(b) && i < |a|
    ensures |a| == |b| && a[i] == b[i]
  {
    assert Members(a)[i] == Members(b)[i];
    NamesDistinct(a[i].key, b[i].key);
  }

  lemma ActorTreeInjective(a: Option<Actor>, b: Option<Actor>)
    requires ActorTree(a) == ActorTree(b)
    ensures a == b
  {
    if a.Some? && b.Some? {
      MembersInjective(ActorFields(a.value), ActorFields(b.value), 1);
      OptTreeInjective(a.value.typ, b.value.typ);
    }
  }

  lemma ResourceTreeInjective(a: Option<Resource>, b: Option<Resource>)
    requires ResourceTree(a) == ResourceTree(b)
    ensures a == b
  {
    if a.Some? && b.Some? {
      MembersInjective(ResourceFields(a.value), ResourceFields(b.value), 0);
      MembersInjective(ResourceFields(a.value), ResourceFields(b.value), 2);
      OptTreeInjective(a.value.id, b.value.id);
      OptTreeInjective(a.value.typ, b.value.typ);
    }
  }

  lemma CommonFieldsInjective(r: Record, s: Record)
    requires CommonFields(r) == CommonFields(s)
    ensures Eleven(r).(workspaceId := None) == Eleven(s).(workspaceId := None)
  {
    var a, b := CommonFields(r), CommonFields(s);
    assert forall i :: 0 <= i < 10 ==> a[i] == b[i];
    assert a[0] == b[0] && a[1] == b[1] && a[2] == b[2] && a[3] == b[3] && a[4] == b[4];
    assert a[5] == b[5] && a[6] == b[6] && a[7] == b[7] && a[8] == b[8] && a[9] == b[9];
    OptTreeInjective(r.accessedAt, s.accessedAt);
    OptTreeInjective(r.accessorDepartment, s.accessorDepartment);
    ActorTreeInjective(r.actor, s.actor);
    OptTreeInjective(r.createdAt, s.createdAt);
    OptTreeInjective(r.id, s.id);
    OptTreeInjective(r.organizationId, s.organizationId);
    OptTreeInjective(r.organizationUuid, s.organizationUuid);
    OptTreeInjective(r.reasonCode, s.reasonCode);
    ResourceTreeInjective(r.resource, s.resource);
    OptTreeInjective(r.typ, s.typ);
  }

  lemma FieldsOfEqualMembers(a: seq<Field>, b: seq<Field>)
    requires Members(a) == Members(b)
    ensures a == b
  {
    forall i | 0 <= i < |a| ensures a[i] == b[i] {
      MembersInjective(a, b, i);
    }
    assert |Members(a)| == |Members(b)|;
  }

  lemma EntryV1Injective(r: Record, s: Record)
    requires EntryV1(r) == EntryV1(s)
    ensures Eleven(r) == Eleven(s)
  {
    assert EntryV1(r)[1..] == Print(TreeV1(r)) && EntryV1(s)[1..] == Print(TreeV1(s));
    PrintInjective(TreeV1(r), TreeV1(s));
    FieldsOfEqualMembers(FieldsV1(r), FieldsV1(s));
    assert FieldsV1(r)[..10] == CommonFields(r) && FieldsV1(s)[..10] == CommonFields(s);
    assert FieldsV1(r)[10] == FieldsV1(s)[10];
    CommonFieldsInjective(r, s);
    OptTreeInjective(r.workspaceId, s.workspaceId);
  }

  lemma FieldsV2Injective(r: Record, s: Record)
    requires FieldsV2(r) == FieldsV2(s)
    ensures r == s
  {
    var a, b := FieldsV2(r), FieldsV2(s);
    assert a[..10] == CommonFields(r) && b[..10] == CommonFields(s);
    assert a[|a| - 1].value == OptTree(r.workspaceId) && b[|b| - 1].value == OptTree(s.workspaceId);
    CommonFieldsInjective(r, s);
    OptTreeInjective(r.workspaceId, s.workspaceId);
    if r.userProfileId.Some? {
      assert a[10].value == OptTree(r.userProfileId) && b[10].value == OptTree(s.userProfileId);
      OptTreeInjective(r.userProfileId, s.userProfileId);
    }
  }

  lemma EntryV2Injective(r: Record, s: Record)
    requires EntryV2(r) == EntryV2(s)
    ensures r == s
  {
    assert EntryV2(r)[1..] == Print(TreeV2(r)) && EntryV2(s)[1..] == Print(TreeV2(s));
    PrintInjective(TreeV2(r), TreeV2(s));
    FieldsOfEqualMembers(FieldsV2(r), FieldsV2(s));
    FieldsV2Injective(r, s);
  }

  /** The entry a log commits for a record under a version byte. */
  function Entry(version: Byte, r: Record): Bytes
    requires version == V1 || version == V2
  {
    if version == V1 then EntryV1(r) else EntryV2(r)
  }

  lemma HashesOfEvent(e: Event, entry: Bytes)
    ensures Tree.Leaf(entry) in Hashes(e)
        <==> entry == e.entry || (e.legacy.Some? && entry == e.legacy.value)
  {
    if e.legacy.Some? && entry == e.legacy.value {
      assert Hashes(e)[1] == Tree.Leaf(entry);
    }
  }

  lemma HashesOf(r: Record, index: Option<nat>, entry: Bytes)
    ensures Tree.Leaf(entry) in Hashes(EventOf(r, index))
        <==> entry == EntryV2(r) || (r.userProfileId == None && entry == EntryV1(r))
  {
    HashesOfEvent(EventOf(r, index), entry);
  }

  lemma EntryV1Identifies(r: Record, s: Record)
    ensures EntryV1(r) == EntryV1(s) <==> Eleven(r) == Eleven(s)
  {
    if EntryV1(r) == EntryV1(s) {
      EntryV1Injective(r, s);
    }
    if Eleven(r) == Eleven(s) {
      EntryV1OfEleven(r, s);
    }
  }

  lemma EntryV2Identifies(r: Record, s: Record)
    ensures EntryV2(r) == EntryV2(s) <==> r == s
  {
    if EntryV2(r) == EntryV2(s) {
      EntryV2Injective(r, s);
    }
  }

  /**
   * A served event has the hash of a committed entry exactly when all eleven
   * values agree and the id agrees: under 0x02 it is the committed one, under
   * 0x01 there is none.
   */
  lemma LeafIdentified(served: Record, index: Option<nat>, version: Byte, committed: Record)
    requires version == V1 || version == V2
    ensures Tree.Leaf(Entry(version, committed)) in Hashes(EventOf(served, index))
        <==> && Eleven(served) == Eleven(committed)
             && served.userProfileId == (if version == V1 then None else committed.userProfileId)
  {
    HashesOf(served, index, Entry(version, committed));
    if version == V2 {
      VersionsDiffer(served, committed);
      EntryV2Identifies(committed, served);
      assert served == committed <==>
        Eleven(served) == Eleven(committed) && served.userProfileId == committed.userProfileId;
    } else {
      VersionsDiffer(committed, served);
      EntryV1Identifies(committed, served);
    }
  }

  lemma VersionsDiffer(r: Record, s: Record)
    ensures EntryV1(r) != EntryV2(s)
  {
    assert EntryV1(r)[0] == V1 && EntryV2(s)[0] == V2;
  }

  lemma EntryV1OfEleven(r: Record, s: Record)
    requires Eleven(r) == Eleven(s)
    ensures EntryV1(r) == EntryV1(s)
  {
    assert r == s.(userProfileId := r.userProfileId);
    assert FieldsV1(r) == FieldsV1(s);
  }

  /** A recorded 0x02 hash is one of a serving's own only for the same record. */
  lemma FirstHashIdentifies(recorded: Record, i: Option<nat>, served: Record, j: Option<nat>)
    requires Hash(EventOf(recorded, i)) in Hashes(EventOf(served, j))
    ensures recorded == served
  {
    LeafIdentified(served, j, V2, recorded);
  }
}
