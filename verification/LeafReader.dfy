/** The strict reader of served events. */
module LeafReader {
  import opened Basics
  import opened Utf8
  import opened JsonText
  import opened Json
  import opened Leaf

  // ---------------------------------------------------------------------
  // Decoding one object
  // ---------------------------------------------------------------------

  datatype Named = Named(name: Text, value: Json)

  function Decoded(ms: seq<Member>): (es: seq<Named>)
    ensures |es| == |ms|
    ensures forall i :: 0 <= i < |ms| ==> es[i] == Named(Unquote(ms[i].key), ms[i].value)
  {
    seq(|ms|, i requires 0 <= i < |ms| => Named(Unquote(ms[i].key), ms[i].value))
  }

  /** strings.EqualFold of one rune against one rune of a lower-case ASCII name. */
  predicate FoldsTo(c: Rune, p: Rune) {
    || c == p
    || (0x61 <= p <= 0x7A && c == p - 0x20)
    || (p == 0x6B && c == 0x212A)
    || (p == 0x73 && c == 0x17F)
  }

  predicate EqualFold(name: Text, p: Text) {
    |name| == |p| && forall i :: 0 <= i < |p| ==> FoldsTo(name[i], p[i])
  }

  predicate NoRepeat(es: seq<Named>) {
    forall i, j :: 0 <= i < j < |es| ==> es[i].name != es[j].name
  }

  /** A name that folds to a projected one is that one. */
  predicate ExactCase(name: Text, projected: set<Text>) {
    name in projected || forall p <- projected :: !EqualFold(name, p)
  }

  predicate Unambiguous(es: seq<Named>, projected: set<Text>) {
    NoRepeat(es) && forall i :: 0 <= i < |es| ==> ExactCase(es[i].name, projected)
  }

  function Find(es: seq<Named>, name: Text): Option<Json> {
    if es == [] then None else if es[0].name == name then Some(es[0].value) else Find(es[1..], name)
  }

  /** The map holds what the members say, and nothing else. */
  ghost predicate Holds(es: seq<Named>, m: map<Text, Json>) {
    && (forall i :: 0 <= i < |es| ==> es[i].name in m && m[es[i].name] == es[i].value)
    && (forall name <- m :: exists i :: 0 <= i < |es| && es[i].name == name)
  }

  lemma {:induction false} FindAt(es: seq<Named>, i: nat)
    requires i < |es| && NoRepeat(es)
    ensures Find(es, es[i].name) == Some(es[i].value)
  {
    if i > 0 {
      assert es[0].name != es[i].name;
      FindAt(es[1..], i - 1);
    }
  }

  lemma {:induction false} FindMissing(es: seq<Named>, name: Text)
    requires forall i :: 0 <= i < |es| ==> es[i].name != name
    ensures Find(es, name) == None
  {
    if es != [] {
      FindMissing(es[1..], name);
    }
  }

  /** Decodes one object, refusing a name that could be read two ways. */
  method DecodeObject(es: seq<Named>, projected: set<Text>) returns (r: Option<map<Text, Json>>)
    ensures r.Some? <==> Unambiguous(es, projected)
    ensures r.Some? ==> forall name :: if name in r.value then Find(es, name) == Some(r.value[name]) else Find(es, name) == None
  {
    var m: map<Text, Json> := map[];
    for i := 0 to |es|
      invariant Unambiguous(es[..i], projected)
      invariant Holds(es[..i], m)
    {
      var key := es[i].name;
      assert es[..i + 1] == es[..i] + [es[i]];
      if key in m {
        ghost var j :| 0 <= j < i && es[..i][j].name == key;
        assert es[j].name == es[i].name;
        return None;
      }
      if key !in projected && exists p :: p in projected && EqualFold(key, p) {
        assert !ExactCase(es[i].name, projected);
        return None;
      }
      HoldsOneMore(es[..i], m, es[i]);
      m := m[key := es[i].value];
    }
    assert es[..|es|] == es;
    HoldsWhatIsFound(es, m);
    return Some(m);
  }

  lemma HoldsWhatIsFound(es: seq<Named>, m: map<Text, Json>)
    requires NoRepeat(es) && Holds(es, m)
    ensures forall name :: if name in m then Find(es, name) == Some(m[name]) else Find(es, name) == None
  {
    forall name
      ensures if name in m then Find(es, name) == Some(m[name]) else Find(es, name) == None
    {
      if name in m {
        var i :| 0 <= i < |es| && es[i].name == name;
        FindAt(es, i);
      } else {
        FindMissing(es, name);
      }
    }
  }

  lemma HoldsOneMore(es: seq<Named>, m: map<Text, Json>, e: Named)
    requires Holds(es, m) && e.name !in m
    ensures Holds(es + [e], m[e.name := e.value])
    ensures forall i :: 0 <= i < |es| ==> es[i].name != e.name
  {
    var m' := m[e.name := e.value];
    assert (es + [e])[|es|] == e;
    forall name <- m' ensures exists i :: 0 <= i < |es + [e]| && (es + [e])[i].name == name {
      if name != e.name {
        var i :| 0 <= i < |es| && es[i].name == name;
        assert (es + [e])[i].name == name;
      }
    }
  }

  // ---------------------------------------------------------------------
  // Projecting a served event
  // ---------------------------------------------------------------------

  const TOP_NAMES: set<Text> := set k | k in TOP_KEYS :: Name(k)
  const ACTOR_NAMES: set<Text> := set k | k in ACTOR_KEYS :: Name(k)
  const RESOURCE_NAMES: set<Text> := set k | k in RESOURCE_KEYS :: Name(k)

  /** A null member counts as absent. */
  function Present(es: seq<Named>, k: Key): Option<Json> {
    if Find(es, Name(k)) == Some(JNull) then None else Find(es, Name(k))
  }

  /** An optional string; None where it is not one, or would be repaired. */
  function OptString(es: seq<Named>, k: Key): Option<Option<Text>> {
    match Present(es, k)
    case None => Some(None)
    case Some(JString(body)) =>
      var raw := [QUOTE] + body + [QUOTE];
      if Valid(raw) && Paired(raw) then Some(Some(Unquote(body))) else None
    case Some(_) => None
  }

  function DigitValue(b: Byte): nat
    requires IsDigit(b)
  {
    b - 0x30
  }

  function Decimal(b: Bytes): nat
    requires forall i :: 0 <= i < |b| ==> IsDigit(b[i])
  {
    if b == [] then 0 else 10 * Decimal(b[..|b| - 1]) + DigitValue(b[|b| - 1])
  }

  const INDEX_LIMIT := 0x8000_0000_0000_0000

  /** A leaf index: digits alone, below 2^63. */
  function IndexOf(es: seq<Named>): Option<Option<nat>> {
    match Present(es, LeafIndex)
    case None => Some(None)
    case Some(JNumber(literal)) =>
      if forall i :: 0 <= i < |literal| ==> IsDigit(literal[i]) then
        if Decimal(literal) < INDEX_LIMIT then Some(Some(Decimal(literal))) else None
      else None
    case Some(_) => None
  }

  function ProjectActor(es: seq<Named>): Option<Option<Actor>> {
    match Present(es, ActorKey)
    case None => Some(None)
    case Some(JObject(ms)) =>
      var inner := Decoded(ms);
      if !Unambiguous(inner, ACTOR_NAMES) then None
      else
        var typ :- OptString(inner, TypeKey);
        Some(Some(Actor(typ)))
    case Some(_) => None
  }

  function ProjectResource(es: seq<Named>): Option<Option<Resource>> {
    match Present(es, ResourceDetails)
    case None => Some(None)
    case Some(JObject(ms)) =>
      var inner := Decoded(ms);
      if !Unambiguous(inner, RESOURCE_NAMES) then None
      else
        var id :- OptString(inner, IdKey);
        var typ :- OptString(inner, TypeKey);
        Some(Some(Resource(id, typ)))
    case Some(_) => None
  }

  predicate KnownType(typ: Option<Text>) {
    typ == Some(Ascii("anthropic_access")) || typ == Some(Ascii("cmek_preserve"))
  }

  /** The values read, each of which may be refused. */
  datatype Reading = Reading(
    typ: Option<Option<Text>>, id: Option<Option<Text>>, createdAt: Option<Option<Text>>, accessedAt: Option<Option<Text>>,
    organizationId: Option<Option<Text>>, organizationUuid: Option<Option<Text>>, workspaceId: Option<Option<Text>>,
    department: Option<Option<Text>>, reason: Option<Option<Text>>, actor: Option<Option<Actor>>,
    resource: Option<Option<Resource>>, profile: Option<Option<Text>>, index: Option<Option<nat>>)

  /** A record, unless some value was refused. */
  function Assemble(v: Reading): Option<(Record, Option<nat>)> {
    var typ :- v.typ;
    var id :- v.id;
    var createdAt :- v.createdAt;
    var accessedAt :- v.accessedAt;
    var organizationId :- v.organizationId;
    var organizationUuid :- v.organizationUuid;
    var workspaceId :- v.workspaceId;
    var department :- v.department;
    var reason :- v.reason;
    var actor :- v.actor;
    var resource :- v.resource;
    var profile :- v.profile;
    var index :- v.index;
    Some((Record(id, typ, createdAt, accessedAt, organizationId, organizationUuid,
                 workspaceId, department, reason, actor, resource, profile), index))
  }

  /** What each key gives, and what the two objects and the index give. */
  function Gather(str: Key -> Option<Option<Text>>, actor: Option<Option<Actor>>, resource: Option<Option<Resource>>,
                  index: Option<Option<nat>>): Reading {
    Reading(str(TypeKey), str(IdKey), str(CreatedAt), str(AccessedAt), str(OrganizationId), str(OrganizationUuid),
            str(WorkspaceId), str(AccessorDepartment), str(ReasonCode), actor, resource, str(UserProfileId), index)
  }

  function ReadFields(es: seq<Named>): Reading {
    Gather(k => OptString(es, k), ProjectActor(es), ProjectResource(es), IndexOf(es))
  }

  /** The projected values, read off an object's unambiguous members. */
  function ProjectFields(es: seq<Named>): Option<(Record, Option<nat>)> {
    Assemble(ReadFields(es))
  }

  function Project(es: seq<Named>): Option<(Record, Option<nat>)> {
    if !Unambiguous(es, TOP_NAMES) then None
    else
      var p :- ProjectFields(es);
      if KnownType(p.0.typ) then Some(p) else None
  }

  /** Reads one served event; None if it is ambiguous, malformed or of no known type. */
  function Parse(served: Bytes): Option<Event> {
    match ParseText(served)
    case Some(JObject(ms)) => EventFrom(Project(Decoded(ms)))
    case _ => None
  }

  function EventFrom(p: Option<(Record, Option<nat>)>): Option<Event> {
    if p == None then None else Some(EventOf(p.value.0, p.value.1))
  }

  lemma ParsesAs(served: Bytes, ms: seq<Member>)
    requires ParseText(served) == Some(JObject(ms))
    ensures Parse(served) == EventFrom(Project(Decoded(ms)))
  {}

  /** Every event read is the event of some record of a known type. */
  lemma ParsedIsProjected(served: Bytes) returns (r: Record)
    requires Parse(served).Some?
    ensures Parse(served).value == EventOf(r, Parse(served).value.index) && KnownType(r.typ)
  {
    r := Project(Decoded(ParseText(served).value.members)).value.0;
  }

  /** A leaf index that is read is below 2^63. */
  lemma ParsedIndexIsSmall(served: Bytes)
    requires Parse(served).Some? && Parse(served).value.index.Some?
    ensures Parse(served).value.index.value < INDEX_LIMIT
  {
    var p := Project(Decoded(ParseText(served).value.members)).value;
    var es := Decoded(ParseText(served).value.members);
    IndexIsRead(ReadFields(es));
  }

  /** Some served bytes are read as this event. */
  ghost predicate IsRead(ev: Event) {
    exists b: Bytes :: Parse(b) == Some(ev)
  }

  lemma ReadIndexIsSmall(ev: Event)
    requires IsRead(ev) && ev.index.Some?
    ensures ev.index.value < INDEX_LIMIT
  {
    var b: Bytes :| Parse(b) == Some(ev);
    ParsedIndexIsSmall(b);
  }

  lemma IndexIsRead(v: Reading)
    requires Assemble(v).Some?
    ensures v.index == Some(Assemble(v).value.1)
  {}

  // ---------------------------------------------------------------------
  // Only the projected members matter
  // ---------------------------------------------------------------------

  /** The keys read as they are, and those read inside the two objects. */
  const FLAT_KEYS: set<Key> := TOP_KEYS - {ActorKey, ResourceDetails}
  const ACTOR_READ: set<Key> := {TypeKey}
  const RESOURCE_READ: set<Key> := {IdKey, TypeKey}

  /** Two inner objects of which the same is read: alike in the keys read, unambiguous in the rest. */
  ghost predicate SameInner(u: Option<Json>, v: Option<Json>, names: set<Text>, read: set<Key>) {
    || u == v
    || (u.Some? && v.Some? && u.value.JObject? && v.value.JObject?
        && var a, b := Decoded(u.value.members), Decoded(v.value.members);
           Unambiguous(a, names) && Unambiguous(b, names) && forall k <- read :: Present(a, k) == Present(b, k))
  }

  /** The same projected values, at the top and inside both objects, in any order and among any others. */
  ghost predicate SameProjected(a: seq<Named>, b: seq<Named>) {
    && (forall k <- FLAT_KEYS :: Present(a, k) == Present(b, k))
    && SameInner(Present(a, ActorKey), Present(b, ActorKey), ACTOR_NAMES, ACTOR_READ)
    && SameInner(Present(a, ResourceDetails), Present(b, ResourceDetails), RESOURCE_NAMES, RESOURCE_READ)
  }

  lemma SameFields(a: seq<Named>, b: seq<Named>)
    requires SameProjected(a, b)
    ensures ProjectFields(a) == ProjectFields(b)
  {
    SameActor(a, b);
    SameResource(a, b);
    SameIndex(a, b);
    var f, g := (k: Key) => OptString(a, k), (k: Key) => OptString(b, k);
    forall k <- FLAT_KEYS ensures f(k) == g(k) {
      SameString(a, b, k);
    }
    SameGathered(f, g, ProjectActor(a), ProjectResource(a), IndexOf(a));
  }

  lemma SameString(a: seq<Named>, b: seq<Named>, k: Key)
    requires Present(a, k) == Present(b, k)
    ensures OptString(a, k) == OptString(b, k)
  {}

  lemma SameIndex(a: seq<Named>, b: seq<Named>)
    requires forall k <- FLAT_KEYS :: Present(a, k) == Present(b, k)
    ensures IndexOf(a) == IndexOf(b)
  {
    assert LeafIndex in FLAT_KEYS;
  }

  lemma SameGathered(f: Key -> Option<Option<Text>>, g: Key -> Option<Option<Text>>, actor: Option<Option<Actor>>,
                     resource: Option<Option<Resource>>, index: Option<Option<nat>>)
    requires forall k <- FLAT_KEYS :: f(k) == g(k)
    ensures Gather(f, actor, resource, index) == Gather(g, actor, resource, index)
  {}

  lemma SameActor(a: seq<Named>, b: seq<Named>)
    requires SameInner(Present(a, ActorKey), Present(b, ActorKey), ACTOR_NAMES, ACTOR_READ)
    ensures ProjectActor(a) == ProjectActor(b)
  {
    var u, v := Present(a, ActorKey), Present(b, ActorKey);
    if u != v {
      assert TypeKey in ACTOR_READ;
      assert Present(Decoded(u.value.members), TypeKey) == Present(Decoded(v.value.members), TypeKey);
    }
  }

  lemma SameResource(a: seq<Named>, b: seq<Named>)
    requires SameInner(Present(a, ResourceDetails), Present(b, ResourceDetails), RESOURCE_NAMES, RESOURCE_READ)
    ensures ProjectResource(a) == ProjectResource(b)
  {
    var u, v := Present(a, ResourceDetails), Present(b, ResourceDetails);
    if u != v {
      assert TypeKey in RESOURCE_READ && IdKey in RESOURCE_READ;
      assert Present(Decoded(u.value.members), TypeKey) == Present(Decoded(v.value.members), TypeKey);
      assert Present(Decoded(u.value.members), IdKey) == Present(Decoded(v.value.members), IdKey);
    }
  }

  /**
   * The reader depends on nothing but the projected values: not on the space
   * between members, not on their order, not on members it does not project,
   * at the top or inside the actor and the resource.
   */
  lemma ParseReadsProjectedOnly(a: Bytes, b: Bytes, as': seq<Member>, bs: seq<Member>)
    requires ParseText(a) == Some(JObject(as')) && ParseText(b) == Some(JObject(bs))
    requires Unambiguous(Decoded(as'), TOP_NAMES) && Unambiguous(Decoded(bs), TOP_NAMES)
    requires SameProjected(Decoded(as'), Decoded(bs))
    ensures Parse(a) == Parse(b)
  {
    ParsesAs(a, as');
    ParsesAs(b, bs);
    SameFields(Decoded(as'), Decoded(bs));
  }

  // ---------------------------------------------------------------------
  // Order does not matter
  // ---------------------------------------------------------------------

  /** A reordering of unambiguous members keeps every one of them. */
  lemma ReorderedKeeps(a: seq<Named>, b: seq<Named>, names: set<Text>)
    requires multiset(a) == multiset(b) && Unambiguous(a, names)
    ensures Unambiguous(b, names) && forall name :: Find(a, name) == Find(b, name)
  {
    ReorderedNoRepeat(a, b);
    forall i | 0 <= i < |b| ensures ExactCase(b[i].name, names) {
      assert b[i] in multiset(b);
      assert b[i] in a;
    }
    forall name ensures Find(a, name) == Find(b, name) {
      FindReordered(a, b, name);
    }
  }

  lemma FindReordered(a: seq<Named>, b: seq<Named>, name: Text)
    requires multiset(a) == multiset(b) && NoRepeat(a) && NoRepeat(b)
    ensures Find(a, name) == Find(b, name)
  {
    if i :| 0 <= i < |a| && a[i].name == name {
      assert a[i] in multiset(a);
      assert a[i] in b;
      var j :| 0 <= j < |b| && b[j] == a[i];
      FindAt(a, i);
      FindAt(b, j);
    } else {
      forall j | 0 <= j < |b| ensures b[j].name != name {
        assert b[j] in multiset(b);
        assert b[j] in a;
      }
      FindMissing(a, name);
      FindMissing(b, name);
    }
  }

  /** The same value, or two objects with the same members in some order. */
  ghost predicate InnerReordered(u: Json, v: Json) {
    u == v || (u.JObject? && v.JObject? && multiset(Decoded(u.members)) == multiset(Decoded(v.members)))
  }

  /** The same members but for the order inside the actor and the resource. */
  ghost predicate InsideReordered(a: seq<Named>, b: seq<Named>) {
    |a| == |b| && forall i :: 0 <= i < |a| ==>
      && b[i].name == a[i].name
      && (if a[i].name in {Name(ActorKey), Name(ResourceDetails)} then InnerReordered(a[i].value, b[i].value)
          else b[i].value == a[i].value)
  }

  lemma {:induction false} FindInside(a: seq<Named>, b: seq<Named>, name: Text)
    requires InsideReordered(a, b)
    ensures Find(a, name).Some? == Find(b, name).Some?
    ensures Find(a, name).Some? ==> InnerReordered(Find(a, name).value, Find(b, name).value)
    ensures name !in {Name(ActorKey), Name(ResourceDetails)} ==> Find(a, name) == Find(b, name)
    decreases |a|
  {
    if a != [] {
      assert a[0].name == b[0].name;
      assert InsideReordered(a[1..], b[1..]) by {
        forall i | 0 <= i < |a[1..]| ensures a[1..][i] == a[i + 1] && b[1..][i] == b[i + 1] {}
      }
      FindInside(a[1..], b[1..], name);
    }
  }

  /** Of two inner objects with the same members in some order, the same is read or neither can be. */
  ghost predicate SameInnerOrNeither(u: Option<Json>, v: Option<Json>, names: set<Text>, read: set<Key>) {
    || SameInner(u, v, names, read)
    || (u.Some? && v.Some? && u.value.JObject? && v.value.JObject?
        && !Unambiguous(Decoded(u.value.members), names) && !Unambiguous(Decoded(v.value.members), names))
  }

  lemma InnerReorderedReads(u: Json, v: Json, names: set<Text>, read: set<Key>)
    requires InnerReordered(u, v)
    ensures SameInnerOrNeither(Some(u), Some(v), names, read)
  {
    if u != v {
      var a, b := Decoded(u.members), Decoded(v.members);
      if Unambiguous(a, names) {
        ReorderedKeeps(a, b, names);
      } else if Unambiguous(b, names) {
        ReorderedKeeps(b, a, names);
      }
    }
  }

  lemma PresentInside(a: seq<Named>, b: seq<Named>, k: Key, names: set<Text>, read: set<Key>)
    requires InsideReordered(a, b)
    ensures SameInnerOrNeither(Present(a, k), Present(b, k), names, read)
    ensures k != ActorKey && k != ResourceDetails ==> Present(a, k) == Present(b, k)
  {
    FindInside(a, b, Name(k));
    if k == ActorKey || k == ResourceDetails {
      if Present(a, k).Some? {
        InnerReorderedReads(Present(a, k).value, Find(b, Name(k)).value, names, read);
      }
    } else if Name(k) == Name(ActorKey) {
      NamesDistinct(k, ActorKey);
    } else if Name(k) == Name(ResourceDetails) {
      NamesDistinct(k, ResourceDetails);
    }
  }

  lemma ProjectInside(a: seq<Named>, b: seq<Named>)
    requires InsideReordered(a, b)
    ensures Project(a) == Project(b)
  {
    assert forall i :: 0 <= i < |a| ==> b[i].name == a[i].name;
    assert Unambiguous(a, TOP_NAMES) == Unambiguous(b, TOP_NAMES);
    PresentInside(a, b, ActorKey, ACTOR_NAMES, ACTOR_READ);
    PresentInside(a, b, ResourceDetails, RESOURCE_NAMES, RESOURCE_READ);
    forall k <- FLAT_KEYS ensures Present(a, k) == Present(b, k) {
      PresentInside(a, b, k, {}, {});
    }
    if !SameInner(Present(a, ActorKey), Present(b, ActorKey), ACTOR_NAMES, ACTOR_READ) {
      NoActor(a);
      NoActor(b);
    } else if !SameInner(Present(a, ResourceDetails), Present(b, ResourceDetails), RESOURCE_NAMES, RESOURCE_READ) {
      NoResource(a);
      NoResource(b);
    } else {
      SameFields(a, b);
    }
  }

  lemma NeedsBoth(v: Reading)
    requires v.actor == None || v.resource == None
    ensures Assemble(v) == None
  {}

  lemma NoActor(es: seq<Named>)
    requires var u := Present(es, ActorKey);
             u.Some? && u.value.JObject? && !Unambiguous(Decoded(u.value.members), ACTOR_NAMES)
    ensures ProjectFields(es) == None
  {
    assert ProjectActor(es) == None;
    NeedsBoth(ReadFields(es));
  }

  lemma NoResource(es: seq<Named>)
    requires var u := Present(es, ResourceDetails);
             u.Some? && u.value.JObject? && !Unambiguous(Decoded(u.value.members), RESOURCE_NAMES)
    ensures ProjectFields(es) == None
  {
    assert ProjectResource(es) == None;
    NeedsBoth(ReadFields(es));
  }

  lemma ProjectReordered(a: seq<Named>, b: seq<Named>)
    requires multiset(a) == multiset(b)
    ensures Project(a) == Project(b)
  {
    if Unambiguous(a, TOP_NAMES) {
      ReorderedKeeps(a, b, TOP_NAMES);
      SameFields(a, b);
    } else if Unambiguous(b, TOP_NAMES) {
      ReorderedKeeps(b, a, TOP_NAMES);
    }
  }

  /**
   * Reordering the members of a served event, at the top and inside the actor
   * and the resource, never changes what is read of it, nor whether it is.
   */
  lemma OrderDoesNotMatter(a: Bytes, b: Bytes, as': seq<Member>, bs: seq<Member>, inside: seq<Named>)
    requires ParseText(a) == Some(JObject(as')) && ParseText(b) == Some(JObject(bs))
    requires InsideReordered(Decoded(as'), inside) && multiset(inside) == multiset(Decoded(bs))
    ensures Parse(a) == Parse(b)
  {
    ParsesAs(a, as');
    ParsesAs(b, bs);
    ProjectInside(Decoded(as'), inside);
    ProjectReordered(inside, Decoded(bs));
  }

  lemma ReorderedNoRepeat(a: seq<Named>, b: seq<Named>)
    requires multiset(a) == multiset(b) && NoRepeat(a)
    ensures NoRepeat(b)
  {
    if i, j :| 0 <= i < j < |b| && b[i].name == b[j].name {
      assert b[i] in multiset(b) && b[j] in multiset(b);
      assert b[i] in a && b[j] in a;
      assert b[i] == b[j];
      TwiceCounts(b, i, j);
      OnceCounts(a, b[i]);
    }
  }

  lemma TwiceCounts(b: seq<Named>, i: nat, j: nat)
    requires i < j < |b| && b[i] == b[j]
    ensures multiset(b)[b[i]] >= 2
  {
    assert b == b[..i] + [b[i]] + b[i + 1..j] + [b[j]] + b[j + 1..];
  }

  lemma {:induction false} OnceCounts(a: seq<Named>, e: Named)
    requires NoRepeat(a)
    ensures multiset(a)[e] <= 1
  {
    if a != [] {
      assert a == [a[0]] + a[1..];
      OnceCounts(a[1..], e);
      if a[0] == e {
        assert e !in a[1..];
      }
    }
  }
}
