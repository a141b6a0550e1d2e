/** The two leaf renderers, as they append to a buffer. */
module LeafWriter {
  import opened Basics
  import opened Utf8
  import opened JsonText
  import opened Json
  import opened Leaf

  class Buffer {
    var data: Bytes

    constructor ()
      ensures data == []
    {
      data := [];
    }

    method WriteByte(b: Byte)
      modifies this
      ensures data == old(data) + [b]
    {
      data := data + [b];
    }

    method WriteBytes(b: Bytes)
      modifies this
      ensures data == old(data) + b
    {
      data := data + b;
    }

    method WriteRune(r: Rune)
      modifies this
      ensures data == old(data) + Encode(r)
    {
      data := data + Encode(r);
    }
  }

  lemma Appended(a: Bytes, b: Bytes, c: Bytes, d: Bytes)
    ensures a + b + c + d == a + (b + c + d)
  {}

  lemma Appended2(a: Bytes, b: Bytes, c: Bytes, d: Bytes)
    ensures a + (b + c) + d == a + (b + c + d)
  {}

  lemma Appended3(a: Bytes, b: Bytes, c: Bytes, d: Bytes)
    ensures a + (b + c) + d == a + (b + (c + d))
  {}

  function Quoted(t: Text): Bytes {
    [QUOTE] + EscapeAll(t) + [QUOTE]
  }

  lemma {:induction false} EscapeAllOneMore(t: Text, r: Rune)
    ensures EscapeAll(t + [r]) == EscapeAll(t) + Escape(r)
  {
    if t == [] {
      assert t + [r] == [r] && EscapeAll([r]) == Escape(r) + EscapeAll([]);
    } else {
      assert (t + [r])[1..] == t[1..] + [r];
      EscapeAllOneMore(t[1..], r);
    }
  }

  /** Two-character escapes where there is one, \u00xx for other controls, and UTF-8. */
  method WriteEscaped(b: Buffer, r: Rune)
    modifies b
    ensures b.data == old(b.data) + Escape(r)
  {
    if r == QUOTE {
      b.WriteBytes([BACKSLASH, QUOTE]);
    } else if r == BACKSLASH {
      b.WriteBytes([BACKSLASH, BACKSLASH]);
    } else if r == 0x08 {
      b.WriteBytes([BACKSLASH, 0x62]);
    } else if r == 0x0C {
      b.WriteBytes([BACKSLASH, 0x66]);
    } else if r == 0x0A {
      b.WriteBytes([BACKSLASH, 0x6E]);
    } else if r == 0x0D {
      b.WriteBytes([BACKSLASH, 0x72]);
    } else if r == 0x09 {
      b.WriteBytes([BACKSLASH, 0x74]);
    } else if r < 0x20 {
      b.WriteBytes(UnicodeEscape(r));
    } else {
      b.WriteRune(r);
    }
  }

  method WriteString(b: Buffer, s: Text)
    modifies b
    ensures b.data == old(b.data) + Quoted(s)
  {
    ghost var before := b.data;
    b.WriteByte(QUOTE);
    for i := 0 to |s|
      invariant b.data == before + ([QUOTE] + EscapeAll(s[..i]))
    {
      WriteEscaped(b, s[i]);
      assert s[..i + 1] == s[..i] + [s[i]];
      EscapeAllOneMore(s[..i], s[i]);
      Appended3(before, [QUOTE], EscapeAll(s[..i]), Escape(s[i]));
    }
    assert s[..|s|] == s;
    b.WriteByte(QUOTE);
    Appended2(before, [QUOTE], EscapeAll(s), [QUOTE]);
  }

  function KeyText(name: Text, comma: bool): Bytes {
    (if comma then [COMMA] else []) + Quoted(name) + [COLON]
  }

  method WriteKey(b: Buffer, name: Text, comma: bool)
    modifies b
    ensures b.data == old(b.data) + KeyText(name, comma)
  {
    ghost var before, c, q := b.data, if comma then [COMMA] else [], Quoted(name);
    if comma {
      b.WriteByte(COMMA);
    }
    assert b.data == before + c;
    WriteString(b, name);
    assert b.data == before + (c + q);
    b.WriteByte(COLON);
    assert b.data == before + (c + q + [COLON]);
  }

  lemma PrintedOpt(s: Option<Text>)
    ensures Print(OptTree(s)) == if s == None then NULL else Quoted(s.value)
  {
    assert NULL + [] == NULL;
    if s.Some? {
      assert Quoted(s.value) + [] == Quoted(s.value);
    }
  }

  method WriteOpt(b: Buffer, s: Option<Text>)
    modifies b
    ensures b.data == old(b.data) + Print(OptTree(s))
  {
    PrintedOpt(s);
    if s == None {
      b.WriteBytes(NULL);
    } else {
      WriteString(b, s.value);
    }
  }

  /** What a writer has emitted after the first n fields of an object. */
  function Emitted(fs: seq<Field>, n: nat): Bytes
    requires PlainFields(fs) && n <= |fs|
  {
    if n == 0 then [OPEN_BRACE]
    else Emitted(fs, n - 1) + KeyText(Name(fs[n - 1].key), n > 1) + Print(fs[n - 1].value)
  }

  lemma Regrouped(head: Bytes, comma: Bytes, key: Bytes, value: Bytes)
    ensures head + (comma + ([QUOTE] + key + [QUOTE]) + [COLON]) + value
         == head + comma + [QUOTE] + key + [QUOTE] + [COLON] + value
  {}

  lemma {:induction false} EmittedIsHead(fs: seq<Field>, n: nat)
    requires PlainFields(fs) && n <= |fs|
    ensures Emitted(fs, n) == Head(Members(fs), n)
  {
    if n > 0 {
      EmittedIsHead(fs, n - 1);
      var f := fs[n - 1];
      Regrouped(Emitted(fs, n - 1), if n > 1 then [COMMA] else [], EscapeAll(Name(f.key)), Print(f.value));
      assert Printed(f.key) == EscapeAll(Name(f.key));
    }
  }

  /** All fields and a closing brace are the whole object. */
  lemma EmittedAll(fs: seq<Field>)
    requires PlainFields(fs)
    ensures Emitted(fs, |fs|) + [CLOSE_BRACE] == Print(ObjectOf(fs))
  {
    EmittedIsHead(fs, |fs|);
    HeadThenTail(ObjectOf(fs), Members(fs), |fs|);
    assert [CLOSE_BRACE] + [] == [CLOSE_BRACE];
  }

  /** The next field of an object: its name, then its value if it has one. */
  method WriteField(b: Buffer, name: Text, comma: bool, s: Option<Text>, ghost before: Bytes, ghost fs: seq<Field>, ghost n: nat)
    requires PlainFields(fs) && n < |fs| && comma == (n > 0)
    requires name == Name(fs[n].key) && fs[n].value == OptTree(s)
    requires b.data == before + Emitted(fs, n)
    modifies b
    ensures b.data == before + Emitted(fs, n + 1)
  {
    WriteKey(b, name, comma);
    WriteOpt(b, s);
    Appended(before, Emitted(fs, n), KeyText(name, comma), Print(OptTree(s)));
  }

  method Close(b: Buffer, ghost before: Bytes, ghost fs: seq<Field>)
    requires PlainFields(fs) && b.data == before + Emitted(fs, |fs|)
    modifies b
    ensures b.data == before + Print(ObjectOf(fs))
  {
    ghost var emitted := Emitted(fs, |fs|);
    b.WriteByte(CLOSE_BRACE);
    Closed(before, emitted);
    EmittedAll(fs);
  }

  lemma Closed(before: Bytes, emitted: Bytes)
    ensures before + emitted + [CLOSE_BRACE] == before + (emitted + [CLOSE_BRACE])
  {}

  predicate PrintsAsItself(t: Text) {
    forall i :: 0 <= i < |t| ==> 0x20 <= t[i] < 0x80 && t[i] != QUOTE && t[i] != BACKSLASH
  }

  lemma {:induction false} PlainText(t: Text)
    requires PrintsAsItself(t)
    ensures EscapeAll(t) == t
  {
    if t != [] {
      PlainText(t[1..]);
      assert Escape(t[0]) == [t[0]];
    }
  }

  const ACTOR_OPENING: Bytes := Ascii("{\"email_address\":null,\"type\":")

  lemma ActorOpeningBytes(e: Text, t: Text)
    requires e == Ascii("email_address") && t == Ascii("type")
    ensures ACTOR_OPENING
         == [OPEN_BRACE] + ([] + ([QUOTE] + e + [QUOTE]) + [COLON]) + NULL
            + ([COMMA] + ([QUOTE] + t + [QUOTE]) + [COLON])
    ensures PrintsAsItself(e) && PrintsAsItself(t)
  {}

  lemma QuotedPlain(name: Text)
    requires PrintsAsItself(name)
    ensures Quoted(name) == [QUOTE] + name + [QUOTE]
  {
    PlainText(name);
  }

  lemma ActorOpeningText(e: Text, t: Text)
    requires e == Ascii("email_address") && t == Ascii("type")
    ensures ACTOR_OPENING == [OPEN_BRACE] + KeyText(e, false) + NULL + KeyText(t, true)
  {
    ActorOpeningBytes(e, t);
    QuotedPlain(e);
    QuotedPlain(t);
  }

  lemma EmittedFirst(fs: seq<Field>)
    requires PlainFields(fs) && |fs| > 0
    ensures Emitted(fs, 1) == [OPEN_BRACE] + KeyText(Name(fs[0].key), false) + Print(fs[0].value)
  {
    EmittedNext(fs, 0);
  }

  /** The constant text the renderers open an actor with. */
  lemma ActorOpening(fs: seq<Field>, a: Actor)
    requires fs == ActorFields(a)
    ensures ACTOR_OPENING == Emitted(fs, 1) + KeyText(Name(TypeKey), true)
  {
    ActorOpeningText(Name(EmailAddress), Name(TypeKey));
    EmittedFirst(fs);
    PrintedOpt(None);
  }

  method WriteActor(b: Buffer, actor: Option<Actor>)
    modifies b
    ensures b.data == old(b.data) + Print(ActorTree(actor))
  {
    if actor.Some? {
      WriteActorObject(b, actor.value, ActorFields(actor.value));
    } else {
      b.WriteBytes(NULL);
      PrintedOpt(None);
    }
  }

  method WriteActorObject(b: Buffer, actor: Actor, ghost fs: seq<Field>)
    requires fs == ActorFields(actor)
    modifies b
    ensures b.data == old(b.data) + Print(ObjectOf(fs))
  {
    ghost var before := b.data;
    b.WriteBytes(ACTOR_OPENING);
    WriteOpt(b, actor.typ);
    ActorOpening(fs, actor);
    ActorEmitted(before, fs, actor);
    Close(b, before, fs);
  }

  lemma ActorEmitted(before: Bytes, fs: seq<Field>, a: Actor)
    requires fs == ActorFields(a)
    ensures before + (Emitted(fs, 1) + KeyText(Name(TypeKey), true)) + Print(OptTree(a.typ)) == before + Emitted(fs, |fs|)
  {
    EmittedNext(fs, 1);
    Appended2(before, Emitted(fs, 1), KeyText(Name(TypeKey), true), Print(OptTree(a.typ)));
  }

  lemma EmittedNext(fs: seq<Field>, n: nat)
    requires PlainFields(fs) && n < |fs|
    ensures Emitted(fs, n + 1) == Emitted(fs, n) + KeyText(Name(fs[n].key), n > 0) + Print(fs[n].value)
  {}

  method WriteResource(b: Buffer, resource: Option<Resource>)
    modifies b
    ensures b.data == old(b.data) + Print(ResourceTree(resource))
  {
    ghost var before := b.data;
    if resource.Some? {
      ghost var fs := ResourceFields(resource.value);
      b.WriteByte(OPEN_BRACE);
      WriteField(b, Name(IdKey), false, resource.value.id, before, fs, 0);
      WriteField(b, Name(ParentKey), true, None, before, fs, 1);
      WriteField(b, Name(TypeKey), true, resource.value.typ, before, fs, 2);
      Close(b, before, fs);
    } else {
      b.WriteBytes(NULL);
      PrintedOpt(None);
    }
  }

  lemma FieldsAt(r: Record, fs: seq<Field>)
    requires |fs| >= 10 && fs[..10] == CommonFields(r)
    ensures fs[0] == Field(AccessedAt, OptTree(r.accessedAt)) && fs[1] == Field(AccessorDepartment, OptTree(r.accessorDepartment))
    ensures fs[2] == Field(ActorKey, ActorTree(r.actor)) && fs[3] == Field(CreatedAt, OptTree(r.createdAt))
    ensures fs[4] == Field(IdKey, OptTree(r.id)) && fs[5] == Field(OrganizationId, OptTree(r.organizationId))
    ensures fs[6] == Field(OrganizationUuid, OptTree(r.organizationUuid)) && fs[7] == Field(ReasonCode, OptTree(r.reasonCode))
    ensures fs[8] == Field(ResourceDetails, ResourceTree(r.resource)) && fs[9] == Field(TypeKey, OptTree(r.typ))
  {
    assert forall i :: 0 <= i < 10 ==> fs[i] == fs[..10][i];
  }

  /** The ten fields both sets begin with. */
  method WriteCommon(b: Buffer, r: Record, ghost fs: seq<Field>)
    requires b.data == [] && PlainFields(fs) && |fs| >= 10 && fs[..10] == CommonFields(r)
    modifies b
    ensures b.data == [] + Emitted(fs, 10)
  {
    FieldsAt(r, fs);
    b.WriteByte(OPEN_BRACE);
    assert b.data == [] + Emitted(fs, 0);
    WriteField(b, Name(AccessedAt), false, r.accessedAt, [], fs, 0);
    WriteField(b, Name(AccessorDepartment), true, r.accessorDepartment, [], fs, 1);
    WriteKey(b, Name(ActorKey), true);
    WriteActor(b, r.actor);
    Appended([], Emitted(fs, 2), KeyText(Name(ActorKey), true), Print(ActorTree(r.actor)));
    EmittedNext(fs, 2);
    WriteField(b, Name(CreatedAt), true, r.createdAt, [], fs, 3);
    WriteLater(b, r, fs);
  }

  /** The common fields from the id on. */
  method WriteLater(b: Buffer, r: Record, ghost fs: seq<Field>)
    requires PlainFields(fs) && |fs| >= 10 && fs[..10] == CommonFields(r) && b.data == [] + Emitted(fs, 4)
    modifies b
    ensures b.data == [] + Emitted(fs, 10)
  {
    FieldsAt(r, fs);
    WriteField(b, Name(IdKey), true, r.id, [], fs, 4);
    WriteField(b, Name(OrganizationId), true, r.organizationId, [], fs, 5);
    WriteField(b, Name(OrganizationUuid), true, r.organizationUuid, [], fs, 6);
    WriteField(b, Name(ReasonCode), true, r.reasonCode, [], fs, 7);
    WriteKey(b, Name(ResourceDetails), true);
    WriteResource(b, r.resource);
    Appended([], Emitted(fs, 8), KeyText(Name(ResourceDetails), true), Print(ResourceTree(r.resource)));
    EmittedNext(fs, 8);
    WriteField(b, Name(TypeKey), true, r.typ, [], fs, 9);
  }

  /** Field set v1 as canonical JSON. */
  method Render(r: Record) returns (text: Bytes)
    ensures text == Print(TreeV1(r))
  {
    ghost var fs := FieldsV1(r);
    var b := new Buffer();
    assert fs[..10] == CommonFields(r);
    WriteCommon(b, r, fs);
    assert fs[10] == Field(WorkspaceId, OptTree(r.workspaceId));
    WriteField(b, Name(WorkspaceId), true, r.workspaceId, [], fs, 10);
    Close(b, [], fs);
    return b.data;
  }

  /** Field set v2 as canonical JSON. */
  method RenderV2(r: Record) returns (text: Bytes)
    ensures text == Print(TreeV2(r))
  {
    ghost var fs := FieldsV2(r);
    var b := new Buffer();
    assert fs[..10] == CommonFields(r);
    WriteCommon(b, r, fs);
    if r.userProfileId.Some? {
      assert fs[10] == Field(UserProfileId, OptTree(r.userProfileId));
      WriteField(b, Name(UserProfileId), true, r.userProfileId, [], fs, 10);
    }
    assert fs[|fs| - 1] == Field(WorkspaceId, OptTree(r.workspaceId));
    WriteField(b, Name(WorkspaceId), true, r.workspaceId, [], fs, |fs| - 1);
    Close(b, [], fs);
    return b.data;
  }

  /** Both entries of a record, framed by their version bytes. */
  method Frame(r: Record, index: Option<nat>) returns (e: Event)
    ensures e == EventOf(r, index)
  {
    var v2 := RenderV2(r);
    var v1 := Render(r);
    var legacy := [V1] + v1;
    if r.userProfileId == None {
      e := Event(Deref(r.id), Deref(r.organizationUuid), index, [V2] + v2, Some(legacy), None);
    } else {
      e := Event(Deref(r.id), Deref(r.organizationUuid), index, [V2] + v2, None, Some(legacy));
    }
  }
}
