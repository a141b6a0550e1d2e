/** JSON texts (RFC 8259) as trees, a reader, and the canonical printer of the trees a leaf uses. */
module Json {
  import opened Basics
  import opened JsonText

  /** Strings and member names are kept as literal bodies, not yet decoded. */
  datatype Json =
    | JNull
    | JBool(value: bool)
    | JNumber(literal: Bytes)
    | JString(body: Bytes)
    | JArray(items: seq<Json>)
    | JObject(members: seq<Member>)

  datatype Member = Member(key: Bytes, value: Json)

  const OPEN_BRACE: Byte := 0x7B
  const CLOSE_BRACE: Byte := 0x7D
  const OPEN_BRACKET: Byte := 0x5B
  const CLOSE_BRACKET: Byte := 0x5D
  const COLON: Byte := 0x3A
  const COMMA: Byte := 0x2C

  const NULL: Bytes := [0x6E, 0x75, 0x6C, 0x6C]
  const TRUE: Bytes := [0x74, 0x72, 0x75, 0x65]
  const FALSE: Bytes := [0x66, 0x61, 0x6C, 0x73, 0x65]

  // ---------------------------------------------------------------------
  // The reader
  // ---------------------------------------------------------------------

  predicate IsSpace(b: Byte) {
    b == 0x20 || b == 0x09 || b == 0x0A || b == 0x0D
  }

  predicate IsDigit(b: Byte) {
    0x30 <= b <= 0x39
  }

  function SkipSpace(b: Bytes): (r: Bytes)
    ensures |r| <= |b|
    ensures r != [] ==> !IsSpace(r[0])
  {
    if b != [] && IsSpace(b[0]) then SkipSpace(b[1..]) else b
  }

  /** What is left of b once its first bytes are taken. */
  predicate LeftOf(b: Bytes, rest: Bytes) {
    |rest| <= |b| && b[|b| - |rest|..] == rest
  }

  function AfterDigits(b: Bytes): (rest: Bytes)
    ensures LeftOf(b, rest)
  {
    if b != [] && IsDigit(b[0]) then AfterDigits(b[1..]) else b
  }

  function AfterByte(b: Bytes, x: Byte, y: Byte): (rest: Bytes)
    ensures LeftOf(b, rest)
  {
    if b != [] && (b[0] == x || b[0] == y) then b[1..] else b
  }

  /** At least one digit, then the rest of them. */
  function AfterSomeDigits(b: Bytes): (rest: Option<Bytes>)
    ensures rest.Some? ==> LeftOf(b, rest.value) && |rest.value| < |b|
  {
    if b == [] || !IsDigit(b[0]) then None else Some(AfterDigits(b[1..]))
  }

  function AfterWhole(b: Bytes): (rest: Option<Bytes>)
    ensures rest.Some? ==> LeftOf(b, rest.value) && |rest.value| < |b|
  {
    if b != [] && b[0] == 0x30 then Some(b[1..]) else AfterSomeDigits(b)
  }

  function AfterFraction(b: Bytes): (rest: Option<Bytes>)
    ensures rest.Some? ==> LeftOf(b, rest.value)
  {
    if b != [] && b[0] == 0x2E then AfterSomeDigits(b[1..]) else Some(b)
  }

  function AfterExponent(b: Bytes): (rest: Option<Bytes>)
    ensures rest.Some? ==> LeftOf(b, rest.value)
  {
    if b != [] && (b[0] == 0x65 || b[0] == 0x45) then AfterSomeDigits(AfterByte(b[1..], 0x2B, 0x2D)) else Some(b)
  }

  lemma LeftOfMore(b: Bytes, c: Bytes, d: Bytes)
    requires LeftOf(b, c) && LeftOf(c, d)
    ensures LeftOf(b, d)
  {
    var k, l := |b| - |c|, |c| - |d|;
    assert b[k..][l..] == b[k + l..];
  }

  /** What follows the number at the start of b. */
  function AfterNumber(b: Bytes): (rest: Option<Bytes>)
    ensures rest.Some? ==> LeftOf(b, rest.value) && |rest.value| < |b|
  {
    var a := AfterByte(b, 0x2D, 0x2D);
    match AfterWhole(a)
    case None => None
    case Some(c) =>
      LeftOfMore(b, a, c);
      match AfterFraction(c)
      case None => None
      case Some(d) =>
        LeftOfMore(b, c, d);
        var rest := AfterExponent(d);
        if rest.Some? then LeftOfMore(b, d, rest.value); rest else None
  }

  function ParseWord(b: Bytes, word: Bytes, j: Json): (r: Option<(Json, Bytes)>)
    requires word != []
    ensures r.Some? ==> |r.value.1| < |b|
  {
    if word <= b then Some((j, b[|word|..])) else None
  }

  function ParseScalar(b: Bytes): (r: Option<(Json, Bytes)>)
    requires b != []
    ensures r.Some? ==> |r.value.1| < |b|
  {
    if b[0] == NULL[0] then ParseWord(b, NULL, JNull)
    else if b[0] == TRUE[0] then ParseWord(b, TRUE, JBool(true))
    else if b[0] == FALSE[0] then ParseWord(b, FALSE, JBool(false))
    else
      match AfterNumber(b)
      case None => None
      case Some(rest) => Some((JNumber(b[..|b| - |rest|]), rest))
  }

  /** The body of the literal at the start of b, and what follows it. */
  function ReadLiteral(b: Bytes): (r: Option<(Bytes, Bytes)>)
    ensures r.Some? ==> |r.value.1| < |b|
  {
    if b == [] || b[0] != QUOTE then None
    else
      match Scan(b[1..])
      case None => None
      case Some(n) => Some((b[1..1 + n], b[2 + n..]))
  }

  /** A member name and its colon; what follows starts the value. */
  function ReadKey(b: Bytes): (r: Option<(Bytes, Bytes)>)
    ensures r.Some? ==> |r.value.1| < |b|
  {
    match ReadLiteral(b)
    case None => None
    case Some((key, rest)) =>
      var c := SkipSpace(rest);
      if c == [] || c[0] != COLON then None else Some((key, SkipSpace(c[1..])))
  }

  /** The value at the start of b, and what follows it. */
  function ParseValue(b: Bytes): (r: Option<(Json, Bytes)>)
    ensures r.Some? ==> |r.value.1| < |b|
    decreases |b|, 0
  {
    if b == [] then None
    else if b[0] == QUOTE then
      match ReadLiteral(b)
      case None => None
      case Some((body, rest)) => Some((JString(body), rest))
    else if b[0] == OPEN_BRACE then
      var c := SkipSpace(b[1..]);
      if c != [] && c[0] == CLOSE_BRACE then Some((JObject([]), c[1..]))
      else
        match ParseMembers(c)
        case None => None
        case Some((ms, rest)) => Some((JObject(ms), rest))
    else if b[0] == OPEN_BRACKET then
      var c := SkipSpace(b[1..]);
      if c != [] && c[0] == CLOSE_BRACKET then Some((JArray([]), c[1..]))
      else
        match ParseItems(c)
        case None => None
        case Some((items, rest)) => Some((JArray(items), rest))
    else ParseScalar(b)
  }

  /** The members of an object from a name on, and what follows its brace. */
  function ParseMembers(b: Bytes): (r: Option<(seq<Member>, Bytes)>)
    ensures r.Some? ==> |r.value.1| < |b|
    decreases |b|, 1
  {
    match ReadKey(b)
    case None => None
    case Some((key, c)) =>
      match ParseValue(c)
      case None => None
      case Some((v, d)) =>
        var e := SkipSpace(d);
        if e == [] then None
        else if e[0] == CLOSE_BRACE then Some(([Member(key, v)], e[1..]))
        else if e[0] != COMMA then None
        else
          match ParseMembers(SkipSpace(e[1..]))
          case None => None
          case Some((ms, rest)) => Some(([Member(key, v)] + ms, rest))
  }

  function ParseItems(b: Bytes): (r: Option<(seq<Json>, Bytes)>)
    ensures r.Some? ==> |r.value.1| < |b|
    decreases |b|, 1
  {
    match ParseValue(b)
    case None => None
    case Some((v, d)) =>
      var e := SkipSpace(d);
      if e == [] then None
      else if e[0] == CLOSE_BRACKET then Some(([v], e[1..]))
      else if e[0] != COMMA then None
      else
        match ParseItems(SkipSpace(e[1..]))
        case None => None
        case Some((items, rest)) => Some(([v] + items, rest))
  }

  /** A whole text: one value, with nothing but space around it. */
  function ParseText(b: Bytes): Option<Json> {
    match ParseValue(SkipSpace(b))
    case None => None
    case Some((j, rest)) => if SkipSpace(rest) == [] then Some(j) else None
  }

  // ---------------------------------------------------------------------
  // The printer
  // ---------------------------------------------------------------------

  /** Made of null, strings and objects alone. */
  predicate Plain(j: Json) {
    match j
    case JNull => true
    case JString(body) => IsBody(body)
    case JObject(ms) => forall i :: 0 <= i < |ms| ==> IsBody(ms[i].key) && Plain(ms[i].value)
    case _ => false
  }

  predicate PlainMembers(ms: seq<Member>) {
    forall i :: 0 <= i < |ms| ==> IsBody(ms[i].key) && Plain(ms[i].value)
  }

  /** The canonical text of j, followed by rest. */
  function PrintTo(j: Json, rest: Bytes): (b: Bytes)
    requires Plain(j)
    ensures b != [] && !IsSpace(b[0])
    decreases j, 0
  {
    match j
    case JNull => NULL + rest
    case JString(body) => [QUOTE] + body + [QUOTE] + rest
    case JObject(ms) => [OPEN_BRACE] + TailTo(j, ms, 0, rest)
  }

  /** Members from the i-th on, the closing brace, and rest. */
  function TailTo(j: Json, ms: seq<Member>, i: nat, rest: Bytes): (b: Bytes)
    requires j == JObject(ms) && PlainMembers(ms) && i <= |ms|
    ensures b != [] && !IsSpace(b[0])
    decreases j, 0, |ms| - i, 1
  {
    if i == |ms| then [CLOSE_BRACE] + rest
    else if i == 0 then FromKey(j, ms, i, rest)
    else [COMMA] + FromKey(j, ms, i, rest)
  }

  function FromKey(j: Json, ms: seq<Member>, i: nat, rest: Bytes): (b: Bytes)
    requires j == JObject(ms) && PlainMembers(ms) && i < |ms|
    ensures b != [] && b[0] == QUOTE
    decreases j, 0, |ms| - i, 0
  {
    [QUOTE] + ms[i].key + [QUOTE, COLON] + PrintTo(ms[i].value, TailTo(j, ms, i + 1, rest))
  }

  function Print(j: Json): Bytes
    requires Plain(j)
  {
    PrintTo(j, [])
  }

  lemma {:induction false} PrintToAppends(j: Json, rest: Bytes)
    requires Plain(j)
    ensures PrintTo(j, rest) == Print(j) + rest
    decreases j, 0
  {
    match j
    case JObject(ms) => TailToAppends(j, ms, 0, rest);
    case _ =>
  }

  lemma {:induction false} TailToAppends(j: Json, ms: seq<Member>, i: nat, rest: Bytes)
    requires j == JObject(ms) && PlainMembers(ms) && i <= |ms|
    ensures TailTo(j, ms, i, rest) == TailTo(j, ms, i, []) + rest
    decreases j, 0, |ms| - i
  {
    if i < |ms| {
      var v, tail := ms[i].value, TailTo(j, ms, i + 1, []);
      TailToAppends(j, ms, i + 1, rest);
      PrintToAppends(v, tail + rest);
      PrintToAppends(v, tail);
      assert PrintTo(v, tail + rest) == PrintTo(v, tail) + rest;
      assert FromKey(j, ms, i, rest) == FromKey(j, ms, i, []) + rest;
    }
  }

  /** The opening brace and the first n members, as a writer emits them. */
  function Head(ms: seq<Member>, n: nat): Bytes
    requires PlainMembers(ms) && n <= |ms|
  {
    if n == 0 then [OPEN_BRACE]
    else
      Head(ms, n - 1) + (if n > 1 then [COMMA] else [])
      + [QUOTE] + ms[n - 1].key + [QUOTE] + [COLON] + Print(ms[n - 1].value)
  }

  lemma {:induction false} HeadThenTail(j: Json, ms: seq<Member>, n: nat)
    requires j == JObject(ms) && PlainMembers(ms) && n <= |ms|
    ensures Head(ms, n) + TailTo(j, ms, n, []) == Print(j)
  {
    if n > 0 {
      HeadThenTail(j, ms, n - 1);
      HeadMoves(j, ms, n);
    }
  }

  /** One member moves from what is to be printed to what is. */
  lemma HeadMoves(j: Json, ms: seq<Member>, n: nat)
    requires j == JObject(ms) && PlainMembers(ms) && 0 < n <= |ms|
    ensures Head(ms, n) + TailTo(j, ms, n, []) == Head(ms, n - 1) + TailTo(j, ms, n - 1, [])
  {
    var m, tail := ms[n - 1], TailTo(j, ms, n, []);
    var comma := if n > 1 then [COMMA] else [];
    PrintToAppends(m.value, tail);
    Regroup(Head(ms, n - 1), comma, m.key, Print(m.value), tail);
    assert TailTo(j, ms, n - 1, []) == comma + ([QUOTE] + m.key + [QUOTE, COLON] + (Print(m.value) + tail));
  }

  lemma Regroup(head: Bytes, comma: Bytes, key: Bytes, value: Bytes, tail: Bytes)
    ensures head + comma + [QUOTE] + key + [QUOTE] + [COLON] + value + tail
         == head + (comma + ([QUOTE] + key + [QUOTE, COLON] + (value + tail)))
  {}

  // ---------------------------------------------------------------------
  // What is printed is read back
  // ---------------------------------------------------------------------

  lemma ReadLiteralPrinted(body: Bytes, rest: Bytes)
    requires IsBody(body)
    ensures ReadLiteral([QUOTE] + body + [QUOTE] + rest) == Some((body, rest))
  {
    LiteralSlices(body, rest);
    ScanBody(body, rest);
  }

  lemma LiteralSlices(body: Bytes, rest: Bytes)
    ensures var b := [QUOTE] + body + [QUOTE] + rest;
            && b[0] == QUOTE && b[1..] == body + [QUOTE] + rest
            && b[1..1 + |body|] == body && b[2 + |body|..] == rest
  {}

  lemma ReadKeyPrinted(key: Bytes, text: Bytes)
    requires IsBody(key) && text != [] && !IsSpace(text[0])
    ensures ReadKey([QUOTE] + key + [QUOTE, COLON] + text) == Some((key, text))
  {
    ReadLiteralPrinted(key, [COLON] + text);
    assert [QUOTE] + key + [QUOTE] + ([COLON] + text) == [QUOTE] + key + [QUOTE, COLON] + text;
    assert ([COLON] + text)[1..] == text;
  }

  lemma {:induction false} ParsePrinted(j: Json, rest: Bytes)
    requires Plain(j)
    ensures ParseValue(PrintTo(j, rest)) == Some((j, rest))
    decreases j, 0
  {
    var b := PrintTo(j, rest);
    match j
    case JNull =>
      assert NULL <= b && b[4..] == rest;
    case JString(body) =>
      ReadLiteralPrinted(body, rest);
    case JObject(ms) =>
      assert b[1..] == TailTo(j, ms, 0, rest);
      if ms == [] {
        assert ([CLOSE_BRACE] + rest)[1..] == rest;
      } else {
        ParsePrintedMembers(j, ms, 0, rest);
        assert ms[0..] == ms;
      }
  }

  lemma {:induction false} ParsePrintedMembers(j: Json, ms: seq<Member>, i: nat, rest: Bytes)
    requires j == JObject(ms) && PlainMembers(ms) && i < |ms|
    ensures ParseMembers(FromKey(j, ms, i, rest)) == Some((ms[i..], rest))
    decreases j, 0, |ms| - i
  {
    var tail := TailTo(j, ms, i + 1, rest);
    var text := PrintTo(ms[i].value, tail);
    ParsePrinted(ms[i].value, tail);
    ReadKeyPrinted(ms[i].key, text);
    if i + 1 < |ms| {
      ParsePrintedMembers(j, ms, i + 1, rest);
      assert tail[1..] == FromKey(j, ms, i + 1, rest);
    } else {
      assert tail == [CLOSE_BRACE] + rest;
    }
    DropOne(ms, i);
    if i + 1 < |ms| {
      OneMember(FromKey(j, ms, i, rest), ms[i], text, tail, ms[i + 1..], rest);
    } else {
      LastMember(FromKey(j, ms, i, rest), ms[i], text, rest);
    }
  }

  lemma DropOne(ms: seq<Member>, i: nat)
    requires i < |ms|
    ensures ms[i..] == [ms[i]] + ms[i + 1..]
    ensures i + 1 == |ms| ==> ms[i..] == [ms[i]]
  {}

  /** The reader takes one member and goes on after it. */
  lemma OneMember(b: Bytes, m: Member, text: Bytes, tail: Bytes, ms: seq<Member>, rest: Bytes)
    requires ReadKey(b) == Some((m.key, text)) && ParseValue(text) == Some((m.value, tail))
    requires tail != [] && tail[0] == COMMA && tail[1..] != [] && !IsSpace(tail[1..][0])
    requires ParseMembers(tail[1..]) == Some((ms, rest))
    ensures ParseMembers(b) == Some(([m] + ms, rest))
  {
    assert SkipSpace(tail) == tail && SkipSpace(tail[1..]) == tail[1..];
  }

  lemma LastMember(b: Bytes, m: Member, text: Bytes, rest: Bytes)
    requires ReadKey(b) == Some((m.key, text)) && ParseValue(text) == Some((m.value, [CLOSE_BRACE] + rest))
    ensures ParseMembers(b) == Some(([m], rest))
  {
    var tail := [CLOSE_BRACE] + rest;
    assert tail[0] == CLOSE_BRACE && tail[1..] == rest && SkipSpace(tail) == tail;
  }

  /** A printed tree is read back as the same tree. */
  lemma ParseTextPrinted(j: Json)
    requires Plain(j)
    ensures ParseText(Print(j)) == Some(j)
  {
    ParsePrinted(j, []);
  }

  /** The printer is injective. */
  lemma PrintInjective(j: Json, k: Json)
    requires Plain(j) && Plain(k) && Print(j) == Print(k)
    ensures j == k
  {
    ParseTextPrinted(j);
    ParseTextPrinted(k);
  }
}
