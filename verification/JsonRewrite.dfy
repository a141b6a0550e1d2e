/**
 * Rewriting a JSON text. A rewriting that leaves visible ASCII alone, and
 * changes strings only to others that decode alike, changes no value: the
 * reader goes through both texts in step.
 */
module JsonRewrite {
  import opened Basics
  import opened JsonText
  import opened Json

  type Rewriter = Bytes -> Bytes

  /** The texts a rewriting is for. */
  type Family = Bytes -> bool

  // ---------------------------------------------------------------------
  // Values
  // ---------------------------------------------------------------------

  /** Every string decodes without a repair. */
  predicate Sound(j: Json) {
    match j
    case JString(body) => Strict(body).Some?
    case JArray(items) => forall i :: 0 <= i < |items| ==> Sound(items[i])
    case JObject(ms) => forall i :: 0 <= i < |ms| ==> Strict(ms[i].key).Some? && Sound(ms[i].value)
    case _ => true
  }

  /** The two decode to the same value: same shape, same literals, same decoded strings. */
  predicate SameValue(a: Json, b: Json) {
    match a
    case JString(body) => b.JString? && Unquote(b.body) == Unquote(body)
    case JArray(items) =>
      b.JArray? && |b.items| == |items| && forall i :: 0 <= i < |items| ==> SameValue(items[i], b.items[i])
    case JObject(ms) =>
      b.JObject? && |b.members| == |ms|
      && forall i :: 0 <= i < |ms| ==>
           Unquote(b.members[i].key) == Unquote(ms[i].key) && SameValue(ms[i].value, b.members[i].value)
    case _ => b == a
  }

  /** The tree with every string body rewritten. */
  function Rewritten(f: Rewriter, j: Json): Json
    decreases j, 1
  {
    match j
    case JString(body) => JString(f(body))
    case JArray(items) => JArray(seq(|items|, i requires 0 <= i < |items| => Rewritten(f, items[i])))
    case JObject(ms) => JObject(RewrittenMembers(f, j, ms))
    case _ => j
  }

  function RewrittenMembers(f: Rewriter, j: Json, ms: seq<Member>): (rs: seq<Member>)
    requires j == JObject(ms)
    ensures |rs| == |ms|
    ensures forall i :: 0 <= i < |ms| ==> rs[i] == Member(f(ms[i].key), Rewritten(f, ms[i].value))
    decreases j, 0
  {
    seq(|ms|, i requires 0 <= i < |ms| => Member(f(ms[i].key), Rewritten(f, ms[i].value)))
  }

  // ---------------------------------------------------------------------
  // What a rewriting must keep
  // ---------------------------------------------------------------------

  /** At one text: its first byte, if it is visible, and its literal, if it begins with one. */
  ghost predicate KeepsAt(f: Rewriter, q: Family, b: Bytes) {
    && f([]) == []
    && (b != [] ==> b[0] >= 0x20 && f(b) != [])
    && (b != [] && b[0] < 0x7F ==> q(b[1..]) && f(b) == [b[0]] + f(b[1..]))
    && (b != [] && b[0] >= 0x7F ==> f(b)[0] == BACKSLASH || f(b)[0] >= 0x80)
    && (ReadLiteral(b).Some? && Strict(ReadLiteral(b).value.0).Some? ==>
          var (body, rest) := ReadLiteral(b).value;
          q(rest) && ReadLiteral(f(b)) == Some((f(body), f(rest))))
  }

  ghost predicate KeepsBody(f: Rewriter, body: Bytes) {
    Strict(body).Some? ==> Strict(f(body)) == Strict(body)
  }

  /** A text the reader has reached; the laws of Keeps are looked up only there. */
  ghost predicate Reached(b: Bytes) {
    true
  }

  ghost predicate Keeps(f: Rewriter, q: Family) {
    && (forall b: Bytes {:trigger Reached(b)} :: Reached(b) && q(b) ==> KeepsAt(f, q, b))
    && (forall b: Bytes {:trigger Reached(b)} :: Reached(b) ==> KeepsBody(f, b))
  }

  lemma FirstTaken(f: Rewriter, q: Family, b: Bytes)
    requires Keeps(f, q) && q(b) && b != [] && b[0] < 0x7F
    ensures 0x20 <= b[0] && q(b[1..]) && f(b) == [b[0]] + f(b[1..]) && f(b)[1..] == f(b[1..])
  {
    assert Reached(b);
  }

  /** The first byte is kept if it is visible, and otherwise gives none but a backslash. */
  lemma FirstByte(f: Rewriter, q: Family, b: Bytes, c: Byte)
    requires Keeps(f, q) && q(b) && 0x20 <= c < 0x7F && c != BACKSLASH
    ensures (b == []) == (f(b) == [])
    ensures (b != [] && b[0] == c) == (f(b) != [] && f(b)[0] == c)
  {
    assert Reached(b);
  }

  lemma LiteralKept(f: Rewriter, q: Family, b: Bytes)
    requires Keeps(f, q) && q(b) && ReadLiteral(b).Some? && Strict(ReadLiteral(b).value.0).Some?
    ensures var (body, rest) := ReadLiteral(b).value;
            q(rest) && ReadLiteral(f(b)) == Some((f(body), f(rest)))
  {
    assert Reached(b);
  }

  lemma SameUnquoted(f: Rewriter, q: Family, body: Bytes)
    requires Keeps(f, q) && Strict(body).Some?
    ensures Unquote(f(body)) == Unquote(body)
  {
    assert Reached(body);
    StrictIsUnquoted(body);
    StrictIsUnquoted(f(body));
  }

  lemma {:induction false} RewrittenIsSame(f: Rewriter, q: Family, j: Json)
    requires Keeps(f, q) && Sound(j)
    ensures SameValue(j, Rewritten(f, j))
    decreases j
  {
    match j
    case JString(body) => SameUnquoted(f, q, body);
    case JArray(items) =>
      forall i | 0 <= i < |items| ensures SameValue(items[i], Rewritten(f, items[i])) {
        RewrittenIsSame(f, q, items[i]);
      }
    case JObject(ms) =>
      forall i | 0 <= i < |ms|
        ensures Unquote(f(ms[i].key)) == Unquote(ms[i].key) && SameValue(ms[i].value, Rewritten(f, ms[i].value))
      {
        SameUnquoted(f, q, ms[i].key);
        RewrittenIsSame(f, q, ms[i].value);
      }
    case _ =>
  }

  lemma VisibleTail(b: Bytes, k: nat)
    requires 0 < k <= |b| && Visible(b[..k])
    ensures Visible(b[1..][..k - 1])
  {
    assert b[1..][..k - 1] == b[..k][1..];
  }

  /** Visible bytes at the front stay where they are. */
  lemma {:induction false} VisiblePrefix(f: Rewriter, q: Family, b: Bytes, k: nat)
    requires Keeps(f, q) && q(b) && k <= |b| && Visible(b[..k])
    ensures q(b[k..]) && f(b) == b[..k] + f(b[k..])
    decreases k
  {
    if k == 0 {
      assert b[0..] == b;
    } else {
      assert b[0] == b[..k][0];
      FirstTaken(f, q, b);
      var c := b[1..];
      VisibleTail(b, k);
      VisiblePrefix(f, q, c, k - 1);
      assert c[k - 1..] == b[k..] && b[..k] == [b[0]] + c[..k - 1];
    }
  }

  // ---------------------------------------------------------------------
  // Space and numbers
  // ---------------------------------------------------------------------

  lemma {:induction false} SpaceKept(f: Rewriter, q: Family, b: Bytes)
    requires Keeps(f, q) && q(b)
    ensures q(SkipSpace(b)) && SkipSpace(f(b)) == f(SkipSpace(b))
    decreases |b|
  {
    FirstByte(f, q, b, 0x20);
    if b != [] && b[0] == 0x20 {
      FirstTaken(f, q, b);
      SpaceKept(f, q, b[1..]);
    } else {
      NotSpace(f, q, b);
    }
  }

  lemma NotSpace(f: Rewriter, q: Family, b: Bytes)
    requires Keeps(f, q) && q(b) && !(b != [] && b[0] == 0x20)
    ensures SkipSpace(b) == b && SkipSpace(f(b)) == f(b)
  {
    assert Reached(b);
  }

  lemma NotDigit(f: Rewriter, q: Family, b: Bytes)
    requires Keeps(f, q) && q(b) && !(b != [] && IsDigit(b[0]))
    ensures AfterDigits(f(b)) == f(b)
  {
    assert Reached(b);
  }

  /** The two texts go on alike after the same visible bytes. */
  ghost predicate TookAlike(f: Rewriter, q: Family, b: Bytes, rest: Bytes) {
    && LeftOf(b, rest) && Visible(b[..|b| - |rest|]) && q(rest)
  }

  lemma TookMore(f: Rewriter, q: Family, b: Bytes, c: Bytes, d: Bytes)
    requires TookAlike(f, q, b, c) && TookAlike(f, q, c, d)
    ensures TookAlike(f, q, b, d)
  {
    var k, l := |b| - |c|, |c| - |d|;
    assert b[k..][l..] == b[k + l..];
    assert b[..k + l] == b[..k] + c[..l];
  }

  lemma TookFirst(f: Rewriter, q: Family, b: Bytes)
    requires Keeps(f, q) && q(b) && b != [] && b[0] < 0x7F
    ensures TookAlike(f, q, b, b[1..]) && f(b) == [b[0]] + f(b[1..]) && f(b)[1..] == f(b[1..])
  {
    FirstTaken(f, q, b);
    assert b[..1] == [b[0]];
  }

  lemma {:induction false} DigitsKept(f: Rewriter, q: Family, b: Bytes)
    requires Keeps(f, q) && q(b)
    ensures TookAlike(f, q, b, AfterDigits(b))
    ensures AfterDigits(f(b)) == f(AfterDigits(b))
  {
    if b != [] && IsDigit(b[0]) {
      TookFirst(f, q, b);
      DigitsKept(f, q, b[1..]);
      TookMore(f, q, b, b[1..], AfterDigits(b));
      assert ([b[0]] + f(b[1..]))[1..] == f(b[1..]);
    } else {
      NotDigit(f, q, b);
    }
  }

  lemma ByteKept(f: Rewriter, q: Family, b: Bytes, x: Byte, y: Byte)
    requires Keeps(f, q) && q(b) && 0x20 <= x < BACKSLASH && 0x20 <= y < BACKSLASH
    ensures TookAlike(f, q, b, AfterByte(b, x, y))
    ensures AfterByte(f(b), x, y) == f(AfterByte(b, x, y))
  {
    FirstByte(f, q, b, x);
    FirstByte(f, q, b, y);
    if b != [] && (b[0] == x || b[0] == y) {
      TookFirst(f, q, b);
    }
  }

  lemma SomeDigitsKept(f: Rewriter, q: Family, b: Bytes)
    requires Keeps(f, q) && q(b) && AfterSomeDigits(b).Some?
    ensures TookAlike(f, q, b, AfterSomeDigits(b).value)
    ensures AfterSomeDigits(f(b)) == Some(f(AfterSomeDigits(b).value))
  {
    TookFirst(f, q, b);
    DigitsKept(f, q, b[1..]);
    TookMore(f, q, b, b[1..], AfterDigits(b[1..]));
    assert ([b[0]] + f(b[1..]))[1..] == f(b[1..]);
  }

  lemma WholeKept(f: Rewriter, q: Family, b: Bytes)
    requires Keeps(f, q) && q(b) && AfterWhole(b).Some?
    ensures TookAlike(f, q, b, AfterWhole(b).value)
    ensures AfterWhole(f(b)) == Some(f(AfterWhole(b).value))
  {
    FirstByte(f, q, b, 0x30);
    if b[0] == 0x30 {
      TookFirst(f, q, b);
    } else {
      SomeDigitsKept(f, q, b);
    }
  }

  lemma FractionKept(f: Rewriter, q: Family, b: Bytes)
    requires Keeps(f, q) && q(b) && AfterFraction(b).Some?
    ensures TookAlike(f, q, b, AfterFraction(b).value)
    ensures AfterFraction(f(b)) == Some(f(AfterFraction(b).value))
  {
    FirstByte(f, q, b, 0x2E);
    if b != [] && b[0] == 0x2E {
      TookFirst(f, q, b);
      SomeDigitsKept(f, q, b[1..]);
      TookMore(f, q, b, b[1..], AfterFraction(b).value);
    }
  }

  lemma ExponentKept(f: Rewriter, q: Family, b: Bytes)
    requires Keeps(f, q) && q(b) && AfterExponent(b).Some?
    ensures TookAlike(f, q, b, AfterExponent(b).value)
    ensures AfterExponent(f(b)) == Some(f(AfterExponent(b).value))
  {
    FirstByte(f, q, b, 0x65);
    FirstByte(f, q, b, 0x45);
    if b != [] && (b[0] == 0x65 || b[0] == 0x45) {
      TookFirst(f, q, b);
      ByteKept(f, q, b[1..], 0x2B, 0x2D);
      var c := AfterByte(b[1..], 0x2B, 0x2D);
      SomeDigitsKept(f, q, c);
      TookMore(f, q, b, b[1..], c);
      TookMore(f, q, b, c, AfterExponent(b).value);
    }
  }

  /** One stage after another. */
  lemma TookThen(f: Rewriter, q: Family, b: Bytes, a: Bytes, c: Bytes, d: Bytes, e: Bytes)
    requires TookAlike(f, q, b, a) && TookAlike(f, q, a, c) && TookAlike(f, q, c, d) && TookAlike(f, q, d, e)
    ensures TookAlike(f, q, b, e)
  {
    TookMore(f, q, b, a, c);
    TookMore(f, q, b, c, d);
    TookMore(f, q, b, d, e);
  }

  lemma NumberStages(b: Bytes, a: Bytes, c: Bytes, d: Bytes)
    requires a == AfterByte(b, 0x2D, 0x2D) && AfterWhole(a) == Some(c) && AfterFraction(c) == Some(d)
    ensures AfterNumber(b) == AfterExponent(d)
  {}

  lemma NumberKept(f: Rewriter, q: Family, b: Bytes)
    requires Keeps(f, q) && q(b) && AfterNumber(b).Some?
    ensures TookAlike(f, q, b, AfterNumber(b).value)
    ensures AfterNumber(f(b)) == Some(f(AfterNumber(b).value))
  {
    var a := AfterByte(b, 0x2D, 0x2D);
    var c := AfterWhole(a).value;
    var d := AfterFraction(c).value;
    NumberStages(b, a, c, d);
    ByteKept(f, q, b, 0x2D, 0x2D);
    WholeKept(f, q, a);
    FractionKept(f, q, c);
    ExponentKept(f, q, d);
    TookThen(f, q, b, a, c, d, AfterExponent(d).value);
    NumberStages(f(b), f(a), f(c), f(d));
  }

  lemma WordKept(f: Rewriter, q: Family, b: Bytes, word: Bytes, j: Json)
    requires Keeps(f, q) && q(b) && word != [] && Visible(word) && word <= b
    ensures q(b[|word|..])
    ensures ParseWord(f(b), word, j) == Some((j, f(b[|word|..])))
  {
    assert b[..|word|] == word;
    VisiblePrefix(f, q, b, |word|);
  }

  /** One value is read from both texts, with what follows it. */
  ghost predicate ReadAlike(f: Rewriter, q: Family, b: Bytes) {
    ParseValue(b).Some? && Sound(ParseValue(b).value.0) ==>
      var (j, rest) := ParseValue(b).value;
      q(rest) && ParseValue(f(b)) == Some((Rewritten(f, j), f(rest)))
  }

  lemma SamePrefix(x: Bytes, tail: Bytes, r: Bytes)
    requires r == x + tail
    ensures r[..|r| - |tail|] == x
  {}

  lemma PrefixKept(f: Rewriter, q: Family, b: Bytes, rest: Bytes)
    requires Keeps(f, q) && q(b) && TookAlike(f, q, b, rest)
    ensures q(rest) && |f(rest)| <= |f(b)|
    ensures var r := f(b); r[..|r| - |f(rest)|] == b[..|b| - |rest|]
  {
    var k := |b| - |rest|;
    VisiblePrefix(f, q, b, k);
    SamePrefix(b[..k], f(rest), f(b));
  }

  /** How the reader takes a number, and how it takes a word. */
  lemma NumberScalar(b: Bytes)
    requires b != [] && b[0] != NULL[0] && b[0] != TRUE[0] && b[0] != FALSE[0]
    ensures var rest := AfterNumber(b);
            ParseScalar(b) == if rest == None then None else Some((JNumber(b[..|b| - |rest.value|]), rest.value))
  {}

  predicate IsWord(word: Bytes, j: Json) {
    (word == NULL && j == JNull) || (word == TRUE && j == JBool(true)) || (word == FALSE && j == JBool(false))
  }

  lemma WordScalar(b: Bytes, word: Bytes, j: Json)
    requires IsWord(word, j) && b != [] && b[0] == word[0]
    ensures ParseScalar(b) == ParseWord(b, word, j)
  {}

  /** A scalar is read alike, and what follows it. */
  ghost predicate ScalarAlike(f: Rewriter, q: Family, b: Bytes, j: Json, rest: Bytes)
    requires b != []
  {
    var r := f(b);
    && ParseScalar(b) == Some((j, rest)) && q(rest) && Rewritten(f, j) == j
    && r != [] && r[0] == b[0] && ParseScalar(r) == Some((j, f(rest)))
  }

  lemma WordScalarKept(f: Rewriter, q: Family, b: Bytes, word: Bytes, j: Json)
    requires IsWord(word, j)
    requires Keeps(f, q) && q(b) && b != [] && b[0] < 0x7F && b[0] == word[0] && ParseScalar(b).Some?
    ensures ScalarAlike(f, q, b, j, ParseScalar(b).value.1)
  {
    TookFirst(f, q, b);
    WordScalar(b, word, j);
    WordKept(f, q, b, word, j);
    WordScalar(f(b), word, j);
  }

  /** Two texts that begin with the same number. */
  lemma SameNumber(b: Bytes, rest: Bytes, r: Bytes, left: Bytes, literal: Bytes)
    requires b != [] && b[0] != NULL[0] && b[0] != TRUE[0] && b[0] != FALSE[0] && r != [] && r[0] == b[0]
    requires AfterNumber(b) == Some(rest) && AfterNumber(r) == Some(left)
    requires literal == b[..|b| - |rest|] && literal == r[..|r| - |left|]
    ensures ParseScalar(b) == Some((JNumber(literal), rest)) && ParseScalar(r) == Some((JNumber(literal), left))
  {
    NumberScalar(b);
    NumberScalar(r);
  }

  lemma NumberScalarKept(f: Rewriter, q: Family, b: Bytes, rest: Bytes, literal: Bytes)
    requires Keeps(f, q) && q(b) && b != [] && b[0] < 0x7F && AfterNumber(b) == Some(rest)
    requires b[0] != NULL[0] && b[0] != TRUE[0] && b[0] != FALSE[0] && literal == b[..|b| - |rest|]
    ensures ScalarAlike(f, q, b, JNumber(literal), rest)
  {
    NumberTexts(f, q, b, rest);
    SameNumber(b, rest, f(b), f(rest), literal);
  }

  lemma NumberTexts(f: Rewriter, q: Family, b: Bytes, rest: Bytes)
    requires Keeps(f, q) && q(b) && b != [] && b[0] < 0x7F && AfterNumber(b) == Some(rest)
    ensures var r, left := f(b), f(rest);
            && q(rest) && r != [] && r[0] == b[0] && AfterNumber(r) == Some(left)
            && |left| <= |r| && r[..|r| - |left|] == b[..|b| - |rest|]
  {
    TookFirst(f, q, b);
    NumberKept(f, q, b);
    PrefixKept(f, q, b, rest);
  }

  lemma ScalarKept(f: Rewriter, q: Family, b: Bytes)
    requires Keeps(f, q) && q(b) && b != [] && b[0] < 0x7F && ParseScalar(b).Some?
    ensures ScalarAlike(f, q, b, ParseScalar(b).value.0, ParseScalar(b).value.1)
  {
    if b[0] == NULL[0] {
      WordScalarKept(f, q, b, NULL, JNull);
    } else if b[0] == TRUE[0] {
      WordScalarKept(f, q, b, TRUE, JBool(true));
    } else if b[0] == FALSE[0] {
      WordScalarKept(f, q, b, FALSE, JBool(false));
    } else {
      NumberScalar(b);
      var rest := AfterNumber(b).value;
      NumberScalarKept(f, q, b, rest, b[..|b| - |rest|]);
    }
  }

  lemma NumberFirst(b: Bytes)
    ensures AfterNumber(b).Some? ==> b != [] && (b[0] == 0x2D || IsDigit(b[0]))
  {
    if b == [] || (b[0] != 0x2D && !IsDigit(b[0])) {
      assert AfterByte(b, 0x2D, 0x2D) == b;
      assert AfterWhole(b) == None;
    }
  }

  /** A number or word begins with a visible byte. */
  lemma ScalarFirst(b: Bytes)
    requires b != [] && ParseScalar(b).Some?
    ensures b[0] < 0x7F
  {
    if b[0] != NULL[0] && b[0] != TRUE[0] && b[0] != FALSE[0] {
      NumberScalar(b);
      NumberFirst(b);
    }
  }

  lemma KeyKept(f: Rewriter, q: Family, b: Bytes)
    requires Keeps(f, q) && q(b) && ReadKey(b).Some? && Strict(ReadKey(b).value.0).Some?
    ensures var (key, rest) := ReadKey(b).value;
            q(rest) && ReadKey(f(b)) == Some((f(key), f(rest)))
  {
    LiteralKept(f, q, b);
    var rest := ReadLiteral(b).value.1;
    SpaceKept(f, q, rest);
    var c := SkipSpace(rest);
    FirstByte(f, q, c, COLON);
    VisiblePrefix(f, q, c, 1);
    SpaceKept(f, q, c[1..]);
  }

  // ---------------------------------------------------------------------
  // The reader, through a rewriting
  // ---------------------------------------------------------------------

  function RewriteMembers(f: Rewriter, ms: seq<Member>): (rs: seq<Member>)
    ensures |rs| == |ms|
    ensures forall i :: 0 <= i < |ms| ==> rs[i] == Member(f(ms[i].key), Rewritten(f, ms[i].value))
  {
    seq(|ms|, i requires 0 <= i < |ms| => Member(f(ms[i].key), Rewritten(f, ms[i].value)))
  }

  function RewriteItems(f: Rewriter, items: seq<Json>): (rs: seq<Json>)
    ensures |rs| == |items|
    ensures forall i :: 0 <= i < |items| ==> rs[i] == Rewritten(f, items[i])
  {
    seq(|items|, i requires 0 <= i < |items| => Rewritten(f, items[i]))
  }

  lemma RewrittenParts(f: Rewriter, items: seq<Json>, ms: seq<Member>)
    ensures Rewritten(f, JArray(items)) == JArray(RewriteItems(f, items))
    ensures Rewritten(f, JObject(ms)) == JObject(RewriteMembers(f, ms))
  {
    assert RewrittenMembers(f, JObject(ms), ms) == RewriteMembers(f, ms);
    assert Rewritten(f, JArray(items)).items == RewriteItems(f, items);
  }

  /** What the reader of members makes of one member and what follows it. */
  lemma MembersStep(b: Bytes, m: Member, c: Bytes, d: Bytes)
    requires ReadKey(b) == Some((m.key, c)) && ParseValue(c) == Some((m.value, d))
    ensures var e := SkipSpace(d);
            && (e != [] && e[0] == CLOSE_BRACE ==> ParseMembers(b) == Some(([m], e[1..])))
            && (e != [] && e[0] == COMMA ==>
                  var more := ParseMembers(SkipSpace(e[1..]));
                  ParseMembers(b) == if more == None then None else Some(([m] + more.value.0, more.value.1)))
            && (e == [] || (e[0] != CLOSE_BRACE && e[0] != COMMA) ==> ParseMembers(b) == None)
  {}

  lemma ItemsStep(b: Bytes, v: Json, d: Bytes)
    requires ParseValue(b) == Some((v, d))
    ensures var e := SkipSpace(d);
            && (e != [] && e[0] == CLOSE_BRACKET ==> ParseItems(b) == Some(([v], e[1..])))
            && (e != [] && e[0] == COMMA ==>
                  var more := ParseItems(SkipSpace(e[1..]));
                  ParseItems(b) == if more == None then None else Some(([v] + more.value.0, more.value.1)))
            && (e == [] || (e[0] != CLOSE_BRACKET && e[0] != COMMA) ==> ParseItems(b) == None)
  {}

  /** After a value: space, then one of two bytes, then space. */
  lemma SeparatorKept(f: Rewriter, q: Family, d: Bytes, close: Byte)
    requires Keeps(f, q) && q(d) && (close == CLOSE_BRACE || close == CLOSE_BRACKET)
    ensures var e, e' := SkipSpace(d), SkipSpace(f(d));
            && (e != [] && e[0] == close ==> e' != [] && e'[0] == close && q(e[1..]) && e'[1..] == f(e[1..]))
            && (e != [] && e[0] == COMMA ==>
                  && e' != [] && e'[0] == COMMA && q(SkipSpace(e[1..]))
                  && SkipSpace(e'[1..]) == f(SkipSpace(e[1..])))
  {
    SpaceKept(f, q, d);
    var e := SkipSpace(d);
    if e != [] && (e[0] == close || e[0] == COMMA) {
      TookFirst(f, q, e);
      assert ([e[0]] + f(e[1..]))[1..] == f(e[1..]);
      SpaceKept(f, q, e[1..]);
    }
  }

  predicate SoundMembers(ms: seq<Member>) {
    forall i :: 0 <= i < |ms| ==> Strict(ms[i].key).Some? && Sound(ms[i].value)
  }

  predicate SoundItems(items: seq<Json>) {
    forall i :: 0 <= i < |items| ==> Sound(items[i])
  }

  /** The members read from both texts, with what follows them. */
  ghost predicate MembersAlike(f: Rewriter, q: Family, b: Bytes) {
    ParseMembers(b).Some? && SoundMembers(ParseMembers(b).value.0) ==>
      var (ms, rest) := ParseMembers(b).value;
      q(rest) && ParseMembers(f(b)) == Some((RewriteMembers(f, ms), f(rest)))
  }

  ghost predicate ItemsAlike(f: Rewriter, q: Family, b: Bytes) {
    ParseItems(b).Some? && SoundItems(ParseItems(b).value.0) ==>
      var (items, rest) := ParseItems(b).value;
      q(rest) && ParseItems(f(b)) == Some((RewriteItems(f, items), f(rest)))
  }

  lemma OneMemberRewritten(f: Rewriter, m: Member, ms: seq<Member>)
    ensures RewriteMembers(f, [m] + ms) == RewriteMembers(f, [m]) + RewriteMembers(f, ms)
    ensures RewriteMembers(f, [m]) == [Member(f(m.key), Rewritten(f, m.value))]
  {
    var all := RewriteMembers(f, [m] + ms);
    forall i | 0 <= i < |ms| ensures all[i + 1] == RewriteMembers(f, ms)[i] {
      assert ([m] + ms)[i + 1] == ms[i];
    }
  }

  lemma OneItemRewritten(f: Rewriter, v: Json, items: seq<Json>)
    ensures RewriteItems(f, [v] + items) == RewriteItems(f, [v]) + RewriteItems(f, items)
    ensures RewriteItems(f, [v]) == [Rewritten(f, v)]
  {
    var all := RewriteItems(f, [v] + items);
    forall i | 0 <= i < |items| ensures all[i + 1] == RewriteItems(f, items)[i] {
      assert ([v] + items)[i + 1] == items[i];
    }
  }

  lemma OneSoundMember(m: Member, ms: seq<Member>)
    requires SoundMembers([m] + ms)
    ensures Strict(m.key).Some? && Sound(m.value) && SoundMembers(ms)
  {
    assert ([m] + ms)[0] == m;
    assert forall i :: 0 <= i < |ms| ==> ([m] + ms)[i + 1] == ms[i];
  }

  lemma OneSoundItem(v: Json, items: seq<Json>)
    requires SoundItems([v] + items)
    ensures Sound(v) && SoundItems(items)
  {
    assert ([v] + items)[0] == v;
    assert forall i :: 0 <= i < |items| ==> ([v] + items)[i + 1] == items[i];
  }

  lemma {:induction false} MembersKept(f: Rewriter, q: Family, b: Bytes)
    requires Keeps(f, q) && q(b)
    ensures MembersAlike(f, q, b)
    decreases |b|, 1
  {
    if ParseMembers(b).Some? && SoundMembers(ParseMembers(b).value.0) {
      var (key, c) := ReadKey(b).value;
      var (v, d) := ParseValue(c).value;
      var m, e := Member(key, v), SkipSpace(d);
      var m' := Member(f(key), Rewritten(f, v));
      MembersStep(b, m, c, d);
      var more := if e[0] == COMMA then ParseMembers(SkipSpace(e[1..])).value.0 else [];
      assert ParseMembers(b).value.0 == [m] + more;
      OneSoundMember(m, more);
      OneMemberRewritten(f, m, more);
      KeyKept(f, q, b);
      ValueKept(f, q, c);
      SeparatorKept(f, q, d, CLOSE_BRACE);
      MembersStep(f(b), m', f(c), f(d));
      if e[0] == COMMA {
        MembersKept(f, q, SkipSpace(e[1..]));
      }
    }
  }

  lemma {:induction false} ItemsKept(f: Rewriter, q: Family, b: Bytes)
    requires Keeps(f, q) && q(b)
    ensures ItemsAlike(f, q, b)
    decreases |b|, 1
  {
    if ParseItems(b).Some? && SoundItems(ParseItems(b).value.0) {
      var (v, d) := ParseValue(b).value;
      var e := SkipSpace(d);
      ItemsStep(b, v, d);
      var more := if e[0] == COMMA then ParseItems(SkipSpace(e[1..])).value.0 else [];
      assert ParseItems(b).value.0 == [v] + more;
      OneSoundItem(v, more);
      OneItemRewritten(f, v, more);
      ValueKept(f, q, b);
      SeparatorKept(f, q, d, CLOSE_BRACKET);
      ItemsStep(f(b), Rewritten(f, v), f(d));
      if e[0] == COMMA {
        ItemsKept(f, q, SkipSpace(e[1..]));
      }
    }
  }

  lemma {:induction false} ValueKept(f: Rewriter, q: Family, b: Bytes)
    requires Keeps(f, q) && q(b)
    ensures ReadAlike(f, q, b)
    decreases |b|, 0
  {
    if ParseValue(b).Some? && Sound(ParseValue(b).value.0) {
      if b[0] == QUOTE {
        TookFirst(f, q, b);
        LiteralKept(f, q, b);
      } else if b[0] == OPEN_BRACE {
        ObjectKept(f, q, b);
      } else if b[0] == OPEN_BRACKET {
        ArrayKept(f, q, b);
      } else {
        ScalarFirst(b);
        ScalarKept(f, q, b);
      }
    }
  }

  /** After an opening byte: space, then perhaps the closing one. */
  lemma OpeningKept(f: Rewriter, q: Family, b: Bytes, close: Byte)
    requires Keeps(f, q) && q(b) && b != [] && b[0] < 0x7F && (close == CLOSE_BRACE || close == CLOSE_BRACKET)
    ensures var c := SkipSpace(b[1..]);
            var r := f(b);
            && q(c) && r != [] && r[0] == b[0] && SkipSpace(r[1..]) == f(c)
            && (c != [] && c[0] == close) == (f(c) != [] && f(c)[0] == close)
            && (c != [] && c[0] == close ==> q(c[1..]) && f(c)[1..] == f(c[1..]))
  {
    TookFirst(f, q, b);
    assert ([b[0]] + f(b[1..]))[1..] == f(b[1..]);
    SpaceKept(f, q, b[1..]);
    var c := SkipSpace(b[1..]);
    FirstByte(f, q, c, close);
    if c != [] && c[0] == close {
      TookFirst(f, q, c);
      assert ([c[0]] + f(c[1..]))[1..] == f(c[1..]);
    }
  }

  /** What the reader makes of an object, and of an array, once the opening byte is taken. */
  lemma ObjectValue(b: Bytes, c: Bytes)
    requires b != [] && b[0] == OPEN_BRACE && c == SkipSpace(b[1..])
    ensures c != [] && c[0] == CLOSE_BRACE ==> ParseValue(b) == Some((JObject([]), c[1..]))
    ensures !(c != [] && c[0] == CLOSE_BRACE) ==>
              ParseValue(b) == if ParseMembers(c) == None then None else Some((JObject(ParseMembers(c).value.0), ParseMembers(c).value.1))
  {}

  lemma ArrayValue(b: Bytes, c: Bytes)
    requires b != [] && b[0] == OPEN_BRACKET && c == SkipSpace(b[1..])
    ensures c != [] && c[0] == CLOSE_BRACKET ==> ParseValue(b) == Some((JArray([]), c[1..]))
    ensures !(c != [] && c[0] == CLOSE_BRACKET) ==>
              ParseValue(b) == if ParseItems(c) == None then None else Some((JArray(ParseItems(c).value.0), ParseItems(c).value.1))
  {}

  lemma {:induction false} ObjectKept(f: Rewriter, q: Family, b: Bytes)
    requires Keeps(f, q) && q(b) && b != [] && b[0] == OPEN_BRACE
    ensures ReadAlike(f, q, b)
    decreases |b|, 0, 0
  {
    var c := SkipSpace(b[1..]);
    OpeningKept(f, q, b, CLOSE_BRACE);
    ObjectValue(b, c);
    ObjectValue(f(b), f(c));
    if c != [] && c[0] == CLOSE_BRACE {
      RewrittenParts(f, [], []);
    } else if ParseMembers(c).Some? && SoundMembers(ParseMembers(c).value.0) {
      MembersKept(f, q, c);
      RewrittenParts(f, [], ParseMembers(c).value.0);
    }
  }

  lemma {:induction false} ArrayKept(f: Rewriter, q: Family, b: Bytes)
    requires Keeps(f, q) && q(b) && b != [] && b[0] == OPEN_BRACKET
    ensures ReadAlike(f, q, b)
    decreases |b|, 0, 0
  {
    var c := SkipSpace(b[1..]);
    OpeningKept(f, q, b, CLOSE_BRACKET);
    ArrayValue(b, c);
    ArrayValue(f(b), f(c));
    if c != [] && c[0] == CLOSE_BRACKET {
      RewrittenParts(f, [], []);
    } else if ParseItems(c).Some? && SoundItems(ParseItems(c).value.0) {
      ItemsKept(f, q, c);
      RewrittenParts(f, ParseItems(c).value.0, []);
    }
  }

  /** The rewritten text reads as the same value. */
  lemma TextKept(f: Rewriter, q: Family, raw: Bytes)
    requires Keeps(f, q) && q(raw) && ParseText(raw).Some? && Sound(ParseText(raw).value)
    ensures ParseText(f(raw)).Some? && SameValue(ParseText(raw).value, ParseText(f(raw)).value)
  {
    SpaceKept(f, q, raw);
    ValueKept(f, q, SkipSpace(raw));
    var (j, rest) := ParseValue(SkipSpace(raw)).value;
    SpaceKept(f, q, rest);
    FirstByte(f, q, SkipSpace(rest), 0x20);
    RewrittenIsSame(f, q, j);
  }
}
