/**
 * Escaping a JSON report for display: control runes inside its strings become
 * JSON escapes, and every value decodes to what it did before.
 */
module Display {
  import opened Basics
  import opened Utf8
  import opened JsonText
  import opened Json
  import opened Escape
  import opened JsonRewrite

  // ---------------------------------------------------------------------
  // The escaper
  // ---------------------------------------------------------------------

  function HighHalf(r: Rune): (v: nat)
    requires r > 0xFFFF
    ensures HighSurrogate(v)
  {
    0xD800 + (r - 0x10000) / 0x400
  }

  function LowHalf(r: Rune): (v: nat)
    requires r > 0xFFFF
    ensures LowSurrogate(v)
  {
    0xDC00 + (r - 0x10000) % 0x400
  }

  /** A rune as JSON escapes; past the BMP it takes a surrogate pair. */
  function JsonEscape(r: Rune): Bytes {
    if r > 0xFFFF then UnicodeEscape(HighHalf(r)) + UnicodeEscape(LowHalf(r)) else UnicodeEscape(r)
  }

  function ShowDecoded(marks: Marks, r: Rune): Bytes {
    if IsControl(marks, r) then JsonEscape(r) else Encode(r)
  }

  function RuneAt(s: Bytes): Rune
    requires s != []
  {
    if Decode(s) == None then REPLACEMENT else Decode(s).value.0
  }

  function Rewrite(marks: Marks, s: Bytes): Bytes {
    if s == [] then [] else ShowDecoded(marks, RuneAt(s)) + Rewrite(marks, s[Width(s)..])
  }

  predicate HasControl(marks: Marks, s: Bytes) {
    s != [] && (IsControl(marks, RuneAt(s)) || HasControl(marks, s[Width(s)..]))
  }

  function EscapeDisplay(marks: Marks, raw: Bytes): Bytes {
    if HasControl(marks, raw) then Rewrite(marks, raw) else raw
  }

  method WriteJsonEscape(r: Rune) returns (b: Bytes)
    ensures b == JsonEscape(r)
  {
    if r > 0xFFFF {
      var hi, lo := 0xD800 + (r - 0x10000) / 0x400, 0xDC00 + (r - 0x10000) % 0x400;
      return UnicodeEscape(hi) + UnicodeEscape(lo);
    }
    return UnicodeEscape(r);
  }

  /** Whether some rune would have to be escaped. */
  method FindControl(marks: Marks, raw: Bytes) returns (found: bool)
    ensures found == HasControl(marks, raw)
  {
    var i := 0;
    while i < |raw|
      invariant i <= |raw| && HasControl(marks, raw) == HasControl(marks, raw[i..])
    {
      if IsControl(marks, RuneAt(raw[i..])) {
        return true;
      }
      var n := Width(raw[i..]);
      assert raw[i..][n..] == raw[i + n..];
      i := i + n;
    }
    return false;
  }

  method WriteNext(marks: Marks, s: Bytes) returns (b: Bytes, n: nat)
    requires s != []
    ensures b == ShowDecoded(marks, RuneAt(s)) && n == Width(s)
  {
    var r := RuneAt(s);
    n := Width(s);
    if IsControl(marks, r) {
      b := WriteJsonEscape(r);
    } else {
      b := Encode(r);
    }
  }

  /** Writes a report so that no control rune in it reaches the reader as it is. */
  method WriteDisplay(marks: Marks, raw: Bytes) returns (b: Bytes)
    ensures b == EscapeDisplay(marks, raw)
  {
    var found := FindControl(marks, raw);
    b := raw;
    if found {
      b := WriteAll(marks, raw);
    }
  }

  method WriteAll(marks: Marks, raw: Bytes) returns (b: Bytes)
    ensures b == Rewrite(marks, raw)
  {
    b := [];
    var i := 0;
    ghost var all, left := Rewrite(marks, raw), Rewrite(marks, raw);
    assert raw[0..] == raw;
    while i < |raw|
      invariant i <= |raw| && left == Rewrite(marks, raw[i..]) && all == b + left
    {
      var piece, n := WriteNext(marks, raw[i..]);
      RewriteStep(marks, raw, i);
      i := i + n;
      Escape.Regroup(b, piece, Rewrite(marks, raw[i..]));
      b := b + piece;
      left := Rewrite(marks, raw[i..]);
    }
  }

  lemma RewriteStep(marks: Marks, raw: Bytes, i: nat)
    requires i < |raw|
    ensures var t := raw[i..];
            i + Width(t) <= |raw|
            && Rewrite(marks, t) == ShowDecoded(marks, RuneAt(t)) + Rewrite(marks, raw[i + Width(t)..])
  {
    var t := raw[i..];
    assert t[Width(t)..] == raw[i + Width(t)..];
  }

  // ---------------------------------------------------------------------
  // Bytes
  // ---------------------------------------------------------------------

  lemma {:induction false} RewriteJoin(marks: Marks, x: Bytes, y: Bytes)
    requires Valid(x)
    ensures Rewrite(marks, x + y) == Rewrite(marks, x) + Rewrite(marks, y)
    ensures Valid(x + y) == Valid(y)
  {
    if x == [] {
      assert x + y == y;
    } else {
      var n := Width(x);
      DecodePrefix(x, y);
      assert (x + y)[n..] == x[n..] + y;
      RewriteJoin(marks, x[n..], y);
    }
  }

  lemma {:induction false} RewriteVisible(marks: Marks, x: Bytes)
    requires Visible(x)
    ensures Valid(x) && Rewrite(marks, x) == x
  {
    if x != [] {
      assert Decode(x) == Some((x[0], 1));
      RewriteVisible(marks, x[1..]);
    }
  }

  lemma UnchangedFirst(marks: Marks, s: Bytes, rest: Bytes)
    requires s != [] && Decode(s).Some? && !IsControl(marks, RuneAt(s)) && rest == s[Width(s)..]
    ensures ShowDecoded(marks, RuneAt(s)) + rest == s
  {
    EncodeDecoded(s);
    assert s[..Width(s)] + s[Width(s)..] == s;
  }

  lemma {:induction false} UnchangedWithoutControl(marks: Marks, s: Bytes)
    requires Valid(s) && !HasControl(marks, s)
    ensures Rewrite(marks, s) == s
    decreases |s|
  {
    if s != [] {
      var rest := s[Width(s)..];
      UnchangedWithoutControl(marks, rest);
      UnchangedFirst(marks, s, rest);
    }
  }

  lemma JsonEscapeIsVisible(r: Rune)
    ensures Visible(JsonEscape(r))
  {
    var e := JsonEscape(r);
    if r > 0xFFFF {
      var hi, lo := UnicodeEscape(HighHalf(r)), UnicodeEscape(LowHalf(r));
      forall i | 0 <= i < |e| ensures 0x20 <= e[i] < 0x7F { assert e[i] in hi || e[i] in lo; }
    } else {
      forall i | 0 <= i < |e| ensures 0x20 <= e[i] < 0x7F { assert e[i] in e; }
    }
  }

  /** No control rune is left, even where the input was no UTF-8. */
  lemma {:induction false} RewriteIsClean(marks: Marks, s: Bytes)
    ensures Clean(marks, Rewrite(marks, s))
  {
    if s != [] {
      var rest := Rewrite(marks, s[Width(s)..]);
      RewriteIsClean(marks, s[Width(s)..]);
      if IsControl(marks, RuneAt(s)) {
        JsonEscapeIsVisible(RuneAt(s));
        CleanAscii(marks, JsonEscape(RuneAt(s)), rest);
      } else {
        CleanRune(marks, RuneAt(s), rest);
      }
    }
  }

  lemma {:induction false} WithoutControlIsClean(marks: Marks, s: Bytes)
    requires Valid(s) && !HasControl(marks, s)
    ensures Clean(marks, s)
  {
    if s != [] {
      WithoutControlIsClean(marks, s[Width(s)..]);
    }
  }

  /** What is displayed of a UTF-8 text has no control rune. */
  lemma DisplayIsClean(marks: Marks, raw: Bytes)
    requires Valid(raw)
    ensures Clean(marks, EscapeDisplay(marks, raw))
  {
    if HasControl(marks, raw) {
      RewriteIsClean(marks, raw);
    } else {
      WithoutControlIsClean(marks, raw);
    }
  }

  // ---------------------------------------------------------------------
  // String bodies
  // ---------------------------------------------------------------------

  lemma NextShortEscape(r: Rune, rest: Bytes)
    requires r <= 0xFFFF
    ensures Next(UnicodeEscape(r) + rest) == Some((Scalar(r), 6)) && (UnicodeEscape(r) + rest)[6..] == rest
  {
    HexEscapeOf(r, rest);
    assert (UnicodeEscape(r) + rest)[1] == LOWER_U;
  }

  /** The surrogate pair of an astral rune names that rune. */
  lemma NextPair(r: Rune, rest: Bytes)
    requires r > 0xFFFF
    ensures var hi, lo := UnicodeEscape(HighHalf(r)), UnicodeEscape(LowHalf(r));
            Next(hi + (lo + rest)) == Some((Scalar(r), 12))
  {
    var hi, lo := UnicodeEscape(HighHalf(r)), UnicodeEscape(LowHalf(r));
    var b := hi + (lo + rest);
    HexEscapeOf(HighHalf(r), lo + rest);
    HexEscapeOf(LowHalf(r), rest);
    assert b[6..] == lo + rest && b[1] == LOWER_U;
    Halves(r);
    assert Combine(HighHalf(r), LowHalf(r)) == r;
  }

  lemma NextJsonEscape(r: Rune, rest: Bytes)
    ensures var e := JsonEscape(r);
            Next(e + rest) == Some((Scalar(r), |e|)) && (e + rest)[|e|..] == rest
  {
    if r > 0xFFFF {
      NextPair(r, rest);
      var hi, lo := UnicodeEscape(HighHalf(r)), UnicodeEscape(LowHalf(r));
      assert (hi + lo) + rest == hi + (lo + rest);
    } else {
      NextShortEscape(r, rest);
    }
  }

  lemma Halves(r: Rune)
    requires r > 0xFFFF
    ensures 0x400 * ((r - 0x10000) / 0x400) + (r - 0x10000) % 0x400 == r - 0x10000
  {}

  lemma NextShown(marks: Marks, r: Rune, rest: Bytes)
    requires r >= 0x20 && r != QUOTE && r != BACKSLASH
    ensures var e := ShowDecoded(marks, r);
            Next(e + rest) == Some((Scalar(r), |e|)) && (e + rest)[|e|..] == rest
  {
    if IsControl(marks, r) {
      NextJsonEscape(r, rest);
    } else {
      DecodeEncoded(r, rest);
      PlainRune(r, rest);
    }
  }

  /** A scalar escape is read the same whatever follows it. */
  lemma EscapeStable(b: Bytes, rest: Bytes)
    requires Next(b).Some? && b[0] == BACKSLASH && Next(b).value.0.Scalar?
    ensures var w := Next(b).value.1;
            Visible(b[..w]) && Next(b[..w] + rest) == Next(b) && (b[..w] + rest)[w..] == rest
  {
    var w := Next(b).value.1;
    var c := b[..w] + rest;
    assert forall i :: 0 <= i < w ==> c[i] == b[i];
    if w > 2 {
      HexDigitsVisible(b);
      assert HexEscape(c) == HexEscape(b);
      if w == 12 {
        HexDigitsVisible(b[6..]);
        assert forall i :: 0 <= i < 6 ==> c[6..][i] == b[6..][i];
        assert HexEscape(c[6..]) == HexEscape(b[6..]);
        assert forall i :: 6 <= i < 12 ==> b[i] == b[6..][i - 6];
      }
    }
  }

  lemma HexDigitsVisible(b: Bytes)
    requires HexEscape(b).Some?
    ensures forall i :: 0 <= i < 6 ==> 0x20 <= b[i] < 0x7F
  {}

  /** An escape at the front of a body stays as it is. */
  lemma EscapeKept(marks: Marks, body: Bytes, less: Bytes)
    requires Strict(body).Some? && body != [] && body[0] == BACKSLASH
    requires var w := Next(body).value.1; Valid(body[w..]) && less == Rewrite(marks, body[w..])
    ensures var (p, w) := Next(body).value;
            && Valid(body) && Next(Rewrite(marks, body)) == Some((p, w)) && Rewrite(marks, body) != []
            && Rewrite(marks, body)[w..] == less
  {
    var w := Next(body).value.1;
    assert body == body[..w] + body[w..];
    EscapeStable(body, less);
    RewriteVisible(marks, body[..w]);
    RewriteJoin(marks, body[..w], body[w..]);
  }

  /** A rune at the front of a body is read as it was. */
  lemma RuneKept(marks: Marks, body: Bytes, less: Bytes)
    requires Strict(body).Some? && body != [] && body[0] != BACKSLASH
    requires var w := Next(body).value.1; Valid(body[w..]) && less == Rewrite(marks, body[w..])
    ensures Valid(body) && Rewrite(marks, body) != []
    ensures var (p, w) := Next(body).value;
            var next := Next(Rewrite(marks, body));
            next.Some? && next.value.0 == p && Rewrite(marks, body)[next.value.1..] == less
  {
    var (p, w) := Next(body).value;
    NextShown(marks, p.r, less);
  }

  lemma StrictStep(b: Bytes, t: Bytes, n: nat)
    requires b != [] && Next(b).Some? && Next(b).value.0.Scalar? && Next(b).value.1 == n && b[n..] == t
    ensures Strict(b) == if Strict(t) == None then None else Some([Next(b).value.0.r] + Strict(t).value)
  {}

  /** Escaping a body changes nothing it decodes to. */
  lemma {:induction false} BodyKept(marks: Marks, body: Bytes)
    requires Strict(body).Some?
    ensures Valid(body) && Strict(Rewrite(marks, body)) == Strict(body)
    decreases |body|
  {
    if body != [] {
      var (p, w) := Next(body).value;
      var less, shown := Rewrite(marks, body[w..]), Rewrite(marks, body);
      BodyKept(marks, body[w..]);
      if body[0] == BACKSLASH {
        EscapeKept(marks, body, less);
      } else {
        RuneKept(marks, body, less);
      }
      StrictStep(body, body[w..], w);
      StrictStep(shown, less, Next(shown).value.1);
    }
  }

  // ---------------------------------------------------------------------
  // Whole texts
  // ---------------------------------------------------------------------

  /** UTF-8 without a raw control below 0x20: what an encoder that escapes those writes. */
  predicate Quiet(b: Bytes) {
    Valid(b) && forall i :: 0 <= i < |b| ==> b[i] >= 0x20
  }

  lemma QuietTail(x: Bytes, rest: Bytes)
    requires Quiet(x + rest) && Valid(rest)
    ensures Quiet(rest)
  {
    assert forall i :: 0 <= i < |rest| ==> rest[i] == (x + rest)[|x| + i];
  }

  lemma QuoteRewritten(marks: Marks, rest: Bytes)
    ensures Rewrite(marks, [QUOTE] + rest) == [QUOTE] + Rewrite(marks, rest)
    ensures Valid([QUOTE] + rest) == Valid(rest)
  {
    RewriteVisible(marks, [QUOTE]);
    RewriteJoin(marks, [QUOTE], rest);
  }

  lemma Quoted(x: Bytes, y: Bytes)
    ensures [QUOTE] + x + [QUOTE] + y == [QUOTE] + (x + ([QUOTE] + y))
  {}

  lemma TailRewritten(marks: Marks, body: Bytes, rest: Bytes)
    requires Valid(body)
    ensures Rewrite(marks, [QUOTE] + (body + ([QUOTE] + rest))) == [QUOTE] + (Rewrite(marks, body) + ([QUOTE] + Rewrite(marks, rest)))
    ensures Valid([QUOTE] + (body + ([QUOTE] + rest))) == Valid(rest)
  {
    QuoteRewritten(marks, body + ([QUOTE] + rest));
    RewriteJoin(marks, body, [QUOTE] + rest);
    QuoteRewritten(marks, rest);
  }

  lemma LiteralRewritten(marks: Marks, body: Bytes, rest: Bytes)
    requires Valid(body) && Quiet([QUOTE] + body + [QUOTE] + rest)
    ensures Quiet(rest)
    ensures Rewrite(marks, [QUOTE] + body + [QUOTE] + rest) == [QUOTE] + Rewrite(marks, body) + [QUOTE] + Rewrite(marks, rest)
  {
    Quoted(body, rest);
    TailRewritten(marks, body, rest);
    Quoted(Rewrite(marks, body), Rewrite(marks, rest));
    QuietTail([QUOTE] + body + [QUOTE], rest);
  }

  lemma LiteralKept(marks: Marks, b: Bytes)
    requires Quiet(b) && ReadLiteral(b).Some? && Strict(ReadLiteral(b).value.0).Some?
    ensures var (body, rest) := ReadLiteral(b).value;
            Quiet(rest) && ReadLiteral(Rewrite(marks, b)) == Some((Rewrite(marks, body), Rewrite(marks, rest)))
  {
    var (body, rest) := ReadLiteral(b).value;
    LiteralParts(b, body, rest);
    BodyKept(marks, body);
    LiteralRewritten(marks, body, rest);
    StrictIsUnquoted(Rewrite(marks, body));
    ReadLiteralPrinted(Rewrite(marks, body), Rewrite(marks, rest));
  }

  lemma LiteralParts(b: Bytes, body: Bytes, rest: Bytes)
    requires ReadLiteral(b) == Some((body, rest))
    ensures b == [QUOTE] + body + [QUOTE] + rest
  {}

  lemma VisibleFirst(marks: Marks, b: Bytes)
    requires Quiet(b) && b != [] && b[0] < 0x7F
    ensures Quiet(b[1..]) && Rewrite(marks, b) == [b[0]] + Rewrite(marks, b[1..])
  {
    assert Decode(b) == Some((b[0], 1));
    assert forall i :: 0 <= i < |b[1..]| ==> b[1..][i] == b[i + 1];
  }

  lemma OtherFirst(marks: Marks, b: Bytes)
    requires Quiet(b) && b != [] && b[0] >= 0x7F
    ensures var r := Rewrite(marks, b); r != [] && (r[0] == BACKSLASH || r[0] >= 0x80)
  {
    EncodeDecoded(b);
    assert b[0] == b[..Width(b)][0];
    assert Rewrite(marks, b)[0] == ShowDecoded(marks, RuneAt(b))[0];
  }

  function Rewriting(marks: Marks): Rewriter {
    b => Rewrite(marks, b)
  }

  const QUIET: Family := b => Quiet(b)

  lemma RewritingKeepsAt(marks: Marks, b: Bytes)
    requires Quiet(b)
    ensures KeepsAt(Rewriting(marks), QUIET, b)
  {
    if b != [] {
      if b[0] < 0x7F { VisibleFirst(marks, b); } else { OtherFirst(marks, b); }
    }
    if ReadLiteral(b).Some? && Strict(ReadLiteral(b).value.0).Some? {
      LiteralKept(marks, b);
    }
  }

  lemma RewritingKeeps(marks: Marks)
    ensures Keeps(Rewriting(marks), QUIET)
  {
    forall b: Bytes | Quiet(b) ensures KeepsAt(Rewriting(marks), QUIET, b) {
      RewritingKeepsAt(marks, b);
    }
    forall b: Bytes ensures KeepsBody(Rewriting(marks), b) {
      if Strict(b).Some? { BodyKept(marks, b); }
    }
  }

  /**
   * Displaying a JSON text loses nothing: it reads as the same value, string
   * by string and rune by rune, and shows no control rune.
   */
  lemma DisplayIsLossless(marks: Marks, raw: Bytes)
    requires Quiet(raw) && ParseText(raw).Some? && Sound(ParseText(raw).value)
    ensures Clean(marks, EscapeDisplay(marks, raw))
    ensures var shown := ParseText(EscapeDisplay(marks, raw));
            shown.Some? && SameValue(ParseText(raw).value, shown.value)
  {
    DisplayIsClean(marks, raw);
    if !HasControl(marks, raw) {
      UnchangedWithoutControl(marks, raw);
    }
    RewritingKeeps(marks);
    TextKept(Rewriting(marks), QUIET, raw);
    assert Rewriting(marks)(raw) == EscapeDisplay(marks, raw);
  }
}
