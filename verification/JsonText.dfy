/**
 * JSON string literals: the canonical writer of leaf entries (section
 * 3.2.2.2 of RFC 8785), the decoder every reader shares, and the check that
 * refuses literals the decoder would repair.
 *
 * A literal's body is what stands between its quotes.
 */
module JsonText {
  import opened Basics
  import opened Utf8

  const QUOTE: Byte := 0x22
  const BACKSLASH: Byte := 0x5C
  const LOWER_U: Byte := 0x75

  /** Printable ASCII. */
  predicate Visible(x: Bytes) {
    forall i :: 0 <= i < |x| ==> 0x20 <= x[i] < 0x7F
  }

  // ---------------------------------------------------------------------
  // Hexadecimal escapes
  // ---------------------------------------------------------------------

  function HexValue(b: Byte): (v: Option<nat>)
    ensures v.Some? ==> v.value < 16
  {
    if 0x30 <= b <= 0x39 then Some(b - 0x30)
    else if 0x61 <= b <= 0x66 then Some(b - 0x61 + 10)
    else if 0x41 <= b <= 0x46 then Some(b - 0x41 + 10)
    else None
  }

  function HexDigit(v: nat): (b: Byte)
    requires v < 16
    ensures HexValue(b) == Some(v) && 0x30 <= b < 0x7F
  {
    if v < 10 then 0x30 + v else 0x61 + (v - 10)
  }

  /** The unit that four hex digits after \u stand for, if b begins so. */
  function HexEscape(b: Bytes): (v: Option<nat>)
    ensures v.Some? ==> |b| >= 6 && v.value < 0x10000
  {
    if |b| < 6 || b[0] != BACKSLASH || b[1] != LOWER_U then None
    else
      var (h1, h2, h3, h4) := (HexValue(b[2]), HexValue(b[3]), HexValue(b[4]), HexValue(b[5]));
      if h1 == None || h2 == None || h3 == None || h4 == None then None
      else Some(0x1000 * h1.value + 0x100 * h2.value + 0x10 * h3.value + h4.value)
  }

  function Hex4(v: nat): (b: Bytes)
    requires v < 0x10000
    ensures |b| == 4
    ensures forall x <- b :: 0x30 <= x < 0x7F
  {
    [HexDigit(v / 0x1000), HexDigit(v / 0x100 % 0x10), HexDigit(v / 0x10 % 0x10), HexDigit(v % 0x10)]
  }

  function UnicodeEscape(v: nat): (b: Bytes)
    requires v < 0x10000
    ensures |b| == 6 && b[0] == BACKSLASH && b[1] == LOWER_U
    ensures forall x <- b :: 0x20 <= x < 0x7F
  {
    [BACKSLASH, LOWER_U] + Hex4(v)
  }

  lemma HexEscapeOf(v: nat, rest: Bytes)
    requires v < 0x10000
    ensures HexEscape(UnicodeEscape(v) + rest) == Some(v)
  {
    var b := UnicodeEscape(v) + rest;
    assert b[2] == Hex4(v)[0] && b[3] == Hex4(v)[1] && b[4] == Hex4(v)[2] && b[5] == Hex4(v)[3];
    assert v / 0x10 == 0x10 * (v / 0x100) + v / 0x10 % 0x10;
    assert v / 0x100 == 0x10 * (v / 0x1000) + v / 0x100 % 0x10;
  }

  predicate HighSurrogate(v: nat) { 0xD800 <= v <= 0xDBFF }

  predicate LowSurrogate(v: nat) { 0xDC00 <= v <= 0xDFFF }

  function Combine(hi: nat, lo: nat): Rune
    requires HighSurrogate(hi) && LowSurrogate(lo)
  {
    0x10000 + 0x400 * (hi - 0xD800) + (lo - 0xDC00)
  }

  // ---------------------------------------------------------------------
  // Reading a body, one unit at a time
  // ---------------------------------------------------------------------

  /** What one unit of a body stands for; only a Scalar decodes as it is. */
  datatype Part = Scalar(r: Rune) | LoneSurrogate | BadByte

  function ShortEscape(b: Byte): Option<Rune> {
    if b == QUOTE || b == BACKSLASH || b == 0x2F then Some(b)
    else if b == 0x62 then Some(0x08)
    else if b == 0x66 then Some(0x0C)
    else if b == 0x6E then Some(0x0A)
    else if b == 0x72 then Some(0x0D)
    else if b == 0x74 then Some(0x09)
    else None
  }

  /** The unit at the start of b and its width; None where JSON allows none. */
  function Next(b: Bytes): (p: Option<(Part, nat)>)
    ensures p.Some? ==> 1 <= p.value.1 <= |b|
  {
    if b == [] || b[0] == QUOTE || b[0] < 0x20 then None
    else if b[0] == BACKSLASH then
      if |b| >= 2 && ShortEscape(b[1]).Some? then Some((Scalar(ShortEscape(b[1]).value), 2))
      else
        match HexEscape(b)
        case None => None
        case Some(v) =>
          if !HighSurrogate(v) && !LowSurrogate(v) then Some((Scalar(v), 6))
          else if HighSurrogate(v) && HexEscape(b[6..]).Some? && LowSurrogate(HexEscape(b[6..]).value) then
            Some((Scalar(Combine(v, HexEscape(b[6..]).value)), 12))
          else Some((LoneSurrogate, 6))
    else
      match Decode(b)
      case None => Some((BadByte, 1))
      case Some((r, n)) => Some((Scalar(r), n))
  }

  predicate IsBody(b: Bytes) {
    b == [] || (Next(b).Some? && IsBody(b[Next(b).value.1..]))
  }

  /** Decodes a body as the JSON decoder does, repairing what it must. */
  function Unquote(b: Bytes): Text {
    if b == [] || Next(b) == None then []
    else
      var (p, n) := Next(b).value;
      [if p.Scalar? then p.r else REPLACEMENT] + Unquote(b[n..])
  }

  /** Decodes a body that needs no repair. */
  function Strict(b: Bytes): Option<Text> {
    if b == [] then Some([])
    else if Next(b) == None || !Next(b).value.0.Scalar? then None
    else
      var (p, n) := Next(b).value;
      match Strict(b[n..])
      case None => None
      case Some(t) => Some([p.r] + t)
  }

  /** A body that needs no repair decodes to what it says. */
  lemma {:induction false} StrictIsUnquoted(b: Bytes)
    requires Strict(b).Some?
    ensures IsBody(b) && Unquote(b) == Strict(b).value
  {
    if b != [] {
      StrictIsUnquoted(b[Next(b).value.1..]);
    }
  }

  /** The length of the body at the start of b, up to its closing quote. */
  function Scan(b: Bytes): (n: Option<nat>)
    ensures n.Some? ==> n.value < |b| && b[n.value] == QUOTE
  {
    if b == [] then None
    else if b[0] == QUOTE then Some(0)
    else if Next(b) == None then None
    else
      var w := Next(b).value.1;
      match Scan(b[w..])
      case None => None
      case Some(n) => Some(w + n)
  }

  /** A unit is read the same when a quote, or nothing, follows the body. */
  lemma NextBeforeQuote(b: Bytes, rest: Bytes)
    requires Next(b).Some? && (rest == [] || rest[0] == QUOTE)
    ensures Next(b + rest) == Next(b)
  {
    var c := b + rest;
    if b[0] == BACKSLASH {
      assert |b| >= 2 && c[1] == b[1];
      if ShortEscape(b[1]).None? {
        assert c[6..] == b[6..] + rest;
        HexEscapeBeforeQuote(b[6..], rest);
      }
    } else if Decode(b).Some? {
      DecodePrefix(b, rest);
    } else {
      DecodeStaysInvalid(b, rest);
    }
  }

  lemma HexEscapeBeforeQuote(b: Bytes, rest: Bytes)
    requires rest == [] || rest[0] == QUOTE
    ensures HexEscape(b + rest) == HexEscape(b)
  {
    if rest == [] {
      assert b + rest == b;
    } else if |b| < 6 {
      assert (b + rest)[|b|] == QUOTE;
    }
  }

  lemma DecodeStaysInvalid(b: Bytes, rest: Bytes)
    requires b != [] && Decode(b) == None && (rest == [] || rest[0] < 0x80)
    ensures Decode(b + rest) == None
  {
    if rest == [] {
      assert b + rest == b;
    } else {
      assert (b + rest)[|b|] == rest[0];
    }
  }

  lemma {:induction false} ScanBody(b: Bytes, rest: Bytes)
    requires IsBody(b)
    ensures Scan(b + [QUOTE] + rest) == Some(|b|)
  {
    var c := b + ([QUOTE] + rest);
    assert b + [QUOTE] + rest == c;
    if b != [] {
      var n := Next(b).value.1;
      NextBeforeQuote(b, [QUOTE] + rest);
      assert c[n..] == b[n..] + [QUOTE] + rest;
      ScanBody(b[n..], rest);
      ScanOn(c, n, |b[n..]|);
    }
  }

  lemma ScanOn(c: Bytes, w: nat, n: nat)
    requires Next(c).Some? && Next(c).value.1 == w && Scan(c[w..]) == Some(n)
    ensures Scan(c) == Some(w + n)
  {}

  // ---------------------------------------------------------------------
  // The canonical writer
  // ---------------------------------------------------------------------

  function Escape(r: Rune): (b: Bytes)
    ensures |b| >= 1
  {
    if r == QUOTE then [BACKSLASH, QUOTE]
    else if r == BACKSLASH then [BACKSLASH, BACKSLASH]
    else if r == 0x08 then [BACKSLASH, 0x62]
    else if r == 0x0C then [BACKSLASH, 0x66]
    else if r == 0x0A then [BACKSLASH, 0x6E]
    else if r == 0x0D then [BACKSLASH, 0x72]
    else if r == 0x09 then [BACKSLASH, 0x74]
    else if r < 0x20 then UnicodeEscape(r)
    else Encode(r)
  }

  function EscapeAll(t: Text): Bytes {
    if t == [] then [] else Escape(t[0]) + EscapeAll(t[1..])
  }

  lemma NextEscaped(r: Rune, rest: Bytes)
    ensures Next(Escape(r) + rest) == Some((Scalar(r), |Escape(r)|))
    ensures (Escape(r) + rest)[|Escape(r)|..] == rest
  {
    if r < 0x20 && UnicodeEscape(r) == Escape(r) {
      HexEscapeOf(r, rest);
    } else if r < 0x20 || r == QUOTE || r == BACKSLASH {
      ShortEscaped(Escape(r), rest);
    } else {
      DecodeEncoded(r, rest);
      PlainRune(r, rest);
    }
  }

  lemma ShortEscaped(e: Bytes, rest: Bytes)
    requires |e| == 2 && e[0] == BACKSLASH && ShortEscape(e[1]).Some?
    ensures Next(e + rest) == Some((Scalar(ShortEscape(e[1]).value), 2))
    ensures (e + rest)[2..] == rest
  {}

  lemma PlainRune(r: Rune, rest: Bytes)
    requires r >= 0x20 && r != QUOTE && r != BACKSLASH
    requires Decode(Encode(r) + rest) == Some((r, |Encode(r)|))
    ensures Next(Encode(r) + rest) == Some((Scalar(r), |Encode(r)|))
  {
    assert (Encode(r) + rest)[0] == Encode(r)[0];
  }

  /** What the writer prints of a text, the strict decoder reads back. */
  lemma {:induction false} StrictEscaped(t: Text)
    ensures Strict(EscapeAll(t)) == Some(t)
  {
    if t != [] {
      NextEscaped(t[0], EscapeAll(t[1..]));
      StrictEscaped(t[1..]);
      assert [t[0]] + t[1..] == t;
    }
  }

  /** The writer is injective over all texts. */
  lemma EscapeAllInjective(s: Text, t: Text)
    requires EscapeAll(s) == EscapeAll(t)
    ensures s == t
  {
    StrictEscaped(s);
    StrictEscaped(t);
  }

  // ---------------------------------------------------------------------
  // The well-formedness check
  // ---------------------------------------------------------------------

  /** Every surrogate escape from here on is the first half of a pair. */
  predicate Paired(b: Bytes) {
    if b == [] then true
    else if b[0] != BACKSLASH then Paired(b[1..])
    else
      match HexEscape(b)
      case None => |b| < 2 || Paired(b[2..])
      case Some(hi) =>
        if !HighSurrogate(hi) && !LowSurrogate(hi) then Paired(b[6..])
        else
          && HighSurrogate(hi)
          && HexEscape(b[6..]).Some?
          && LowSurrogate(HexEscape(b[6..]).value)
          && Paired(b[6..][6..])
  }

  /** Scans a literal for what the JSON decoder would silently repair. */
  method WellFormed(raw: Bytes) returns (ok: bool)
    ensures ok <==> Valid(raw) && Paired(raw)
  {
    if !Valid(raw) {
      return false;
    }
    var i := 0;
    while i < |raw|
      invariant 0 <= i
      invariant i <= |raw| ==> Paired(raw) == Paired(raw[i..])
      invariant i > |raw| ==> Paired(raw)
      decreases |raw| - i
    {
      if raw[i] != BACKSLASH {
        assert raw[i..][1..] == raw[i + 1..];
        i := i + 1;
        continue;
      }
      var hi := HexEscape(raw[i..]);
      if hi == None {
        if i + 2 <= |raw| { assert raw[i..][2..] == raw[i + 2..]; }
        i := i + 2;
        continue;
      }
      assert raw[i..][6..] == raw[i + 6..];
      i := i + 6;
      if hi.value < 0xD800 || hi.value > 0xDFFF {
        continue;
      }
      var lo := HexEscape(raw[i..]);
      if hi.value > 0xDBFF || lo == None || lo.value < 0xDC00 || lo.value > 0xDFFF {
        return false;
      }
      assert raw[i..][6..] == raw[i + 6..];
      i := i + 6;
    }
    return true;
  }

  /**
   * On every literal, the check accepts exactly the bodies that decode
   * without a repair: its scan never falls out of step with the grammar.
   */
  lemma WellFormedIsStrict(body: Bytes)
    requires IsBody(body)
    ensures var raw := [QUOTE] + body + [QUOTE];
            (Valid(raw) && Paired(raw)) <==> Strict(body).Some?
  {
    var raw := [QUOTE] + body + [QUOTE];
    var tail := body + [QUOTE];
    assert raw == [QUOTE] + tail && raw[1..] == tail;
    ValidAfterAscii(QUOTE, tail);
    InStep(body);
  }

  lemma {:induction false} InStep(body: Bytes)
    requires IsBody(body)
    ensures (Valid(body + [QUOTE]) && Paired(body + [QUOTE])) <==> Strict(body).Some?
  {
    var b := body + [QUOTE];
    if body == [] {
      assert b[1..] == [];
    } else {
      var (p, n) := Next(body).value;
      NextBeforeQuote(body, [QUOTE]);
      assert b[n..] == body[n..] + [QUOTE];
      InStep(body[n..]);
      if body[0] == BACKSLASH {
        EscapeInStep(b, n);
      } else if p.Scalar? {
        PairedAfterRune(b, n);
      } else {
        assert !Valid(b);
      }
    }
  }

  /** Both scans step over an escape, or refuse a lone surrogate, together. */
  lemma EscapeInStep(b: Bytes, n: nat)
    requires b != [] && b[0] == BACKSLASH && Next(b).Some? && Next(b).value.1 == n
    ensures Valid(b) == Valid(b[n..])
    ensures Paired(b) == (Next(b).value.0.Scalar? && Paired(b[n..]))
  {
    if ShortEscape(b[1]).Some? {
      assert HexEscape(b) == None;
      ValidAfterAsciis(b, 2);
    } else {
      UnicodeEscapeInStep(b, n);
    }
  }

  lemma UnicodeEscapeInStep(b: Bytes, n: nat)
    requires HexEscape(b).Some? && Next(b).Some? && Next(b).value.1 == n && ShortEscape(b[1]).None?
    ensures Valid(b) == Valid(b[n..])
    ensures Paired(b) == (Next(b).value.0.Scalar? && Paired(b[n..]))
  {
    ValidAfterAsciis(b, 6);
    if n == 12 {
      assert b[6..][6..] == b[12..];
      ValidAfterAsciis(b[6..], 6);
    }
  }

  lemma {:induction false} ValidAfterAsciis(b: Bytes, n: nat)
    requires n <= |b| && forall i :: 0 <= i < n ==> b[i] < 0x80
    ensures Valid(b) == Valid(b[n..])
    decreases n
  {
    if n > 0 {
      ValidAfterAscii(b[0], b[1..]);
      assert b == [b[0]] + b[1..];
      ValidAfterAsciis(b[1..], n - 1);
      assert b[1..][n - 1..] == b[n..];
    } else {
      assert b[0..] == b;
    }
  }

  lemma PairedAfterRune(b: Bytes, n: nat)
    requires b != [] && b[0] != BACKSLASH && Decode(b).Some? && Decode(b).value.1 == n
    ensures Paired(b) == Paired(b[n..])
  {
    EncodeDecoded(b);
    assert forall i :: 0 <= i < n ==> b[i] == b[..n][i];
    PairedAfterPlain(b, n);
  }

  lemma {:induction false} PairedAfterPlain(b: Bytes, n: nat)
    requires n <= |b| && forall i :: 0 <= i < n ==> b[i] != BACKSLASH
    ensures Paired(b) == Paired(b[n..])
    decreases n
  {
    if n > 0 {
      PairedAfterPlain(b[1..], n - 1);
      assert b[1..][n - 1..] == b[n..];
    } else {
      assert b[0..] == b;
    }
  }
}
