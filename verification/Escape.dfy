/**
 * Making served text safe to show: what the two escapers write, an explicit
 * decoder for the first, and that neither leaves a control rune behind.
 */
module Escape {
  import opened Basics
  import opened Utf8
  import opened JsonText

  /** The format characters and variation selectors of the Unicode tables. */
  type Marks = m: set<Rune> | forall r <- m :: r >= 0x80 && r != REPLACEMENT witness {}

  /** A rune that could rewrite, break or hide the line it is shown in. */
  predicate IsControl(marks: Marks, r: Rune) {
    r < 0x20 || r == 0x7F || 0x80 <= r <= 0x9F || r == 0x2028 || r == 0x2029 || r in marks
  }

  /** Valid UTF-8 without a control rune. */
  predicate Clean(marks: Marks, b: Bytes) {
    b == [] || (Decode(b).Some? && !IsControl(marks, Decode(b).value.0) && Clean(marks, b[Decode(b).value.1..]))
  }

  // ---------------------------------------------------------------------
  // For a terminal or a log
  // ---------------------------------------------------------------------

  const LOWER_X: Byte := 0x78
  const UPPER_U: Byte := 0x55

  function Hex2(b: Byte): (h: Bytes)
    ensures |h| == 2 && forall x <- h :: 0x30 <= x < 0x7F
  {
    [HexDigit(b / 0x10), HexDigit(b % 0x10)]
  }

  function ByteEscape(b: Byte): Bytes {
    [BACKSLASH, LOWER_X] + Hex2(b)
  }

  function LongEscape(r: Rune): Bytes {
    [BACKSLASH, UPPER_U] + Hex4(r / 0x10000) + Hex4(r % 0x10000)
  }

  function ShowRune(marks: Marks, r: Rune): Bytes {
    if r == BACKSLASH then [BACKSLASH, BACKSLASH]
    else if !IsControl(marks, r) then Encode(r)
    else if r > 0xFFFF then LongEscape(r)
    else UnicodeEscape(r)
  }

  /** Any bytes, as one line of text. */
  function Printable(marks: Marks, s: Bytes): Bytes {
    if s == [] then []
    else
      match Decode(s)
      case None => ByteEscape(s[0]) + Printable(marks, s[1..])
      case Some((r, n)) => ShowRune(marks, r) + Printable(marks, s[n..])
  }

  /** How many bytes the first rune of s takes; a byte that starts none stands alone. */
  function Width(s: Bytes): (n: nat)
    requires s != []
    ensures 1 <= n <= |s|
  {
    if Decode(s) == None then 1 else Decode(s).value.1
  }

  function ShowFirst(marks: Marks, s: Bytes): Bytes
    requires s != []
  {
    match Decode(s)
    case None => ByteEscape(s[0])
    case Some((r, _)) => ShowRune(marks, r)
  }

  lemma PrintableStep(marks: Marks, s: Bytes, i: nat)
    requires i < |s|
    ensures var t := s[i..];
            i + Width(t) <= |s| && Printable(marks, t) == ShowFirst(marks, t) + Printable(marks, s[i + Width(t)..])
  {
    var t := s[i..];
    assert t[Width(t)..] == s[i + Width(t)..];
  }

  method WriteFirst(marks: Marks, s: Bytes) returns (b: Bytes, n: nat)
    requires s != []
    ensures b == ShowFirst(marks, s) && n == Width(s)
  {
    var d := Decode(s);
    if d == None {
      return [BACKSLASH, LOWER_X] + [HexDigit(s[0] / 0x10), HexDigit(s[0] % 0x10)], 1;
    }
    var r := d.value.0;
    n := d.value.1;
    if r == BACKSLASH {
      // Escaped so that text that spells out an escape is told from one that
      // carries it.
      b := [BACKSLASH, BACKSLASH];
    } else if IsControl(marks, r) {
      if r > 0xFFFF {
        b := LongEscape(r);
      } else {
        b := UnicodeEscape(r);
      }
    } else {
      b := Encode(r);
    }
  }

  lemma Regroup(a: Bytes, b: Bytes, c: Bytes)
    ensures a + (b + c) == a + b + c
  {}

  /** Writes a served string so that nothing in it reaches the terminal as it is. */
  method WritePrintable(marks: Marks, s: Bytes) returns (b: Bytes)
    ensures b == Printable(marks, s)
  {
    b := [];
    var i := 0;
    ghost var all, left := Printable(marks, s), Printable(marks, s);
    assert s[0..] == s;
    while i < |s|
      invariant i <= |s| && left == Printable(marks, s[i..]) && all == b + left
    {
      var piece, n := WriteFirst(marks, s[i..]);
      PrintableStep(marks, s, i);
      i := i + n;
      left := Printable(marks, s[i..]);
      Regroup(b, piece, left);
      b := b + piece;
    }
  }

  // ---------------------------------------------------------------------
  // Undoing it
  // ---------------------------------------------------------------------

  function HexAt(b: Bytes, i: nat): Option<nat> {
    if i < |b| then HexValue(b[i]) else None
  }

  /** The byte a \x escape at the start of b stands for. */
  function ReadByte(b: Bytes): (v: Option<Byte>) {
    if |b| < 4 || b[0] != BACKSLASH || b[1] != LOWER_X || HexAt(b, 2) == None || HexAt(b, 3) == None then None
    else Some(0x10 * HexAt(b, 2).value + HexAt(b, 3).value)
  }

  /** The rune a \U escape at the start of b stands for. */
  function ReadLong(b: Bytes): Option<Rune> {
    if |b| < 10 || b[0] != BACKSLASH || b[1] != UPPER_U then None
    else
      var hi := HexEscape([BACKSLASH, LOWER_U] + b[2..6]);
      var lo := HexEscape([BACKSLASH, LOWER_U] + b[6..10]);
      if hi == None || lo == None then None
      else
        var v := 0x10000 * hi.value + lo.value;
        if v <= 0x10FFFF && !(0xD800 <= v <= 0xDFFF) then Some(v) else None
  }

  function ReadShort(b: Bytes): Option<Rune> {
    var v := HexEscape(b);
    if v.Some? && !HighSurrogate(v.value) && !LowSurrogate(v.value) then Some(v.value) else None
  }

  /** Reads back the bytes that were shown. */
  function Unprint(b: Bytes): Bytes {
    if b == [] then []
    else if b[0] != BACKSLASH then [b[0]] + Unprint(b[1..])
    else if |b| >= 2 && b[1] == BACKSLASH then [BACKSLASH] + Unprint(b[2..])
    else if ReadByte(b).Some? then [ReadByte(b).value] + Unprint(b[4..])
    else if ReadShort(b).Some? then Encode(ReadShort(b).value) + Unprint(b[6..])
    else if ReadLong(b).Some? then Encode(ReadLong(b).value) + Unprint(b[10..])
    else [b[0]] + Unprint(b[1..])
  }

  lemma {:induction false} UnprintPlain(x: Bytes, rest: Bytes)
    requires BACKSLASH !in x
    ensures Unprint(x + rest) == x + Unprint(rest)
  {
    if x == [] {
      assert x + rest == rest;
    } else {
      assert (x + rest)[1..] == x[1..] + rest;
      UnprintPlain(x[1..], rest);
    }
  }

  lemma UnprintByte(v: Byte, rest: Bytes)
    ensures Unprint(ByteEscape(v) + rest) == [v] + Unprint(rest)
  {
    var b := ByteEscape(v) + rest;
    assert b[2] == Hex2(v)[0] && b[3] == Hex2(v)[1] && b[4..] == rest;
    assert ReadByte(b) == Some(v);
  }

  lemma UnprintShort(r: Rune, rest: Bytes)
    requires r <= 0xFFFF
    ensures Unprint(UnicodeEscape(r) + rest) == Encode(r) + Unprint(rest)
  {
    var b := UnicodeEscape(r) + rest;
    HexEscapeOf(r, rest);
    assert b[6..] == rest && b[1] == LOWER_U;
  }

  lemma LongHalves(r: Rune, rest: Bytes)
    ensures var b := LongEscape(r) + rest;
            b[1] == UPPER_U && b[2..6] == Hex4(r / 0x10000) && b[6..10] == Hex4(r % 0x10000) && b[10..] == rest
  {}

  lemma HexHalf(v: nat, h: Bytes)
    requires v < 0x10000 && h == Hex4(v)
    ensures HexEscape([BACKSLASH, LOWER_U] + h) == Some(v)
  {
    HexEscapeOf(v, []);
    assert UnicodeEscape(v) + [] == [BACKSLASH, LOWER_U] + h;
  }

  lemma ReadsHalves(b: Bytes, hi: nat, lo: nat, r: Rune)
    requires |b| >= 10 && b[0] == BACKSLASH && b[1] == UPPER_U
    requires HexEscape([BACKSLASH, LOWER_U] + b[2..6]) == Some(hi) && HexEscape([BACKSLASH, LOWER_U] + b[6..10]) == Some(lo)
    requires 0x10000 * hi + lo == r
    ensures ReadLong(b) == Some(r)
  {}

  lemma LongFront(r: Rune, rest: Bytes)
    ensures var b := LongEscape(r) + rest; |b| >= 10 && b[0] == BACKSLASH
  {}

  lemma LongIsRead(r: Rune, rest: Bytes)
    ensures ReadLong(LongEscape(r) + rest) == Some(r)
  {
    var b := LongEscape(r) + rest;
    LongFront(r, rest);
    LongHalves(r, rest);
    HexHalf(r / 0x10000, b[2..6]);
    HexHalf(r % 0x10000, b[6..10]);
    ReadsHalves(b, r / 0x10000, r % 0x10000, r);
  }

  lemma UnprintLong(r: Rune, rest: Bytes)
    ensures Unprint(LongEscape(r) + rest) == Encode(r) + Unprint(rest)
  {
    var b := LongEscape(r) + rest;
    LongHalves(r, rest);
    LongIsRead(r, rest);
    assert ReadByte(b) == None && ReadShort(b) == None && b[0] == BACKSLASH;
  }

  lemma EncodedIsPlain(r: Rune)
    requires r != BACKSLASH
    ensures BACKSLASH !in Encode(r)
  {}

  lemma UnprintRune(marks: Marks, r: Rune, rest: Bytes)
    ensures Unprint(ShowRune(marks, r) + rest) == Encode(r) + Unprint(rest)
  {
    if r == BACKSLASH {
      assert ([BACKSLASH, BACKSLASH] + rest)[2..] == rest;
    } else if !IsControl(marks, r) {
      EncodedIsPlain(r);
      UnprintPlain(Encode(r), rest);
    } else if r > 0xFFFF {
      UnprintLong(r, rest);
    } else {
      UnprintShort(r, rest);
    }
  }

  lemma FirstIsUndone(marks: Marks, s: Bytes, rest: Bytes)
    requires s != []
    ensures Unprint(ShowFirst(marks, s) + rest) == s[..Width(s)] + Unprint(rest)
  {
    match Decode(s)
    case None => UnprintByte(s[0], rest);
    case Some((r, n)) =>
      UnprintRune(marks, r, rest);
      EncodeDecoded(s);
  }

  /**
   * What is shown can be undone, whatever was served: bytes that are no UTF-8,
   * a genuine replacement character, text that spells out an escape.
   */
  lemma {:induction false} PrintableIsUndone(marks: Marks, s: Bytes)
    ensures Unprint(Printable(marks, s)) == s
    decreases |s|
  {
    if s != [] {
      var n := Width(s);
      PrintableIsUndone(marks, s[n..]);
      var first, shown := ShownParts(marks, s, n);
      BothUndone(first, shown, s, n);
    }
  }

  /** What is shown of s: its first rune or byte, and the rest. */
  lemma ShownParts(marks: Marks, s: Bytes, n: nat) returns (first: Bytes, shown: Bytes)
    requires s != [] && n == Width(s)
    ensures Printable(marks, s) == first + shown && shown == Printable(marks, s[n..])
    ensures Unprint(first + shown) == s[..n] + Unprint(shown)
  {
    first, shown := ShowFirst(marks, s), Printable(marks, s[n..]);
    PrintableAll(marks, s);
    FirstIsUndone(marks, s, shown);
  }

  lemma BothUndone(first: Bytes, shown: Bytes, s: Bytes, n: nat)
    requires n <= |s| && Unprint(shown) == s[n..] && Unprint(first + shown) == s[..n] + Unprint(shown)
    ensures Unprint(first + shown) == s
  {
    assert s[..n] + s[n..] == s;
  }

  lemma PrintableAll(marks: Marks, s: Bytes)
    requires s != []
    ensures Printable(marks, s) == ShowFirst(marks, s) + Printable(marks, s[Width(s)..])
  {
    assert s[0..] == s;
    PrintableStep(marks, s, 0);
  }

  /** Two strings that are shown alike are alike. */
  lemma PrintableInjective(marks: Marks, s: Bytes, t: Bytes)
    requires Printable(marks, s) == Printable(marks, t)
    ensures s == t
  {
    PrintableIsUndone(marks, s);
    PrintableIsUndone(marks, t);
  }

  lemma {:induction false} CleanAscii(marks: Marks, x: Bytes, rest: Bytes)
    requires Visible(x)
    ensures Clean(marks, x + rest) == Clean(marks, rest)
  {
    if x == [] {
      assert x + rest == rest;
    } else {
      var b := x + rest;
      assert b[1..] == x[1..] + rest && Decode(b) == Some((x[0], 1));
      CleanAscii(marks, x[1..], rest);
    }
  }

  lemma CleanRune(marks: Marks, r: Rune, rest: Bytes)
    requires !IsControl(marks, r)
    ensures Clean(marks, Encode(r) + rest) == Clean(marks, rest)
  {
    DecodeEncoded(r, rest);
  }

  lemma EscapesAreVisible(marks: Marks, r: Rune)
    ensures Visible(UnicodeEscape(r % 0x10000)) && Visible(LongEscape(r))
    ensures r == BACKSLASH || IsControl(marks, r) ==> Visible(ShowRune(marks, r))
  {
    var u, l := UnicodeEscape(r % 0x10000), LongEscape(r);
    forall i | 0 <= i < |u| ensures 0x20 <= u[i] < 0x7F { assert u[i] in u; }
    var hi, lo := Hex4(r / 0x10000), Hex4(r % 0x10000);
    forall i | 0 <= i < |l| ensures 0x20 <= l[i] < 0x7F {
      assert l[i] == BACKSLASH || l[i] == UPPER_U || l[i] in hi || l[i] in lo;
    }
  }

  lemma ByteEscapeIsVisible(b: Byte)
    ensures Visible(ByteEscape(b))
  {
    assert Hex2(b)[0] in Hex2(b) && Hex2(b)[1] in Hex2(b);
  }

  lemma FirstIsClean(marks: Marks, s: Bytes, rest: Bytes)
    requires s != []
    ensures Clean(marks, ShowFirst(marks, s) + rest) == Clean(marks, rest)
  {
    match Decode(s)
    case None =>
      ByteEscapeIsVisible(s[0]);
      CleanAscii(marks, ByteEscape(s[0]), rest);
    case Some((r, _)) =>
      if r == BACKSLASH || IsControl(marks, r) {
        EscapesAreVisible(marks, r);
        CleanAscii(marks, ShowRune(marks, r), rest);
      } else {
        CleanRune(marks, r, rest);
      }
  }

  /** Nothing shown is a control rune, or no rune at all. */
  lemma {:induction false} PrintableIsClean(marks: Marks, s: Bytes)
    ensures Clean(marks, Printable(marks, s))
  {
    if s != [] {
      var n := Width(s);
      PrintableAll(marks, s);
      PrintableIsClean(marks, s[n..]);
      FirstIsClean(marks, s, Printable(marks, s[n..]));
    }
  }
}
