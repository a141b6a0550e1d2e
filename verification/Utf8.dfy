/** UTF-8, as Go's unicode/utf8 reads and writes it. */
module Utf8 {
  import opened Basics

  const REPLACEMENT: Rune := 0xFFFD

  function Encode(r: Rune): (b: Bytes)
    ensures 1 <= |b| <= 4
    ensures r < 0x80 ==> b == [r]
    ensures r >= 0x80 ==> forall i :: 0 <= i < |b| ==> b[i] >= 0x80
  {
    if r < 0x80 then [r]
    else if r < 0x800 then [0xC0 + r / 0x40, 0x80 + r % 0x40]
    else if r < 0x10000 then [0xE0 + r / 0x1000, 0x80 + r / 0x40 % 0x40, 0x80 + r % 0x40]
    else [0xF0 + r / 0x40000, 0x80 + r / 0x1000 % 0x40, 0x80 + r / 0x40 % 0x40, 0x80 + r % 0x40]
  }

  predicate Continues(b: Byte) {
    0x80 <= b <= 0xBF
  }

  /** The six bits a continuation byte carries. */
  function Six(b: Byte): int {
    b - 0x80
  }

  /** The rune at the start of b and its width; None for a byte that starts none. */
  function Decode(b: Bytes): (r: Option<(Rune, nat)>)
    ensures r.Some? ==> 1 <= r.value.1 <= |b| && r.value.1 <= 4
  {
    if b == [] then None
    else if b[0] < 0x80 then Some((b[0], 1))
    else if 0xC2 <= b[0] <= 0xDF && |b| >= 2 && Continues(b[1]) then
      Some((0x40 * (b[0] - 0xC0) + Six(b[1]), 2))
    else if 0xE0 <= b[0] <= 0xEF && |b| >= 3 && Continues(b[1]) && Continues(b[2])
         && (b[0] == 0xE0 ==> b[1] >= 0xA0) && (b[0] == 0xED ==> b[1] <= 0x9F) then
      Some((0x1000 * (b[0] - 0xE0) + 0x40 * Six(b[1]) + Six(b[2]), 3))
    else if 0xF0 <= b[0] <= 0xF4 && |b| >= 4 && Continues(b[1]) && Continues(b[2]) && Continues(b[3])
         && (b[0] == 0xF0 ==> b[1] >= 0x90) && (b[0] == 0xF4 ==> b[1] <= 0x8F) then
      Some((0x40000 * (b[0] - 0xF0) + 0x1000 * Six(b[1]) + 0x40 * Six(b[2]) + Six(b[3]), 4))
    else None
  }

  /** No byte of b starts an invalid sequence. */
  predicate Valid(b: Bytes) {
    b == [] || (Decode(b).Some? && Valid(b[Decode(b).value.1..]))
  }

  lemma Sextets(r: nat)
    ensures r == 0x40 * (r / 0x40) + r % 0x40
    ensures r / 0x40 == 0x40 * (r / 0x1000) + r / 0x40 % 0x40
    ensures r / 0x1000 == 0x40 * (r / 0x40000) + r / 0x1000 % 0x40
  {
    assert r / 0x40 / 0x40 == r / 0x1000;
    assert r / 0x1000 / 0x40 == r / 0x40000;
  }

  lemma DecodeEncoded(r: Rune, rest: Bytes)
    ensures Decode(Encode(r) + rest) == Some((r, |Encode(r)|))
    ensures (Encode(r) + rest)[|Encode(r)|..] == rest
  {
    Sextets(r);
    var e := Encode(r);
    assert forall i :: 0 <= i < |e| ==> (e + rest)[i] == e[i];
    DecodeJust(r);
    DecodePrefix(e, rest);
  }

  lemma DecodeJust(r: Rune)
    ensures Decode(Encode(r)) == Some((r, |Encode(r)|))
  {
    Sextets(r);
  }

  lemma OnlyDigits(r: nat, q: nat, s: nat)
    requires r == 0x40 * q + s && s < 0x40
    ensures r / 0x40 == q && r % 0x40 == s
  {}

  lemma EncodeDecoded(b: Bytes)
    requires Decode(b).Some?
    ensures b[..Decode(b).value.1] == Encode(Decode(b).value.0)
  {
    var (r, n) := Decode(b).value;
    if n == 2 {
      OnlyDigits(r, b[0] - 0xC0, Six(b[1]));
    } else if n == 3 {
      EncodeDecoded3(b, r);
    } else if n == 4 {
      EncodeDecoded4(b, r);
    }
  }

  lemma EncodeDecoded3(b: Bytes, r: Rune)
    requires Decode(b) == Some((r, 3))
    ensures b[..3] == Encode(r)
  {
    var q := 0x40 * (b[0] - 0xE0) + Six(b[1]);
    OnlyDigits(r, q, Six(b[2]));
    OnlyDigits(q, b[0] - 0xE0, Six(b[1]));
    Sextets(r);
  }

  lemma EncodeDecoded4(b: Bytes, r: Rune)
    requires Decode(b) == Some((r, 4))
    ensures b[..4] == Encode(r)
  {
    var p := 0x40 * (b[0] - 0xF0) + Six(b[1]);
    var q := 0x40 * p + Six(b[2]);
    OnlyDigits(r, q, Six(b[3]));
    OnlyDigits(q, p, Six(b[2]));
    OnlyDigits(p, b[0] - 0xF0, Six(b[1]));
    Sextets(r);
  }

  /** Decoding stops at the width it reports: later bytes do not matter. */
  lemma DecodePrefix(b: Bytes, rest: Bytes)
    requires Decode(b).Some?
    ensures Decode(b + rest) == Decode(b)
  {}

  lemma ValidAfterAscii(c: Byte, rest: Bytes)
    requires c < 0x80
    ensures Valid([c] + rest) == Valid(rest)
  {
    assert ([c] + rest)[1..] == rest;
  }
}
