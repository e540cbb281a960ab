/** UTF-8 as the scanner's regex engine reads it: a byte that starts no valid encoding reads as U+FFFD. */
module Utf8 {
  newtype Byte = b: int | 0 <= b < 256

  type Text = seq<Byte>

  type Rune = int

  const REPLACEMENT: Rune := 0xFFFD

  predicate IsScalar(r: Rune) {
    0 <= r < 0xD800 || 0xE000 <= r < 0x110000
  }

  /** A rune that is no scalar value is written as U+FFFD. */
  function Encode(r: Rune): (bs: seq<Byte>)
    ensures 1 <= |bs| <= 4
  {
    if !IsScalar(r) then [0xEF, 0xBF, 0xBD]
    else if r < 0x80 then [r as Byte]
    else if r < 0x800 then [(0xC0 + r / 0x40) as Byte, (0x80 + r % 0x40) as Byte]
    else if r < 0x10000 then [(0xE0 + r / 0x1000) as Byte, (0x80 + r / 0x40 % 0x40) as Byte, (0x80 + r % 0x40) as Byte]
    else [(0xF0 + r / 0x40000) as Byte, (0x80 + r / 0x1000 % 0x40) as Byte, (0x80 + r / 0x40 % 0x40) as Byte,
        (0x80 + r % 0x40) as Byte]
  }

  predicate Tail(t: seq<Byte>, i: nat) {
    i < |t| && 0x80 <= t[i] < 0xC0
  }

  datatype Read = Read(rune: Rune, width: nat)

  /** The rune at `i` and how many bytes it takes. */
  function Decode(t: seq<Byte>, i: nat): (r: Read)
    requires i < |t|
    ensures 1 <= r.width <= 4 && i + r.width <= |t|
  {
    var b := t[i] as int;
    var bad := Read(REPLACEMENT, 1);
    if b < 0x80 then Read(b, 1)
    else if 0xC2 <= b < 0xE0 && Tail(t, i + 1) then
      Read((b - 0xC0) * 0x40 + (t[i + 1] as int - 0x80), 2)
    else if 0xE0 <= b < 0xF0 && Tail(t, i + 1) && Tail(t, i + 2) then
      var r := (b - 0xE0) * 0x1000 + (t[i + 1] as int - 0x80) * 0x40 + (t[i + 2] as int - 0x80);
      if r >= 0x800 && IsScalar(r) then Read(r, 3) else bad
    else if 0xF0 <= b < 0xF5 && Tail(t, i + 1) && Tail(t, i + 2) && Tail(t, i + 3) then
      var r := (b - 0xF0) * 0x40000 + (t[i + 1] as int - 0x80) * 0x1000 + (t[i + 2] as int - 0x80) * 0x40
        + (t[i + 3] as int - 0x80);
      if r >= 0x10000 && IsScalar(r) then Read(r, 4) else bad
    else bad
  }

  /** The first two bytes of a longer encoding. */
  predicate Leads(t: seq<Byte>, i: nat, lo: Byte, hi: Byte, from: Byte, to: Byte) {
    i + 1 < |t| && lo <= t[i] <= hi && from <= t[i + 1] <= to
  }

  /** The well-formed byte sequences, as table 3-7 of the Unicode Standard lists them: just these are read as more
      than one byte, any other byte from 0x80 on as U+FFFD. */
  lemma ReadsWellFormed(t: seq<Byte>, i: nat)
    requires i < |t|
    ensures Decode(t, i).width == 2 <==> Leads(t, i, 0xC2, 0xDF, 0x80, 0xBF)
    ensures Decode(t, i).width == 3 <==>
      && i + 2 < |t| && 0x80 <= t[i + 2] <= 0xBF
      && (Leads(t, i, 0xE0, 0xE0, 0xA0, 0xBF) || Leads(t, i, 0xE1, 0xEC, 0x80, 0xBF)
          || Leads(t, i, 0xED, 0xED, 0x80, 0x9F) || Leads(t, i, 0xEE, 0xEF, 0x80, 0xBF))
    ensures Decode(t, i).width == 4 <==>
      && i + 3 < |t| && 0x80 <= t[i + 2] <= 0xBF && 0x80 <= t[i + 3] <= 0xBF
      && (Leads(t, i, 0xF0, 0xF0, 0x90, 0xBF) || Leads(t, i, 0xF1, 0xF3, 0x80, 0xBF)
          || Leads(t, i, 0xF4, 0xF4, 0x80, 0x8F))
    ensures Decode(t, i).width == 1 ==> Decode(t, i).rune == if t[i] < 0x80 then t[i] as int else REPLACEMENT
  {
  }

  lemma Digits2(a: int, b: int)
    requires 0 <= b < 0x40
    ensures (a * 0x40 + b) / 0x40 == a && (a * 0x40 + b) % 0x40 == b
  {
  }

  lemma Digits3(a: int, b: int, c: int)
    requires 0 <= b < 0x40 && 0 <= c < 0x40
    ensures var r := a * 0x1000 + b * 0x40 + c; r / 0x1000 == a && r / 0x40 % 0x40 == b && r % 0x40 == c
  {
    Digits2(a * 0x40 + b, c);
    Digits2(a, b);
  }

  lemma Digits4(a: int, b: int, c: int, d: int)
    requires 0 <= b < 0x40 && 0 <= c < 0x40 && 0 <= d < 0x40
    ensures var r := a * 0x40000 + b * 0x1000 + c * 0x40 + d;
      r / 0x40000 == a && r / 0x1000 % 0x40 == b && r / 0x40 % 0x40 == c && r % 0x40 == d
  {
    Digits3(a * 0x40 + b, c, d);
    Digits2(a, b);
  }

  lemma Slices(t: seq<Byte>, i: nat, w: nat)
    requires 1 <= w <= 4 && i + w <= |t|
    ensures w == 1 ==> t[i..i + w] == [t[i]]
    ensures w == 2 ==> t[i..i + w] == [t[i], t[i + 1]]
    ensures w == 3 ==> t[i..i + w] == [t[i], t[i + 1], t[i + 2]]
    ensures w == 4 ==> t[i..i + w] == [t[i], t[i + 1], t[i + 2], t[i + 3]]
  {
  }

  lemma Decoded3(t: seq<Byte>, i: nat)
    requires i < |t| && Decode(t, i).rune != REPLACEMENT && Decode(t, i).width == 3
    ensures IsScalar(Decode(t, i).rune) && [t[i], t[i + 1], t[i + 2]] == Encode(Decode(t, i).rune)
  {
    Digits3(t[i] as int - 0xE0, t[i + 1] as int - 0x80, t[i + 2] as int - 0x80);
  }

  lemma Decoded4(t: seq<Byte>, i: nat)
    requires i < |t| && Decode(t, i).rune != REPLACEMENT && Decode(t, i).width == 4
    ensures IsScalar(Decode(t, i).rune) && [t[i], t[i + 1], t[i + 2], t[i + 3]] == Encode(Decode(t, i).rune)
  {
    Digits4(t[i] as int - 0xF0, t[i + 1] as int - 0x80, t[i + 2] as int - 0x80, t[i + 3] as int - 0x80);
  }

  lemma Decoded2(t: seq<Byte>, i: nat)
    requires i < |t| && Decode(t, i).rune != REPLACEMENT && Decode(t, i).width <= 2
    ensures IsScalar(Decode(t, i).rune) && t[i..i + Decode(t, i).width] == Encode(Decode(t, i).rune)
  {
    Slices(t, i, Decode(t, i).width);
    if Decode(t, i).width == 2 {
      Digits2(t[i] as int - 0xC0, t[i + 1] as int - 0x80);
    }
  }

  /** What reads as any rune but U+FFFD is that rune's own bytes. */
  lemma DecodedIsEncoded(t: seq<Byte>, i: nat)
    requires i < |t| && Decode(t, i).rune != REPLACEMENT
    ensures IsScalar(Decode(t, i).rune)
    ensures t[i..i + Decode(t, i).width] == Encode(Decode(t, i).rune)
  {
    hide Decode, Encode, IsScalar;
    Slices(t, i, Decode(t, i).width);
    match Decode(t, i).width
    case 3 => Decoded3(t, i);
    case 4 => Decoded4(t, i);
    case _ => Decoded2(t, i);
  }

  lemma Encoded3(r: Rune, t: seq<Byte>, i: nat)
    requires IsScalar(r) && 0x800 <= r < 0x10000 && i + 3 <= |t| && [t[i], t[i + 1], t[i + 2]] == Encode(r)
    ensures Decode(t, i) == Read(r, 3)
  {
    Parts3(r);
  }

  lemma Encoded4(r: Rune, t: seq<Byte>, i: nat)
    requires IsScalar(r) && 0x10000 <= r && i + 4 <= |t| && [t[i], t[i + 1], t[i + 2], t[i + 3]] == Encode(r)
    ensures Decode(t, i) == Read(r, 4)
  {
    Parts4(r);
  }

  lemma Encoded2(r: Rune, t: seq<Byte>, i: nat)
    requires IsScalar(r) && r < 0x800 && i + |Encode(r)| <= |t| && t[i..i + |Encode(r)|] == Encode(r)
    ensures Decode(t, i) == Read(r, |Encode(r)|)
  {
    Slices(t, i, |Encode(r)|);
    assert r == r / 0x40 * 0x40 + r % 0x40;
  }

  lemma EncodedLength(r: Rune)
    requires IsScalar(r)
    ensures |Encode(r)| == if r < 0x80 then 1 else if r < 0x800 then 2 else if r < 0x10000 then 3 else 4
  {
  }

  /** A scalar's bytes read back as that scalar, whatever follows. */
  lemma EncodedDecodes(r: Rune, t: seq<Byte>, i: nat)
    requires IsScalar(r) && i <= |t| && Encode(r) <= t[i..]
    ensures i < |t| && Decode(t, i) == Read(r, |Encode(r)|)
  {
    hide Decode, Encode, IsScalar;
    var w := |Encode(r)|;
    assert t[i..i + w] == t[i..][..w] == Encode(r);
    EncodedLength(r);
    Slices(t, i, w);
    if r < 0x800 {
      Encoded2(r, t, i);
    } else if r < 0x10000 {
      Encoded3(r, t, i);
    } else {
      Encoded4(r, t, i);
    }
  }

  lemma Parts3(r: Rune)
    requires 0 <= r < 0x10000
    ensures r == r / 0x1000 * 0x1000 + r / 0x40 % 0x40 * 0x40 + r % 0x40 && 0 <= r / 0x1000 < 0x10
  {
    assert r / 0x40 / 0x40 == r / 0x1000;
  }

  lemma Parts4(r: Rune)
    requires 0 <= r < 0x110000
    ensures r == r / 0x40000 * 0x40000 + r / 0x1000 % 0x40 * 0x1000 + r / 0x40 % 0x40 * 0x40 + r % 0x40
        && 0 <= r / 0x40000 < 5
  {
    assert r / 0x40 / 0x40 == r / 0x1000;
    assert r / 0x1000 / 0x40 == r / 0x40000;
  }
}
