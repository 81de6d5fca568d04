/** UTF-8 as Go's unicode/utf8 package reads and writes it (RFC 3629, section 3). */
module Utf8 {
  type Byte = b: int | 0 <= b < 256

  const NEWLINE: Byte := 10

  predicate Continuation(b: Byte) {
    0x80 <= b <= 0xBF
  }

  /** The second byte of a three- or four-byte rune: no overlong form, no surrogate, nothing above U+10FFFF. */
  predicate SecondByte(lead: Byte, b: Byte) {
    && Continuation(b)
    && (lead == 0xE0 ==> 0xA0 <= b) && (lead == 0xED ==> b <= 0x9F)
    && (lead == 0xF0 ==> 0x90 <= b) && (lead == 0xF4 ==> b <= 0x8F)
  }

  /** How many bytes the first rune of `text` takes; 0 when `text` does not begin with a rune. */
  function RuneWidth(text: seq<Byte>): (w: nat)
    ensures w <= 4 && w <= |text|
    ensures w > 0 ==> !Continuation(text[0]) && forall k :: 0 < k < w ==> Continuation(text[k])
  {
    if text == [] then 0
    else if text[0] < 0x80 then 1
    else if 0xC2 <= text[0] <= 0xDF then (if |text| >= 2 && Continuation(text[1]) then 2 else 0)
    else if 0xE0 <= text[0] <= 0xEF then
      (if |text| >= 3 && SecondByte(text[0], text[1]) && Continuation(text[2]) then 3 else 0)
    else if 0xF0 <= text[0] <= 0xF4 then
      (if |text| >= 4 && SecondByte(text[0], text[1]) && Continuation(text[2]) && Continuation(text[3]) then 4 else 0)
    else 0
  }

  lemma RuneWidthOfPrefix(text: seq<Byte>, rest: seq<Byte>)
    requires RuneWidth(text) > 0
    ensures RuneWidth(text + rest) == RuneWidth(text) == RuneWidth(text[..RuneWidth(text)])
  {
  }

  predicate WellFormed(text: seq<Byte>) {
    text == [] || (RuneWidth(text) > 0 && WellFormed(text[RuneWidth(text)..]))
  }

  /** A scalar value: any code point but a surrogate. */
  type Rune = r: int | 0 <= r < 0xD800 || 0xE000 <= r <= 0x10FFFF

  function Encode(r: Rune): seq<Byte> {
    if r < 0x80 then [r]
    else if r < 0x800 then [0xC0 + r / 64, 0x80 + r % 64]
    else if r < 0x10000 then [0xE0 + r / 64 / 64, 0x80 + r / 64 % 64, 0x80 + r % 64]
    else [0xF0 + r / 64 / 64 / 64, 0x80 + r / 64 / 64 % 64, 0x80 + r / 64 % 64, 0x80 + r % 64]
  }

  /** Six more bits of a code point. */
  function Shift(high: int, b: Byte): int {
    64 * high + (b - 0x80)
  }

  lemma ShiftSplits(high: int, b: Byte)
    requires Continuation(b)
    ensures Shift(high, b) / 64 == high && Shift(high, b) % 64 == b - 0x80
  {
  }

  function Decode(text: seq<Byte>): Rune
    requires RuneWidth(text) > 0
  {
    var w := RuneWidth(text);
    if w == 1 then text[0]
    else if w == 2 then Shift(text[0] - 0xC0, text[1])
    else if w == 3 then Shift(Shift(text[0] - 0xE0, text[1]), text[2])
    else Shift(Shift(Shift(text[0] - 0xF0, text[1]), text[2]), text[3])
  }

  lemma TwoBytesBack(text: seq<Byte>)
    requires RuneWidth(text) == 2
    ensures Encode(Decode(text)) == text[..2]
  {
    ShiftSplits(text[0] - 0xC0, text[1]);
  }

  lemma ThreeBytesBack(text: seq<Byte>)
    requires RuneWidth(text) == 3
    ensures Encode(Decode(text)) == text[..3]
  {
    ShiftSplits(text[0] - 0xE0, text[1]);
    ShiftSplits(Shift(text[0] - 0xE0, text[1]), text[2]);
  }

  lemma FourBytesBack(text: seq<Byte>)
    requires RuneWidth(text) == 4
    ensures Encode(Decode(text)) == text[..4]
  {
    var high := Shift(text[0] - 0xF0, text[1]);
    ShiftSplits(text[0] - 0xF0, text[1]);
    ShiftSplits(high, text[2]);
    ShiftSplits(Shift(high, text[2]), text[3]);
  }

  /** Writing out the rune that was read gives back the bytes it was read from. */
  lemma DecodeThenEncode(text: seq<Byte>)
    requires RuneWidth(text) > 0
    ensures Encode(Decode(text)) == text[..RuneWidth(text)]
  {
    match RuneWidth(text)
    case 2 => TwoBytesBack(text);
    case 3 => ThreeBytesBack(text);
    case 4 => FourBytesBack(text);
    case _ =>
  }

  /** Every scalar value is read back from its encoding, whatever follows it. */
  lemma EncodeThenDecode(r: Rune, rest: seq<Byte>)
    ensures RuneWidth(Encode(r) + rest) == |Encode(r)| && Decode(Encode(r) + rest) == r
  {
  }

  /** What utf8.RuneStart decides for `text[i]`, and the end of the text. */
  predicate Boundary(text: seq<Byte>, i: nat)
    requires i <= |text|
  {
    i == |text| || !Continuation(text[i])
  }

  lemma PartOfRune(text: seq<Byte>, i: nat)
    requires 0 < i < RuneWidth(text)
    ensures RuneWidth(text[..i]) == 0 && !Boundary(text, i)
  {
  }

  /** In well-formed text the boundaries are the places where one rune ends and the next begins. */
  lemma {:induction false} BoundaryIsBetweenRunes(text: seq<Byte>, i: nat)
    requires WellFormed(text) && i <= |text|
    ensures Boundary(text, i) <==> WellFormed(text[..i])
    ensures Boundary(text, i) ==> WellFormed(text[i..])
    decreases |text|
  {
    if i == 0 {
      assert text[i..] == text;
    } else {
      var w := RuneWidth(text);
      if i < w {
        PartOfRune(text, i);
      } else {
        BoundaryIsBetweenRunes(text[w..], i - w);
        assert text[w..][..i - w] == text[..i][w..];
        assert text[w..][i - w..] == text[i..];
        RuneWidthOfPrefix(text[..w], text[w..i]);
        assert text[..w] + text[w..i] == text[..i];
        assert RuneWidth(text[..w]) == w by { RuneWidthOfPrefix(text, []); }
      }
    }
  }

  lemma SliceIsWellFormed(text: seq<Byte>, i: nat, j: nat)
    requires WellFormed(text) && i <= j <= |text| && Boundary(text, i) && Boundary(text, j)
    ensures WellFormed(text[i..j])
  {
    BoundaryIsBetweenRunes(text, j);
    if i < j { BoundaryIsBetweenRunes(text[..j], i); }
    assert text[..j][i..] == text[i..j];
  }

  /** How many line breaks the text holds. */
  function Newlines(text: seq<Byte>): nat {
    multiset(text)[NEWLINE]
  }

  lemma NewlinesConcat(a: seq<Byte>, b: seq<Byte>)
    ensures Newlines(a + b) == Newlines(a) + Newlines(b)
  {
  }

  /** A rune counts one line break when it is the newline, and none otherwise. */
  lemma NewlinesOfRune(piece: seq<Byte>)
    requires piece != [] && RuneWidth(piece) == |piece|
    ensures Newlines(piece) == (if piece == [NEWLINE] then 1 else 0)
    ensures Newlines(piece[..|piece| - 1]) == 0
  {
    if |piece| > 1 {
      assert NEWLINE !in piece && NEWLINE !in piece[..|piece| - 1];
    } else {
      assert piece == [piece[0]] && piece[..0] == [];
    }
  }

  lemma NewlineIsOneByte(text: seq<Byte>)
    requires RuneWidth(text) > 0
    ensures Decode(text) == NEWLINE <==> text[..RuneWidth(text)] == [NEWLINE]
  {
    var piece := text[..RuneWidth(text)];
    assert piece[0] == text[0];
    if Decode(text) == NEWLINE {
      DecodeThenEncode(text);
      assert Encode(NEWLINE) == [NEWLINE];
    }
  }
}
