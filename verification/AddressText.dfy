/** `hexcode` and `decodeAddress` of gps/libloc_api_50001/LocApiAdapter.cpp, each against what it undoes. */
module AddressText {
  import opened Common

  const ADDR_PREFIX: byte := 0x91

  type Digit = d: nat | d <= 9

  function DigitChar(d: Digit): char {
    '0' + d as char
  }

  // ----- swapped-nibble addresses

  /** The decimal digits in the nibbles of a row of bytes, low nibble first; other nibbles are skipped. */
  function Digits(data: seq<byte>): string {
    if data == [] then ""
    else Digits(data[..|data| - 1]) + ByteDigits(data[|data| - 1])
  }

  function ByteDigits(b: byte): string {
    (if b % 16 <= 9 then [DigitChar(b % 16)] else "") + (if b / 16 <= 9 then [DigitChar(b / 16)] else "")
  }

  function PairByte(low: nat, high: nat): byte
    requires low < 16 && high < 16
  {
    high * 16 + low
  }

  /** The semi-octet form of section 9.1.2.3 of 3GPP TS 23.040: two digits a byte, 0xF to fill up. */
  function SemiOctets(ds: seq<Digit>): seq<byte> {
    if ds == [] then []
    else if |ds| == 1 then [PairByte(ds[0], 0xF)]
    else [PairByte(ds[0], ds[1])] + SemiOctets(ds[2..])
  }

  function Encode(ds: seq<Digit>): seq<byte> {
    [ADDR_PREFIX] + SemiOctets(ds)
  }

  function Text(ds: seq<Digit>): (t: string)
    ensures |t| == |ds|
  {
    seq(|ds|, i requires 0 <= i < |ds| => DigitChar(ds[i]))
  }

  lemma {:induction false} DigitsConcat(a: seq<byte>, b: seq<byte>)
    ensures Digits(a + b) == Digits(a) + Digits(b)
  {
    if b == [] {
      assert a + b == a;
    } else {
      assert (a + b)[..|a + b| - 1] == a + b[..|b| - 1];
      DigitsConcat(a, b[..|b| - 1]);
    }
  }

  lemma PairDigits(low: Digit, high: nat)
    requires high < 16
    ensures ByteDigits(PairByte(low, high)) == [DigitChar(low)] + (if high <= 9 then [DigitChar(high)] else "")
  {
    assert PairByte(low, high) % 16 == low && PairByte(low, high) / 16 == high;
  }

  lemma DigitsOfOne(b: byte)
    ensures Digits([b]) == ByteDigits(b)
  {
  }

  lemma {:induction false} DigitsOfSemiOctets(ds: seq<Digit>)
    ensures Digits(SemiOctets(ds)) == Text(ds)
  {
    if |ds| == 1 {
      DigitsOfOne(PairByte(ds[0], 0xF));
      PairDigits(ds[0], 0xF);
    } else if |ds| > 1 {
      var b := PairByte(ds[0], ds[1]);
      DigitsConcat([b], SemiOctets(ds[2..]));
      DigitsOfSemiOctets(ds[2..]);
      DigitsOfOne(b);
      PairDigits(ds[0], ds[1]);
    }
  }

  lemma DigitChars(d: Digit)
    ensures DigitChar(d) == "0123456789"[d]
  {
  }

  /** Byte by byte: the digit that comes first in the low nibble, and 0xF where there is none. */
  lemma {:induction false} SemiOctetsAt(ds: seq<Digit>, i: nat)
    requires 2 * i < |ds|
    ensures i < |SemiOctets(ds)|
    ensures SemiOctets(ds)[i] as int == (ds[2 * i] as int) + 16 * (if 2 * i + 1 < |ds| then ds[2 * i + 1] as int else 0xF)
  {
    if i > 0 {
      SemiOctetsAt(ds[2..], i - 1);
    }
  }

  /** An address begins with 0x91 and has nothing else in it. */
  lemma {:induction false} EncodedIs(ds: seq<Digit>)
    ensures |Encode(ds)| == 1 + (|ds| + 1) / 2 && Encode(ds)[0] == 0x91
  {
    if |ds| > 1 {
      EncodedIs(ds[2..]);
    }
  }

  /** Anything that begins otherwise is not read. */
  lemma OtherPrefix(data: seq<byte>, size: int)
    requires data != [] && size >= 1
    ensures data[0] != 0x91 ==> Decoded(data, size) == ""
  {
  }

  /** The nibbles 0xA to 0xF are no digits. */
  lemma NibbleDigits(b: byte)
    ensures ByteDigits(b) ==
      (if b % 16 < 10 then ["0123456789"[b % 16]] else "") + (if b / 16 < 10 then ["0123456789"[b / 16]] else "")
  {
  }

  /** What a buffer of `size` characters has room for, with the terminator. */
  function Fitting(text: string, size: int): (fit: string)
    requires size >= 1
    ensures fit <= text && |fit| == Min(|text|, size - 1)
  {
    text[..Min(|text|, size - 1)]
  }

  /** The text `decodeAddress` leaves for these data bytes. */
  function Decoded(data: seq<byte>, size: int): string
    requires data != [] && size >= 1
  {
    if data[0] == ADDR_PREFIX then Fitting(Digits(data[1..]), size) else ""
  }

  /** Decoding undoes encoding, as far as the buffer reaches. */
  lemma DecodeEncoded(ds: seq<Digit>, size: int)
    requires size >= 1
    ensures Decoded(Encode(ds), size) == Text(ds[..Min(|ds|, size - 1)])
  {
    assert Encode(ds)[1..] == SemiOctets(ds);
    DigitsOfSemiOctets(ds);
    assert Text(ds)[..Min(|ds|, size - 1)] == Text(ds[..Min(|ds|, size - 1)]);
  }

  lemma FittingAppend(t: string, c: char, size: int)
    requires size >= 1
    ensures Fitting(t + [c], size) == if |Fitting(t, size)| < size - 1 then Fitting(t, size) + [c] else Fitting(t, size)
  {
  }

  /** One guarded write of the loop below; `sofar` is all the digits met before it. */
  method PutNibble(text: array<char>, size: int, nibble: nat, at: nat, ghost sofar: string) returns (n: nat)
    requires at < size <= text.Length && text[..at] == Fitting(sofar, size)
    modifies text
    ensures at <= n < size
    ensures text[..n] == Fitting(sofar + (if nibble <= 9 then [DigitChar(nibble)] else ""), size)
    ensures text[n..] == old(text[n..])
  {
    n := at;
    if nibble <= 9 {
      FittingAppend(sofar, DigitChar(nibble), size);
    } else {
      assert sofar + "" == sofar;
    }
    if nibble <= 9 && n < size - 1 {
      text[n] := DigitChar(nibble);
      n := n + 1;
    }
  }

  /** The body of the loop. */
  method PutByte(text: array<char>, size: int, ch: byte, at: nat, ghost sofar: string) returns (n: nat)
    requires at < size <= text.Length && text[..at] == Fitting(sofar, size)
    modifies text
    ensures at <= n < size && text[..n] == Fitting(sofar + ByteDigits(ch), size)
    ensures text[n..] == old(text[n..])
  {
    var low, hi := ch % 16, ch / 16;
    n := PutNibble(text, size, low, at, sofar);
    ghost var more := if low <= 9 then [DigitChar(low)] else "";
    assert (sofar + more) + (if hi <= 9 then [DigitChar(hi)] else "") == sofar + ByteDigits(ch);
    ghost var m, between := n, text[..];
    n := PutNibble(text, size, hi, n, sofar + more);
    assert between[n..] == between[m..][n - m..] == old(text[m..])[n - m..] == old(text[n..]);
  }

  method DecodeAddress(text: array?<char>, size: int, data: array?<byte>, count: int) returns (n: int)
    requires text != null ==> 1 <= size <= text.Length
    requires data != null ==> 1 <= data.Length && count <= data.Length
    modifies text
    ensures data == null || text == null ==> n == 0 && (text != null ==> text[..] == old(text[..]))
    ensures data != null && text != null ==>
      && 0 <= n < size
      && text[..n] == Decoded(data[..if count >= 1 then count else 1], size)
      && text[n] == '\0'
      && text[n + 1..] == old(text[n + 1..])
  {
    if data == null || text == null {
      return 0;
    }
    if data[0] != ADDR_PREFIX {
      text[0] := '\0';
      return 0;
    }
    n := 0;
    var i := 1;
    while i < count
      invariant 1 <= i && (i <= count || i == 1)
      invariant 0 <= n < size && text[..n] == Fitting(Digits(data[1..i]), size)
      invariant text[n..] == old(text[n..])
    {
      assert data[1..i + 1][..i - 1] == data[1..i];
      n := PutByte(text, size, data[i], n, Digits(data[1..i]));
      i := i + 1;
    }
    text[n] := '\0';
    assert data[..if count >= 1 then count else 1][1..] == data[1..i];
  }

  // ----- hex text

  function HexDigit(n: nat): char
    requires n < 16
  {
    if n < 10 then '0' + n as char else 'A' + (n - 10) as char
  }

  /**
   * The two characters snprintf(.., 3, "%02X", ch) leaves. Where char is signed, a byte from 0x80 on is
   * extended to an int and printed as FFFFFFxx, of which two characters fit.
   */
  function Hex2(b: byte, charSigned: bool): string {
    if charSigned && b >= 0x80 then "FF" else [HexDigit(b / 16), HexDigit(b % 16)]
  }

  function HexText(data: seq<byte>, charSigned: bool): (t: string)
    ensures |t| == 2 * |data|
  {
    seq(2 * |data|, i requires 0 <= i < 2 * |data| => Hex2(data[i / 2], charSigned)[i % 2])
  }

  function Nibble(c: char): (n: nat)
    ensures n < 16
  {
    if '0' <= c <= '9' then (c - '0') as nat else if 'A' <= c <= 'F' then 10 + (c - 'A') as nat else 0
  }

  /** The usual reading of hex text, two characters a byte. */
  function Unhex(t: string): seq<byte> {
    seq(|t| / 2, i requires 0 <= i < |t| / 2 => PairByte(Nibble(t[2 * i + 1]), Nibble(t[2 * i])))
  }

  /** The bytes whose text converts back: all of them where char is unsigned. */
  predicate Legible(b: byte, charSigned: bool) {
    charSigned ==> b < 0x80 || b == 0xFF
  }

  lemma Unhex2(b: byte, charSigned: bool)
    ensures var t := Hex2(b, charSigned);
      PairByte(Nibble(t[1]), Nibble(t[0])) == (if Legible(b, charSigned) then b else 0xFF)
  {
  }

  /** Converting back gives the data if and only if every byte is legible. */
  lemma {:induction false} UnhexHex(data: seq<byte>, charSigned: bool)
    ensures Unhex(HexText(data, charSigned)) == data <==> forall i :: 0 <= i < |data| ==> Legible(data[i], charSigned)
  {
    var t := HexText(data, charSigned);
    var back := Unhex(t);
    forall i | 0 <= i < |data|
      ensures back[i] == if Legible(data[i], charSigned) then data[i] else 0xFF
    {
      assert t[2 * i] == Hex2(data[i], charSigned)[0];
      assert t[2 * i + 1] == Hex2(data[i], charSigned)[1];
      Unhex2(data[i], charSigned);
    }
    if back == data {
      forall i | 0 <= i < |data| ensures Legible(data[i], charSigned) {
        assert back[i] == data[i];
      }
    }
  }

  /** Where char is signed, 0x80 is printed as FF. */
  lemma SignedSpoils()
    ensures HexText([0x80], true) == "FF" && Unhex(HexText([0x80], true)) == [0xFF] != [0x80]
  {
  }

  /** Two upper-case characters a byte, the high nibble first. */
  lemma HexChars(data: seq<byte>, i: nat)
    requires i < |data|
    ensures var t := HexText(data, false);
      t[2 * i] == "0123456789ABCDEF"[data[i] / 16] && t[2 * i + 1] == "0123456789ABCDEF"[data[i] % 16]
  {
    assert Hex2(data[i], false) == [HexDigit(data[i] / 16), HexDigit(data[i] % 16)];
  }

  lemma HexTextAppend(data: seq<byte>, b: byte, charSigned: bool)
    ensures HexText(data + [b], charSigned) == HexText(data, charSigned) + Hex2(b, charSigned)
  {
  }

  /** How many bytes a text buffer of `size` characters takes. */
  function Room(size: int): nat {
    if size < 3 then 0 else (size - 1) / 2
  }

  /** As many bytes as fit with the terminator. */
  lemma RoomIs(size: int, n: nat)
    ensures n <= Room(size) <==> n == 0 || 2 * n + 1 <= size
  {
  }

  /** Nothing is written from `size` on: the text and its terminator take 2 * n + 1 characters. */
  method Hexcode(text: array<char>, size: int, data: seq<byte>, count: int, charSigned: bool) returns (n: int)
    requires size <= text.Length && count <= |data|
    modifies text
    ensures n == Min(if count < 0 then 0 else count, Room(size))
    ensures n == 0 ==> text[..] == old(text[..])
    ensures n > 0 ==>
      && 2 * n < size
      && text[..2 * n] == HexText(data[..n], charSigned)
      && text[2 * n] == '\0'
      && text[2 * n + 1..] == old(text[2 * n + 1..])
  {
    hide HexText, Hex2;
    n := 0;
    while n < count
      invariant 0 <= n && (n <= count || n == 0) && n <= Room(size)
      invariant n == 0 ==> text[..] == old(text[..])
      invariant n > 0 ==>
        && 2 * n < size
        && text[..2 * n] == HexText(data[..n], charSigned)
        && text[2 * n] == '\0'
        && text[2 * n + 1..] == old(text[2 * n + 1..])
    {
      if n * 2 + 3 > size {
        break;
      }
      HexTextAppend(data[..n], data[n], charSigned);
      assert data[..n + 1] == data[..n] + [data[n]];
      PrintHex(text, n * 2, data[n], charSigned);
      n := n + 1;
    }
  }

  /** snprintf of one byte into three characters. */
  method PrintHex(text: array<char>, at: nat, b: byte, charSigned: bool)
    requires at + 3 <= text.Length
    modifies text
    ensures text[..at + 2] == old(text[..at]) + Hex2(b, charSigned)
    ensures text[at + 2] == '\0'
    ensures text[at + 3..] == old(text[at + 3..])
  {
    var two := Hex2(b, charSigned);
    text[at] := two[0];
    text[at + 1] := two[1];
    text[at + 2] := '\0';
  }
}
