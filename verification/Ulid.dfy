/** Sortable identifiers: a 48-bit time and 80 random bits, written in Crockford's base 32. */
module Ulid {
  import opened Wrappers
  import opened Numerals
  import opened Bytes

  const ALPHABET := "0123456789ABCDEFGHJKMNPQRSTVWXYZ"

  datatype IdError = InvalidId

  /** The eight digits of five bytes. */
  function Block(b: seq<Byte>): (d: seq<nat>)
    requires |b| == 5
    ensures |d| == 8 && Below(32, d)
  {
    [Top5(b[0]), Span3(b[0], b[1]), Mid5(b[1]), Span1(b[1], b[2]), Span4(b[2], b[3]), Upper5(b[3]), Span2(b[3], b[4]), Low5(b[4])]
  }

  function Nums(b: seq<Byte>): (n: seq<nat>)
    ensures |n| == |b| && Below(256, n)
  {
    seq(|b|, i requires 0 <= i < |b| => Num(b[i]))
  }

  /** Five bytes cut into their groups. */
  lemma Cut(b0: nat, b1: nat, b2: nat, b3: nat, b4: nat)
    ensures b0 == b0 / 8 * 8 + b0 % 8
    ensures b1 == b1 / 64 * 64 + b1 % 64 / 2 * 2 + b1 % 2
    ensures b2 == b2 / 16 * 16 + b2 % 16
    ensures b3 == b3 / 128 * 128 + b3 % 128 / 4 * 4 + b3 % 4
    ensures b4 == b4 / 32 * 32 + b4 % 32
  {
  }

  lemma Joined(b0: nat, b1: nat, b2: nat, b3: nat, b4: nat, t0: nat, l0: nat, t1: nat, m1: nat, l1: nat, t2: nat, l2: nat,
               t3: nat, m3: nat, l3: nat, t4: nat, l4: nat)
    requires b0 == t0 * 8 + l0 && b1 == t1 * 64 + m1 * 2 + l1 && b2 == t2 * 16 + l2
    requires b3 == t3 * 128 + m3 * 4 + l3 && b4 == t4 * 32 + l4
    ensures ((((((((t0 * 32) + (l0 * 4 + t1)) * 32 + m1) * 32 + (l1 * 16 + t2)) * 32
              + (l2 * 2 + t3)) * 32 + m3) * 32 + (l3 * 8 + t4)) * 32) + l4
      == (((b0 * 256 + b1) * 256 + b2) * 256 + b3) * 256 + b4
  {
  }

  lemma BlockArithmetic(b0: nat, b1: nat, b2: nat, b3: nat, b4: nat)
    ensures ((((((((b0 / 8 * 32) + (b0 % 8 * 4 + b1 / 64)) * 32 + b1 % 64 / 2) * 32 + (b1 % 2 * 16 + b2 / 16)) * 32
              + (b2 % 16 * 2 + b3 / 128)) * 32 + b3 % 128 / 4) * 32 + (b3 % 4 * 8 + b4 / 32)) * 32) + b4 % 32
      == (((b0 * 256 + b1) * 256 + b2) * 256 + b3) * 256 + b4
  {
    Cut(b0, b1, b2, b3, b4);
    Joined(b0, b1, b2, b3, b4, b0 / 8, b0 % 8, b1 / 64, b1 % 64 / 2, b1 % 2, b2 / 16, b2 % 16, b3 / 128, b3 % 128 / 4, b3 % 4, b4 / 32, b4 % 32);
  }

  lemma BlockIsBytes(digits: seq<nat>, bytes: seq<nat>, b: seq<Byte>)
    requires |b| == 5 && Number(32, digits) == Number(256, bytes)
    ensures Number(32, digits + Block(b)) == Number(256, bytes + Nums(b))
  {
    hide Top5, Span3, Mid5, Span1, Span4, Upper5, Span2, Low5, Number;
    BlockArithmetic(Num(b[0]), Num(b[1]), Num(b[2]), Num(b[3]), Num(b[4]));
    SameBlock(Number(32, digits), Block(b), Nums(b), digits, bytes);
  }

  // ---- encoding ----

  /** The digits, five bytes at a time after the first. */
  function Digits(b: seq<Byte>): (d: seq<nat>)
    requires |b| == 16
    ensures |d| == 26 && Below(32, d)
  {
    [Top3(b[0]), Low5(b[0])] + Block(b[1..6]) + Block(b[6..11]) + Block(b[11..16])
  }

  function Text(d: seq<nat>): (t: string)
    requires Below(32, d)
    ensures |t| == |d|
  {
    seq(|d|, i requires 0 <= i < |d| => ALPHABET[d[i]])
  }

  /** The digits are those of the number the bytes write; the first ten are those of the first six. */
  lemma DigitsAreTheNumber(b: seq<Byte>)
    requires |b| == 16
    ensures Number(32, Digits(b)) == Number(256, Nums(b))
    ensures Number(32, Digits(b)[..10]) == Number(256, Nums(b[..6]))
  {
    hide Block, Top3, Low5, Nums;
    var d0 := [Top3(b[0]), Low5(b[0])];
    FirstByte(b[0]);
    JoinNums(b[..1], b[1..6]);
    JoinNums(b[..6], b[6..11]);
    JoinNums(b[..11], b[11..16]);
    assert b[..1] == [b[0]] && b[..1] + b[1..6] == b[..6] && b[..6] + b[6..11] == b[..11] && b[..11] + b[11..16] == b;
    hide Number;
    BlockIsBytes(d0, Nums(b[..1]), b[1..6]);
    BlockIsBytes(d0 + Block(b[1..6]), Nums(b[..6]), b[6..11]);
    BlockIsBytes(d0 + Block(b[1..6]) + Block(b[6..11]), Nums(b[..11]), b[11..16]);
    assert Digits(b)[..10] == d0 + Block(b[1..6]);
  }

  lemma JoinNums(a: seq<Byte>, b: seq<Byte>)
    ensures Nums(a + b) == Nums(a) + Nums(b)
  {
  }

  lemma FirstByte(b: Byte)
    ensures Number(32, [Top3(b), Low5(b)]) == Number(256, Nums([b]))
  {
    hide Top3, Low5;
    NumberAppend(32, [], Top3(b));
    NumberAppend(32, [Top3(b)], Low5(b));
    NumberAppend(256, [], Num(b));
    assert [] + [Top3(b)] == [Top3(b)] && [Top3(b)] + [Low5(b)] == [Top3(b), Low5(b)];
    assert Nums([b]) == [] + [Num(b)];
  }

  function Symbol(d: nat): char
    requires d < 32
  {
    ALPHABET[d]
  }

  lemma SpelledOut(b: seq<Byte>)
    requires |b| == 5
    ensures Text(Block(b)) == [
      Symbol(Top5(b[0])), Symbol(Span3(b[0], b[1])), Symbol(Mid5(b[1])), Symbol(Span1(b[1], b[2])),
      Symbol(Span4(b[2], b[3])), Symbol(Upper5(b[3])), Symbol(Span2(b[3], b[4])), Symbol(Low5(b[4]))]
  {
    hide Top5, Low5, Mid5, Upper5, Span3, Span1, Span4, Span2;
  }

  // The encoder, unrolled: every character from the one or two bytes it straddles.

  method EncodeFirst(b: array<Byte>, out: array<char>)
    requires b.Length == 16 && out.Length == 26
    modifies out
    ensures out[..2] == [Symbol(Top3(b[0])), Symbol(Low5(b[0]))] && out[2..] == old(out[2..])
  {
    out[0] := Symbol(Top3(b[0]));
    out[1] := Symbol(Low5(b[0]));
  }

  method EncodeTime(b: array<Byte>, out: array<char>)
    requires b.Length == 16 && out.Length == 26
    modifies out
    ensures out[..2] == old(out[..2]) && out[2..10] == Text(Block(b[1..6])) && out[10..] == old(out[10..])
  {
    hide Top5, Low5, Mid5, Upper5, Span3, Span1, Span4, Span2, Symbol, Block, Text;
    SpelledOut(b[1..6]);
    out[2] := Symbol(Top5(b[1]));
    out[3] := Symbol(Span3(b[1], b[2]));
    out[4] := Symbol(Mid5(b[2]));
    out[5] := Symbol(Span1(b[2], b[3]));
    out[6] := Symbol(Span4(b[3], b[4]));
    out[7] := Symbol(Upper5(b[4]));
    out[8] := Symbol(Span2(b[4], b[5]));
    out[9] := Symbol(Low5(b[5]));
  }

  method EncodeMiddle(b: array<Byte>, out: array<char>)
    requires b.Length == 16 && out.Length == 26
    modifies out
    ensures out[..10] == old(out[..10]) && out[10..18] == Text(Block(b[6..11])) && out[18..] == old(out[18..])
  {
    hide Top5, Low5, Mid5, Upper5, Span3, Span1, Span4, Span2, Symbol, Block, Text;
    SpelledOut(b[6..11]);
    out[10] := Symbol(Top5(b[6]));
    out[11] := Symbol(Span3(b[6], b[7]));
    out[12] := Symbol(Mid5(b[7]));
    out[13] := Symbol(Span1(b[7], b[8]));
    out[14] := Symbol(Span4(b[8], b[9]));
    out[15] := Symbol(Upper5(b[9]));
    out[16] := Symbol(Span2(b[9], b[10]));
    out[17] := Symbol(Low5(b[10]));
  }

  method EncodeLast(b: array<Byte>, out: array<char>)
    requires b.Length == 16 && out.Length == 26
    modifies out
    ensures out[..18] == old(out[..18]) && out[18..26] == Text(Block(b[11..16])) && out[26..] == old(out[26..])
  {
    hide Top5, Low5, Mid5, Upper5, Span3, Span1, Span4, Span2, Symbol, Block, Text;
    SpelledOut(b[11..16]);
    out[18] := Symbol(Top5(b[11]));
    out[19] := Symbol(Span3(b[11], b[12]));
    out[20] := Symbol(Mid5(b[12]));
    out[21] := Symbol(Span1(b[12], b[13]));
    out[22] := Symbol(Span4(b[13], b[14]));
    out[23] := Symbol(Upper5(b[14]));
    out[24] := Symbol(Span2(b[14], b[15]));
    out[25] := Symbol(Low5(b[15]));
  }

  method EncodeUlid(b: array<Byte>) returns (id: string)
    requires b.Length == 16
    ensures id == Text(Digits(b[..]))
  {
    hide Block, Text, Symbol, Digits;
    var out := new char[26];
    EncodeFirst(b, out);
    EncodeTime(b, out);
    ghost var ten := out[..10];
    assert ten == out[..2] + out[2..10];
    EncodeMiddle(b, out);
    assert out[..10] == ten;
    ghost var eighteen := out[..18];
    assert eighteen == ten + out[10..18];
    EncodeLast(b, out);
    assert out[..18] == eighteen;
    id := out[..];
    assert id == eighteen + out[18..26];
    TextInParts(b[..]);
    assert b[..][1..6] == b[1..6] && b[..][6..11] == b[6..11] && b[..][11..16] == b[11..16];
  }

  lemma TextInParts(b: seq<Byte>)
    requires |b| == 16
    ensures Text(Digits(b))
      == [Symbol(Top3(b[0])), Symbol(Low5(b[0]))] + Text(Block(b[1..6])) + Text(Block(b[6..11])) + Text(Block(b[11..16]))
  {
    hide Block, Top3, Low5;
  }

  // ---- decoding ----

  const UNKNOWN := 0xFF

  /** What the first `n` letters give a character, in upper or lower case. */
  function LetterValue(c: nat, n: nat): nat
    requires n <= 32
  {
    if n == 0 then UNKNOWN
    else
      var letter := ALPHABET[n - 1];
      if c == letter as nat || ('A' <= letter <= 'Z' && c == letter as nat + 32) then n - 1 else LetterValue(c, n - 1)
  }

  /** The value of a character: a letter's place, or what it stands in for. */
  function Decoded(c: nat): nat {
    if c == 'o' as nat || c == 'O' as nat then 0
    else if c == 'i' as nat || c == 'I' as nat || c == 'l' as nat || c == 'L' as nat then 1
    else if c < 256 then LetterValue(c, 32)
    else UNKNOWN
  }

  lemma AlphabetRises()
    ensures forall i :: 0 <= i < 31 ==> ALPHABET[i] < ALPHABET[i + 1]
    ensures forall i :: 0 <= i < 32 ==> '0' <= ALPHABET[i] <= 'Z'
  {
  }

  lemma {:induction false} AlphabetIsOrdered(i: nat, j: nat)
    requires i < j < 32
    ensures ALPHABET[i] < ALPHABET[j]
  {
    AlphabetRises();
    if i + 1 < j {
      AlphabetIsOrdered(i, j - 1);
    }
  }

  lemma {:induction false} LetterIsFound(v: nat, n: nat)
    requires v < n <= 32
    ensures LetterValue(ALPHABET[v] as nat, n) == v
  {
    AlphabetRises();
    hide ALPHABET;
    if v < n - 1 {
      AlphabetIsOrdered(v, n - 1);
      LetterIsFound(v, n - 1);
    }
  }

  lemma NotStandIns(v: nat)
    requires v < 32
    ensures ALPHABET[v] != 'O' && ALPHABET[v] != 'I' && ALPHABET[v] != 'L' && ALPHABET[v] <= 'Z'
  {
  }

  /** Decoding undoes encoding, digit by digit. */
  lemma DecodesSymbol(v: nat)
    requires v < 32
    ensures Decoded(Symbol(v) as nat) == v
  {
    NotStandIns(v);
    LetterIsFound(v, 32);
    hide ALPHABET, LetterValue;
  }

  /** A digit for itself; then the letters of either case in order, leaving out I, L, O and U, of which the
      first two stand for one and the third for zero. */
  function Meaning(c: nat): nat {
    if '0' as nat <= c <= '9' as nat then c - '0' as nat
    else
      var l := if 'a' as nat <= c <= 'z' as nat then c - 32 else c;
      if l == 'O' as nat then 0
      else if l == 'I' as nat || l == 'L' as nat then 1
      else if l == 'U' as nat || l < 'A' as nat || l > 'Z' as nat then UNKNOWN
      else
        var left := (if l > 'I' as nat then 1 else 0) + (if l > 'L' as nat then 1 else 0)
                    + (if l > 'O' as nat then 1 else 0) + (if l > 'U' as nat then 1 else 0);
        10 + (l - 'A' as nat) - left
  }

  predicate Spells(c: nat, v: nat)
    requires v < 32
  {
    c == ALPHABET[v] as nat || ('A' <= ALPHABET[v] <= 'Z' && c == ALPHABET[v] as nat + 32)
  }

  lemma {:induction false} LetterSpells(c: nat, n: nat)
    requires n <= 32
    ensures var v := LetterValue(c, n);
      if v == UNKNOWN then forall k: nat :: k < n ==> !Spells(c, k) else v < n && Spells(c, v)
  {
    hide ALPHABET;
    if n > 0 {
      LetterSpells(c, n - 1);
    }
  }

  lemma DigitSpelled(c: nat, v: nat)
    requires v < 10 && Spells(c, v)
    ensures Meaning(c) == v
  {
  }

  lemma LetterSpelled(c: nat, v: nat)
    requires 10 <= v < 32 && Spells(c, v)
    ensures Meaning(c) == v
  {
    LetterAt(v);
    hide ALPHABET;
  }

  /** The letters of the alphabet, by their places. */
  lemma LetterAt(v: nat)
    requires 10 <= v < 32
    ensures ALPHABET[v] as nat
      == 'A' as nat + v - 10 + (if v < 18 then 0 else if v < 20 then 1 else if v < 22 then 2 else if v < 27 then 3 else 4)
  {
  }

  lemma MeaningSpells(c: nat)
    ensures var l := if 'a' as nat <= c <= 'z' as nat then c - 32 else c;
      Meaning(c) != UNKNOWN && l != 'O' as nat && l != 'I' as nat && l != 'L' as nat ==> Meaning(c) < 32 && Spells(c, Meaning(c))
  {
    if 10 <= Meaning(c) < 32 {
      LetterAt(Meaning(c));
      hide ALPHABET;
    }
  }

  /** What every character of an identifier stands for. */
  lemma CharactersMean(c: nat)
    ensures Decoded(c) == Meaning(c)
  {
    LetterSpells(c, 32);
    MeaningSpells(c);
    var v := LetterValue(c, 32);
    hide Spells, LetterValue, ALPHABET;
    if v < 10 {
      DigitSpelled(c, v);
    } else if v != UNKNOWN {
      LetterSpelled(c, v);
    }
  }

  method BuildDecoding() returns (t: array<nat>)
    ensures t.Length == 256 && forall c :: 0 <= c < 256 ==> t[c] == Decoded(c)
  {
    t := new nat[256];
    for i := 0 to 256
      invariant forall c :: 0 <= c < i ==> t[c] == UNKNOWN
    {
      t[i] := UNKNOWN;
    }
    AlphabetRises();
    hide ALPHABET;
    for i := 0 to 32
      invariant forall c :: 0 <= c < 256 ==> t[c] == LetterValue(c, i)
    {
      var c := ALPHABET[i];
      t[c as nat] := i;
      if 'A' <= c <= 'Z' {
        t[c as nat + 32] := i;
      }
    }
    t['o' as nat], t['O' as nat] := 0, 0;
    t['i' as nat], t['I' as nat], t['l' as nat], t['L' as nat] := 1, 1, 1, 1;
  }

  function Value(d: array<nat>, c: char): nat
    requires d.Length == 256
    reads d
  {
    if c as int < 256 then d[c as int] else UNKNOWN
  }

  predicate Readable(body: string) {
    forall i :: 0 <= i < |body| ==> Decoded(body[i] as nat) != UNKNOWN
  }

  method Validate(d: array<nat>, prefix: string, id: string) returns (ok: bool)
    requires d.Length == 256 && forall c :: 0 <= c < 256 ==> d[c] == Decoded(c)
    ensures ok <==> exists body :: id == prefix + "_" + body && |body| == 26 && Readable(body)
  {
    hide Decoded;
    var want := prefix + "_";
    if !(|want| <= |id| && id[..|want|] == want) {
      assert forall body :: id == prefix + "_" + body ==> id[..|want|] == want;
      return false;
    }
    var body := id[|want|..];
    assert id == prefix + "_" + body;
    assert forall other :: id == prefix + "_" + other ==> other == body by {
      forall other | id == prefix + "_" + other ensures other == body {
        assert (want + other)[|want|..] == other;
      }
    }
    if |body| != 26 {
      return false;
    }
    for i := 0 to |body|
      invariant Readable(body[..i])
    {
      WideIsUnknown(body[i]);
      if Value(d, body[i]) == UNKNOWN {
        assert !Readable(body);
        return false;
      }
    }
    assert body[..|body|] == body;
    return true;
  }

  lemma WideIsUnknown(c: char)
    ensures c as int >= 256 ==> Decoded(c as nat) == UNKNOWN
  {
  }

  // ---- new identifiers and their times ----

  const TWO_48: nat := 0x1_0000_0000_0000
  const TWO_64: nat := 0x1_0000_0000_0000_0000

  /** Milliseconds as an unsigned 64-bit number. */
  function Unsigned(ms: int): nat { ms % TWO_64 }

  /** The byte that is left at the bottom when `unit` is shifted out. */
  function ByteAt(u: nat, unit: nat): (b: Byte)
    requires unit > 0
    ensures Num(b) == u / unit % 256
  {
    ToByte(u / unit % 256)
  }

  function TimeBytes(ms: int): (b: seq<Byte>)
    ensures |b| == 6
  {
    var u := Unsigned(ms);
    [ByteAt(u, 0x100_0000_0000), ByteAt(u, 0x1_0000_0000), ByteAt(u, 0x100_0000), ByteAt(u, 0x1_0000), ByteAt(u, 0x100), ByteAt(u, 1)]
  }

  /** Identifiers made at `ms` with the given random bytes. */
  function NewUlid(ms: int, entropy: seq<Byte>): string
    requires |entropy| == 10
  {
    Text(Digits(TimeBytes(ms) + entropy))
  }

  function New(prefix: string, ms: int, entropy: seq<Byte>): string
    requires |entropy| == 10
  {
    prefix + "_" + NewUlid(ms, entropy)
  }

  method MakeUlid(ms: int, entropy: seq<Byte>) returns (id: string)
    requires |entropy| == 10
    ensures id == NewUlid(ms, entropy)
  {
    hide Digits, Text, ByteAt, Num;
    var b := new Byte[16];
    var u := Unsigned(ms);
    b[0] := ByteAt(u, 0x100_0000_0000);
    b[1] := ByteAt(u, 0x1_0000_0000);
    b[2] := ByteAt(u, 0x100_0000);
    b[3] := ByteAt(u, 0x1_0000);
    b[4] := ByteAt(u, 0x100);
    b[5] := ByteAt(u, 1);
    ghost var head := b[..6];
    assert head == TimeBytes(ms);
    hide TimeBytes;
    for i := 0 to 10
      invariant b[..6] == head && forall k :: 0 <= k < i ==> b[6 + k] == entropy[k]
    {
      b[6 + i] := entropy[i];
    }
    assert b[..] == head + entropy;
    id := EncodeUlid(b);
  }

  function IndexOf(s: string, c: char): (i: int)
    ensures -1 <= i < |s|
  {
    if s == "" then -1
    else if s[0] == c then 0
    else
      var i := IndexOf(s[1..], c);
      if i < 0 then -1 else i + 1
  }

  /** The ten leading digits as a number; shifting five bits and or-ing five in is a digit of base 32. */
  method TimeOf(d: array<nat>, id: string) returns (r: Result<nat, IdError>)
    requires d.Length == 256 && forall c :: 0 <= c < 256 ==> d[c] == Decoded(c)
    ensures r == ReadTime(id)
  {
    hide Decoded;
    var i := IndexOf(id, '_');
    if i < 0 || |id| - i - 1 != 26 {
      return Err(InvalidId);
    }
    var body := id[i + 1..];
    var ms := 0;
    for j := 0 to 10
      invariant Readable(body[..j]) && ms == Number(32, Values(body[..j]))
    {
      WideIsUnknown(body[j]);
      var v := Value(d, body[j]);
      if v == UNKNOWN {
        assert !Readable(body[..10]);
        return Err(InvalidId);
      }
      assert Values(body[..j + 1]) == Values(body[..j]) + [v];
      NumberAppend(32, Values(body[..j]), v);
      ms := ms * 32 + v;
    }
    return Ok(ms);
  }

  function Values(s: string): (v: seq<nat>)
    ensures |v| == |s|
  {
    seq(|s|, i requires 0 <= i < |s| => Decoded(s[i] as nat))
  }

  function ReadTime(id: string): Result<nat, IdError> {
    var i := IndexOf(id, '_');
    if i < 0 || |id| - i - 1 != 26 || !Readable(id[i + 1..][..10]) then Err(InvalidId)
    else Ok(Number(32, Values(id[i + 1..][..10])))
  }

  // ---- what the identifiers promise ----

  predicate CharSmaller(x: char, y: char) { x < y }

  predicate ByteSmaller(x: Byte, y: Byte) { x < y }

  lemma {:induction false} TextKeepsOrder(d: seq<nat>, e: seq<nat>)
    requires |d| == |e| && Below(32, d) && Below(32, e)
    ensures Precedes(Text(d), Text(e), CharSmaller) <==> Precedes(d, e, Smaller)
    ensures Text(d) == Text(e) ==> d == e
  {
    hide ALPHABET;
    if d != [] {
      assert Text(d)[1..] == Text(d[1..]) && Text(e)[1..] == Text(e[1..]);
      TextKeepsOrder(d[1..], e[1..]);
      if d[0] < e[0] {
        AlphabetIsOrdered(d[0], e[0]);
      } else if e[0] < d[0] {
        AlphabetIsOrdered(e[0], d[0]);
      } else {
        assert d == [d[0]] + d[1..] && e == [e[0]] + e[1..];
      }
    }
  }

  lemma ByteOrder(x: Byte, y: Byte)
    ensures ByteSmaller(x, y) <==> Smaller(Num(x), Num(y))
    ensures x == y <==> Num(x) == Num(y)
  {
  }

  lemma {:induction false} NumsKeepOrder(a: seq<Byte>, b: seq<Byte>)
    requires |a| == |b|
    ensures Precedes(a, b, ByteSmaller) <==> Precedes(Nums(a), Nums(b), Smaller)
    ensures Nums(a) == Nums(b) ==> a == b
  {
    hide ByteSmaller, Smaller, Num;
    if a != [] {
      assert Nums(a)[1..] == Nums(a[1..]) && Nums(b)[1..] == Nums(b[1..]);
      ByteOrder(a[0], b[0]);
      NumsKeepOrder(a[1..], b[1..]);
      assert Nums(a)[0] == Num(a[0]) && Nums(b)[0] == Num(b[0]);
      hide Nums;
      assert a == [a[0]] + a[1..] && b == [b[0]] + b[1..];
    }
  }

  /** Identifiers are ordered as the bytes they write, and no two write the same. */
  lemma EncodingKeepsOrder(a: seq<Byte>, b: seq<Byte>)
    requires |a| == |b| == 16
    ensures Precedes(Text(Digits(a)), Text(Digits(b)), CharSmaller) <==> Precedes(a, b, ByteSmaller)
    ensures Text(Digits(a)) == Text(Digits(b)) ==> a == b
  {
    DigitsAreTheNumber(a);
    DigitsAreTheNumber(b);
    hide Digits, Nums, Text, Number, Precedes;
    TextKeepsOrder(Digits(a), Digits(b));
    OrderOfDigits(32, Digits(a), Digits(b));
    OrderOfDigits(256, Nums(a), Nums(b));
    NumsKeepOrder(a, b);
  }

  lemma Shifts(u: nat)
    ensures u / 0x1_0000 == u / 0x100 / 256 && u / 0x100_0000 == u / 0x1_0000 / 256
    ensures u / 0x1_0000_0000 == u / 0x100_0000 / 256 && u / 0x100_0000_0000 == u / 0x1_0000_0000 / 256
    ensures u / TWO_48 == u / 0x100_0000_0000 / 256
  {
  }

  lemma SixBytes(u: nat, q1: nat, q2: nat, q3: nat, q4: nat, q5: nat, q6: nat)
    requires q1 == u / 256 && q2 == q1 / 256 && q3 == q2 / 256 && q4 == q3 / 256 && q5 == q4 / 256 && q6 == q5 / 256
    ensures u == q6 * TWO_48 + q5 % 256 * 1_0995_1162_7776
      + ((((q4 % 256 * 256 + q3 % 256) * 256 + q2 % 256) * 256 + q1 % 256) * 256 + u % 256)
  {
  }

  lemma Remainder(u: nat, q: nat, r: nat)
    requires u == q * TWO_48 + r && r < TWO_48
    ensures u % TWO_48 == r
  {
  }

  lemma TimeBytesAreTheTime(ms: int)
    ensures Number(256, Nums(TimeBytes(ms))) == ms % TWO_48
  {
    hide ByteAt, Num, Number;
    var u := Unsigned(ms);
    var q1, q2, q3, q4, q5, q6 := u / 0x100, u / 0x1_0000, u / 0x100_0000, u / 0x1_0000_0000, u / 0x100_0000_0000, u / TWO_48;
    var head, tail := q5 % 256, [q4 % 256, q3 % 256, q2 % 256, q1 % 256, u % 256];
    assert u / 1 == u;
    assert Nums(TimeBytes(ms)) == [head] + tail;
    NumberAppend(256, [], head);
    assert [] + [head] == [head];
    assert Number(256, []) == 0 by { NothingIsZero(); }
    FiveMore([head], tail);
    Shifts(u);
    SixBytes(u, q1, q2, q3, q4, q5, q6);
    Remainder(u, q6, Number(256, [head] + tail));
    LowBits(ms);
  }

  lemma NothingIsZero()
    ensures Number(256, []) == 0
  {
  }

  lemma LowBits(ms: int)
    ensures Unsigned(ms) % TWO_48 == ms % TWO_48
  {
  }

  lemma TextIsReadable(d: seq<nat>)
    requires Below(32, d)
    ensures Readable(Text(d)) && Values(Text(d)) == d
  {
    forall i | 0 <= i < |d| ensures Decoded(Text(d)[i] as nat) == d[i] {
      DecodesSymbol(d[i]);
    }
    hide Decoded;
  }

  lemma {:induction false} PrefixEnds(prefix: string, body: string)
    requires '_' !in prefix
    ensures IndexOf(prefix + "_" + body, '_') == |prefix|
  {
    var s := prefix + "_" + body;
    if prefix != "" {
      assert s[1..] == prefix[1..] + "_" + body;
      assert s[0] == prefix[0] && prefix[0] in prefix;
      PrefixEnds(prefix[1..], body);
    }
  }

  /** The time read from an identifier is the time it was made at, to 48 bits, and every identifier
      made is well formed. */
  lemma TimeIsRecovered(prefix: string, ms: int, entropy: seq<Byte>)
    requires |entropy| == 10 && '_' !in prefix
    ensures ReadTime(New(prefix, ms, entropy)) == Ok(ms % TWO_48)
    ensures Readable(NewUlid(ms, entropy)) && |NewUlid(ms, entropy)| == 26
  {
    var b := TimeBytes(ms) + entropy;
    var d, id, body := Digits(b), New(prefix, ms, entropy), NewUlid(ms, entropy);
    DigitsAreTheNumber(b);
    TimeBytesAreTheTime(ms);
    TextIsReadable(d);
    PrefixEnds(prefix, body);
    assert b[..6] == TimeBytes(ms);
    hide Digits, TimeBytes, Nums, Number, Decoded;
    assert id[|prefix| + 1..] == body;
    assert Values(body[..10]) == d[..10];
  }

  /** Identifiers made later sort later, whatever their random parts. */
  lemma LaterSortsLater(ms: nat, later: nat, entropy: seq<Byte>, other: seq<Byte>)
    requires |entropy| == |other| == 10 && ms < later < TWO_48
    ensures Precedes(NewUlid(ms, entropy), NewUlid(later, other), CharSmaller)
  {
    LaterBytes(ms, later);
    hide *;
    EarlierDecides(TimeBytes(ms), TimeBytes(later), entropy, other);
    EncodingKeepsOrder(TimeBytes(ms) + entropy, TimeBytes(later) + other);
    NewUlidIs(ms, entropy);
    NewUlidIs(later, other);
  }

  /** Of two made in the same millisecond the random part decides, and different random parts never give the
      same identifier. */
  lemma RandomPartDecides(ms: int, entropy: seq<Byte>, other: seq<Byte>)
    requires |entropy| == |other| == 10
    ensures Precedes(NewUlid(ms, entropy), NewUlid(ms, other), CharSmaller) <==> Precedes(entropy, other, ByteSmaller)
    ensures NewUlid(ms, entropy) == NewUlid(ms, other) ==> entropy == other
  {
    var head := TimeBytes(ms);
    EncodingKeepsOrder(head + entropy, head + other);
    SameStart(head, entropy, other);
    assert (head + entropy)[6..] == entropy && (head + other)[6..] == other;
    hide TimeBytes, Text, Digits, Precedes;
  }

  lemma {:induction false} SameStart(head: seq<Byte>, a: seq<Byte>, b: seq<Byte>)
    ensures Precedes(head + a, head + b, ByteSmaller) <==> Precedes(a, b, ByteSmaller)
  {
    if head == [] {
      assert head + a == a && head + b == b;
    } else {
      SameStart(head[1..], a, b);
      assert (head + a)[1..] == head[1..] + a && (head + b)[1..] == head[1..] + b;
      NotSmaller(head[0]);
    }
  }

  lemma NotSmaller(x: Byte)
    ensures !ByteSmaller(x, x)
  {
  }

  lemma NewUlidIs(ms: int, entropy: seq<Byte>)
    requires |entropy| == 10
    ensures NewUlid(ms, entropy) == Text(Digits(TimeBytes(ms) + entropy))
  {
  }

  lemma LaterBytes(ms: nat, later: nat)
    requires ms < later < TWO_48
    ensures Precedes(TimeBytes(ms), TimeBytes(later), ByteSmaller)
  {
    var a, b := TimeBytes(ms), TimeBytes(later);
    TimeBytesAreTheTime(ms);
    TimeBytesAreTheTime(later);
    hide TimeBytes, Precedes, Number, Nums;
    OrderOfDigits(256, Nums(a), Nums(b));
    NumsKeepOrder(a, b);
  }

  lemma {:induction false} EarlierDecides(a: seq<Byte>, b: seq<Byte>, more: seq<Byte>, other: seq<Byte>)
    requires |a| == |b| && Precedes(a, b, ByteSmaller)
    ensures Precedes(a + more, b + other, ByteSmaller)
  {
    if a[0] == b[0] {
      assert (a + more)[1..] == a[1..] + more && (b + other)[1..] == b[1..] + other;
      EarlierDecides(a[1..], b[1..], more, other);
    }
  }
}
