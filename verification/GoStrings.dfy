/** The parts of Go's string handling that the model depends on.  A string is a
    sequence of bytes, each held in a `char` below 256. */
module GoStrings {

  /** A blank of one byte. */
  predicate IsBlank(c: char) {
    c == ' ' || '\t' <= c <= '\r'
  }

  predicate Bytes2(c: char, d: char, x: int, y: int) { c as int == x && d as int == y }

  /** The UTF-8 encodings of the spaces of two bytes: NEL and NBSP. */
  predicate IsSpace2(c: char, d: char) {
    Bytes2(c, d, 0xC2, 0x85) || Bytes2(c, d, 0xC2, 0xA0)
  }

  /** And of three bytes: the Ogham space mark, the typographic and mathematical spaces, the line and
      paragraph separators, and the ideographic space. */
  predicate IsSpace3(c: char, d: char, e: char) {
    (Bytes2(c, d, 0xE1, 0x9A) && e as int == 0x80)
    || (Bytes2(c, d, 0xE2, 0x80) && (0x80 <= e as int <= 0x8A || e as int == 0xA8 || e as int == 0xA9 || e as int == 0xAF))
    || (Bytes2(c, d, 0xE2, 0x81) && e as int == 0x9F)
    || (Bytes2(c, d, 0xE3, 0x80) && e as int == 0x80)
  }

  /** The length in bytes of a space at the start of a string, or zero. */
  function SpaceAtStart(s: string): (n: nat)
    ensures n <= |s|
  {
    if |s| >= 1 && IsBlank(s[0]) then 1
    else if |s| >= 2 && IsSpace2(s[0], s[1]) then 2
    else if |s| >= 3 && IsSpace3(s[0], s[1], s[2]) then 3
    else 0
  }

  /** And at its end. */
  function SpaceAtEnd(s: string): (n: nat)
    ensures n <= |s|
  {
    var k := |s|;
    if k >= 1 && IsBlank(s[k - 1]) then 1
    else if k >= 2 && IsSpace2(s[k - 2], s[k - 1]) then 2
    else if k >= 3 && IsSpace3(s[k - 3], s[k - 2], s[k - 1]) then 3
    else 0
  }

  function TrimLeft(s: string): string
    decreases |s|
  {
    if SpaceAtStart(s) > 0 then TrimLeft(s[SpaceAtStart(s)..]) else s
  }

  function TrimRight(s: string): string
    decreases |s|
  {
    if SpaceAtEnd(s) > 0 then TrimRight(s[..|s| - SpaceAtEnd(s)]) else s
  }

  function TrimSpace(s: string): string {
    TrimRight(TrimLeft(s))
  }

  /** Nothing but spaces. */
  predicate Spaces(s: string)
    decreases |s|
  {
    s == "" || (SpaceAtStart(s) > 0 && Spaces(s[SpaceAtStart(s)..]))
  }

  /** A character of one byte that is no space. */
  predicate Plain(c: char) { '!' <= c <= '~' }

  lemma {:induction false} TrimLeftSkips(before: string, s: string)
    requires Spaces(before)
    ensures TrimLeft(before + s) == TrimLeft(s)
    decreases |before|
  {
    if before == "" {
      assert before + s == s;
    } else {
      var n := SpaceAtStart(before);
      assert SpaceAtStart(before + s) == n && (before + s)[n..] == before[n..] + s;
      TrimLeftSkips(before[n..], s);
    }
  }

  lemma SpaceLast(s: string, space: string)
    requires space != "" && SpaceAtStart(space) == |space|
    ensures SpaceAtEnd(s + space) == |space|
  {
    var t := s + space;
    assert t[|s|..] == space && t[|t| - 1] == space[|space| - 1];
  }

  lemma {:induction false} TrimRightSkips(s: string, after: string)
    requires Spaces(after)
    ensures TrimRight(s + after) == TrimRight(s)
    decreases |after|
  {
    if after == "" {
      assert s + after == s;
    } else {
      var space, rest := after[..SpaceAtStart(after)], after[SpaceAtStart(after)..];
      SpaceLast(s, space);
      assert (s + space)[..|s|] == s && s + after == s + space + rest;
      TrimRightSkips(s + space, rest);
    }
  }

  lemma PlainStarts(s: string)
    requires s != "" && Plain(s[0])
    ensures TrimLeft(s) == s
  {
  }

  lemma PlainEnds(s: string)
    requires s != "" && Plain(s[|s| - 1])
    ensures TrimRight(s) == s
  {
  }

  /** Trimming takes away all the spaces on either side of a text and nothing of the text. */
  lemma TrimPadded(before: string, s: string, after: string)
    requires Spaces(before) && Spaces(after) && s != "" && Plain(s[0]) && Plain(s[|s| - 1])
    ensures TrimSpace(before + s + after) == s
  {
    hide Spaces, Plain, TrimLeft, TrimRight;
    assert before + s + after == before + (s + after) && (s + after)[0] == s[0];
    TrimLeftSkips(before, s + after);
    PlainStarts(s + after);
    TrimRightSkips(s, after);
    PlainEnds(s);
  }

  function LowerChar(c: char): char {
    if 'A' <= c <= 'Z' then (c as int + 32) as char else c
  }

  function UpperChar(c: char): char {
    if 'a' <= c <= 'z' then (c as int - 32) as char else c
  }

  function ToLower(s: string): string {
    seq(|s|, i requires 0 <= i < |s| => LowerChar(s[i]))
  }

  function ToUpper(s: string): string {
    seq(|s|, i requires 0 <= i < |s| => UpperChar(s[i]))
  }

  predicate Contains(s: string, part: string) {
    part <= s || (s != "" && Contains(s[1..], part))
  }

  function Truncate(s: string, n: nat): string {
    if |s| <= n then s else s[..n]
  }
}
