/** Numbers written in a base, and the order of such writings. */
module Numerals {

  /** The number with these digits, most significant first. */
  function Number(base: nat, digits: seq<nat>): nat {
    if digits == [] then 0 else Number(base, digits[..|digits| - 1]) * base + digits[|digits| - 1]
  }

  predicate Below(base: nat, digits: seq<nat>) {
    forall i :: 0 <= i < |digits| ==> digits[i] < base
  }

  lemma NumberAppend(base: nat, digits: seq<nat>, d: nat)
    ensures Number(base, digits + [d]) == Number(base, digits) * base + d
  {
    assert (digits + [d])[..|digits|] == digits;
  }

  /** The one that is smaller at the first difference. */
  predicate Precedes<T(==)>(a: seq<T>, b: seq<T>, less: (T, T) -> bool) {
    a != [] && b != [] && (less(a[0], b[0]) || (a[0] == b[0] && Precedes(a[1..], b[1..], less)))
  }

  function Smaller(x: nat, y: nat): bool { x < y }

  function Power(base: nat, n: nat): nat {
    if n == 0 then 1 else Power(base, n - 1) * base
  }

  lemma Product(a: nat, b: nat, c: nat)
    requires a <= b
    ensures a * c <= b * c
  {
  }

  lemma {:induction false} NumberFromTheLeft(base: nat, digits: seq<nat>)
    requires digits != []
    ensures Number(base, digits) == digits[0] * Power(base, |digits| - 1) + Number(base, digits[1..])
  {
    var n := |digits| - 1;
    if n == 0 {
      assert digits[..0] == [] && digits[1..] == [];
    } else {
      NumberFromTheLeft(base, digits[..n]);
      assert digits[..n][1..] == digits[1..][..n - 1];
      var head, rest, p := digits[0], Number(base, digits[1..][..n - 1]), Power(base, n - 1);
      assert (head * p + rest) * base == head * (p * base) + rest * base;
    }
  }

  lemma {:induction false} NumberIsBelow(base: nat, digits: seq<nat>)
    requires Below(base, digits) && base > 0
    ensures Number(base, digits) < Power(base, |digits|)
  {
    if digits != [] {
      var n := |digits| - 1;
      NumberIsBelow(base, digits[..n]);
      Product(Number(base, digits[..n]) + 1, Power(base, n), base);
    }
  }

  lemma HeadDecides(x: nat, y: nat, p: nat, r: nat, s: nat)
    requires x < y && r < p
    ensures x * p + r < y * p + s
  {
    Product(x + 1, y, p);
    assert (x + 1) * p == x * p + p;
  }

  /** Digits of the same length are ordered as the numbers they write. */
  lemma {:induction false} OrderOfDigits(base: nat, a: seq<nat>, b: seq<nat>)
    requires |a| == |b| && Below(base, a) && Below(base, b) && base > 0
    ensures Precedes(a, b, Smaller) <==> Number(base, a) < Number(base, b)
    ensures Number(base, a) == Number(base, b) ==> a == b
  {
    if a != [] {
      OrderOfDigits(base, a[1..], b[1..]);
      NumberFromTheLeft(base, a);
      NumberFromTheLeft(base, b);
      NumberIsBelow(base, a[1..]);
      NumberIsBelow(base, b[1..]);
      var p, r, s := Power(base, |a| - 1), Number(base, a[1..]), Number(base, b[1..]);
      assert a == [a[0]] + a[1..] && b == [b[0]] + b[1..];
      hide Number, Power, Below;
      if a[0] < b[0] {
        HeadDecides(a[0], b[0], p, r, s);
      } else if b[0] < a[0] {
        HeadDecides(b[0], a[0], p, s, r);
      }
    }
  }

  /** Eight digits of five bits are five digits of eight bits. */
  lemma SameBlock(n: nat, d: seq<nat>, b: seq<nat>, digits: seq<nat>, bytes: seq<nat>)
    requires |d| == 8 && |b| == 5
    requires Number(32, digits) == n == Number(256, bytes)
    requires ((((((((d[0] * 32) + d[1]) * 32 + d[2]) * 32 + d[3]) * 32 + d[4]) * 32 + d[5]) * 32 + d[6]) * 32) + d[7]
      == (((b[0] * 256 + b[1]) * 256 + b[2]) * 256 + b[3]) * 256 + b[4]
    ensures Number(32, digits + d) == Number(256, bytes + b)
  {
    EightMore(digits, d);
    FiveMore(bytes, b);
  }

  lemma EightMore(digits: seq<nat>, d: seq<nat>)
    requires |d| == 8
    ensures Number(32, digits + d) == Number(32, digits) * 1_0995_1162_7776
      + (((((((((d[0] * 32) + d[1]) * 32 + d[2]) * 32 + d[3]) * 32 + d[4]) * 32 + d[5]) * 32 + d[6]) * 32) + d[7])
  {
    NumberAppend(32, digits, d[0]);
    NumberAppend(32, digits + [d[0]], d[1]);
    NumberAppend(32, digits + [d[0]] + [d[1]], d[2]);
    NumberAppend(32, digits + [d[0]] + [d[1]] + [d[2]], d[3]);
    NumberAppend(32, digits + [d[0]] + [d[1]] + [d[2]] + [d[3]], d[4]);
    NumberAppend(32, digits + [d[0]] + [d[1]] + [d[2]] + [d[3]] + [d[4]], d[5]);
    NumberAppend(32, digits + [d[0]] + [d[1]] + [d[2]] + [d[3]] + [d[4]] + [d[5]], d[6]);
    NumberAppend(32, digits + [d[0]] + [d[1]] + [d[2]] + [d[3]] + [d[4]] + [d[5]] + [d[6]], d[7]);
    assert digits + d == digits + [d[0]] + [d[1]] + [d[2]] + [d[3]] + [d[4]] + [d[5]] + [d[6]] + [d[7]];
  }

  lemma FiveMore(bytes: seq<nat>, b: seq<nat>)
    requires |b| == 5
    ensures Number(256, bytes + b) == Number(256, bytes) * 1_0995_1162_7776
      + ((((b[0] * 256 + b[1]) * 256 + b[2]) * 256 + b[3]) * 256 + b[4])
  {
    NumberAppend(256, bytes, b[0]);
    NumberAppend(256, bytes + [b[0]], b[1]);
    NumberAppend(256, bytes + [b[0]] + [b[1]], b[2]);
    NumberAppend(256, bytes + [b[0]] + [b[1]] + [b[2]], b[3]);
    NumberAppend(256, bytes + [b[0]] + [b[1]] + [b[2]] + [b[3]], b[4]);
    assert bytes + b == bytes + [b[0]] + [b[1]] + [b[2]] + [b[3]] + [b[4]];
  }
}
