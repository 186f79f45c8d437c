/** The order of a comparator-less `Array.sort` on non-negative integers: by decimal representation.
    A representation is its list of digits; code units '0'..'9' are ordered like the digits. */
module Decimal {

  function Digits(n: nat): (s: seq<nat>)
    ensures s != []
  {
    if n < 10 then [n] else Digits(n / 10) + [n % 10]
  }

  function Length(n: nat): nat {
    |Digits(n)|
  }

  /** Strict lexicographic order of code units. */
  predicate LexLess(a: seq<nat>, b: seq<nat>) {
    b != [] && (a == [] || a[0] < b[0] || (a[0] == b[0] && LexLess(a[1..], b[1..])))
  }

  /** `a` sorts before `b` when compared as decimal strings. */
  predicate StringLess(a: nat, b: nat) {
    LexLess(Digits(a), Digits(b))
  }

  // ----- StringLess is a strict total order -----

  lemma {:induction false} LexTotal(a: seq<nat>, b: seq<nat>)
    ensures a == b || LexLess(a, b) || LexLess(b, a)
    ensures !(LexLess(a, b) && LexLess(b, a))
    ensures a == b ==> !LexLess(a, b)
  {
    if a != [] && b != [] {
      LexTotal(a[1..], b[1..]);
      assert a == [a[0]] + a[1..] && b == [b[0]] + b[1..];
    }
  }

  lemma {:induction false} LexTransitive(a: seq<nat>, b: seq<nat>, c: seq<nat>)
    requires LexLess(a, b) && LexLess(b, c)
    ensures LexLess(a, c)
  {
    if a != [] && a[0] == b[0] == c[0] {
      LexTransitive(a[1..], b[1..], c[1..]);
    }
  }

  lemma {:induction false} DigitsInjective(a: nat, b: nat)
    requires Digits(a) == Digits(b)
    ensures a == b
  {
    if a >= 10 && b >= 10 {
      var s, t := Digits(a / 10), Digits(b / 10);
      assert Digits(a)[..|s|] == s && Digits(b)[..|t|] == t;
      DigitsInjective(a / 10, b / 10);
      assert Digits(a)[|s|] == a % 10 && Digits(b)[|t|] == b % 10;
    }
  }

  lemma StringLessTotal(a: nat, b: nat)
    ensures a != b ==> StringLess(a, b) || StringLess(b, a)
    ensures !(StringLess(a, b) && StringLess(b, a))
    ensures !StringLess(a, a)
  {
    LexTotal(Digits(a), Digits(b));
    LexTotal(Digits(a), Digits(a));
    if Digits(a) == Digits(b) {
      DigitsInjective(a, b);
    }
  }

  lemma StringLessTransitive(a: nat, b: nat, c: nat)
    requires StringLess(a, b) && StringLess(b, c)
    ensures StringLess(a, c)
  {
    LexTransitive(Digits(a), Digits(b), Digits(c));
  }

  // ----- Relation to the numeric order -----

  lemma {:induction false} LexAppend(a: seq<nat>, x: nat, b: seq<nat>, y: nat)
    requires |a| == |b|
    ensures LexLess(a + [x], b + [y]) <==> LexLess(a, b) || (a == b && x < y)
  {
    if a == [] {
      assert (a + [x])[1..] == [] && (b + [y])[1..] == [];
    } else {
      LexAppend(a[1..], x, b[1..], y);
      assert (a + [x])[1..] == a[1..] + [x] && (b + [y])[1..] == b[1..] + [y];
      assert a == [a[0]] + a[1..] && b == [b[0]] + b[1..];
    }
  }

  /** Numbers of equal decimal length are ordered as strings exactly as they are as numbers. */
  lemma {:induction false} SameLengthOrder(a: nat, b: nat)
    requires Length(a) == Length(b)
    ensures StringLess(a, b) <==> a < b
  {
    if a >= 10 && b >= 10 {
      SameLengthOrder(a / 10, b / 10);
      LexAppend(Digits(a / 10), a % 10, Digits(b / 10), b % 10);
      if Digits(a / 10) == Digits(b / 10) {
        DigitsInjective(a / 10, b / 10);
      }
    }
  }

  lemma {:induction false} LengthMonotone(a: nat, b: nat)
    requires a <= b
    ensures Length(a) <= Length(b)
  {
    if a >= 10 {
      LengthMonotone(a / 10, b / 10);
    }
  }

  /** What remains of `n` after its last `j` digits are cut off. */
  function Truncate(n: nat, j: nat): nat {
    if j == 0 then n else Truncate(n / 10, j - 1)
  }

  lemma {:induction false} TruncatedDigits(n: nat, j: nat)
    requires j < Length(n)
    ensures Digits(Truncate(n, j)) == Digits(n)[..Length(n) - j]
  {
    if j > 0 {
      TruncatedDigits(n / 10, j - 1);
      assert Digits(n) == Digits(n / 10) + [n % 10];
    }
  }

  lemma {:induction false} LexPrefix(a: seq<nat>, b: seq<nat>)
    requires |a| <= |b|
    ensures LexLess(b, a) <==> LexLess(b[..|a|], a)
  {
    if a != [] {
      LexPrefix(a[1..], b[1..]);
      assert b[..|a|][1..] == b[1..][..|a[1..]|];
    }
  }

  /** `small` is numerically below `big`, yet a descending string sort visits it first: it exceeds
      the leading digits of `big`, cut to its own length. */
  predicate Outranks(small: nat, big: nat) {
    small < big && Length(small) <= Length(big) && small > Truncate(big, Length(big) - Length(small))
  }

  /** Exactly the pairs that a string sort orders against their numeric order. */
  lemma OutranksExactly(small: nat, big: nat)
    requires small < big
    ensures StringLess(big, small) <==> Outranks(small, big)
  {
    LengthMonotone(small, big);
    var j := Length(big) - Length(small);
    TruncatedDigits(big, j);
    LexPrefix(Digits(small), Digits(big));
    SameLengthOrder(Truncate(big, j), small);
  }
}
