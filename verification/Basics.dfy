/** Small vocabulary shared by the models: optional values, integer ceilings and Python's text helpers. */
module Basics {

  newtype Byte = n: int | 0 <= n < 256

  datatype Option<+T> = None | Some(value: T) {
    function GetOr(default: T): T {
      if Some? then value else default
    }
  }

  function Max(a: int, b: int): int {
    if a >= b then a else b
  }

  function Min(a: int, b: int): int {
    if a <= b then a else b
  }

  function MaxReal(a: real, b: real): real {
    if a >= b then a else b
  }

  function MinReal(a: real, b: real): real {
    if a <= b then a else b
  }

  function AbsReal(x: real): real {
    if x < 0.0 then -x else x
  }

  /** `math.ceil(a / b)` for integers. */
  function CeilDiv(a: int, b: int): (q: int)
    requires b > 0
    ensures (q - 1) * b < a <= q * b
  {
    -((-a) / b)
  }

  /** Python's `round` on a number without digits: the nearest integer, a tie going to the even one. */
  function Round(x: real): (n: int)
    ensures n as real - 0.5 <= x <= n as real + 0.5
    ensures x == n as real - 0.5 || x == n as real + 0.5 ==> n % 2 == 0
  {
    var low := x.Floor;
    var rest := x - low as real;
    if rest < 0.5 then low
    else if rest > 0.5 then low + 1
    else if low % 2 == 0 then low else low + 1
  }
}

/** Python's `str` operations that the voice code relies on. */
module Text {
  import opened Basics

  /** `str.isspace` of one character. */
  predicate IsSpace(c: char) {
    var n := c as int;
    || 0x09 <= n <= 0x0d
    || 0x1c <= n <= 0x20
    || n == 0x85 || n == 0xa0 || n == 0x1680
    || 0x2000 <= n <= 0x200a
    || n == 0x2028 || n == 0x2029 || n == 0x202f || n == 0x205f || n == 0x3000
  }

  predicate Blank(s: string) {
    forall c :: c in s ==> IsSpace(c)
  }

  function StripLeft(s: string): string {
    if s == [] || !IsSpace(s[0]) then s else StripLeft(s[1..])
  }

  function StripRight(s: string): string {
    if s == [] || !IsSpace(s[|s| - 1]) then s else StripRight(s[..|s| - 1])
  }

  /** `str.strip()`. */
  function Strip(s: string): string {
    StripRight(StripLeft(s))
  }

  /** No whitespace at either end. */
  predicate Trimmed(s: string) {
    s != [] ==> !IsSpace(s[0]) && !IsSpace(s[|s| - 1])
  }

  lemma {:induction false} StripRightKeepsHead(s: string)
    ensures var r := StripRight(s);
      r <= s && (r != [] ==> !IsSpace(r[|r| - 1])) && (s != [] && !IsSpace(s[0]) ==> r != [])
  {
    if s != [] && IsSpace(s[|s| - 1]) {
      StripRightKeepsHead(s[..|s| - 1]);
    }
  }

  lemma {:induction false} StripLeftHead(s: string)
    ensures var r := StripLeft(s); r != [] ==> !IsSpace(r[0])
  {
    if s != [] && IsSpace(s[0]) {
      StripLeftHead(s[1..]);
    }
  }

  lemma StripTrims(s: string)
    ensures Trimmed(Strip(s))
    ensures Trimmed(s) ==> Strip(s) == s
  {
    StripLeftHead(s);
    StripRightKeepsHead(StripLeft(s));
  }

  lemma {:induction false} StripRightBlank(s: string)
    ensures StripRight(s) == "" <==> Blank(s)
  {
    if s != [] {
      assert s == s[..|s| - 1] + [s[|s| - 1]];
      StripRightBlank(s[..|s| - 1]);
    }
  }

  lemma {:induction false} StripLeftBlank(s: string)
    ensures Blank(StripLeft(s)) <==> Blank(s)
  {
    if s != [] && IsSpace(s[0]) {
      assert s == [s[0]] + s[1..];
      StripLeftBlank(s[1..]);
    }
  }

  lemma {:induction false} StripRightIs(s: string)
    ensures var r := StripRight(s); r <= s && Blank(s[|r|..])
  {
    if s != [] && IsSpace(s[|s| - 1]) {
      var rest := s[..|s| - 1];
      StripRightIs(rest);
      var n := |StripRight(s)|;
      assert s[n..] == rest[n..] + [s[|s| - 1]];
    }
  }

  lemma {:induction false} StripLeftIs(s: string)
    ensures var r := StripLeft(s); |r| <= |s| && r == s[|s| - |r|..] && Blank(s[..|s| - |r|])
  {
    if s != [] && IsSpace(s[0]) {
      StripLeftIs(s[1..]);
      var n := |s| - |StripLeft(s)|;
      assert s[..n] == [s[0]] + s[1..][..n - 1];
    }
  }

  /** Stripping takes whitespace off both ends and nothing else. */
  lemma StripIs(s: string) returns (from: nat, to: nat)
    ensures from <= to <= |s| && Strip(s) == s[from..to] && Trimmed(s[from..to]) && Blank(s[..from]) && Blank(s[to..])
  {
    StripTrims(s);
    StripLeftIs(s);
    var left := StripLeft(s);
    StripRightIs(left);
    from, to := |s| - |left|, |s| - |left| + |Strip(s)|;
    assert left[|Strip(s)|..] == s[to..];
  }

  /** Stripping leaves nothing exactly when there was only whitespace. */
  lemma StripEmptyIff(s: string)
    ensures Strip(s) == "" <==> Blank(s)
  {
    StripLeftBlank(s);
    StripRightBlank(StripLeft(s));
  }

  /** `str.lower()` as far as it can yield ASCII letters: the capitals and the Kelvin sign. */
  function LowerChar(c: char): char {
    if 'A' <= c <= 'Z' then (c as int + 32) as char else if c as int == 0x212a then 'k' else c
  }

  function Lower(s: string): (r: string)
    ensures |r| == |s|
  {
    seq(|s|, i requires 0 <= i < |s| => LowerChar(s[i]))
  }

  /** `a < b` on strings: by code point. */
  predicate Precedes(a: string, b: string) {
    b != "" && (a == "" || a[0] < b[0] || (a[0] == b[0] && Precedes(a[1..], b[1..])))
  }

  lemma {:induction false} PrecedesTotal(a: string, b: string)
    ensures a != b ==> Precedes(a, b) || Precedes(b, a)
  {
    if a != "" && b != "" && a[0] == b[0] {
      PrecedesTotal(a[1..], b[1..]);
      assert a == [a[0]] + a[1..] && b == [b[0]] + b[1..];
    }
  }

  lemma {:induction false} PrecedesTransitive(a: string, b: string, c: string)
    requires Precedes(a, b) && Precedes(b, c)
    ensures Precedes(a, c)
  {
    if a != "" && a[0] == b[0] == c[0] {
      PrecedesTransitive(a[1..], b[1..], c[1..]);
    }
  }

  ghost predicate Ascending(s: seq<string>) {
    forall j, k :: 0 <= j < k < |s| ==> Precedes(s[j], s[k])
  }

  /** A new name in its place. */
  function Placed(x: string, s: seq<string>): (r: seq<string>)
    ensures forall y :: y in r <==> y == x || y in s
  {
    if s == [] || Precedes(x, s[0]) then [x] + s else [s[0]] + Placed(x, s[1..])
  }

  lemma {:induction false} PlacedAscending(x: string, s: seq<string>)
    requires Ascending(s) && x !in s
    ensures Ascending(Placed(x, s))
  {
    if s == [] {
      return;
    }
    PrecedesTotal(x, s[0]);
    if Precedes(x, s[0]) {
      forall k | 0 < k < |s| ensures Precedes(x, s[k]) {
        PrecedesTransitive(x, s[0], s[k]);
      }
    } else {
      var rest := Placed(x, s[1..]);
      PlacedAscending(x, s[1..]);
      forall y | y in rest ensures Precedes(s[0], y) {
      }
    }
  }

  /** The decimal rendering of a count, as an f-string prints it. */
  function Decimal(n: nat): (s: string)
    ensures s != [] && !IsSpace(s[|s| - 1])
  {
    var last := ('0' as int + n % 10) as char;
    if n < 10 then [last] else Decimal(n / 10) + [last]
  }

  lemma {:induction false} DecimalInjective(a: nat, b: nat)
    requires Decimal(a) == Decimal(b)
    ensures a == b
  {
    var x, y := Decimal(a), Decimal(b);
    assert x[|x| - 1] == y[|y| - 1];
    assert a % 10 == b % 10;
    if a >= 10 && b >= 10 {
      assert x[..|x| - 1] == Decimal(a / 10) && y[..|y| - 1] == Decimal(b / 10);
      DecimalInjective(a / 10, b / 10);
    }
  }
}
