/** Value types and engine helpers shared by every behaviour of the model:
    vectors, Unity's Mathf clamps, interpolation and rounding, the random
    oracles that stand for Random.Range, decimal number formatting, and the
    Fisher-Yates shuffle that two behaviours run over their lists. */
module Common {

  datatype Option<T> = None | Some(value: T)

  datatype Vec2 = Vec2(x: real, y: real)
  datatype Vec3 = Vec3(x: real, y: real, z: real)

  const Zero2: Vec2 := Vec2(0.0, 0.0)
  const Zero3: Vec3 := Vec3(0.0, 0.0, 0.0)

  function Abs(x: real): real { if x < 0.0 then -x else x }

  function MaxInt(a: int, b: int): int { if a < b then b else a }

  /** r lies on the closed segment between a and b, whichever is larger. */
  predicate Between(r: real, a: real, b: real) {
    (a <= r <= b) || (b <= r <= a)
  }

  /** Mathf.Clamp01. */
  function Clamp01(x: real): (r: real)
    ensures 0.0 <= r <= 1.0
    ensures 0.0 <= x <= 1.0 ==> r == x
    ensures x <= 0.0 ==> r == 0.0
    ensures x >= 1.0 ==> r == 1.0
  {
    if x < 0.0 then 0.0 else if x > 1.0 then 1.0 else x
  }

  /** Mathf.Clamp on integers: below min gives min, else above max gives max. */
  function ClampInt(v: int, lo: int, hi: int): (r: int)
    ensures lo <= hi ==> lo <= r <= hi
    ensures lo <= v <= hi ==> r == v
  {
    if v < lo then lo else if v > hi then hi else v
  }

  /** Mathf.Lerp: the parameter is clamped to [0, 1] first, so the result
      never leaves the segment between the two end points. */
  function Lerp(a: real, b: real, t: real): (r: real)
    ensures Between(r, a, b)
    ensures t <= 0.0 ==> r == a
    ensures t >= 1.0 ==> r == b
  {
    var c := Clamp01(t);
    LerpWeightBetween(a, b, c);
    a + (b - a) * c
  }

  /** Mathf.LerpUnclamped / Vector3.LerpUnclamped on one component. */
  function LerpUnclamped(a: real, b: real, t: real): real {
    a + (b - a) * t
  }

  lemma LerpWeightBetween(a: real, b: real, c: real)
    requires 0.0 <= c <= 1.0
    ensures Between(a + (b - a) * c, a, b)
  {
    if a <= b {
      MulNonneg(b - a, c);
      MulNonneg(b - a, 1.0 - c);
    } else {
      MulNonneg(a - b, c);
      MulNonneg(a - b, 1.0 - c);
    }
  }

  lemma MulNonneg(x: real, y: real)
    requires 0.0 <= x && 0.0 <= y
    ensures 0.0 <= x * y
  {
  }

  lemma MulMonotone(a: real, b: real, c: real)
    requires a <= b && c >= 0.0
    ensures a * c <= b * c
  {
    MulNonneg(b - a, c);
  }

  lemma DivMonotone(x: real, y: real, d: real)
    requires d > 0.0 && x <= y
    ensures x / d <= y / d
  {
    assert y / d - x / d == (y - x) / d;
  }

  /** Vector3.Lerp: componentwise, with the same clamped parameter. */
  function Lerp3(a: Vec3, b: Vec3, t: real): (r: Vec3)
    ensures Between(r.x, a.x, b.x) && Between(r.y, a.y, b.y) && Between(r.z, a.z, b.z)
  {
    Vec3(Lerp(a.x, b.x, t), Lerp(a.y, b.y, t), Lerp(a.z, b.z, t))
  }

  /** Mathf.RoundToInt, which is Math.Round with ties to the even integer. */
  function RoundToInt(x: real): int {
    var f := x.Floor;
    var d := x - f as real;
    if d < 0.5 then f
    else if d > 0.5 then f + 1
    else if f % 2 == 0 then f
    else f + 1
  }

  /** The rounded value is an integer nearest to x; on a tie it is the even one. */
  lemma RoundToIntNearest(x: real, k: int)
    ensures Abs(x - RoundToInt(x) as real) <= 0.5
    ensures Abs(x - RoundToInt(x) as real) <= Abs(x - k as real)
    ensures Abs(x - RoundToInt(x) as real) == 0.5 ==> RoundToInt(x) % 2 == 0
  {
    var f := x.Floor;
    assert f as real <= x < f as real + 1.0;
    if k <= f - 1 {
      assert x - k as real >= x - f as real + 1.0;
    } else if k >= f + 2 {
      assert k as real - x >= f as real + 2.0 - x;
    }
  }

  /** An integer rounds to itself. */
  lemma RoundToIntOfInt(n: int)
    ensures RoundToInt(n as real) == n
  {
    assert (n as real).Floor == n;
  }

  /** Rounding a value that lies between two integers stays between them. */
  lemma RoundToIntBetween(x: real, a: int, b: int)
    requires Between(x, a as real, b as real)
    ensures a <= RoundToInt(x) <= b || b <= RoundToInt(x) <= a
  {
    var f := x.Floor;
    assert f as real <= x < f as real + 1.0;
  }

  /** The elements a sequence mentions. */
  function Elems<T>(s: seq<T>): set<T> {
    set x | x in s
  }

  /** Random.Range(int, int): the lower bound inclusive, the upper exclusive;
      a range with no room yields the lower bound. */
  predicate IntRange(v: int, lo: int, hiExclusive: int) {
    if lo < hiExclusive then lo <= v < hiExclusive else v == lo
  }

  /** Random.Range(float, float): both bounds inclusive, in either order. */
  predicate RealRange(v: real, lo: real, hi: real) {
    Between(v, lo, hi)
  }

  function MaxReal(a: real, b: real): real { if a < b then b else a }

  /** Mathf.Epsilon, the smallest positive single-precision value. */
  const FloatEpsilon: real := 0.000000000000000000000000000000000000000000001401298

  /** Mathf.Approximately: the difference is below a millionth of the larger
      magnitude, or below eight times Mathf.Epsilon near zero. */
  predicate Approximately(a: real, b: real) {
    Abs(b - a) < MaxReal(0.000001 * MaxReal(Abs(a), Abs(b)), 8.0 * FloatEpsilon)
  }

  /** One call a behaviour makes on its Animator (or nothing, when it has none). */
  datatype AnimatorCall =
    | SetTrigger(trigger: string)
    | ResetTrigger(trigger: string)
    | SetBool(flag: string, on: bool)
    | SetFloat(parameter: string, value: real)

  /** A coroutine loop at `time` >= i*d that has not reached a bound <= m*d has
      taken fewer than m frames of length at least d. */
  lemma StepsLeft(time: real, bound: real, d: real, i: nat, m: nat)
    requires d > 0.0 && time >= i as real * d && time < bound <= m as real * d
    ensures i < m
  {
    assert (m - i) as real * d > 0.0;
  }

  // ---------------------------------------------------------------------------
  // Decimal formatting: int.ToString() and the thousands-grouped "N0" form
  // (invariant culture: '-' sign, ',' group separator, groups of three).

  predicate IsDigit(c: char) { '0' <= c <= '9' }

  predicate AllDigits(s: string) {
    forall i :: 0 <= i < |s| ==> IsDigit(s[i])
  }

  function DigitChar(d: int): (c: char)
    requires 0 <= d < 10
    ensures IsDigit(c) && c as int - '0' as int == d
  {
    ('0' as int + d) as char
  }

  function NatDigits(n: nat): (s: string)
    ensures |s| >= 1 && AllDigits(s)
    decreases n
  {
    if n < 10 then [DigitChar(n)] else NatDigits(n / 10) + [DigitChar(n % 10)]
  }

  /** int.ToString(). */
  function Decimal(n: int): string {
    if n < 0 then "-" + NatDigits(-n) else NatDigits(n)
  }

  function ParseNat(s: string): nat
    requires AllDigits(s)
  {
    if s == [] then 0 else ParseNat(s[..|s| - 1]) * 10 + (s[|s| - 1] as int - '0' as int)
  }

  function ParseDecimal(s: string): int
    requires |s| > 0
    requires s[0] == '-' ==> AllDigits(s[1..])
    requires s[0] != '-' ==> AllDigits(s)
  {
    if s[0] == '-' then -(ParseNat(s[1..]) as int) else ParseNat(s)
  }

  lemma {:induction false} NatDigitsRoundTrip(n: nat)
    ensures ParseNat(NatDigits(n)) == n
    decreases n
  {
    if n >= 10 {
      NatDigitsRoundTrip(n / 10);
      var s := NatDigits(n);
      assert s[..|s| - 1] == NatDigits(n / 10);
    }
  }

  /** Reading back the decimal text of a number gives the number. */
  lemma DecimalRoundTrip(n: int)
    ensures |Decimal(n)| > 0
    ensures Decimal(n)[0] == '-' <==> n < 0
    ensures Decimal(n)[0] == '-' ==> AllDigits(Decimal(n)[1..])
    ensures Decimal(n)[0] != '-' ==> AllDigits(Decimal(n))
    ensures ParseDecimal(Decimal(n)) == n
  {
    if n < 0 {
      NatDigitsRoundTrip(-n);
      assert Decimal(n)[1..] == NatDigits(-n);
    } else {
      NatDigitsRoundTrip(n);
    }
  }

  /** Inserts ',' between groups of three digits, counted from the right. */
  function GroupThousands(ds: string): string
    decreases |ds|
  {
    if |ds| <= 3 then ds else GroupThousands(ds[..|ds| - 3]) + [','] + ds[|ds| - 3..]
  }

  /** number.ToString("N0") in the invariant culture. */
  function GroupedDecimal(n: int): string {
    if n < 0 then "-" + GroupThousands(NatDigits(-n)) else GroupThousands(NatDigits(n))
  }

  function WithoutCommas(s: string): (r: string)
    ensures |r| <= |s|
  {
    if s == [] then [] else (if s[0] == ',' then [] else [s[0]]) + WithoutCommas(s[1..])
  }

  lemma {:induction false} WithoutCommasAppend(a: string, b: string)
    ensures WithoutCommas(a + b) == WithoutCommas(a) + WithoutCommas(b)
    decreases |a|
  {
    if a != [] {
      assert (a + b)[0] == a[0] && (a + b)[1..] == a[1..] + b;
      WithoutCommasAppend(a[1..], b);
    } else {
      assert a + b == b;
    }
  }

  lemma {:induction false} WithoutCommasOfDigits(s: string)
    requires AllDigits(s)
    ensures WithoutCommas(s) == s
    decreases |s|
  {
    if s != [] {
      WithoutCommasOfDigits(s[1..]);
    }
  }

  /** Stripping the separators of `g,tail` when `g` strips to `head`. */
  lemma StripGroup(g: string, head: string, tail: string)
    requires WithoutCommas(g) == head && AllDigits(tail)
    ensures WithoutCommas(g + [','] + tail) == head + tail
  {
    var comma: string := [','];
    assert WithoutCommas(comma) == [] by {
      assert comma[1..] == [];
    }
    calc {
      WithoutCommas(g + comma + tail);
      { WithoutCommasAppend(g + comma, tail); }
      WithoutCommas(g + comma) + WithoutCommas(tail);
      { WithoutCommasAppend(g, comma); }
      head + WithoutCommas(tail);
      { WithoutCommasOfDigits(tail); }
      head + tail;
    }
  }

  lemma {:induction false} GroupThousandsStrips(ds: string)
    requires AllDigits(ds)
    ensures WithoutCommas(GroupThousands(ds)) == ds
    decreases |ds|
  {
    if |ds| <= 3 {
      WithoutCommasOfDigits(ds);
    } else {
      var head, tail := ds[..|ds| - 3], ds[|ds| - 3..];
      assert AllDigits(head) && AllDigits(tail);
      GroupThousandsStrips(head);
      StripGroup(GroupThousands(head), head, tail);
      assert head + tail == ds;
    }
  }

  /** The grouped form differs from the plain form only by its separators. */
  lemma GroupedDecimalMatchesDecimal(n: int)
    ensures WithoutCommas(GroupedDecimal(n)) == Decimal(n)
  {
    if n < 0 {
      GroupThousandsStrips(NatDigits(-n));
      WithoutCommasAppend("-", GroupThousands(NatDigits(-n)));
    } else {
      GroupThousandsStrips(NatDigits(n));
    }
  }

  // ---------------------------------------------------------------------------
  // Fisher-Yates shuffle: `for (i = n - 1; i > 0; i--) { j = Random.Range(0, i + 1); swap(i, j); }`.
  // The k-th draw (k = 0, 1, ...) is made for i = n - 1 - k and lies in [0, i].

  predicate ShuffleOracle(js: seq<int>, n: nat) {
    |js| == (if n > 0 then n - 1 else 0) &&
    forall k :: 0 <= k < |js| ==> 0 <= js[k] <= n - 1 - k
  }

  function Swap<T>(s: seq<T>, i: nat, j: nat): (r: seq<T>)
    requires i < |s| && j < |s|
    ensures |r| == |s| && r[i] == s[j] && r[j] == s[i]
    ensures forall m :: 0 <= m < |s| && m != i && m != j ==> r[m] == s[m]
  {
    s[i := s[j]][j := s[i]]
  }

  lemma SwapPermutes<T>(s: seq<T>, i: nat, j: nat)
    requires i < |s| && j < |s|
    ensures multiset(Swap(s, i, j)) == multiset(s)
  {
    var t := s[i := s[j]];
    assert multiset(t) == multiset(s) - multiset{s[i]} + multiset{s[j]};
    assert multiset(t[j := s[i]]) == multiset(t) - multiset{t[j]} + multiset{s[i]};
  }

  /** The list the shuffle ends with when draws m, m+1, ... are still to be
      applied to `r`: draw m swaps position |r| - 1 - m with js[m]. */
  function ShuffleFrom<T>(r: seq<T>, js: seq<int>, m: nat): (o: seq<T>)
    requires ShuffleOracle(js, |r|) && m <= |js|
    ensures |o| == |r|
    decreases |js| - m
  {
    if m == |js| then r else ShuffleFrom(Swap(r, |r| - 1 - m, js[m]), js, m + 1)
  }

  function Shuffled<T>(s: seq<T>, js: seq<int>): seq<T>
    requires ShuffleOracle(js, |s|)
  {
    ShuffleFrom(s, js, 0)
  }

  lemma {:induction false} ShuffleFromPermutes<T>(r: seq<T>, js: seq<int>, m: nat)
    requires ShuffleOracle(js, |r|) && m <= |js|
    ensures multiset(ShuffleFrom(r, js, m)) == multiset(r)
    decreases |js| - m
  {
    if m < |js| {
      SwapPermutes(r, |r| - 1 - m, js[m]);
      ShuffleFromPermutes(Swap(r, |r| - 1 - m, js[m]), js, m + 1);
    }
  }

  /** Whatever the draws, the shuffle yields a permutation of its input. */
  lemma ShuffledPermutes<T>(s: seq<T>, js: seq<int>)
    requires ShuffleOracle(js, |s|)
    ensures |Shuffled(s, js)| == |s|
    ensures multiset(Shuffled(s, js)) == multiset(s)
  {
    ShuffleFromPermutes(s, js, 0);
  }

  /** The in-place loop of the shuffle, over a list held as a sequence. */
  method Shuffle<T>(s: seq<T>, js: seq<int>) returns (r: seq<T>)
    requires ShuffleOracle(js, |s|)
    ensures r == Shuffled(s, js)
    ensures multiset(r) == multiset(s)
  {
    r := s;
    var i := |s| - 1;
    while i > 0
      invariant (if |s| == 0 then i == -1 else 0 <= i < |s|)
      invariant |r| == |s|
      invariant ShuffleFrom(r, js, |s| - 1 - i) == Shuffled(s, js)
    {
      var j := js[|s| - 1 - i];
      r := r[i := r[j]][j := r[i]];
      i := i - 1;
    }
    ShuffledPermutes(s, js);
  }
}
