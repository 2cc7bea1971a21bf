/** The aspect ratio sent upstream, derived from a size such as 1024x1824. Ratios are exact. */
module AspectRatio {
  import opened Text

  // ---- greatest common divisor ----

  function Gcd(a: nat, b: nat): nat
    decreases b
  {
    if b == 0 then a else Gcd(b, a % b)
  }

  /** The Euclidean loop computes it and ends. */
  method ComputeGcd(x: nat, y: nat) returns (d: nat)
    ensures d == Gcd(x, y)
  {
    var a, b := x, y;
    while b != 0
      invariant Gcd(a, b) == Gcd(x, y)
      decreases b
    {
      a, b := b, a % b;
    }
    d := a;
  }

  ghost predicate Divides(d: nat, a: nat) {
    exists k: nat :: a == d * k
  }

  lemma DividesSum(d: nat, a: nat, b: nat, q: nat)
    requires Divides(d, a) && Divides(d, b)
    ensures Divides(d, a * q + b)
  {
    var j: nat, k: nat :| a == d * j && b == d * k;
    assert a * q + b == d * (j * q + k);
  }

  lemma ProductSign(b: nat, d: int)
    requires b > 0
    ensures d >= 1 ==> b * d >= b
    ensures d <= -1 ==> b * d <= 0 - b
  {
  }

  lemma FactorOut(d: nat, j: nat, q: nat, k: nat, b: nat)
    requires d * j * q + b == d * k
    ensures b == d * (k - j * q)
  {
  }

  lemma DividesDifference(d: nat, a: nat, b: nat, q: nat)
    requires d > 0 && Divides(d, a * q + b) && Divides(d, a)
    ensures Divides(d, b)
  {
    var j: nat :| a == d * j;
    var k: nat :| a * q + b == d * k;
    var m := k - j * q;
    FactorOut(d, j, q, k, b);
    ProductSign(d, m);
    assert m >= 0;
  }

  lemma DividesItself(a: nat)
    ensures Divides(a, a) && Divides(a, 0)
  {
    assert a == a * 1 && 0 == a * 0;
  }

  /** Gcd divides both numbers, and every common divisor divides it. */
  lemma {:induction false} GcdIsGreatest(a: nat, b: nat)
    requires a > 0 || b > 0
    ensures Gcd(a, b) > 0 && Divides(Gcd(a, b), a) && Divides(Gcd(a, b), b)
    ensures forall d: nat :: d > 0 && Divides(d, a) && Divides(d, b) ==> Divides(d, Gcd(a, b))
    decreases b
  {
    if b == 0 {
      DividesItself(a);
    } else {
      GcdIsGreatest(b, a % b);
      var g := Gcd(b, a % b);
      assert a == b * (a / b) + a % b;
      DividesSum(g, b, a % b, a / b);
      forall d: nat | d > 0 && Divides(d, a) && Divides(d, b) ensures Divides(d, g) {
        DividesDifference(d, b, a % b, a / b);
      }
    }
  }

  lemma DivisionIsUnique(a: nat, b: nat, q: nat, r: nat)
    requires b > 0 && a == b * q + r && r < b
    ensures a / b == q && a % b == r
  {
    var d := a / b - q;
    assert b * d == r - a % b;
    ProductSign(b, d);
  }

  lemma ScaledDivision(k: nat, a: nat, b: nat)
    requires k > 0 && b > 0
    ensures k * b > 0 && (k * a) / (k * b) == a / b && (k * a) % (k * b) == k * (a % b)
  {
    var q, r := a / b, a % b;
    assert k * a == (k * b) * q + k * r by {
      assert a == b * q + r;
      assert k * (b * q + r) == (k * b) * q + k * r;
    }
    assert k * r < k * b;
    DivisionIsUnique(k * a, k * b, q, k * r);
  }

  /** A common factor comes out of a Gcd. */
  lemma {:induction false} GcdScales(k: nat, a: nat, b: nat)
    requires k > 0
    ensures Gcd(k * a, k * b) == k * Gcd(a, b)
    decreases b
  {
    if b > 0 {
      ScaledDivision(k, a, b);
      GcdScales(k, b, a % b);
    }
  }

  lemma ExactQuotient(a: nat, g: nat)
    requires g > 0 && Divides(g, a)
    ensures g * (a / g) == a
  {
    var j: nat :| a == g * j;
    DivisionIsUnique(a, g, j, 0);
  }

  lemma UnitFactor(g: nat, x: nat)
    requires g > 0 && g * x == g
    ensures x == 1
  {
    ProductSign(g, x - 1);
  }

  lemma SwapFactors(g: nat, x: nat, y: nat)
    ensures x * (g * y) == y * (g * x)
  {
  }

  /** Dividing both numbers by their Gcd keeps the ratio and leaves no common factor. */
  lemma GcdReduces(a: nat, b: nat)
    requires a > 0 && b > 0
    ensures var g := Gcd(a, b);
      g > 0 && Gcd(a / g, b / g) == 1 && (a / g) * b == (b / g) * a
  {
    GcdIsGreatest(a, b);
    var g := Gcd(a, b);
    ExactQuotient(a, g);
    ExactQuotient(b, g);
    GcdScales(g, a / g, b / g);
    UnitFactor(g, Gcd(a / g, b / g));
    SwapFactors(g, a / g, b / g);
  }

  // ---- presets ----

  datatype Preset = Preset(name: string, value: real)

  const PRESETS: seq<Preset> := [
    Preset("9:16", 9.0 / 16.0), Preset("16:9", 16.0 / 9.0), Preset("3:4", 3.0 / 4.0),
    Preset("4:3", 4.0 / 3.0), Preset("1:1", 1.0)]

  function Abs(x: real): real {
    if x < 0.0 then -x else x
  }

  /** The relative distance from a preset. */
  function Delta(actual: real, p: Preset): real
    requires p.value != 0.0
  {
    Abs(actual - p.value) / p.value
  }

  /** Within three percent. */
  predicate IsClose(actual: real, i: nat) {
    i < |PRESETS| && Delta(actual, PRESETS[i]) < 0.03
  }

  /** No ratio is close to two presets. */
  lemma ClosePresetIsUnique(actual: real, i: nat, j: nat)
    requires IsClose(actual, i) && IsClose(actual, j)
    ensures i == j
  {
  }

  /** Close means strictly between 97 and 103 percent of the preset. */
  lemma CloseMeans(r: real)
    ensures IsClose(r, 0) <==> 0.97 * 9.0 / 16.0 < r < 1.03 * 9.0 / 16.0
    ensures IsClose(r, 1) <==> 0.97 * 16.0 / 9.0 < r < 1.03 * 16.0 / 9.0
    ensures IsClose(r, 2) <==> 0.97 * 3.0 / 4.0 < r < 1.03 * 3.0 / 4.0
    ensures IsClose(r, 3) <==> 0.97 * 4.0 / 3.0 < r < 1.03 * 4.0 / 3.0
    ensures IsClose(r, 4) <==> 0.97 < r < 1.03
    ensures forall i: nat :: i >= 5 ==> !IsClose(r, i)
  {
  }

  function Actual(width: nat, height: nat): real
    requires height > 0
  {
    width as real / height as real
  }

  /** The exact ratio in lowest terms. */
  function Reduced(width: nat, height: nat): string
    requires width > 0 && height > 0
  {
    GcdIsGreatest(width, height);
    Itoa(width / Gcd(width, height)) + ":" + Itoa(height / Gcd(width, height))
  }

  /** The name of a close preset, or the reduced ratio. */
  ghost predicate IsRatio(width: nat, height: nat, ratio: string)
    requires width > 0 && height > 0
  {
    && (forall i: nat :: IsClose(Actual(width, height), i) ==> ratio == PRESETS[i].name)
    && ((forall i: nat :: !IsClose(Actual(width, height), i)) ==> ratio == Reduced(width, height))
  }

  /** The preset loop and the reduction of aspectRatioFromSize. */
  method ComputeRatio(width: nat, height: nat) returns (ratio: string)
    requires width > 0 && height > 0
    ensures IsRatio(width, height, ratio)
  {
    var actual := Actual(width, height);
    var bestName, bestDelta := "", 10.0;
    ghost var best: nat := |PRESETS|;
    for i := 0 to |PRESETS|
      invariant bestDelta <= 10.0
      invariant forall j: nat :: j < i ==> bestDelta <= Delta(actual, PRESETS[j])
      invariant bestDelta < 10.0 ==>
        best < i && bestDelta == Delta(actual, PRESETS[best]) && bestName == PRESETS[best].name
    {
      var delta := Delta(actual, PRESETS[i]);
      if delta < bestDelta {
        bestDelta := delta;
        bestName := PRESETS[i].name;
        best := i;
      }
    }
    if bestDelta < 0.03 {
      assert IsClose(actual, best);
      forall i: nat | IsClose(actual, i) ensures i == best {
        ClosePresetIsUnique(actual, i, best);
      }
      return bestName;
    }
    var divisor := ComputeGcd(width, height);
    GcdIsGreatest(width, height);
    return Itoa(width / divisor) + ":" + Itoa(height / divisor);
  }

  lemma RatioNearPreset(width: nat, height: nat, i: nat, ratio: string)
    requires width > 0 && height > 0 && IsClose(Actual(width, height), i)
    ensures IsRatio(width, height, ratio) <==> ratio == PRESETS[i].name
  {
    forall j: nat | IsClose(Actual(width, height), j) ensures j == i {
      ClosePresetIsUnique(Actual(width, height), i, j);
    }
  }

  /** Five ratios have names; any other one is printed in lowest terms. */
  lemma RatioMeans(width: nat, height: nat, ratio: string)
    requires width > 0 && height > 0
    ensures var r, g := width as real / height as real, Gcd(width, height);
      && g > 0
      && (IsRatio(width, height, ratio) <==>
            ratio == if 0.97 * 9.0 / 16.0 < r < 1.03 * 9.0 / 16.0 then "9:16"
                     else if 0.97 * 16.0 / 9.0 < r < 1.03 * 16.0 / 9.0 then "16:9"
                     else if 0.97 * 3.0 / 4.0 < r < 1.03 * 3.0 / 4.0 then "3:4"
                     else if 0.97 * 4.0 / 3.0 < r < 1.03 * 4.0 / 3.0 then "4:3"
                     else if 0.97 < r < 1.03 then "1:1"
                     else Itoa(width / g) + ":" + Itoa(height / g))
  {
    var r := Actual(width, height);
    GcdIsGreatest(width, height);
    CloseMeans(r);
    if i: nat :| IsClose(r, i) {
      RatioNearPreset(width, height, i, ratio);
    }
  }

  /** The result is determined by the two numbers. */
  lemma RatioIsUnique(width: nat, height: nat, a: string, b: string)
    requires width > 0 && height > 0 && IsRatio(width, height, a) && IsRatio(width, height, b)
    ensures a == b
  {
    if i: nat :| IsClose(Actual(width, height), i) {
    }
  }

  lemma ActualScales(k: nat, width: nat, height: nat)
    requires k > 0 && height > 0
    ensures k * height > 0 && Actual(k * width, k * height) == Actual(width, height)
  {
    var x := Actual(width, height);
    var kr, w, h := k as real, width as real, height as real;
    assert x * h == w;
    assert (k * width) as real == kr * w && (k * height) as real == kr * h;
    assert x * (kr * h) == kr * w;
  }

  /** Scaling both sides by a common factor does not change the result. */
  lemma RatioScales(k: nat, width: nat, height: nat, ratio: string)
    requires k > 0 && width > 0 && height > 0 && IsRatio(width, height, ratio)
    ensures k * width > 0 && k * height > 0 && IsRatio(k * width, k * height, ratio)
  {
    ActualScales(k, width, height);
    GcdScales(k, width, height);
    GcdIsGreatest(width, height);
    ScaledDivision(k, width, Gcd(width, height));
    ScaledDivision(k, height, Gcd(width, height));
  }

  /** What the two sizes give is the same text. */
  lemma ScaledResultIsSame(k: nat, width: nat, height: nat, ratio: string, scaled: string)
    requires k > 0 && width > 0 && height > 0 && k * width > 0 && k * height > 0
    requires IsRatio(width, height, ratio) && IsRatio(k * width, k * height, scaled)
    ensures ratio == scaled
  {
    RatioScales(k, width, height, ratio);
    RatioIsUnique(k * width, k * height, ratio, scaled);
  }

  // ---- reading a size ----

  predicate IsSeparator(c: char) {
    c == 'x' || c == 'X' || c == '\U{00D7}'
  }

  function FieldLength(s: string): (n: nat)
    ensures n <= |s| && (forall i :: 0 <= i < n ==> !IsSeparator(s[i])) && (n < |s| ==> IsSeparator(s[n]))
  {
    if s == "" || IsSeparator(s[0]) then 0 else 1 + FieldLength(s[1..])
  }

  /** strings.FieldsFunc */
  function Fields(s: string): seq<string>
    decreases |s|
  {
    if s == "" then []
    else if IsSeparator(s[0]) then Fields(s[1..])
    else [s[..FieldLength(s)]] + Fields(s[FieldLength(s)..])
  }

  /** The width and height a size names, if it names two positive ones. */
  function ReadSize(size: string): Option<(nat, nat)> {
    var parts := Fields(size);
    if |parts| != 2 then None
    else
      var width, height := Atoi(TrimSpace(parts[0])), Atoi(TrimSpace(parts[1]));
      if width.None? || height.None? || width.value <= 0 || height.value <= 0 then None
      else Some((width.value, height.value))
  }

  /** aspectRatioFromSize */
  method AspectRatioFromSize(size: string) returns (ratio: string)
    ensures match ReadSize(size)
      case None => ratio == ""
      case Some((width, height)) => width > 0 && height > 0 && IsRatio(width, height, ratio)
  {
    match ReadSize(size)
    case None => ratio := "";
    case Some((width, height)) => ratio := ComputeRatio(width, height);
  }

  lemma {:induction false} FieldOf(s: string, rest: string)
    requires (forall i :: 0 <= i < |s| ==> !IsSeparator(s[i])) && (rest == "" || IsSeparator(rest[0]))
    ensures FieldLength(s + rest) == |s|
  {
    if s != "" {
      assert (s + rest)[1..] == s[1..] + rest;
      FieldOf(s[1..], rest);
    } else {
      assert s + rest == rest;
    }
  }

  predicate HasNoSeparator(s: string) {
    forall i :: 0 <= i < |s| ==> !IsSeparator(s[i])
  }

  lemma FieldsOfOne(s: string)
    requires s != "" && HasNoSeparator(s)
    ensures Fields(s) == [s]
  {
    FieldOf(s, "");
    assert s + "" == s && s[..|s|] == s && s[|s|..] == "";
  }

  lemma FieldsOfTwo(a: string, separator: char, b: string)
    requires a != "" && b != "" && HasNoSeparator(a) && HasNoSeparator(b) && IsSeparator(separator)
    ensures Fields(a + [separator] + b) == [a, b]
  {
    var rest := [separator] + b;
    var s := a + rest;
    assert a + [separator] + b == s;
    FieldOf(a, rest);
    FieldsOfOne(b);
    assert rest[1..] == b;
    assert Fields(rest) == [b];
    assert s[..|a|] == a && s[|a|..] == rest;
    assert s[0] == a[0];
  }

  lemma PrintedNumber(n: nat)
    requires n <= MAX_INT
    ensures Itoa(n) != "" && HasNoSeparator(Itoa(n)) && Atoi(TrimSpace(Itoa(n))) == Some(n)
  {
    TrimSpaceTrims(Itoa(n));
    AtoiOfItoa(n);
  }

  /** Two texts around a separator name a size exactly when both, trimmed, are positive numbers. */
  lemma ReadTwoFields(a: string, separator: char, b: string)
    requires a != "" && b != "" && HasNoSeparator(a) && HasNoSeparator(b) && separator in {'x', 'X', '\U{00D7}'}
    ensures var (width, height) := (Atoi(TrimSpace(a)), Atoi(TrimSpace(b)));
      ReadSize(a + [separator] + b)
      == if width.Some? && height.Some? && width.value >= 1 && height.value >= 1
         then Some((width.value, height.value)) else None
  {
    FieldsOfTwo(a, separator, b);
  }

  /** A printed size is read back, whichever separator is used. */
  lemma ReadPrintedSize(width: nat, height: nat, separator: char)
    requires 0 < width <= MAX_INT && 0 < height <= MAX_INT && separator in {'x', 'X', '\U{00D7}'}
    ensures ReadSize(Itoa(width) + [separator] + Itoa(height)) == Some((width, height))
  {
    PrintedNumber(width);
    PrintedNumber(height);
    ReadTwoFields(Itoa(width), separator, Itoa(height));
  }
}
