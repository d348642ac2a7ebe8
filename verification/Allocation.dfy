/** The integer arithmetic of the ratio splitter: an online allocator that gives the n-th entry of
    a directory to training or to test, and the closed form of its decisions. */
module Allocation {

  /** How many entries of one directory went to training and to test. */
  datatype Counts = Counts(train: nat, test: nat)

  /** The comparison the splitter makes for the next entry, with training ratio a and test ratio b. */
  predicate ToTrain(c: Counts, a: int, b: int) {
    c.train * b <= c.test * a
  }

  function Count(c: Counts, a: int, b: int): Counts {
    if ToTrain(c, a, b) then c.(train := c.train + 1) else c.(test := c.test + 1)
  }

  /** The counts after n entries. */
  function After(n: nat, a: int, b: int): (c: Counts)
    ensures c.train + c.test == n
  {
    if n == 0 then Counts(0, 0) else Count(After(n - 1, a, b), a, b)
  }

  /** Whether entry number n of a directory (from 0) goes to training. */
  predicate Decision(n: nat, a: int, b: int) {
    ToTrain(After(n, a, b), a, b)
  }

  lemma AfterNext(n: nat, a: int, b: int)
    ensures After(n + 1, a, b).train == After(n, a, b).train + if Decision(n, a, b) then 1 else 0
    ensures After(n + 1, a, b).test == After(n, a, b).test + if Decision(n, a, b) then 0 else 1
  {
  }

  lemma DivisionBasics(x: int, d: int)
    requires d > 0
    ensures (x / d) * d <= x < (x / d) * d + d
  {
  }

  lemma MulAtLeast(d: int, q: int, r: int)
    requires d > 0 && q < r
    ensures q * d + d <= r * d
  {
    var k := r - q - 1;
    assert k * d >= 0;
    assert r * d == (q + 1 + k) * d == q * d + d + k * d;
  }

  /** Two multiples of d below x and within d of it are the same. */
  lemma SameMultiple(x: int, d: int, q: int, r: int)
    requires d > 0 && q * d <= x < q * d + d && r * d <= x < r * d + d
    ensures q == r
  {
    if q < r { MulAtLeast(d, q, r); } else if r < q { MulAtLeast(d, r, q); }
  }

  /** q is the integer quotient of x by d. */
  lemma QuotientIs(x: int, d: int, q: int)
    requires d > 0 && q * d <= x < (q + 1) * d
    ensures x / d == q
  {
    DivisionBasics(x, d);
    assert (q + 1) * d == q * d + d;
    SameMultiple(x, d, q, x / d);
  }

  /** How far the counts are from the exact ratio; only additions of b and subtractions of a. */
  function Drift(n: nat, a: int, b: int): int {
    if n == 0 then 0
    else if Drift(n - 1, a, b) <= 0 then Drift(n - 1, a, b) + b else Drift(n - 1, a, b) - a
  }

  lemma StepDrift(x: int, y: int, a: int, b: int)
    ensures (x + 1) * b - y * a == x * b - y * a + b && x * b - (y + 1) * a == x * b - y * a - a
  {
  }

  lemma {:induction false} DriftOfCounts(n: nat, a: int, b: int)
    ensures Drift(n, a, b) == After(n, a, b).train * b - After(n, a, b).test * a
    ensures Decision(n, a, b) <==> Drift(n, a, b) <= 0
  {
    if n > 0 {
      DriftOfCounts(n - 1, a, b);
      StepDrift(After(n - 1, a, b).train, After(n - 1, a, b).test, a, b);
    }
  }

  lemma {:induction false} DriftBounds(n: nat, a: int, b: int)
    requires a >= 1 && b >= 0
    ensures 1 - a <= Drift(n, a, b) <= b
  {
    if n > 0 { DriftBounds(n - 1, a, b); }
  }

  /** The splitter never strays from the ratio by more than one entry. */
  lemma {:induction false} Balance(n: nat, a: int, b: int)
    requires a >= 1 && b >= 0
    ensures 1 - a <= After(n, a, b).train * b - After(n, a, b).test * a <= b
  {
    DriftOfCounts(n, a, b);
    DriftBounds(n, a, b);
  }

  lemma BalanceBounds(x: int, y: int, a: int, b: int)
    requires 1 - a <= x * b - y * a <= b
    ensures x * (a + b) <= (x + y) * a + b < (x + 1) * (a + b)
  {
    assert x * (a + b) == x * a + x * b && (x + y) * a == x * a + y * a;
    assert (x + 1) * (a + b) == x * (a + b) + a + b;
  }

  /** After n entries of a directory exactly floor((n*a + b) / (a + b)) went to training. */
  lemma ClosedForm(n: nat, a: int, b: int)
    requires a >= 1 && b >= 0
    ensures After(n, a, b).train == (n * a + b) / (a + b)
  {
    Balance(n, a, b);
    var c := After(n, a, b);
    BalanceBounds(c.train, c.test, a, b);
    QuotientIs(n * a + b, a + b, c.train);
  }

  lemma RemainderIs(x: int, d: int, q: int, r: int)
    requires d > 0 && x == q * d + r && 0 <= r < d
    ensures x % d == r
  {
    assert (q + 1) * d == q * d + d;
    QuotientIs(x, d, q);
  }

  /** Which entries go to training, without counting: entry n does exactly if n*a + b leaves at least
      b over multiples of a + b. */
  lemma DecisionIff(n: nat, a: int, b: int)
    requires a >= 1 && b >= 0
    ensures Decision(n, a, b) <==> (n * a + b) % (a + b) >= b
  {
    var c := After(n, a, b);
    Balance(n, a, b);
    assert c.train * (a + b) == c.train * a + c.train * b && n * a == c.train * a + c.test * a;
    RemainderIs(n * a + b, a + b, c.train, b - (c.train * b - c.test * a));
  }

  /** With a training ratio of 0 only the first entry goes to training, and with two zero ratios all do. */
  lemma {:induction false} ZeroRatio(n: nat, b: int)
    requires b >= 0
    ensures After(n, 0, b).train == if b == 0 then n else if n == 0 then 0 else 1
  {
    if n > 0 {
      ZeroRatio(n - 1, b);
    }
  }

  /** Entry n goes to training exactly when the closed form steps up at n. */
  lemma DecisionStepsUp(n: nat, a: int, b: int)
    ensures Decision(n, a, b) <==> After(n + 1, a, b).train == After(n, a, b).train + 1
  {
  }

  /** The first entry of every directory goes to training, and the second one to test. */
  lemma FirstTrainsSecondTests(a: int, b: int)
    requires b >= 1
    ensures Decision(0, a, b) && !Decision(1, a, b)
  {
    assert After(1, a, b) == Counts(1, 0);
  }

  /** Multiplying both ratios by the same factor changes no decision. */
  lemma {:induction false} Scaling(n: nat, k: int, a: int, b: int)
    requires k >= 1
    ensures After(n, k * a, k * b) == After(n, a, b) && (Decision(n, k * a, k * b) <==> Decision(n, a, b))
  {
    if n > 0 { Scaling(n - 1, k, a, b); }
    var c := After(n, a, b);
    Swap(c.train, k, b);
    Swap(c.test, k, a);
    MulKeepsOrder(k, c.train * b, c.test * a);
  }

  lemma Swap(x: int, k: int, y: int)
    ensures x * (k * y) == k * (x * y)
  {
  }

  lemma MulKeepsOrder(k: int, x: int, y: int)
    requires k >= 1
    ensures k * x <= k * y <==> x <= y
  {
    if x < y { assert k * (y - x) > 0; } else if x > y { assert k * (x - y) > 0; }
  }

  /** For every common divisor g of the ratios the decisions repeat every (a + b) / g entries, and
      each such stretch holds exactly a / g training and b / g test entries. */
  lemma Periodicity(n: nat, g: int, p: int, q: int)
    requires g >= 1 && p >= 1 && q >= 0
    ensures var a, b := g * p, g * q;
            && After(n + p + q, a, b) == Counts(After(n, a, b).train + p, After(n, a, b).test + q)
            && (Decision(n + p + q, a, b) <==> Decision(n, a, b))
  {
    Scaling(n, g, p, q);
    Scaling(n + p + q, g, p, q);
    Shift(n, p, q);
    Shift(n + 1, p, q);
    DecisionStepsUp(n, p, q);
    DecisionStepsUp(n + p + q, p, q);
  }

  lemma Shift(n: nat, p: int, q: int)
    requires p >= 1 && q >= 0
    ensures After(n + p + q, p, q) == Counts(After(n, p, q).train + p, After(n, p, q).test + q)
  {
    ClosedForm(n, p, q);
    ClosedForm(n + p + q, p, q);
    ShiftedQuotient(n, p, q);
  }

  lemma ShiftedQuotient(n: int, p: int, q: int)
    requires p + q > 0
    ensures ((n + p + q) * p + q) / (p + q) == (n * p + q) / (p + q) + p
  {
    ShiftedNumerator(n, p, q);
    QuotientPlus(n * p + q, p, p + q);
  }

  lemma ShiftedNumerator(n: int, p: int, q: int)
    ensures (n + p + q) * p + q == n * p + q + p * (p + q)
  {
    assert (n + p + q) * p == n * p + (p + q) * p;
  }

  lemma QuotientPlus(x: int, p: int, d: int)
    requires d > 0
    ensures (x + p * d) / d == x / d + p
  {
    DivisionBasics(x, d);
    var q := x / d;
    Distribute(q, p, d);
    QuotientIs(x + p * d, d, q + p);
  }

  lemma Distribute(q: int, p: int, d: int)
    ensures (q + p) * d == q * d + p * d && (q + p + 1) * d == q * d + p * d + d
  {
  }

  /** m entries are a period of the decisions. */
  ghost predicate Repeats(m: nat, a: int, b: int) {
    forall n: nat :: Decision(m + n, a, b) <==> Decision(n, a, b)
  }

  /** Once the counts are in the exact ratio, the splitter decides as if it started afresh. */
  lemma {:induction false} ExactRestarts(m: nat, n: nat, a: int, b: int)
    requires Drift(m, a, b) == 0
    ensures Drift(m + n, a, b) == Drift(n, a, b)
  {
    if n > 0 {
      ExactRestarts(m, n - 1, a, b);
      assert m + n - 1 == m + (n - 1);
    }
  }

  lemma {:induction false} RepeatedDrift(m: nat, n: nat, a: int, b: int)
    requires Repeats(m, a, b)
    ensures Drift(m + n, a, b) == Drift(m, a, b) + Drift(n, a, b)
  {
    if n > 0 {
      RepeatedDrift(m, n - 1, a, b);
      assert Decision(m + (n - 1), a, b) <==> Decision(n - 1, a, b);
      DriftOfCounts(m + (n - 1), a, b);
      DriftOfCounts(n - 1, a, b);
      assert m + n - 1 == m + (n - 1);
    }
  }

  /** After k periods the drift of one period has piled up k times. */
  lemma {:induction false} ManyPeriods(m: nat, k: nat, a: int, b: int) returns (n: nat)
    requires Repeats(m, a, b)
    ensures Drift(m, a, b) >= 1 ==> Drift(n, a, b) >= k
    ensures Drift(m, a, b) <= -1 ==> Drift(n, a, b) + k <= 0
  {
    if k == 0 {
      n := 0;
    } else {
      n := ManyPeriods(m, k - 1, a, b);
      RepeatedDrift(m, n, a, b);
      n := m + n;
    }
  }

  /** The decisions repeat every m entries if and only if m entries are split in the exact ratio. */
  lemma PeriodsAreExact(m: nat, a: int, b: int)
    requires a >= 1 && b >= 0
    ensures Repeats(m, a, b) <==> After(m, a, b).train * b == After(m, a, b).test * a
  {
    DriftOfCounts(m, a, b);
    if Repeats(m, a, b) {
      var n := ManyPeriods(m, a + b + 1, a, b);
      DriftBounds(n, a, b);
    }
    if Drift(m, a, b) == 0 {
      forall n: nat ensures Decision(m + n, a, b) <==> Decision(n, a, b) {
        ExactRestarts(m, n, a, b);
        DriftOfCounts(m + n, a, b);
        DriftOfCounts(n, a, b);
      }
    }
  }

  function Gcd(a: nat, b: nat): (g: nat)
    requires a > 0
    ensures g > 0
    decreases b
  {
    if b == 0 then a else Gcd(b, a % b)
  }

  lemma DivMod(a: nat, b: nat)
    requires b > 0
    ensures a == b * (a / b) + a % b
  {
  }

  /** The greatest common divisor divides both numbers and is a combination of them. */
  lemma {:induction false} GcdFactors(a: nat, b: nat) returns (p: nat, q: nat, u: int, v: int)
    requires a > 0
    ensures var g := Gcd(a, b); a == g * p && b == g * q && u * p + v * q == 1
    decreases b
  {
    if b == 0 {
      p, q, u, v := 1, 0, 1, 0;
    } else {
      var r, s, x, y := GcdFactors(b, a % b);
      var k, g := a / b, Gcd(a, b);
      DivMod(a, b);
      p, q, u, v := r * k + s, r, y, x - y * k;
      FactorStep(g, r, s, k);
      BezoutStep(r, s, x, y, k);
    }
  }

  lemma FactorStep(g: int, r: int, s: int, k: int)
    ensures g * r * k + g * s == g * (r * k + s)
  {
  }

  lemma BezoutStep(r: int, s: int, x: int, y: int, k: int)
    requires x * r + y * s == 1
    ensures y * (r * k + s) + (x - y * k) * r == 1
  {
    assert y * (r * k + s) == y * (r * k) + y * s;
    assert (x - y * k) * r == x * r - (y * k) * r;
    assert y * (r * k) == (y * k) * r;
  }

  /** Counts in the exact ratio p : q of two coprime numbers are a multiple of them. */
  lemma ExactCounts(t: int, s: int, p: int, q: int, u: int, v: int)
    requires t * q == s * p && u * p + v * q == 1
    ensures t == p * (u * t + v * s) && s == q * (u * t + v * s)
  {
    calc {
      p * (u * t + v * s);
      p * (u * t) + p * (v * s);
      { assert p * (u * t) == t * (u * p) && p * (v * s) == v * (s * p); }
      t * (u * p) + v * (t * q);
      { assert v * (t * q) == t * (v * q); }
      t * (u * p) + t * (v * q);
      t * (u * p + v * q);
      t;
    }
    calc {
      q * (u * t + v * s);
      q * (u * t) + q * (v * s);
      { assert q * (u * t) == u * (t * q) && q * (v * s) == s * (v * q); }
      u * (s * p) + s * (v * q);
      { assert u * (s * p) == s * (u * p); }
      s * (u * p) + s * (v * q);
      s * (u * p + v * q);
      s;
    }
  }

  /** k periods of the reduced ratio. */
  lemma {:induction false} MultiplesOfPeriod(k: nat, g: int, p: int, q: int)
    requires g >= 1 && p >= 1 && q >= 0
    ensures k * (p + q) >= 0 && After(k * (p + q), g * p, g * q) == Counts(k * p, k * q)
  {
    if k > 0 {
      MultiplesOfPeriod(k - 1, g, p, q);
      Periodicity((k - 1) * (p + q), g, p, q);
      assert (k - 1) * (p + q) + p + q == k * (p + q);
      assert (k - 1) * p + p == k * p && (k - 1) * q + q == k * q;
    }
  }

  lemma MultipleHasNoRest(k: nat, d: nat)
    requires d > 0
    ensures (k * d) % d == 0 && (k * d) / d == k
  {
    QuotientIs(k * d, d, k);
  }

  lemma ScaledRatio(t: int, s: int, g: int, p: int, q: int)
    requires g >= 1
    ensures t * (g * q) == s * (g * p) <==> t * q == s * p
  {
    Swap(t, g, q);
    Swap(s, g, p);
    MulKeepsOrder(g, t * q, s * p);
    MulKeepsOrder(g, s * p, t * q);
  }

  lemma ReducedSum(a: nat, b: nat, g: nat, p: nat, q: nat)
    requires g > 0 && a == g * p && b == g * q
    ensures (a + b) / g == p + q
  {
    assert a + b == (p + q) * g;
    MultipleHasNoRest(p + q, g);
  }

  lemma ExactMultiple(m: nat, t: int, s: int, p: int, q: int, k: int)
    requires t + s == m && t == p * k && s == q * k && p >= 1 && q >= 0
    ensures k >= 0 && m == k * (p + q)
  {
    assert m == k * (p + q);
    MulKeepsOrder(p + q, 0, k);
  }

  lemma ExactIsMultiple(m: nat, a: nat, b: nat, g: nat, p: nat, q: nat, u: int, v: int)
    requires g > 0 && p >= 1 && a == g * p && b == g * q && u * p + v * q == 1
    requires After(m, a, b).train * b == After(m, a, b).test * a
    ensures m % (p + q) == 0
  {
    var c := After(m, a, b);
    ScaledRatio(c.train, c.test, g, p, q);
    ExactCounts(c.train, c.test, p, q, u, v);
    var k := u * c.train + v * c.test;
    ExactMultiple(m, c.train, c.test, p, q, k);
    MultipleHasNoRest(k, p + q);
  }

  lemma CrossProducts(k: int, p: int, q: int)
    ensures (k * p) * q == (k * q) * p
  {
  }

  lemma MultipleIsExact(k: nat, g: nat, p: nat, q: nat)
    requires g > 0 && p >= 1
    ensures k * (p + q) >= 0
    ensures var c := After(k * (p + q), g * p, g * q); c.train * (g * q) == c.test * (g * p)
  {
    MultiplesOfPeriod(k, g, p, q);
    CrossProducts(k, p, q);
    ScaledRatio(k * p, k * q, g, p, q);
  }

  lemma MultipleOf(m: nat, d: nat) returns (k: nat)
    requires d > 0 && m % d == 0
    ensures m == k * d
  {
    k := m / d;
    DivMod(m, d);
  }

  /** The decisions repeat every m entries if and only if m is a multiple of (a + b) / gcd(a, b), which
      is therefore their least period. */
  lemma LeastPeriod(m: nat, a: nat, b: nat)
    requires a >= 1
    ensures (a + b) / Gcd(a, b) > 0
    ensures Repeats(m, a, b) <==> m % ((a + b) / Gcd(a, b)) == 0
  {
    var g := Gcd(a, b);
    var p, q, u, v := GcdFactors(a, b);
    assert p >= 1;
    ReducedSum(a, b, g, p, q);
    PeriodsAreExact(m, a, b);
    if Repeats(m, a, b) { ExactIsMultiple(m, a, b, g, p, q, u, v); }
    if m % (p + q) == 0 {
      var k := MultipleOf(m, p + q);
      MultipleIsExact(k, g, p, q);
    }
  }
}
