/** Integer helpers standing in for numpy's `lcm` and for Python's floor division `//`. */
module Numbers {

  /** Greatest common divisor by Euclid's algorithm. */
  function Gcd(a: nat, b: nat): nat
    decreases b
  {
    if b == 0 then a else Gcd(b, a % b)
  }

  /** `d` divides `x`. */
  predicate Divides(d: nat, x: nat)
  {
    d > 0 && x % d == 0
  }

  lemma MulMonotone(g: nat, t: int)
    requires t >= 1
    ensures g * t >= g
  {
    var u := t - 1;
    assert g * t == g * u + g;
  }

  /** A multiple of `g` leaves no remainder, and dividing it by `g` gives the factor back. */
  lemma MulMod(k: nat, g: nat)
    requires g > 0
    ensures (k * g) % g == 0 && (k * g) / g == k
  {
    var x := k * g;
    var q, r := x / g, x % g;
    assert x == g * q + r;
    var t := k - q;
    assert g * t == r;
    if t >= 1 {
      MulMonotone(g, t);
    }
  }

  lemma {:induction false} GcdDivides(a: nat, b: nat)
    requires a > 0 || b > 0
    ensures Gcd(a, b) > 0
    ensures Divides(Gcd(a, b), a) && Divides(Gcd(a, b), b)
    decreases b
  {
    if b > 0 {
      GcdDivides(b, a % b);
      DividesSum(Gcd(b, a % b), b, a % b, a / b, a);
    }
  }

  /** A divisor of `b` and of `r` divides `b * d + r`. */
  lemma DividesSum(g: nat, b: nat, r: nat, d: nat, a: nat)
    requires Divides(g, b) && Divides(g, r) && a == b * d + r
    ensures Divides(g, a)
  {
    Factor(b, g);
    Factor(r, g);
    Combine(g, b / g, r / g, d);
    MulMod((b / g) * d + r / g, g);
  }

  lemma Combine(g: nat, p: nat, q: nat, d: nat)
    ensures (g * p) * d + g * q == (p * d + q) * g
  {
  }

  /**
   * Least common multiple of two positive integers, computed as numpy's `lcm` does, from the gcd.
   */
  function Lcm(a: nat, b: nat): (m: nat)
    requires a > 0 && b > 0
    ensures m > 0 && Divides(a, m) && Divides(b, m)
    ensures m <= a * b
  {
    LcmIsCommonMultiple(a, b);
    (a / Gcd(a, b)) * b
  }

  lemma LcmIsCommonMultiple(a: nat, b: nat)
    requires a > 0 && b > 0
    ensures Gcd(a, b) > 0
    ensures var m := (a / Gcd(a, b)) * b; m > 0 && Divides(a, m) && Divides(b, m) && m <= a * b
  {
    GcdDivides(a, b);
    var g := Gcd(a, b);
    Factor(a, g);
    Factor(b, g);
    CommonMultiple(g, a / g, b / g);
  }

  /** `x` is `g` times `x / g` when `g` divides `x`. */
  lemma Factor(x: nat, g: nat)
    requires Divides(g, x)
    ensures x == g * (x / g)
  {
  }

  lemma CommonMultiple(g: nat, p: nat, q: nat)
    requires g > 0 && p > 0 && q > 0
    ensures var a, b := g * p, g * q;
      var m := p * b; m > 0 && Divides(a, m) && Divides(b, m) && m <= a * b
  {
    var a, b := g * p, g * q;
    var m := p * b;
    MulMonotone(b, p);
    MulMod(p, b);
    assert m == q * a by { Rearrange(g, p, q); }
    MulMod(q, a);
    assert p <= a by { MulMonotone(p, g); }
    MulLe(p, a, b);
  }

  lemma Rearrange(g: int, p: int, q: int)
    ensures p * (g * q) == q * (g * p)
  {
  }

  lemma MulLe(x: nat, y: nat, z: nat)
    requires x <= y
    ensures x * z <= y * z
  {
    assert y * z == x * z + (y - x) * z;
  }

  /**
   * `np.lcm.reduce(ns)`: the lcm of a non-empty list of positive integers, folded from the left.
   */
  function LcmAll(ns: seq<nat>): (m: nat)
    requires |ns| > 0 && forall i :: 0 <= i < |ns| ==> ns[i] > 0
    ensures m > 0 && forall i :: 0 <= i < |ns| ==> Divides(ns[i], m)
  {
    if |ns| == 1 then ns[0]
    else
      var prefix := LcmAll(ns[..|ns| - 1]);
      var m := Lcm(prefix, ns[|ns| - 1]);
      assert forall i :: 0 <= i < |ns| - 1 ==> Divides(ns[i], prefix) by {
        forall i | 0 <= i < |ns| - 1 ensures Divides(ns[i], prefix) {
          assert ns[..|ns| - 1][i] == ns[i];
        }
      }
      DividesTransitiveAll(ns[..|ns| - 1], prefix, m);
      m
  }

  lemma DividesTransitiveAll(ns: seq<nat>, b: nat, c: nat)
    requires forall i :: 0 <= i < |ns| ==> Divides(ns[i], b)
    requires Divides(b, c)
    ensures forall i :: 0 <= i < |ns| ==> Divides(ns[i], c)
  {
    forall i | 0 <= i < |ns| ensures Divides(ns[i], c) {
      DividesTransitive(ns[i], b, c);
    }
  }

  lemma DividesTransitive(a: nat, b: nat, c: nat)
    requires Divides(a, b) && Divides(b, c)
    ensures Divides(a, c)
  {
    var k, l := b / a, c / b;
    assert b == a * k && c == b * l;
    assert c == (l * k) * a;
    MulMod(l * k, a);
  }

  /** The lcm of a number with itself is that number. */
  lemma LcmSelf(a: nat)
    requires a > 0
    ensures Lcm(a, a) == a
  {
    assert Gcd(a, a) == Gcd(a, 0) == a;
    MulMod(1, a);
  }

  /** The remainder is determined by any quotient-remainder decomposition. */
  lemma ModUnique(z: int, n: int, q: int, r: int)
    requires n > 0 && z == n * q + r && 0 <= r < n
    ensures z % n == r
  {
    var t := q - z / n;
    assert z == n * (z / n) + z % n;
    assert n * t == z % n - r by {
      assert n * t == n * q - n * (z / n);
    }
    if t >= 1 {
      MulMonotone(n, t);
    } else if t <= -1 {
      MulMonotone(n, -t);
    }
  }

  /** Reducing one summand modulo `n` first does not change the sum modulo `n`. */
  lemma ModShift(x: int, y: int, n: int)
    requires n > 0
    ensures (x + y) % n == (x + y % n) % n
  {
    var w := x + y % n;
    var q1 := w / n;
    assert w == n * q1 + w % n;
    assert y == n * (y / n) + y % n;
    assert x + y == n * (q1 + y / n) + w % n;
    ModUnique(x + y, n, q1 + y / n, w % n);
  }

  /** Python's `a // b`: division rounding toward negative infinity (Dafny's `/` is Euclidean). */
  function FloorDiv(a: int, b: int): (q: int)
    requires b != 0
    ensures b > 0 ==> q * b <= a < q * b + b
    ensures b < 0 ==> q * b + b < a <= q * b
  {
    if b > 0 then a / b else (-a) / (-b)
  }
}
