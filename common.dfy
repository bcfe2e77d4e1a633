/** Small value helpers shared by the modules of this model: the optional
    value, the Math.min/Math.max clamp the hooks use everywhere, JavaScript's
    truncating remainder, and the loop-count of a `for (i = 0; i < n; i++)`
    loop whose bound is an arbitrary JavaScript number. */
module Common {

  datatype Option<+T> = None | Some(value: T) {
    function GetOr(default: T): T {
      match this
      case Some(v) => v
      case None => default
    }
  }

  function Min(a: real, b: real): real { if a <= b then a else b }
  function Max(a: real, b: real): real { if a >= b then a else b }
  function MinInt(a: int, b: int): int { if a <= b then a else b }
  function MaxInt(a: int, b: int): int { if a >= b then a else b }

  /** `Math.max(lo, Math.min(hi, x))`, the clamp written throughout the hooks.
      When lo > hi the outer max wins and the result is lo. */
  function Clamp(lo: real, hi: real, x: real): (r: real)
    ensures lo <= hi ==> lo <= r <= hi
    ensures lo <= x <= hi ==> r == x
    ensures x < lo ==> r == lo
    ensures lo <= hi && hi < x ==> r == hi
  {
    Max(lo, Min(hi, x))
  }

  /** Clamp on integers, `Math.max(lo, Math.min(hi, x))` over whole numbers. */
  function ClampInt(lo: int, hi: int, x: int): (r: int)
    ensures lo <= hi ==> lo <= r <= hi
    ensures lo <= x <= hi ==> r == x
    ensures x < lo ==> r == lo
    ensures lo <= hi && hi < x ==> r == hi
  {
    MaxInt(lo, MinInt(hi, x))
  }

  /** JavaScript's `%`: the remainder takes the sign of the dividend
      (truncating division), unlike Dafny's Euclidean `%`. */
  function JsRem(a: int, n: int): (r: int)
    requires n > 0
    ensures a >= 0 ==> r == a % n
    ensures -n < r < n
    ensures a < 0 ==> r <= 0
  {
    if a >= 0 then a % n else -((-a) % n)
  }

  /** `Math.ceil` on reals. */
  function Ceil(x: real): (r: int)
    ensures r as real >= x && (r as real) - 1.0 < x
  {
    -((-x).Floor)
  }

  /** Number of iterations of `for (let i = 0; i < bound; i++)` for a
      JavaScript number `bound`: none when bound <= 0, else ceil(bound). */
  function LoopCount(bound: real): (n: nat)
    ensures (n as real) >= bound
    ensures n > 0 ==> ((n - 1) as real) < bound
  {
    if bound <= 0.0 then 0 else Ceil(bound)
  }

  lemma MulAtLeast(a: int, n: int)
    requires a >= 1 && n > 0
    ensures a * n >= n
  {
    assert a * n == (a - 1) * n + n;
    assert (a - 1) * n >= 0;
  }

  /** Euclidean remainders are unique: x == q*n + r with 0 <= r < n
      determines x % n. */
  lemma ModUnique(x: int, q: int, r: int, n: int)
    requires n > 0 && 0 <= r < n && x == q * n + r
    ensures x % n == r
  {
    var q2, r2 := x / n, x % n;
    assert x == q2 * n + r2;
    assert q * n - q2 * n == r2 - r;
    assert (q - q2) * n == q * n - q2 * n;
    if q > q2 { MulAtLeast(q - q2, n); }
    if q < q2 { MulAtLeast(q2 - q, n); }
  }

  /** Reducing before adding does not change the remainder. */
  lemma ModAdd(x: int, b: int, n: int)
    requires n > 0
    ensures (x % n + b) % n == (x + b) % n
  {
    var q := x / n;
    var y := x % n + b;
    var q2 := y / n;
    assert x == q * n + x % n;
    assert y == q2 * n + y % n;
    assert x + b == (q + q2) * n + y % n;
    ModUnique(x + b, q + q2, y % n, n);
  }

  // ---------------------------------------------------------------------
  // Strings

  predicate StartsWith(s: string, prefix: string) {
    |prefix| <= |s| && s[..|prefix|] == prefix
  }

  /** `s.includes(p)`. */
  predicate Contains(s: string, p: string)
    decreases |s|
  {
    StartsWith(s, p) || (|s| > 0 && Contains(s[1..], p))
  }

  /** Contains holds exactly when p occurs at some offset of s. */
  lemma {:induction false} ContainsAt(s: string, p: string, k: nat)
    requires k + |p| <= |s| && s[k..k + |p|] == p
    ensures Contains(s, p)
    decreases k
  {
    if k > 0 {
      assert s[1..][k - 1..k - 1 + |p|] == p;
      ContainsAt(s[1..], p, k - 1);
    }
  }

  /** The converse: an occurrence offset of p in s. */
  lemma {:induction false} ContainsOffset(s: string, p: string) returns (k: nat)
    requires Contains(s, p)
    ensures k + |p| <= |s| && s[k..k + |p|] == p
    decreases |s|
  {
    if StartsWith(s, p) {
      k := 0;
    } else {
      var j := ContainsOffset(s[1..], p);
      assert s[1..][j..j + |p|] == s[j + 1..j + 1 + |p|];
      k := j + 1;
    }
  }

  /** An occurrence of an occurrence is an occurrence. */
  lemma ContainsTransitive(s: string, q: string, p: string)
    requires Contains(s, q) && Contains(q, p)
    ensures Contains(s, p)
  {
    var i := ContainsOffset(s, q);
    var j := ContainsOffset(q, p);
    forall k | 0 <= k < |p|
      ensures s[i + j + k] == p[k]
    {
      assert s[i..i + |q|][j + k] == q[j + k];
      assert q[j..j + |p|][k] == p[k];
    }
    assert s[i + j..i + j + |p|] == p;
    ContainsAt(s, p, i + j);
  }
}
