/** Small shared vocabulary: optional values (the source's `null`), the
    JavaScript truthiness test on optional strings, and `Math.round` of an
    integer quotient done with integers only. */
module Common {

  datatype Option<+T> = None | Some(value: T) {
    function GetOr(default: T): T {
      match this
      case Some(v) => v
      case None => default
    }
  }

  /** JavaScript truthiness of a value that is either a string or null/undefined:
      `null`, `undefined` and `""` are falsy, every other string is truthy. */
  predicate Truthy(o: Option<string>) {
    o.Some? && o.value != ""
  }

  /** `o || d` for an optional string. */
  function OrElse(o: Option<string>, d: string): (r: string)
    ensures Truthy(o) ==> r == o.value
    ensures !Truthy(o) ==> r == d
  {
    if Truthy(o) then o.value else d
  }

  /** `x || null`: a falsy string is stored as null. */
  function TruthyOrNull(o: Option<string>): (r: Option<string>)
    ensures r.Some? <==> Truthy(o)
    ensures r.Some? ==> r == o
  {
    if Truthy(o) then o else None
  }

  /** `Math.round(a / b)` for b > 0. `Math.round(x)` is `floor(x + 1/2)`, and
      Dafny's `/` with a positive divisor is floor division, so the quotient
      below is the nearest integer to a/b with halves rounded up. */
  function RoundDiv(a: int, b: int): (r: int)
    requires b > 0
    ensures 2 * b * r - b <= 2 * a < 2 * b * r + b
  {
    var q := (2 * a + b) / (2 * b);
    assert 2 * a + b == (2 * b) * q + (2 * a + b) % (2 * b);
    q
  }

  /** The nearest-integer characterisation determines RoundDiv completely. */
  lemma RoundDivUnique(a: int, b: int, r: int)
    requires b > 0
    requires 2 * b * r - b <= 2 * a < 2 * b * r + b
    ensures RoundDiv(a, b) == r
  {
    var q := RoundDiv(a, b);
    if q < r {
      MulMonotone(2 * b, q + 1, r);
      assert false;
    } else if q > r {
      MulMonotone(2 * b, r + 1, q);
      assert false;
    }
  }

  lemma MulMonotone(k: int, x: int, y: int)
    requires k >= 0 && x <= y
    ensures k * x <= k * y
  {
  }

  /** A rounded mean lies between any bounds that every summand respects:
      n*lo <= sum <= n*hi gives lo <= round(sum / n) <= hi. */
  lemma {:induction false} RoundDivWithin(sum: int, n: int, lo: int, hi: int)
    requires n > 0
    requires n * lo <= sum <= n * hi
    ensures lo <= RoundDiv(sum, n) <= hi
  {
    var r := RoundDiv(sum, n);
    if r > hi {
      MulMonotone(2 * n, hi + 1, r);
      assert false;
    }
    if r < lo {
      MulMonotone(2 * n, r + 1, lo);
      assert false;
    }
  }
}
