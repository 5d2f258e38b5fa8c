/** Shared vocabulary: optional values, poll results and sums over guard tables. */
module Base {

  datatype Option<+T> = None | Some(value: T)

  /** What a future reports when it is polled. */
  datatype Poll<+T> = Pending | Ready(value: T)

  /** The largest value of a 64-bit counter (waiter identifiers, sequence numbers). */
  const U64_MAX: nat := 0xFFFF_FFFF_FFFF_FFFF

  function Min(a: nat, b: nat): (r: nat)
    ensures r <= a && r <= b && (r == a || r == b)
  {
    if a <= b then a else b
  }

  lemma NextMultiple(a: nat, b: nat, m: nat)
    requires b < a
    ensures b * m + m <= a * m
  {
    assert a * m == b * m + m + (a - b - 1) * m;
    assert (a - b - 1) * m >= 0;
  }

  /** Quotient and remainder are unique. */
  lemma ResidueIs(x: nat, q: nat, r: nat, m: nat)
    requires r < m && x == q * m + r
    ensures x % m == r
  {
    var q', r' := x / m, x % m;
    assert x == q' * m + r';
    if q' < q {
      NextMultiple(q, q', m);
    } else if q < q' {
      NextMultiple(q', q, m);
    }
  }

  /** A wrapping counter is the residue of the true count. */
  lemma ResidueNext(n: nat, m: nat)
    requires m > 1
    ensures (n % m + 1) % m == (n + 1) % m
  {
    var q, r := n / m, n % m;
    assert n == q * m + r;
    if r + 1 < m {
      ResidueIs(n + 1, q, r + 1, m);
      ResidueIs(r + 1, 0, r + 1, m);
    } else {
      assert (q + 1) * m == q * m + m;
      ResidueIs(n + 1, q + 1, 0, m);
      ResidueIs(r + 1, 1, 0, m);
    }
  }

  lemma ResidueOfSum(a: nat, d: nat, qa: nat, ra: nat, qd: nat, rd: nat, m: nat)
    requires ra < m && rd < m && a == qa * m + ra && d == qd * m + rd
    ensures (a + d) % m == if ra + rd < m then ra + rd else ra + rd - m
  {
    var q := qa + qd;
    assert q * m == qa * m + qd * m;
    if ra + rd < m {
      ResidueIs(a + d, q, ra + rd, m);
    } else {
      assert (q + 1) * m == q * m + m;
      ResidueIs(a + d, q + 1, ra + rd - m, m);
    }
  }

  /** Adding d keeps the residue exactly if d is a multiple of the modulus. */
  lemma SameResidue(a: nat, d: nat, m: nat)
    requires m > 0
    ensures a % m == (a + d) % m <==> d % m == 0
  {
    ResidueOfSum(a, d, a / m, a % m, d / m, d % m, m);
  }

  /** The total held by a table of counts. */
  function Sum(s: seq<nat>): nat {
    if s == [] then 0 else s[0] + Sum(s[1..])
  }

  lemma {:induction false} SumAppend(a: seq<nat>, b: seq<nat>)
    ensures Sum(a + b) == Sum(a) + Sum(b)
  {
    if a == [] {
      assert a + b == b;
    } else {
      assert (a + b)[1..] == a[1..] + b;
      SumAppend(a[1..], b);
    }
  }

  lemma SumSnoc(s: seq<nat>, n: nat)
    ensures Sum(s + [n]) == Sum(s) + n
  {
    SumAppend(s, [n]);
    assert Sum([n]) == n + Sum([]);
  }

  lemma SumAt(s: seq<nat>, k: nat)
    requires k < |s|
    ensures Sum(s) == Sum(s[..k]) + s[k] + Sum(s[k + 1..])
  {
    var tail := [s[k]] + s[k + 1..];
    assert tail[1..] == s[k + 1..];
    assert s == s[..k] + tail;
    SumAppend(s[..k], tail);
  }

  /** Replacing one entry moves the total by the difference. */
  lemma SumUpdate(s: seq<nat>, k: nat, v: nat)
    requires k < |s|
    ensures Sum(s[k := v]) == Sum(s) - s[k] + v
    ensures s[k] <= Sum(s)
  {
    var t := s[k := v];
    SumAt(s, k);
    SumAt(t, k);
    assert t[..k] == s[..k] && t[k + 1..] == s[k + 1..];
  }

  /** The sequence without its k-th entry. */
  function Without<T>(s: seq<T>, k: nat): (r: seq<T>)
    requires k < |s|
    ensures |r| == |s| - 1
  {
    s[..k] + s[k + 1..]
  }

  lemma WithoutShifts<T>(s: seq<T>, k: nat)
    requires k < |s|
    ensures forall j :: 0 <= j < k ==> Without(s, k)[j] == s[j]
    ensures forall j :: k <= j < |s| - 1 ==> Without(s, k)[j] == s[j + 1]
  {
  }

  lemma SumWithout(s: seq<nat>, k: nat)
    requires k < |s|
    ensures Sum(Without(s, k)) == Sum(s) - s[k]
    ensures s[k] <= Sum(s)
  {
    SumAt(s, k);
    SumAppend(s[..k], s[k + 1..]);
  }
}

/** Vocabulary of byte streams. */
module Bytes {

  newtype Byte = x: int | 0 <= x < 256

  /** The outcome of an I/O call; which error it was does not matter here. */
  datatype Result<+T> = Ok(value: T) | Err
}
