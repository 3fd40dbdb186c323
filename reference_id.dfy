/**
 * Transaction reference ids: a three-letter flow prefix followed by the last
 * eight characters of the millisecond timestamp's decimal rendering
 * (`PAY${Date.now().toString().slice(-8)}`). The clock is a parameter.
 */
module Reference {
  import opened Text

  /** How many trailing timestamp digits an id keeps. */
  const IdDigits: nat := 8

  function ReferenceId(prefix: string, now: nat): (r: string)
    ensures prefix <= r
    ensures |r| == |prefix| + (if |NatToString(now)| <= IdDigits then |NatToString(now)| else IdDigits)
    ensures AllDigits(r[|prefix|..])
  {
    var tail := LastN(NatToString(now), IdDigits);
    assert (prefix + tail)[|prefix|..] == tail;
    prefix + tail
  }

  /** A multiple of m strictly between -m and m is zero. */
  lemma SmallMultiple(m: int, k: int)
    requires m > 0 && -m < m * k < m
    ensures k == 0
  {
  }

  /** n == m * a + b with 0 <= b < m determines b as n % m. */
  lemma ModUnique(n: nat, m: nat, a: nat, b: nat)
    requires m > 0 && b < m && n == m * a + b
    ensures n % m == b && n / m == a
  {
    var q, r := n / m, n % m;
    assert m * a + b == m * q + r;
    assert m * (a - q) == m * a - m * q;
    SmallMultiple(m, a - q);
  }

  /** Two numbers less than m apart have different remainders modulo m. */
  lemma ModDistinct(t1: nat, t2: nat, m: nat)
    requires m > 0 && t1 < t2 < t1 + m
    ensures t1 % m != t2 % m
  {
    var a, r, d := t1 / m, t1 % m, t2 - t1;
    if r + d < m {
      ModUnique(t2, m, a, r + d);
    } else {
      assert t2 == m * (a + 1) + (r + d - m);
      ModUnique(t2, m, a + 1, r + d - m);
    }
  }

  /** Recombining two place-value splits: n = 10q + d and q = pa + b give n = (10p)a + (10b + d). */
  lemma Recombine(n: int, q: int, d: int, p: int, a: int, b: int)
    requires p > 0 && 0 <= b < p && 0 <= d < 10
    requires n == 10 * q + d && q == p * a + b
    ensures n == (10 * p) * a + (b * 10 + d)
    ensures b * 10 + d < 10 * p
  {
    assert 10 * q == 10 * (p * a) + 10 * b;
    assert 10 * (p * a) == (10 * p) * a;
    assert b * 10 <= (p - 1) * 10;
  }

  /** Splitting off the last digit: the last k+1 digits of n are the last k digits of n / 10, then n % 10. */
  lemma ModPow10Step(n: nat, k: nat)
    ensures (n / 10) % Pow10(k) * 10 + n % 10 == n % Pow10(k + 1)
  {
    var p := Pow10(k);
    var q, d := n / 10, n % 10;
    var a, b := q / p, q % p;
    Recombine(n, q, d, p, a, b);
    ModUnique(n, 10 * p, a, b * 10 + d);
  }

  /** The value of the last k digits: the last k-1 digits before the final one, then the final one. */
  lemma SuffixLast(s: string, k: nat)
    requires AllDigits(s) && 1 <= k <= |s|
    ensures DigitsValue(s[|s| - k..]) == DigitsValue(s[..|s| - 1][|s| - k..]) * 10 + DigitValue(s[|s| - 1])
  {
    var suffix := s[|s| - k..];
    assert suffix[..|suffix| - 1] == s[..|s| - 1][|s| - k..];
    assert suffix[|suffix| - 1] == s[|s| - 1];
  }

  /** The last k digits of `n.toString()` have the value n mod 10^k. */
  lemma {:induction false} SuffixValue(n: nat, k: nat)
    requires k <= |NatToString(n)|
    ensures DigitsValue(NatToString(n)[|NatToString(n)| - k..]) == n % Pow10(k)
  {
    var s := NatToString(n);
    if k == 0 {
      assert s[|s|..] == [];
    } else if n < 10 {
      assert s[|s| - k..] == s;
      assert Pow10(k) == 10;
      ModUnique(n, 10, 0, n);
    } else {
      var t := NatToString(n / 10);
      assert s == t + [DigitChar(n % 10)];
      assert s[..|s| - 1] == t;
      SuffixLast(s, k);
      SuffixValue(n / 10, k - 1);
      ModPow10Step(n, k - 1);
    }
  }

  /** A number with at least k+1 digits renders to more than k characters. */
  lemma {:induction false} NatToStringLength(n: nat, k: nat)
    requires n >= Pow10(k)
    ensures |NatToString(n)| > k
  {
    if k > 0 {
      assert n >= 10;
      assert n / 10 >= Pow10(k - 1);
      NatToStringLength(n / 10, k - 1);
    }
  }

  /** More digits, a larger power of ten. */
  lemma {:induction false} Pow10Monotone(i: nat, j: nat)
    requires i <= j
    ensures Pow10(i) <= Pow10(j)
    decreases j
  {
    if i < j {
      Pow10Monotone(i, j - 1);
    }
  }

  /** The digits after the prefix read back as the timestamp modulo 10^8. */
  lemma ReferenceIdDigits(prefix: string, now: nat)
    ensures DigitsValue(ReferenceId(prefix, now)[|prefix|..]) == now % Pow10(IdDigits)
  {
    var s := NatToString(now);
    var r := ReferenceId(prefix, now);
    assert r[|prefix|..] == LastN(s, IdDigits);
    if |s| <= IdDigits {
      assert LastN(s, IdDigits) == s;
      Pow10Monotone(|s|, IdDigits);
      ModUnique(now, Pow10(IdDigits), 0, now);
    } else {
      SuffixValue(now, IdDigits);
    }
  }

  /** From the timestamp 10^7 (January 1970) on, every id has exactly eight digits. */
  lemma ReferenceIdLength(prefix: string, now: nat)
    requires now >= Pow10(IdDigits - 1)
    ensures |ReferenceId(prefix, now)| == |prefix| + IdDigits
  {
    NatToStringLength(now, IdDigits - 1);
  }

  /**
   * Two timestamps less than 10^8 ms (about 27.7 hours) apart give different ids
   * under the same prefix: ids are unique within a session of that length.
   */
  lemma ReferenceIdDistinct(prefix: string, t1: nat, t2: nat)
    requires t1 < t2 < t1 + Pow10(IdDigits)
    ensures ReferenceId(prefix, t1) != ReferenceId(prefix, t2)
  {
    ReferenceIdDigits(prefix, t1);
    ReferenceIdDigits(prefix, t2);
    ModDistinct(t1, t2, Pow10(IdDigits));
  }
}
