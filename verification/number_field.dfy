/** The 7-byte decimal field in which a client names the chunk it wants. */
module NumberField {
  import opened Bytes

  const FIELD_SIZE: nat := 7
  const FIELD_LIMIT: nat := 1_000_000

  const MINUS: byte := 45
  const PLUS: byte := 43

  predicate IsDigit(b: byte) { 48 <= b <= 57 }

  predicate IsSpace(b: byte) { b == 32 || 9 <= b <= 13 }

  // The decimal digits of n, most significant first.
  function Digits(n: nat): (d: bytes)
    ensures |d| > 0
    ensures forall k :: 0 <= k < |d| ==> IsDigit(d[k])
    decreases n
  {
    if n < 10 then [48 + n] else Digits(n / 10) + [48 + n % 10]
  }

  function Pow10(k: nat): (p: nat)
    ensures p > 0
  {
    if k == 0 then 1 else 10 * Pow10(k - 1)
  }

  // printf's "%ld".
  function Printed(n: int): (s: bytes)
    ensures |s| > 0
  {
    if n < 0 then [MINUS] + Digits(-n) else Digits(n)
  }

  // RequestChunk: snprintf keeps at most six characters, the rest of the field is zeros.
  function PrintField(n: int): (f: bytes)
    ensures |f| == FIELD_SIZE
  {
    var s := Printed(n);
    var kept := s[..Min(6, |s|)];
    kept + Zeros(FIELD_SIZE - |kept|)
  }

  // atoi: skip white space, an optional sign, then digits up to the first other byte.
  function Atoi(s: bytes): int {
    if s != [] && IsSpace(s[0]) then Atoi(s[1..])
    else if s != [] && s[0] == MINUS then 0 - Leading(s[1..], 0)
    else if s != [] && s[0] == PLUS then Leading(s[1..], 0)
    else Leading(s, 0)
  }

  function Leading(s: bytes, acc: nat): (v: nat) {
    if s == [] || !IsDigit(s[0]) then acc
    else Leading(s[1..], 10 * acc + (s[0] - 48))
  }

  // What the server makes of a request for chunk n.
  function Requested(n: int): int { Atoi(PrintField(n)) }

  // ---- proofs --------------------------------------------------------------

  lemma {:induction false} LeadingDigits(n: nat, rest: bytes)
    requires rest == [] || !IsDigit(rest[0])
    ensures Leading(Digits(n) + rest, 0) == n
    decreases n
  {
    LeadingAppend(Digits(n), rest, 0);
    DigitsValue(n);
  }

  function Value(d: bytes, acc: nat): nat
    requires forall k :: 0 <= k < |d| ==> IsDigit(d[k])
  {
    if d == [] then acc
    else
      assert IsDigit(d[0]);
      Value(d[1..], 10 * acc + (d[0] - 48))
  }

  lemma {:induction false} LeadingAppend(d: bytes, rest: bytes, acc: nat)
    requires forall k :: 0 <= k < |d| ==> IsDigit(d[k])
    requires rest == [] || !IsDigit(rest[0])
    ensures Leading(d + rest, acc) == Value(d, acc)
  {
    if d == [] {
      assert d + rest == rest;
    } else {
      assert (d + rest)[1..] == d[1..] + rest;
      LeadingAppend(d[1..], rest, 10 * acc + (d[0] - 48));
    }
  }

  lemma {:induction false} ValueSnoc(d: bytes, x: byte, acc: nat)
    requires IsDigit(x) && forall k :: 0 <= k < |d| ==> IsDigit(d[k])
    ensures Value(d + [x], acc) == 10 * Value(d, acc) + (x - 48)
  {
    if d != [] {
      assert (d + [x])[1..] == d[1..] + [x];
      ValueSnoc(d[1..], x, 10 * acc + (d[0] - 48));
    }
  }

  lemma {:induction false} DigitsValue(n: nat)
    ensures Value(Digits(n), 0) == n
    decreases n
  {
    if n >= 10 {
      DigitsValue(n / 10);
      ValueSnoc(Digits(n / 10), 48 + n % 10, 0);
    }
  }

  // The number of digits is the number of powers of ten below n.
  lemma {:induction false} DigitCount(n: nat, k: nat)
    requires k > 0
    ensures |Digits(n)| <= k <==> n < Pow10(k)
    decreases n
  {
    if n < 10 {
      PowAtLeast(k);
    } else if k == 1 {
      assert Pow10(1) == 10 * Pow10(0);
    } else {
      DigitCount(n / 10, k - 1);
    }
  }

  lemma {:induction false} PowAtLeast(k: nat)
    requires k > 0
    ensures Pow10(k) >= 10
  {
    if k > 1 { PowAtLeast(k - 1); }
  }

  lemma Pow10Six()
    ensures Pow10(5) == 100_000 && Pow10(6) == FIELD_LIMIT
  {
    assert Pow10(6) == 10 * Pow10(5) && Pow10(5) == 10 * Pow10(4) && Pow10(4) == 10 * Pow10(3);
    assert Pow10(3) == 10 * Pow10(2) && Pow10(2) == 10 * Pow10(1);
  }

  // n without its last digits, so that at most `room` are left.
  function LeadingPart(n: nat, room: nat): (m: nat)
    requires room > 0
    ensures m <= n
    decreases n
  {
    if |Digits(n)| <= room then n else LeadingPart(n / 10, room)
  }

  lemma {:induction false} KeptDigits(n: nat, room: nat)
    requires room > 0
    ensures Digits(n)[..Min(room, |Digits(n)|)] == Digits(LeadingPart(n, room))
    decreases n
  {
    var d := Digits(n);
    if |d| <= room {
      assert d[..|d|] == d;
    } else {
      KeptDigits(n / 10, room);
      assert d[..room] == Digits(n / 10)[..room];
    }
  }

  // Cutting digits off the end is dividing by a power of ten.
  lemma {:induction false} LeadingQuotient(n: nat, room: nat)
    requires room > 0 && |Digits(n)| >= room
    ensures LeadingPart(n, room) == n / Pow10(|Digits(n)| - room)
    decreases n
  {
    if |Digits(n)| > room {
      var b := Pow10(|Digits(n)| - room - 1);
      LeadingQuotient(n / 10, room);
      DivByTen(n, b);
    }
  }

  lemma DivByTen(n: nat, b: nat)
    requires b > 0
    ensures n / (10 * b) == (n / 10) / b
  {
    var q := (n / 10) / b;
    var t := b * q;
    assert t <= n / 10 < t + b;
    assert (10 * b) * q == 10 * t;
    Quotient(n, 10 * b, q);
  }

  lemma Quotient(n: nat, d: nat, q: nat)
    requires d > 0 && d * q <= n < d * q + d
    ensures n / d == q
  {
    var p := n / d;
    assert d * p <= n < d * p + d;
    if p < q { Times(d, p + 1, q); } else if q < p { Times(d, q + 1, p); }
  }

  lemma Times(d: nat, x: nat, y: nat)
    requires 0 < x <= y
    ensures d * (x - 1) + d == d * x <= d * y
  {
    assert d * (y - x) >= 0;
  }

  // What the server decodes, for every number: all of it when the digits fit, otherwise the
  // leading six digits (five for a negative number, whose sign takes one place).
  lemma RequestedIs(n: int)
    ensures n >= 0 ==> Requested(n) == LeadingPart(n, 6)
    ensures n < 0 ==> Requested(n) == 0 - LeadingPart(-n, 5)
  {
    var s := Printed(n);
    var kept := s[..Min(6, |s|)];
    var pad := Zeros(FIELD_SIZE - |kept|);
    if n >= 0 {
      KeptDigits(n, 6);
      LeadingDigits(LeadingPart(n, 6), pad);
      assert IsDigit(PrintField(n)[0]);
    } else {
      KeptDigits(-n, 5);
      var d := Digits(LeadingPart(-n, 5));
      assert kept == [MINUS] + d;
      assert PrintField(n)[1..] == d + pad;
      LeadingDigits(LeadingPart(-n, 5), pad);
    }
  }

  // The field is faithful exactly below one million (and above minus one hundred thousand).
  lemma FieldFaithful(n: int)
    ensures Requested(n) == n <==> -100_000 < n < FIELD_LIMIT
  {
    RequestedIs(n);
    Pow10Six();
    if n >= 0 {
      DigitCount(n, 6);
      if n >= FIELD_LIMIT { LeadingSmaller(n, 6); }
    } else {
      DigitCount(-n, 5);
      if -n >= 100_000 { LeadingSmaller(-n, 5); }
    }
  }

  // A number with more digits than fit becomes a strictly smaller one that does fit.
  lemma {:induction false} LeadingSmaller(n: nat, room: nat)
    requires room > 0 && |Digits(n)| > room
    ensures LeadingPart(n, room) <= n / 10 < n
    ensures LeadingPart(n, room) < Pow10(room)
    decreases n
  {
    if |Digits(n / 10)| > room {
      LeadingSmaller(n / 10, room);
    } else {
      DigitCount(n / 10, room);
    }
  }

  // A number too long for the field is answered as a different, smaller number: n divided
  // by ten to the number of lost digits.
  lemma TooLong(n: nat)
    requires n >= FIELD_LIMIT
    ensures 0 <= Requested(n) < FIELD_LIMIT && Requested(n) <= n / 10
    ensures |Digits(n)| > 6 && Requested(n) == n / Pow10(|Digits(n)| - 6)
  {
    RequestedIs(n);
    Pow10Six();
    DigitCount(n, 6);
    LeadingSmaller(n, 6);
    LeadingQuotient(n, 6);
  }
}
