/**
 How an in-flight message is named and routed: the key "connId:messageId" in decimal
 (internal/server/retry_queue.go:90-96) and the queue number messageId % n (internal/server/retry_manager.go:53-67).
 */
module RetryKeys {

  function Digit(d: nat): char
    requires d < 10
  {
    "0123456789"[d]
  }

  function Digits(n: nat): string {
    if n < 10 then [Digit(n)] else Digits(n / 10) + [Digit(n % 10)]
  }

  /** strconv.FormatInt(n, 10) */
  function Decimal(n: int): string {
    if n < 0 then "-" + Digits(-n) else Digits(n)
  }

  function InFlightKey(connId: int, messageId: int): string {
    Decimal(connId) + ":" + Decimal(messageId)
  }

  lemma {:induction false} DigitsAreDigits(n: nat)
    ensures Digits(n) != "" && forall c <- Digits(n) :: '0' <= c <= '9'
  {
    if n >= 10 { DigitsAreDigits(n / 10); }
  }

  lemma {:induction false} DigitsInjective(m: nat, n: nat)
    requires Digits(m) == Digits(n)
    ensures m == n
  {
    DigitsAreDigits(m / 10);
    DigitsAreDigits(n / 10);
    var l := |Digits(m)| - 1;
    assert Digits(m)[l] == Digits(n)[l];
    if m >= 10 && n >= 10 {
      assert Digits(m)[..l] == Digits(m / 10) && Digits(n)[..l] == Digits(n / 10);
      DigitsInjective(m / 10, n / 10);
    }
  }

  lemma Sign(n: int)
    ensures Decimal(n)[0] == '-' <==> n < 0
    ensures ':' !in Decimal(n)
  {
    DigitsAreDigits(if n < 0 then -n else n);
    assert Decimal(n)[0] in Decimal(n);
  }

  lemma DecimalInjective(m: int, n: int)
    requires Decimal(m) == Decimal(n)
    ensures m == n
  {
    Sign(m);
    Sign(n);
    if m < 0 {
      assert Decimal(m)[1..] == Digits(-m) && Decimal(n)[1..] == Digits(-n);
      DigitsInjective(-m, -n);
    } else {
      DigitsInjective(m, n);
    }
  }

  function FirstColon(s: string): nat {
    if s == "" || s[0] == ':' then 0 else 1 + FirstColon(s[1..])
  }

  lemma {:induction false} ColonAfter(a: string, b: string)
    requires ':' !in a
    ensures FirstColon(a + ":" + b) == |a|
  {
    if a != "" {
      assert (a + ":" + b)[1..] == a[1..] + ":" + b;
      ColonAfter(a[1..], b);
    }
  }

  /** Different deliveries have different keys, for all connection and message ids, negative ones too. */
  lemma KeyIsInjective(c: int, m: int, c': int, m': int)
    requires InFlightKey(c, m) == InFlightKey(c', m')
    ensures c == c' && m == m'
  {
    Sign(c);
    Sign(c');
    ColonAfter(Decimal(c), Decimal(m));
    ColonAfter(Decimal(c'), Decimal(m'));
    var k, l := InFlightKey(c, m), |Decimal(c)|;
    assert k[..l] == Decimal(c) && k[..l] == Decimal(c');
    assert k[l + 1..] == Decimal(m) && k[l + 1..] == Decimal(m');
    DecimalInjective(c, c');
    DecimalInjective(m, m');
  }

  /** Go's %, which truncates toward zero. */
  function Rem(a: int, b: int): int
    requires b > 0
  {
    if a >= 0 then a % b else -((-a) % b)
  }

  /** The routing index is usable exactly for nonnegative ids and for multiples of the queue count. */
  lemma RouteIsInRange(messageId: int, n: int)
    requires n > 0
    ensures 0 <= Rem(messageId, n) < n <==> messageId >= 0 || messageId % n == 0
  {
    if messageId < 0 {
      var q, r := (-messageId) / n, (-messageId) % n;
      assert -messageId == n * q + r;
      if r == 0 { NoRemainder(messageId, -q, 0, n); } else { NoRemainder(messageId, -q - 1, n - r, n); }
    }
  }

  lemma NoRemainder(a: int, q: int, r: int, n: int)
    requires n > 0 && 0 <= r < n && a == n * q + r
    ensures a % n == r
  {
    assert n * (a / n - q) == r - a % n;
    FarFromZero(n, a / n - q);
  }

  lemma FarFromZero(n: int, d: int)
    requires n > 0
    ensures (d >= 1 ==> n * d >= n) && (d <= -1 ==> n * d <= -n)
  {
    if d >= 1 { assert n * d == n + n * (d - 1); }
    if d <= -1 { assert n * d == -n + n * (d + 1); }
  }
}
