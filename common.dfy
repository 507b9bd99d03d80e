/** Connection resilience and small helpers shared by every process
    (common/src/lib.rs): the bounded retry loop used for the broker and the
    database, its constants, the broker address default, and the decimal
    rendering behind `get_rand_string`. */
module Common {
  import opened Types

  /** CONNECTION_RETRY_NUMBER: the retry counter may reach this value and still try once more. */
  const ConnectionRetryNumber: nat := 10

  /** RETRY_TIMEOUT, in seconds: the constant pause after every failed attempt. */
  const RetryTimeoutSeconds: nat := 10

  /** The process exit code when the broker stays unreachable. */
  const BrokerExitCode: int := 5

  const DefaultAmqpAddr: string := "amqp://127.0.0.1:5672/%2f"

  /** The broker address: the AMQP_ADDR variable when it is set, the local default otherwise. */
  function BrokerAddress(amqpAddr: Option<string>): (addr: string)
    ensures amqpAddr.Some? ==> addr == amqpAddr.value
    ensures amqpAddr.None? ==> addr == DefaultAmqpAddr
  {
    amqpAddr.GetOr(DefaultAmqpAddr)
  }

  /** How a retried connect ends: with the connection and the number of failed
      attempts before it, or with the process exiting with `code`. */
  datatype RetryOutcome<C> = Connected(conn: C, failures: nat) | Exited(code: int)

  /** The retry loop of `connect_to_rabbitmq` (and of `connect_to_db`), generic
      in the connect operation and the exit code. `connect(k)` is the outcome of
      the k-th attempt (counting from 0); `sleeps` lists the pauses taken, in
      seconds, in order. */
  method ConnectWithRetry<C>(connect: nat -> Option<C>, exitCode: int)
    returns (outcome: RetryOutcome<C>, sleeps: seq<nat>)
    ensures outcome.Connected? ==>
      && outcome.failures <= ConnectionRetryNumber
      && connect(outcome.failures) == Some(outcome.conn)
      && forall k :: 0 <= k < outcome.failures ==> connect(k).None?
    ensures outcome.Exited? ==>
      && outcome.code == exitCode
      && forall k :: 0 <= k <= ConnectionRetryNumber ==> connect(k).None?
    ensures |sleeps| == if outcome.Connected? then outcome.failures else ConnectionRetryNumber + 1
    ensures forall k :: 0 <= k < |sleeps| ==> sleeps[k] == RetryTimeoutSeconds
  {
    var retries: nat := 0;
    sleeps := [];
    while true
      invariant retries <= ConnectionRetryNumber + 1
      invariant forall k :: 0 <= k < retries ==> connect(k).None?
      invariant |sleeps| == retries
      invariant forall k :: 0 <= k < |sleeps| ==> sleeps[k] == RetryTimeoutSeconds
      decreases ConnectionRetryNumber + 1 - retries
    {
      if retries > ConnectionRetryNumber {
        outcome := Exited(exitCode);
        return;
      }
      var attempt := connect(retries);
      if attempt.Some? {
        outcome := Connected(attempt.value, retries);
        return;
      }
      retries := retries + 1;
      sleeps := sleeps + [RetryTimeoutSeconds];
    }
  }

  /** `connect_to_rabbitmq`: the retry loop with the broker's exit code. */
  method ConnectToRabbitmq<C>(connect: nat -> Option<C>) returns (outcome: RetryOutcome<C>)
    ensures outcome.Exited? <==> forall k :: 0 <= k <= ConnectionRetryNumber ==> connect(k).None?
    ensures outcome.Exited? ==> outcome.code == BrokerExitCode
    ensures outcome.Connected? ==>
      && outcome.failures <= ConnectionRetryNumber
      && connect(outcome.failures) == Some(outcome.conn)
      && forall k :: 0 <= k < outcome.failures ==> connect(k).None?
  {
    var sleeps;
    outcome, sleeps := ConnectWithRetry(connect, BrokerExitCode);
  }

  // ---------------------------------------------------------------------
  // Decimal rendering (u32::to_string) and reading back

  predicate IsDigit(c: char) {
    '0' <= c <= '9'
  }

  predicate AllDigits(s: string) {
    forall i :: 0 <= i < |s| ==> IsDigit(s[i])
  }

  function DigitChar(d: nat): (c: char)
    requires d < 10
    ensures IsDigit(c) && (c as int) - ('0' as int) == d
  {
    ('0' as int + d) as char
  }

  function DigitValue(c: char): nat
    requires IsDigit(c)
  {
    (c as int) - ('0' as int)
  }

  /** The shortest decimal rendering of `n`, as Rust's `to_string` gives it. */
  function Decimal(n: nat): (s: string)
    ensures |s| >= 1 && AllDigits(s)
    ensures s[0] == '0' ==> n == 0
    decreases n
  {
    if n < 10 then [DigitChar(n)] else Decimal(n / 10) + [DigitChar(n % 10)]
  }

  /** The number a string of decimal digits denotes (leading zeros allowed). */
  function DecimalValue(s: string): nat
    requires AllDigits(s)
    decreases |s|
  {
    if s == [] then 0 else DecimalValue(s[..|s| - 1]) * 10 + DigitValue(s[|s| - 1])
  }

  lemma {:induction false} DecimalRoundTrip(n: nat)
    ensures DecimalValue(Decimal(n)) == n
    decreases n
  {
    if n >= 10 {
      DecimalRoundTrip(n / 10);
      var s := Decimal(n);
      assert s[..|s| - 1] == Decimal(n / 10);
    }
  }

  function Pow10(k: nat): (p: nat)
    ensures p >= 1
  {
    if k == 0 then 1 else 10 * Pow10(k - 1)
  }

  lemma {:induction false} DecimalLength(n: nat, k: nat)
    requires 1 <= k && n < Pow10(k)
    ensures |Decimal(n)| <= k
    decreases k
  {
    if n >= 10 {
      assert Pow10(1) == 10;
      assert n / 10 < Pow10(k - 1);
      DecimalLength(n / 10, k - 1);
    }
  }

  /** `get_rand_string`: the decimal rendering of a random u32 (the random
      draw is the parameter). It is non-empty, all digits, at most ten
      characters long, and reads back as the drawn number. */
  function RandString(draw: U32): (s: string)
    ensures 1 <= |s| <= 10 && AllDigits(s)
    ensures DecimalValue(s) == draw
  {
    assert Pow10(10) == 10_000_000_000;
    DecimalLength(draw, 10);
    DecimalRoundTrip(draw);
    Decimal(draw)
  }

  /** Different draws give different strings. */
  lemma RandStringInjective(a: U32, b: U32)
    requires RandString(a) == RandString(b)
    ensures a == b
  {
  }
}
