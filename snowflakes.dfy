/** Snowflake identifiers: a non-negative integer whose low 22 bits hold an
    increment (12 bits), a process id (5 bits) and an internal worker id
    (5 bits), and whose remaining high bits count milliseconds since the
    Discord epoch. Python's `>>` and `&` are written out over naturals. */
module Snowflakes {

  const DISCORD_EPOCH_MS: nat := 1_420_070_400_000

  const TIMESTAMP_BITS: nat := 42
  const WORKER_ID_BITS: nat := 5
  const PROCESS_ID_BITS: nat := 5
  const INCREMENT_BITS: nat := 12

  const INCREMENT_SHIFT: nat := 0
  const PROCESS_ID_SHIFT: nat := INCREMENT_SHIFT + INCREMENT_BITS
  const WORKER_ID_SHIFT: nat := PROCESS_ID_SHIFT + PROCESS_ID_BITS
  const TIMESTAMP_SHIFT: nat := WORKER_ID_SHIFT + WORKER_ID_BITS

  function Pow2(n: nat): (r: nat)
    ensures r >= 1
  {
    if n == 0 then 1 else 2 * Pow2(n - 1)
  }

  /** `x >> n` on a non-negative integer: n halvings, each dropping the
      lowest bit. */
  function Shr(x: nat, n: nat): nat {
    if n == 0 then x else Shr(x / 2, n - 1)
  }

  /** Shifting right by n bits is flooring division by 2^n. */
  lemma {:induction false} ShrDivides(x: nat, n: nat)
    ensures Shr(x, n) == x / Pow2(n)
  {
    if n > 0 {
      ShrDivides(x / 2, n - 1);
      DivDiv(x, 2, Pow2(n - 1));
    }
  }

  /** `a & b`, bit by bit from the lowest. */
  function BitAnd(a: nat, b: nat): nat
    decreases a
  {
    if a == 0 || b == 0 then 0
    else 2 * BitAnd(a / 2, b / 2) + (if a % 2 == 1 && b % 2 == 1 then 1 else 0)
  }

  /** `(1 << n) - 1`. */
  function Mask(n: nat): nat {
    Pow2(n) - 1
  }

  lemma HalveRemainder(x: nat, p: nat)
    requires p >= 1
    ensures 2 * ((x / 2) % p) + x % 2 == x % (2 * p)
  {
    var q := x / 2;
    var b := q % p;
    var a := q / p;
    assert q == p * a + b;
    assert x == 2 * q + x % 2;
    assert x == (2 * p) * a + (2 * b + x % 2);
    assert 0 <= 2 * b + x % 2 < 2 * p;
    DivModUnique(x, 2 * p, a, 2 * b + x % 2);
  }

  lemma DivModUnique(x: int, d: int, q: int, r: int)
    requires d > 0 && x == d * q + r && 0 <= r < d
    ensures x % d == r && x / d == q
  {
    if q > x / d {
      assert d * q >= d * (x / d + 1) by {
        assert q >= x / d + 1;
        MulMonotone(d, x / d + 1, q);
      }
      assert false;
    } else if q < x / d {
      assert d * (x / d) >= d * (q + 1) by {
        MulMonotone(d, q + 1, x / d);
      }
      assert false;
    }
  }

  lemma MulMonotone(d: int, a: int, b: int)
    requires d > 0 && a <= b
    ensures d * a <= d * b
  {
    assert d * b - d * a == d * (b - a);
  }

  /** Masking with n low one-bits keeps the remainder modulo 2^n. */
  lemma {:induction false} BitAndMask(x: nat, n: nat)
    ensures BitAnd(x, Mask(n)) == x % Pow2(n)
  {
    if n == 0 {
    } else if x == 0 {
    } else {
      var m := Mask(n);
      assert m / 2 == Mask(n - 1) && m % 2 == 1;
      BitAndMask(x / 2, n - 1);
      HalveRemainder(x, Pow2(n - 1));
    }
  }

  lemma Pow2Values()
    ensures Pow2(5) == 32 && Pow2(12) == 4096 && Pow2(17) == 131072 && Pow2(22) == 4194304
  {
  }

  /** The `increment` property: the low 12 bits. */
  function Increment(x: nat): (r: nat)
    ensures r == x % 4096 && r < 4096
  {
    BitAndMask(x, INCREMENT_BITS);
    Pow2Values();
    BitAnd(x, Mask(INCREMENT_BITS))
  }

  /** The `process_id` property: bits 12 to 16. */
  function ProcessId(x: nat): (r: nat)
    ensures r == (x / 4096) % 32 && r < 32
  {
    BitAndMask(Shr(x, PROCESS_ID_SHIFT), PROCESS_ID_BITS);
    ShrDivides(x, PROCESS_ID_SHIFT);
    Pow2Values();
    BitAnd(Shr(x, PROCESS_ID_SHIFT), Mask(PROCESS_ID_BITS))
  }

  /** The `internal_worker` property: bits 17 to 21. */
  function InternalWorker(x: nat): (r: nat)
    ensures r == (x / 131072) % 32 && r < 32
  {
    BitAndMask(Shr(x, WORKER_ID_SHIFT), WORKER_ID_BITS);
    ShrDivides(x, WORKER_ID_SHIFT);
    Pow2Values();
    BitAnd(Shr(x, WORKER_ID_SHIFT), Mask(WORKER_ID_BITS))
  }

  /** The `timestamp` property in whole milliseconds since 1970. */
  function TimestampMs(x: nat): (r: nat)
    ensures r >= DISCORD_EPOCH_MS
    ensures r - DISCORD_EPOCH_MS == x / 4194304
  {
    ShrDivides(x, TIMESTAMP_SHIFT);
    Pow2Values();
    Shr(x, TIMESTAMP_SHIFT) + DISCORD_EPOCH_MS
  }

  /** A later snowflake never carries an earlier timestamp. */
  lemma TimestampMonotone(x: nat, y: nat)
    requires x <= y
    ensures TimestampMs(x) <= TimestampMs(y)
  {
    DivMonotone(x, y, 4194304);
  }

  lemma DivMonotone(x: nat, y: nat, d: nat)
    requires x <= y && d > 0
    ensures x / d <= y / d
  {
    if x / d > y / d {
      assert d * (x / d) >= d * (y / d + 1) by { MulMonotone(d, y / d + 1, x / d); }
      assert false;
    }
  }

  /** The snowflake with the given fields, laid out as 42 | 5 | 5 | 12 bits
      from the top. */
  function Pack(ms: nat, worker: nat, process: nat, increment: nat): nat {
    ms * 4194304 + worker * 131072 + process * 4096 + increment
  }

  /** Packing in-range fields and reading them back returns them unchanged:
      the four fields occupy disjoint bit ranges. */
  lemma {:induction false} UnpackPack(ms: nat, worker: nat, process: nat, increment: nat)
    requires worker < 32 && process < 32 && increment < 4096
    ensures var x := Pack(ms, worker, process, increment);
      && Increment(x) == increment
      && ProcessId(x) == process
      && InternalWorker(x) == worker
      && TimestampMs(x) == ms + DISCORD_EPOCH_MS
  {
    var x := Pack(ms, worker, process, increment);
    var low := process + 32 * worker + 1024 * ms;
    assert x == 4096 * low + increment;
    DivModUnique(x, 4096, low, increment);
    var mid := worker + 32 * ms;
    assert low == 32 * mid + process;
    DivModUnique(low, 32, mid, process);
    assert x == 131072 * mid + (process * 4096 + increment);
    DivModUnique(x, 131072, mid, process * 4096 + increment);
    DivModUnique(mid, 32, ms, worker);
    assert x == 4194304 * ms + (worker * 131072 + process * 4096 + increment);
    DivModUnique(x, 4194304, ms, worker * 131072 + process * 4096 + increment);
  }

  /** Conversely every snowflake is the packing of its four fields. */
  lemma {:induction false} PackUnpack(x: nat)
    ensures Pack(TimestampMs(x) - DISCORD_EPOCH_MS, InternalWorker(x), ProcessId(x), Increment(x)) == x
  {
    var q12 := x / 4096;
    var q17 := x / 131072;
    var q22 := x / 4194304;
    assert x == 4096 * q12 + x % 4096;
    DivDiv(x, 4096, 32);
    DivDiv(x, 131072, 32);
    assert q12 == 32 * q17 + q12 % 32;
    assert q17 == 32 * q22 + q17 % 32;
  }

  lemma DivDiv(x: nat, a: nat, b: nat)
    requires a > 0 && b > 0
    ensures x / a / b == x / (a * b)
  {
    var q := x / a / b;
    var r := (x / a) % b * a + x % a;
    assert x / a == b * q + (x / a) % b;
    assert x == a * (x / a) + x % a;
    assert x == (a * b) * q + r by {
      assert a * (x / a) == a * (b * q) + a * ((x / a) % b);
    }
    assert r < a * b by {
      assert (x / a) % b <= b - 1;
      MulMonotone(a, (x / a) % b, b - 1);
    }
    DivModUnique(x, a * b, q, r);
  }
}
