/** The handful of C++ runtime facilities the core relies on, stated as Dafny
    functions: fixed-width unsigned arithmetic, float-to-integer conversion,
    `std::to_string` on non-negative loop counters and `std::string::compare`.
    Library calls whose internals are not modelled (`std::stof`, `std::stoi`,
    `cosf`, `sinf`, and reading a stored float back from its bytes) are
    gathered in `Host` and passed in as parameters. */
module Cxx {

  const U16: int := 0x1_0000
  const U32: int := 0x1_0000_0000

  /** C's `uint32_t` */
  type uint32 = x: int | 0 <= x < 0x1_0000_0000

  datatype Option<+T> = None | Some(value: T)

  /** Runtime functions whose behaviour the model takes as given. */
  datatype Host = Host(
    stof: string -> real,           // std::stof, rounding to float not modelled
    stoi: string -> int,            // std::stoi
    cosf: real -> real,             // cosf
    sinf: real -> real,             // sinf
    decodeFloat: seq<bv8> -> real)  // four stored bytes read back as a float
  {
    // the model calls these two through the accessors below
    function Stof(s: string): real { stof(s) }
    function Stoi(s: string): int { stoi(s) }
  }

  /** Conversion of an integer to `uint32_t`: reduction modulo 2^32. */
  function WrapU32(x: int): uint32 {
    x % U32
  }

  /** `a * b` evaluated in `uint32_t` arithmetic. */
  function MulU32(a: uint32, b: uint32): (r: uint32)
    ensures a * b < U32 ==> r == a * b
  {
    var p := a * b;
    assert 0 <= p;
    p % U32
  }

  /** The remainder is the only r in [0, m) with x == d * m + r. */
  lemma ModUnique(x: int, d: int, m: int, r: int)
    requires 0 < m && x == d * m + r && 0 <= r < m
    ensures x % m == r
  {
    var q, s := x / m, x % m;
    var k := d - q;
    assert k * m == s - r;
    if k >= 1 {
      MulAtLeast(k, m);
      assert false;
    } else if k <= -1 {
      MulAtLeast(-k, m);
      assert false;
    }
  }

  lemma MulAtLeast(k: int, m: int)
    requires 1 <= k && 0 < m
    ensures m <= k * m
  {
    assert k * m == (k - 1) * m + m;
  }

  /** Reducing a factor before multiplying does not change the product's remainder. */
  lemma ModMulLeft(a: int, b: int, m: int)
    requires 0 < m
    ensures (a % m) * b % m == a * b % m
  {
    var q, r := a / m, a % m;
    var q2, r2 := (r * b) / m, (r * b) % m;
    assert a * b == (q * m + r) * b == (q * b) * m + r * b;
    assert r * b == q2 * m + r2;
    assert a * b == (q * b + q2) * m + r2;
    ModUnique(a * b, q * b + q2, m, r2);
  }

  /** Reducing both factors before multiplying does not change the product's remainder. */
  lemma ModMulBoth(a: int, b: int, m: int)
    requires 0 < m
    ensures (a % m) * (b % m) % m == a * b % m
  {
    ModMulLeft(a, b % m, m);
    ModMulLeft(b, a, m);
    assert a * (b % m) == (b % m) * a;
    assert b * a == a * b;
  }

  /** Conversion of a floating value to an integer type: truncation toward zero. */
  function TruncToInt(x: real): (n: int)
    ensures 0.0 <= x ==> 0 <= n && n as real <= x < n as real + 1.0
    ensures x < 0.0 ==> n <= 0 && n as real - 1.0 < x <= n as real
  {
    if x >= 0.0 then x.Floor else -((-x).Floor)
  }

  function Digit(d: int): char
    requires 0 <= d < 10
  {
    (48 + d) as char
  }

  /** `std::to_string` on a non-negative value: its decimal digits, no leading zeros. */
  function ToString(n: nat): (s: string)
    ensures |s| >= 1
    ensures forall k :: 0 <= k < |s| ==> '0' <= s[k] <= '9'
    ensures n >= 10 ==> s[0] != '0'
  {
    if n < 10 then [Digit(n)] else ToString(n / 10) + [Digit(n % 10)]
  }

  /** Reads a string of decimal digits back as a number. */
  function ParseDecimal(s: string): int {
    if s == [] then 0 else ParseDecimal(s[..|s| - 1]) * 10 + ((s[|s| - 1] as int) - 48)
  }

  lemma {:induction false} ParseToString(n: nat)
    ensures ParseDecimal(ToString(n)) == n
  {
    if n >= 10 {
      var s := ToString(n / 10);
      var t := s + [Digit(n % 10)];
      assert ToString(n) == t;
      assert t[..|t| - 1] == s;
      ParseToString(n / 10);
    }
  }

  /** Distinct counters give distinct decimal strings. */
  lemma ToStringInjective(m: nat, n: nat)
    ensures ToString(m) == ToString(n) ==> m == n
  {
    ParseToString(m);
    ParseToString(n);
  }

  /** `std::string::compare`, reduced to its sign. */
  function Compare(a: string, b: string): (r: int)
    ensures -1 <= r <= 1
    ensures r == 0 <==> a == b
  {
    if a == [] && b == [] then 0
    else if a == [] then -1
    else if b == [] then 1
    else if a[0] < b[0] then -1
    else if a[0] > b[0] then 1
    else
      assert a == [a[0]] + a[1..] && b == [b[0]] + b[1..];
      Compare(a[1..], b[1..])
  }
}
