/** Identifiers of JSON-RPC requests and responses (section 5 of the JSON-RPC 2.0 specification) and
    the keys by which the MCP client correlates them (internal/infra/mcp/mcp.go, NormalizeID). */
module JsonRpcIds {
  import opened Decimals

  /** An id as NormalizeID sees it: the client's own integers, and what encoding/json makes of the
      id in a response, where every JSON number becomes a float. Of arrays and objects only what %v
      prints between their brackets is kept. */
  datatype Id = Null | Integer(n: int) | Float(x: real) | Text(s: string) | Bool(b: bool) | Array(items: string)
      | Object(entries: string)

  /** Go's %.0f rounds half to even. */
  function RoundHalfEven(x: real): int {
    var below := x.Floor;
    var rest := x - below as real;
    if rest < 0.5 || (rest == 0.5 && below % 2 == 0) then below else below + 1
  }

  /** n is nearest to x, and even if its neighbour is as near. */
  lemma RoundHalfEvenIff(x: real, n: int)
    ensures RoundHalfEven(x) == n
            <==> n as real - 0.5 < x < n as real + 0.5
                 || ((x == n as real - 0.5 || x == n as real + 0.5) && n % 2 == 0)
  {
    var below := x.Floor;
    assert below as real <= x < below as real + 1.0;
    if n < below {
      assert n as real <= below as real - 1.0;
    } else if n > below + 1 {
      assert n as real >= below as real + 2.0;
    }
  }

  function NormalizeID(id: Id): string {
    match id
    case Null => ""
    case Integer(n) => Decimal(n)
    case Float(x) => Decimal(RoundHalfEven(x))
    case Text(s) => s
    case Bool(b) => if b then "true" else "false"
    case Array(items) => "[" + items + "]"
    case Object(entries) => "map[" + entries + "]"
  }

  /** Exactly which response ids find the call with id n: its number, any float that rounds to it,
      and the text of its decimal digits; no boolean, array or object does. */
  lemma MatchesIff(id: Id, n: int)
    ensures NormalizeID(id) == Decimal(n) <==>
              (match id
               case Null => false
               case Integer(m) => m == n
               case Float(x) => RoundHalfEven(x) == n
               case Text(s) => s == Decimal(n)
               case _ => false)
  {
    DecimalStarts(n);
    match id
    case Null =>
    case Integer(m) => if Decimal(m) == Decimal(n) { DecimalIsInjective(m, n); }
    case Float(x) =>
      if Decimal(RoundHalfEven(x)) == Decimal(n) { DecimalIsInjective(RoundHalfEven(x), n); }
    case Text(_) =>
    case Bool(_) =>
    case Array(items) => assert ("[" + items + "]")[0] == '[';
    case Object(entries) => assert ("map[" + entries + "]")[0] == 'm';
  }

  lemma DecimalStarts(n: int)
    ensures Decimal(n) != "" && (Decimal(n)[0] == '-' || '0' <= Decimal(n)[0] <= '9')
  {
    DigitsParse(if n < 0 then -n else n);
  }

  // ---- Ids that a server echoes as JSON numbers ----

  const PRECISION := 0x20_0000_0000_0000 // 2^53

  /** The gap between float64 values around n: 1 below 2^53, then doubling. */
  function Ulp(n: nat): (u: nat)
    ensures u > 0
  {
    if n < PRECISION then 1 else 2 * Ulp(n / 2)
  }

  /** The float64 nearest to n, ties to the one with an even significand. */
  function ToFloat64(n: nat): nat {
    Nearest(n / Ulp(n), Ulp(n), Excess(n))
  }

  /** How far n lies above the float64 at or below it. */
  function Excess(n: nat): (r: nat)
    ensures r < Ulp(n)
  {
    n % Ulp(n)
  }

  function Nearest(q: nat, u: nat, r: nat): nat {
    if 2 * r < u || (2 * r == u && q % 2 == 0) then q * u else (q + 1) * u
  }

  /** The whole numbers that a float64 can be: those below 2^53 and the doubles of such numbers. */
  predicate IsFloat64(n: nat) {
    n < PRECISION || (n % 2 == 0 && IsFloat64(n / 2))
  }

  lemma {:induction false} ExcessIsZeroIff(n: nat)
    ensures Excess(n) == 0 <==> IsFloat64(n)
  {
    if n < PRECISION {
      assert Ulp(n) == 1;
    } else {
      ExcessIsZeroIff(n / 2);
      HalfExcess(n, Ulp(n / 2));
    }
  }

  lemma HalfExcess(n: nat, u: nat)
    requires u > 0
    ensures n % (2 * u) == 2 * ((n / 2) % u) + n % 2
  {
    DivMod(n / 2, u);
    var p, r := (n / 2) / u, 2 * ((n / 2) % u) + n % 2;
    assert n == p * (2 * u) + r && r < 2 * u;
    DivisionIs(n, p, 2 * u, r);
  }

  lemma DivisionIs(n: nat, q: nat, u: nat, r: nat)
    requires n == q * u + r && r < u
    ensures n / u == q && n % u == r
  {
    DivMod(n, u);
    var d := q - n / u;
    assert d * u == n % u - r;
    Multiple(d, u);
  }

  lemma Multiple(d: int, u: int)
    requires u > 0
    ensures d > 0 ==> d * u >= u
    ensures d < 0 ==> d * u <= -u
  {
  }

  ghost predicate NoneBetween(low: nat, high: nat) {
    forall m: nat :: low < m < high ==> !IsFloat64(m)
  }

  /** The float64 at or below n and the next one; none lies between them. */
  lemma {:induction false} Neighbours(n: nat)
    ensures var low := n - Excess(n);
            && 0 <= low <= n < low + Ulp(n) && IsFloat64(low) && IsFloat64(low + Ulp(n))
            && NoneBetween(low, low + Ulp(n))
  {
    hide *;
    UlpStep(n);
    if n < PRECISION {
      SmallIsFloat64(n);
      SmallIsFloat64(n + 1);
      NothingBetween(n);
    } else {
      Neighbours(n / 2);
      HalfExcess(n, Ulp(n / 2));
      DoubleNeighbours(n / 2, n / 2 - Excess(n / 2), n / 2 - Excess(n / 2) + Ulp(n / 2));
    }
  }

  lemma UlpStep(n: nat)
    ensures Excess(n) == n % Ulp(n)
    ensures n < PRECISION ==> Ulp(n) == 1 && Excess(n) == 0
    ensures n >= PRECISION ==> Ulp(n) == 2 * Ulp(n / 2) && Excess(n / 2) == (n / 2) % Ulp(n / 2)
  {
  }

  lemma FloatStep(n: nat)
    ensures IsFloat64(n) <==> n < PRECISION || (n % 2 == 0 && IsFloat64(n / 2))
    ensures PRECISION % 2 == 0 && PRECISION > 2
  {
  }

  lemma SmallIsFloat64(n: nat)
    requires n <= PRECISION
    ensures IsFloat64(n)
  {
    if n == PRECISION {
      assert IsFloat64(n / 2);
    }
  }

  lemma NothingBetween(n: nat)
    ensures NoneBetween(n, n + 1)
  {
  }

  lemma BetweenMeans(low: nat, high: nat, m: nat)
    requires NoneBetween(low, high) && low < m < high
    ensures !IsFloat64(m)
  {
    hide IsFloat64;
  }

  lemma DoubleNeighbours(n: nat, low: nat, high: nat)
    requires low <= n < high && PRECISION / 2 <= n
    requires IsFloat64(low) && IsFloat64(high) && NoneBetween(low, high)
    ensures IsFloat64(2 * low) && IsFloat64(2 * high) && NoneBetween(2 * low, 2 * high)
  {
    hide *;
    FloatStep(low);
    SmallIsFloat64(PRECISION / 2);
    if low < PRECISION / 2 {
      BetweenMeans(low, high, PRECISION / 2);
    }
    FloatStep(2 * low);
    FloatStep(2 * high);
    forall m: nat | 2 * low < m < 2 * high ensures !IsFloat64(m) {
      FloatStep(m);
      if m % 2 == 0 {
        BetweenMeans(low, high, m / 2);
      }
    }
    NoneIs(2 * low, 2 * high);
  }

  lemma NoneIs(low: nat, high: nat)
    requires forall m: nat :: low < m < high ==> !IsFloat64(m)
    ensures NoneBetween(low, high)
  {
    hide IsFloat64;
  }

  function Distance(a: nat, b: nat): nat {
    if a < b then b - a else a - b
  }

  /** No float64 is nearer to n; when another one is as near, the one with an even significand is
      taken. */
  lemma NearestFloat64(n: nat, m: nat)
    requires IsFloat64(m)
    ensures IsFloat64(ToFloat64(n)) && Distance(ToFloat64(n), n) <= Distance(m, n)
    ensures m != ToFloat64(n) && Distance(ToFloat64(n), n) == Distance(m, n) ==> (ToFloat64(n) / Ulp(n)) % 2 == 0
  {
    hide *;
    Neighbours(n);
    ToFloat64Is(n);
    if n - Excess(n) < m < n - Excess(n) + Ulp(n) {
      BetweenMeans(n - Excess(n), n - Excess(n) + Ulp(n), m);
    }
    NearestIs(n, n / Ulp(n), Ulp(n), Excess(n), m);
  }

  lemma ToFloat64Is(n: nat)
    ensures var u, q := Ulp(n), n / Ulp(n);
            && ToFloat64(n) == Nearest(q, u, Excess(n)) && u > 0 && Excess(n) < u
            && n == q * u + Excess(n) && q * u == n - Excess(n) && (q + 1) * u == n - Excess(n) + u
  {
    var u, q := Ulp(n), n / Ulp(n);
    DivMod(n, u);
    hide Ulp, Nearest;
    assert (q + 1) * u == q * u + u;
  }

  lemma NearestIs(n: nat, q: nat, u: nat, r: nat, m: nat)
    requires n == q * u + r && r < u && (m <= q * u || m >= (q + 1) * u)
    ensures var best := Nearest(q, u, r);
            && (best == q * u || best == (q + 1) * u) && Distance(best, n) <= Distance(m, n)
            && (m != best && Distance(best, n) == Distance(m, n) ==> (best / u) % 2 == 0)
  {
    assert (q + 1) * u == q * u + u;
    DivisionIs(q * u, q, u, 0);
    DivisionIs((q + 1) * u, q + 1, u, 0);
  }

  /** The id of a response that repeats the number n. */
  function Echo(n: nat): Id {
    Float(ToFloat64(n) as real)
  }

  lemma RoundsToItself(n: int)
    ensures RoundHalfEven(n as real) == n
  {
  }

  lemma NearestIff(n: nat, q: nat, u: nat, r: nat)
    requires n == q * u + r && r < u
    ensures Nearest(q, u, r) == n <==> r == 0
  {
    assert (q + 1) * u == q * u + u;
  }

  lemma DivMod(n: nat, u: nat)
    requires u > 0
    ensures n == (n / u) * u + n % u
  {
  }

  /** Rounding to a float64 changes exactly the numbers between two of them. */
  lemma ToFloat64KeepsIff(n: nat)
    ensures ToFloat64(n) == n <==> Excess(n) == 0
  {
    DivMod(n, Ulp(n));
    NearestIff(n, n / Ulp(n), Ulp(n), Excess(n));
  }

  /** An echoed id finds its call exactly when the id is a float64. */
  lemma EchoFindsIff(n: nat)
    ensures NormalizeID(Echo(n)) == Decimal(n) <==> IsFloat64(n)
  {
    MatchesIff(Echo(n), n);
    ExcessIsZeroIff(n);
    RoundsToItself(ToFloat64(n));
    ToFloat64KeepsIff(n);
    hide ToFloat64, Excess, Ulp, NormalizeID, Decimals.Decimal, RoundHalfEven, IsFloat64;
  }

  /** So every id up to 2^53 works. */
  lemma SmallIdsEcho(n: nat)
    requires n <= PRECISION
    ensures NormalizeID(Echo(n)) == Decimal(n)
  {
    EchoFindsIff(n);
    hide NormalizeID, Decimals.Decimal;
    if n == PRECISION {
      assert Ulp(n) == 2 * Ulp(n / 2) == 2;
    }
  }

  /** The first id of a client that would wait for ever for its echo. */
  lemma FirstLostEcho()
    ensures NormalizeID(Echo(PRECISION + 1)) != Decimal(PRECISION + 1)
  {
    EchoFindsIff(PRECISION + 1);
    assert Ulp(PRECISION + 1) == 2 * Ulp((PRECISION + 1) / 2) == 2;
  }
}
