/** Fairness of the round-robin picks, and where the uint32 ticket counter spoils it. */
module PoolRoundRobin {
  import opened PoolSpec

  /** The position in a list of n refs that a ticket counter stands for, gcp_balancer.go:385. */
  function Position(n: nat, ticket: nat): nat
    requires n > 0
  {
    (ticket % TWO_32) % n
  }

  /** How many of the len tickets from first on go to position j. */
  function Turns(n: nat, first: nat, len: nat, j: nat): nat
    requires n > 0
  {
    if len == 0 then 0 else Turns(n, first, len - 1, j) + if Position(n, first + len - 1) == j then 1 else 0
  }

  /** How many numbers below x leave remainder j. */
  function Below(n: nat, x: nat, j: nat): int
    requires n > 0
  {
    x / n + if j < x % n then 1 else 0
  }

  lemma NextQuotient(n: nat, x: nat)
    requires n > 0
    ensures if x % n == n - 1 then (x + 1) / n == x / n + 1 && (x + 1) % n == 0
            else (x + 1) / n == x / n && (x + 1) % n == x % n + 1
  {
    var q, r := x / n, x % n;
    assert x == q * n + r;
    if r == n - 1 {
      assert x + 1 == (q + 1) * n;
      QuotientIs(n, x + 1, q + 1, 0);
    } else {
      QuotientIs(n, x + 1, q, r + 1);
    }
  }

  lemma QuotientIs(n: nat, x: nat, q: nat, r: nat)
    requires n > 0 && r < n && x == q * n + r
    ensures x / n == q && x % n == r
  {
    var d := x / n - q;
    assert d * n == r - x % n;
    Multiples(d, n);
  }

  lemma Multiples(d: int, n: nat)
    ensures d > 0 ==> d * n >= n
    ensures d < 0 ==> d * n <= 0 - n
  {
  }

  lemma BelowNext(n: nat, x: nat, j: nat)
    requires n > 0 && j < n
    ensures Below(n, x + 1, j) == Below(n, x, j) + if x % n == j then 1 else 0
  {
    NextQuotient(n, x);
  }

  lemma BelowMore(n: nat, x: nat, k: nat, j: nat)
    requires n > 0
    ensures Below(n, x + k * n, j) == Below(n, x, j) + k
  {
    QuotientIs(n, x + k * n, x / n + k, x % n);
  }

  lemma PositionIs(n: nat, ticket: nat)
    requires n > 0 && ticket < 2 * TWO_32
    ensures Position(n, ticket) == if ticket < TWO_32 then ticket % n else (ticket - TWO_32) % n
  {
  }

  lemma {:induction false} TurnsWithoutWrap(n: nat, first: nat, len: nat, j: nat)
    requires n > 0 && j < n && first + len <= TWO_32
    ensures Turns(n, first, len, j) == Below(n, first + len, j) - Below(n, first, j)
    decreases len
  {
    hide Below, Position;
    if len > 0 {
      TurnsWithoutWrap(n, first, len - 1, j);
      PositionIs(n, first + len - 1);
      BelowNext(n, first + len - 1, j);
    }
  }

  lemma {:induction false} TurnsAfterWrap(n: nat, first: nat, len: nat, j: nat)
    requires n > 0 && j < n && first <= TWO_32 <= first + len <= 2 * TWO_32
    ensures Turns(n, first, len, j) ==
            Below(n, TWO_32, j) - Below(n, first, j) + Below(n, first + len - TWO_32, j)
    decreases len
  {
    NoneBelow(n, j);
    hide Below, Position;
    if first + len == TWO_32 {
      TurnsWithoutWrap(n, first, len, j);
    } else {
      TurnsAfterWrap(n, first, len - 1, j);
      PositionIs(n, first + len - 1);
      BelowNext(n, first + len - 1 - TWO_32, j);
    }
  }

  lemma NoneBelow(n: nat, j: nat)
    requires n > 0
    ensures Below(n, 0, j) == 0
  {
    QuotientIs(n, 0, 0, 0);
  }

  ghost predicate Fair(n: nat, first: nat, k: nat)
    requires n > 0
  {
    forall j | 0 <= j < n :: Turns(n, first, k * n, j) == k
  }

  /** Any k * n consecutive tickets that do not cross the wrap go k times to each position. */
  lemma FairWithoutWrap(n: nat, first: nat, k: nat)
    requires n > 0 && first + k * n <= TWO_32
    ensures Fair(n, first, k)
  {
    forall j | 0 <= j < n ensures Turns(n, first, k * n, j) == k {
      TurnsWithoutWrap(n, first, k * n, j);
      BelowMore(n, first, k, j);
    }
  }

  /**
   Across the wrap they do exactly when the list length divides 2^32, or the tickets after the wrap
   are a multiple of it.
   */
  lemma FairAcrossWrapIff(n: nat, first: nat, k: nat)
    requires n > 0 && first < TWO_32 < first + k * n <= 2 * TWO_32
    ensures Fair(n, first, k) <==> TWO_32 % n == 0 || (first + k * n - TWO_32) % n == 0
  {
    var b := first + k * n - TWO_32;
    var p, c := TWO_32 % n, b % n;
    forall j | 0 <= j < n
      ensures Turns(n, first, k * n, j) == k + Below(n, TWO_32, j) + Below(n, b, j) - Below(n, TWO_32 + b, j)
    {
      TurnsAfterWrap(n, first, k * n, j);
      BelowMore(n, first, k, j);
    }
    SplitQuotient(n, TWO_32, b);
    if p > 0 && c > 0 {
      var j := if p + c < n then 0 else n - 1;
      assert Turns(n, first, k * n, j) != k;
    }
  }

  lemma Distributes(a: nat, b: nat, n: nat)
    ensures (a + b) * n == a * n + b * n && (a + b + 1) * n == a * n + b * n + n
  {
  }

  lemma SplitQuotient(n: nat, x: nat, y: nat)
    requires n > 0
    ensures var p := x % n + y % n;
      if p < n then (x + y) / n == x / n + y / n && (x + y) % n == p
      else (x + y) / n == x / n + y / n + 1 && (x + y) % n == p - n
  {
    var a, c := Quotient(n, x);
    var b, d := Quotient(n, y);
    SplitParts(n, x + y, a, c, b, d);
  }

  lemma Quotient(n: nat, x: nat) returns (q: nat, r: nat)
    requires n > 0
    ensures q == x / n && r == x % n && r < n && x == q * n + r
  {
    q, r := x / n, x % n;
  }

  lemma SplitParts(n: nat, x: nat, a: nat, c: nat, b: nat, d: nat)
    requires c < n && d < n && x == a * n + c + (b * n + d)
    ensures if c + d < n then x / n == a + b && x % n == c + d
            else x / n == a + b + 1 && x % n == c + d - n
  {
    Distributes(a, b, n);
    if c + d < n {
      QuotientIs(n, x, a + b, c + d);
    } else {
      QuotientIs(n, x, a + b + 1, c + d - n);
    }
  }

  // ----- the ticket counter of the pool

  function Drawn<R>(s: Pool<R>, m: nat): Pool<R> {
    if m == 0 then s else NextTicket(Drawn(s, m - 1))
  }

  lemma {:induction false} DrawnCounts<R>(s: Pool<R>, m: nat)
    ensures Drawn(s, m).rrRefId == (s.rrRefId + m) % TWO_32
    decreases m
  {
    if m > 0 {
      DrawnCounts(s, m - 1);
      OneMoreTicket(s.rrRefId + m - 1);
    }
  }

  lemma OneMoreTicket(x: nat)
    ensures (x % TWO_32 + 1) % TWO_32 == (x + 1) % TWO_32
  {
  }

  /** The position of the next pick, and of the ones after it; the first pick of a new balancer takes position 0. */
  lemma TicketsArePositions<R>(s: Pool<R>, n: nat, i: nat)
    requires n > 0
    ensures Drawn(s, i + 1).rrRefId % n == Position(n, s.rrRefId + 1 + i)
    ensures forall now :: Drawn(Build<R>(now), 1).rrRefId % n == 0
  {
    DrawnCounts(s, i + 1);
    forall now ensures Drawn(Build<R>(now), 1).rrRefId % n == 0 {
      DrawnCounts(Build<R>(now), 1);
    }
  }
}
