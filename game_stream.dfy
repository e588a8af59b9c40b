/** The game data stream: generators of game events, of the Fibonacci numbers
    and of the first prime numbers, and the counting loop over a stream of
    events. Each generator is modelled by the loop that produces its values. */
module GameStream {
  import Seqs

  datatype Event = Event(id: int, player: string, level: int, action: string)

  const Players: seq<string> := ["alice", "bob", "charlie"]
  const Levels: seq<int> := [5, 8, 12, 15, 20]
  const Actions: seq<string> := ["killed monster", "found treasure", "leveled up"]

  /** The event yielded for index `i`: player, level and action are all chosen
      by `i mod 3`, so the levels 15 and 20 are never used. */
  function EventAt(i: nat): (e: Event)
    ensures e.id == i + 1
    ensures e.level == [5, 8, 12][i % 3]
  {
    Event(i + 1, Players[i % 3], Levels[i % 3], Actions[i % 3])
  }

  /** `game_events_generator(n)`: the n events for the indices 0 to n - 1. */
  method GameEvents(n: nat) returns (events: seq<Event>)
    ensures |events| == n
    ensures forall i :: 0 <= i < n ==> events[i] == EventAt(i)
  {
    events := [];
    var i := 0;
    while i < n
      invariant 0 <= i <= n && |events| == i
      invariant forall k :: 0 <= k < i ==> events[k] == EventAt(k)
    {
      events := events + [EventAt(i)];
      i := i + 1;
    }
  }

  predicate IsHighLevel(e: Event) { e.level >= 10 }
  predicate IsTreasure(e: Event) { e.action == "found treasure" }
  predicate IsLevelUp(e: Event) { e.action == "leveled up" }

  /** The counting loop of the stream processor. */
  method CountEvents(events: seq<Event>) returns (highLevel: nat, treasure: nat, levelUp: nat)
    ensures highLevel == Seqs.Count(events, IsHighLevel)
    ensures treasure == Seqs.Count(events, IsTreasure)
    ensures levelUp == Seqs.Count(events, IsLevelUp)
  {
    highLevel, treasure, levelUp := 0, 0, 0;
    var i := 0;
    while i < |events|
      invariant 0 <= i <= |events|
      invariant highLevel == Seqs.Count(events[..i], IsHighLevel)
      invariant treasure == Seqs.Count(events[..i], IsTreasure)
      invariant levelUp == Seqs.Count(events[..i], IsLevelUp)
    {
      Seqs.CountPrefix(events, i, IsHighLevel);
      Seqs.CountPrefix(events, i, IsTreasure);
      Seqs.CountPrefix(events, i, IsLevelUp);
      var e := events[i];
      if IsHighLevel(e) {
        highLevel := highLevel + 1;
      }
      if IsTreasure(e) {
        treasure := treasure + 1;
      }
      if IsLevelUp(e) {
        levelUp := levelUp + 1;
      }
      i := i + 1;
    }
    assert events[..i] == events;
  }

  /** Which of the three counters an event adds to: the high level (12) and
      the level-up action both belong to index 2 mod 3, the treasure to 1. */
  lemma EventKinds(i: nat)
    ensures IsHighLevel(EventAt(i)) <==> i % 3 == 2
    ensures IsLevelUp(EventAt(i)) <==> i % 3 == 2
    ensures IsTreasure(EventAt(i)) <==> i % 3 == 1
  {
    assert Actions[1] != Actions[2] && Actions[0] != Actions[1] && Actions[0] != Actions[2] by {
      assert Actions[1][0] != Actions[2][0] && Actions[0][0] != Actions[1][0] && Actions[0][0] != Actions[2][0];
    }
  }

  /** Among the first n indices, those equal to r mod 3 number (n + 2 - r) / 3. */
  lemma {:induction false} ResidueCount(events: seq<Event>, n: nat, keep: Event -> bool, r: nat)
    requires r < 3 && |events| == n
    requires forall i :: 0 <= i < n ==> (keep(events[i]) <==> i % 3 == r)
    ensures Seqs.Count(events, keep) == (n + 2 - r) / 3
  {
    if n > 0 {
      var init := events[..n - 1];
      ResidueCount(init, n - 1, keep, r);
      assert events == init + [events[n - 1]];
      Seqs.CountAppend(init, [events[n - 1]], keep);
      assert (n + 2 - r) / 3 == (n + 1 - r) / 3 + (if (n - 1) % 3 == r then 1 else 0);
    }
  }

  /** Over the first n events, the treasure events number (n + 1) / 3 and the
      high-level and level-up events n / 3 each. */
  lemma EventCounts(events: seq<Event>, n: nat)
    requires |events| == n && forall i :: 0 <= i < n ==> events[i] == EventAt(i)
    ensures Seqs.Count(events, IsHighLevel) == n / 3
    ensures Seqs.Count(events, IsLevelUp) == n / 3
    ensures Seqs.Count(events, IsTreasure) == (n + 1) / 3
  {
    HighLevelCount(events, n);
    LevelUpCount(events, n);
    TreasureCount(events, n);
  }

  lemma HighLevelCount(events: seq<Event>, n: nat)
    requires |events| == n && forall i :: 0 <= i < n ==> events[i] == EventAt(i)
    ensures Seqs.Count(events, IsHighLevel) == n / 3
  {
    forall i | 0 <= i < n
      ensures IsHighLevel(events[i]) <==> i % 3 == 2
    {
      EventKinds(i);
    }
    ResidueCount(events, n, IsHighLevel, 2);
  }

  lemma LevelUpCount(events: seq<Event>, n: nat)
    requires |events| == n && forall i :: 0 <= i < n ==> events[i] == EventAt(i)
    ensures Seqs.Count(events, IsLevelUp) == n / 3
  {
    forall i | 0 <= i < n
      ensures IsLevelUp(events[i]) <==> i % 3 == 2
    {
      EventKinds(i);
    }
    ResidueCount(events, n, IsLevelUp, 2);
  }

  lemma TreasureCount(events: seq<Event>, n: nat)
    requires |events| == n && forall i :: 0 <= i < n ==> events[i] == EventAt(i)
    ensures Seqs.Count(events, IsTreasure) == (n + 1) / 3
  {
    forall i | 0 <= i < n
      ensures IsTreasure(events[i]) <==> i % 3 == 1
    {
      EventKinds(i);
    }
    ResidueCount(events, n, IsTreasure, 1);
  }

  /** The script: over 1000 events there are 333 high-level, 333 treasure and
      333 level-up events. */
  method StreamAnalytics() returns (highLevel: nat, treasure: nat, levelUp: nat)
    ensures highLevel == 333 && treasure == 333 && levelUp == 333
  {
    var events := GameEvents(1000);
    highLevel, treasure, levelUp := CountEvents(events);
    EventCounts(events, 1000);
  }

  /** The Fibonacci numbers with F(0) = 0 and F(1) = 1. */
  function Fib(k: nat): nat
  {
    if k < 2 then k else Fib(k - 1) + Fib(k - 2)
  }

  /** `fibonacci(n)`: the loop over the pair `a, b` yields F(0), ..., F(n - 1). */
  method Fibonacci(n: nat) returns (values: seq<nat>)
    ensures |values| == n
    ensures forall k :: 0 <= k < n ==> values[k] == Fib(k)
  {
    values := [];
    var a, b := 0, 1;
    var i := 0;
    while i < n
      invariant 0 <= i <= n && |values| == i
      invariant a == Fib(i) && b == Fib(i + 1)
      invariant forall k :: 0 <= k < i ==> values[k] == Fib(k)
    {
      assert Fib(i + 2) == Fib(i + 1) + Fib(i);
      values := values + [a];
      a, b := b, a + b;
      i := i + 1;
    }
  }

  /** The first ten values the script prints. */
  lemma FibonacciFirstTen()
    ensures Fib(9) == 34 && Fib(8) == 21
  {
    assert Fib(2) == 1 && Fib(3) == 2 && Fib(4) == 3 && Fib(5) == 5 && Fib(6) == 8 && Fib(7) == 13;
  }

  /** A prime: at least 2 and with no divisor between 2 and itself. */
  predicate Prime(p: int)
  {
    p >= 2 && forall k :: 2 <= k < p ==> p % k != 0
  }

  function Fact(m: nat): nat
  {
    if m == 0 then 1 else m * Fact(m - 1)
  }

  /** A positive multiple of a positive number is at least that number. */
  lemma {:induction false} MulAtLeast(d: int, k: int)
    requires d > 0 && k >= 1
    ensures d * k >= d
    decreases k
  {
    if k > 1 {
      MulAtLeast(d, k - 1);
      assert d * k == d * (k - 1) + d;
    }
  }

  /** Quotient and remainder are determined by any decomposition `y = d*q + r`
      with `0 <= r < d`. */
  lemma DivModUnique(y: int, d: int, q: int, r: int)
    requires d > 0 && 0 <= r < d && y == d * q + r
    ensures y / d == q && y % d == r
  {
    var q', r' := y / d, y % d;
    assert d * q' + r' == d * q + r;
    assert d * (q - q') == r' - r;
    if q - q' >= 1 {
      MulAtLeast(d, q - q');
    } else if q' - q >= 1 {
      MulAtLeast(d, q' - q);
    }
  }

  /** Divisibility is transitive. */
  lemma DivTrans(a: int, b: int, c: int)
    requires b > 0 && c > 0 && a % b == 0 && b % c == 0
    ensures a % c == 0
  {
    var x := a / b;
    var y := b / c;
    assert a == b * x;
    assert b == c * y;
    assert b * x == (c * y) * x;
    assert (c * y) * x == c * (y * x);
    DivModUnique(a, c, y * x, 0);
  }

  /** Every number from 1 to m divides m!. */
  lemma {:induction false} FactDivisible(m: nat, d: nat)
    requires 1 <= d <= m
    ensures Fact(m) % d == 0
  {
    if d == m {
      assert Fact(m) == d * Fact(m - 1);
      DivModUnique(Fact(m), d, Fact(m - 1), 0);
    } else {
      FactDivisible(m - 1, d);
      var q := Fact(m - 1) / d;
      assert Fact(m - 1) == d * q;
      assert Fact(m) == m * (d * q);
      assert m * (d * q) == d * (m * q);
      DivModUnique(Fact(m), d, m * q, 0);
    }
  }

  /** A multiple of d plus 1 leaves remainder 1. */
  lemma MultiplePlusOne(x: int, d: int)
    requires d >= 2 && x % d == 0
    ensures (x + 1) % d == 1
  {
    var q := x / d;
    assert x == d * q;
    DivModUnique(x + 1, d, q, 1);
  }

  /** Euclid: above any number there is a prime, the least divisor of m! + 1. */
  lemma PrimeAbove(m: nat) returns (p: int)
    ensures Prime(p) && p > m
  {
    FactPositive(m);
    p := LeastDivisor(Fact(m) + 1);
    if p <= m {
      FactDivisible(m, p);
      MultiplePlusOne(Fact(m), p);
    }
  }

  /** The least divisor from 2 of a number from 2 is prime. */
  lemma LeastDivisor(big: int) returns (p: int)
    requires big >= 2
    ensures Prime(p) && p <= big && big % p == 0
  {
    p := 2;
    while big % p != 0
      invariant 2 <= p <= big
      invariant forall k :: 2 <= k < p ==> big % k != 0
      decreases big - p
    {
      p := p + 1;
    }
    forall k | 2 <= k < p
      ensures p % k != 0
    {
      if p % k == 0 {
        DivTrans(big, p, k);
      }
    }
  }

  lemma {:induction false} FactPositive(m: nat)
    ensures Fact(m) >= 1
  {
    if m > 0 {
      FactPositive(m - 1);
    }
  }

  /** `prime_numbers(n)`: trial division of 2, 3, 4, ... by every smaller
      number from 2, keeping those with no divisor, until n are found. The
      result is the first n primes in increasing order. */
  method PrimeNumbers(n: nat) returns (primes: seq<int>)
    ensures |primes| == n
    ensures forall j :: 0 <= j < n ==> Prime(primes[j])
    ensures forall j, k :: 0 <= j < k < n ==> primes[j] < primes[k]
    ensures n > 0 ==> forall p :: Prime(p) && p < primes[n - 1] ==> p in primes
  {
    primes := [];
    var nb := 2;
    var i := 0;
    ghost var target := 2;
    while i < n
      invariant 0 <= i <= n && |primes| == i && nb >= 2
      invariant forall j :: 0 <= j < i ==> Prime(primes[j]) && primes[j] < nb
      invariant forall j, k :: 0 <= j < k < i ==> primes[j] < primes[k]
      invariant forall p :: Prime(p) && p < nb ==> p in primes
      invariant Prime(target) && target >= nb
      decreases n - i, target - nb
    {
      var d := 2;
      while d < nb
        invariant 2 <= d <= nb
        invariant forall k :: 2 <= k < d ==> nb % k != 0
      {
        if nb % d == 0 {
          break;
        }
        d := d + 1;
      }
      if d == nb {
        primes := primes + [nb];
        i := i + 1;
        target := PrimeAbove(nb);
      } else {
        assert !Prime(nb);
      }
      nb := nb + 1;
    }
  }
}
