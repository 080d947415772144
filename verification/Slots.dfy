/**
 * The distribution of connection slots over worker threads (plugins/fastcgi/fcgi_fd.c) and the
 * limit it puts on open connections.
 */
module Dealing {
  import Ring

  /** How many of the numbers below `n` are `t` modulo `m`: what dealing in turn gives to `t`. */
  function Count(n: nat, m: nat, t: nat): nat
    requires m > 0
  {
    if n == 0 then 0 else Count(n - 1, m, t) + if (n - 1) % m == t then 1 else 0
  }

  function SumUpTo(f: nat -> nat, n: nat): nat {
    if n == 0 then 0 else SumUpTo(f, n - 1) + f(n - 1)
  }

  lemma {:induction false} SumSame(f: nat -> nat, g: nat -> nat, n: nat)
    requires forall k :: 0 <= k < n ==> f(k) == g(k)
    ensures SumUpTo(f, n) == SumUpTo(g, n)
  {
    if n > 0 {
      SumSame(f, g, n - 1);
    }
  }

  /** Raising one summand by one. */
  lemma {:induction false} SumBump(f: nat -> nat, g: nat -> nat, n: nat, at: nat)
    requires at < n && g(at) == f(at) + 1 && forall k :: 0 <= k < n && k != at ==> f(k) == g(k)
    ensures SumUpTo(g, n) == SumUpTo(f, n) + 1
  {
    if at == n - 1 {
      SumSame(f, g, n - 1);
    } else {
      SumBump(f, g, n - 1, at);
    }
  }

  lemma {:induction false} SumZero(f: nat -> nat, n: nat)
    requires forall k :: 0 <= k < n ==> f(k) == 0
    ensures SumUpTo(f, n) == 0
  {
    if n > 0 {
      SumZero(f, n - 1);
    }
  }

  /** Everything that is dealt arrives somewhere. */
  lemma {:induction false} DealtAll(n: nat, m: nat)
    requires m > 0
    ensures SumUpTo(t => Count(n, m, t), m) == n
  {
    if n == 0 {
      SumZero(t => Count(0, m, t), m);
    } else {
      DealtAll(n - 1, m);
      var at := (n - 1) % m;
      SumBump(t => Count(n - 1, m, t), t => Count(n, m, t), m, at);
    }
  }

  lemma {:induction false} CountGrows(a: nat, b: nat, m: nat, t: nat)
    requires m > 0 && a <= b
    ensures Count(a, m, t) <= Count(b, m, t)
    decreases b
  {
    if a < b {
      CountGrows(a, b - 1, m, t);
    }
  }

  /** The share of each: the quotient, and one more for those the remainder reaches. */
  lemma {:induction false} Share(n: nat, m: nat, t: nat)
    requires t < m
    ensures Count(n, m, t) == n / m + if t < n % m then 1 else 0
  {
    if n > 0 {
      Share(n - 1, m, t);
      NextShare(n - 1, m);
    } else {
      ZeroShare(m);
    }
  }

  lemma ZeroShare(m: nat)
    requires m > 0
    ensures 0 / m == 0 && 0 % m == 0
  {}

  lemma NextShare(n: nat, m: nat)
    requires m > 0
    ensures n % m + 1 < m ==> (n + 1) / m == n / m && (n + 1) % m == n % m + 1
    ensures n % m + 1 == m ==> (n + 1) / m == n / m + 1 && (n + 1) % m == 0
  {
    var q, r := n / m, n % m;
    Ring.DivMod(n, m);
    if r + 1 < m {
      Ring.ModUnique(n + 1, m, q, r + 1);
    } else {
      assert m * (q + 1) == m * q + m;
      Ring.ModUnique(n + 1, m, q + 1, 0);
    }
  }

  /** No two shares differ by more than one. */
  lemma SharesEven(n: nat, m: nat, t: nat, u: nat)
    requires t < m && u < m
    ensures Count(n, m, t) <= Count(n, m, u) + 1
  {
    Share(n, m, t);
    Share(n, m, u);
  }
}

module Slots {
  import opened Bytes
  import opened World
  import opened Dealing
  import Ring
  import Handlers

  /** A location's servers, by id; a configuration with the MaxConnections of every server. */
  datatype Location = Location(servers: seq<nat>)
  datatype Config = Config(maxConns: seq<nat>, locations: seq<Location>)

  predicate Distinct(s: seq<nat>) {
    forall i, j :: 0 <= i < j < |s| ==> s[i] != s[j]
  }

  predicate Apart(a: seq<nat>, b: seq<nat>) { forall s :: s in a ==> s !in b }

  /** What fcgi_validate_conf checks: known servers, each used by one location at most. */
  predicate ValidConfig(c: Config) {
    && (forall l :: 0 <= l < |c.locations| ==>
          && c.locations[l].servers != [] && Distinct(c.locations[l].servers)
          && forall p :: 0 <= p < |c.locations[l].servers| ==> c.locations[l].servers[p] < |c.maxConns|)
    && (forall l, k :: 0 <= l < k < |c.locations| ==> Apart(c.locations[l].servers, c.locations[k].servers))
  }

  /** The connections of the first `p` servers of a location. */
  function Before(c: Config, loc: Location, p: nat): nat
    requires p <= |loc.servers| && forall k :: 0 <= k < |loc.servers| ==> loc.servers[k] < |c.maxConns|
  {
    if p == 0 then 0 else Before(c, loc, p - 1) + c.maxConns[loc.servers[p - 1]]
  }

  /** The matrix cell for thread `t` and the location's p-th server: its turns in one long deal. */
  function NormalCell(c: Config, loc: Location, threads: nat, p: nat, t: nat): nat
    requires threads > 0 && p < |loc.servers|
    requires forall k :: 0 <= k < |loc.servers| ==> loc.servers[k] < |c.maxConns|
  {
    CountGrows(Before(c, loc, p), Before(c, loc, p + 1), threads, t);
    Count(Before(c, loc, p + 1), threads, t) - Count(Before(c, loc, p), threads, t)
  }

  /** The matrix as a value: a row per thread, a column per server. */
  type Grid = seq<seq<nat>>

  ghost predicate Shaped(g: Grid, threads: nat, servers: nat) {
    |g| == threads && forall t :: 0 <= t < threads ==> |g[t]| == servers
  }

  ghost function GridOf(m: array2<nat>): (g: Grid)
    reads m
    ensures Shaped(g, m.Length0, m.Length1)
    ensures forall t, s :: 0 <= t < m.Length0 && 0 <= s < m.Length1 ==> g[t][s] == m[t, s]
  {
    seq(m.Length0, t requires 0 <= t < m.Length0 reads m =>
      seq(m.Length1, s requires 0 <= s < m.Length1 reads m => m[t, s]))
  }

  /** The location's servers are columns of a matrix with at least one row. */
  ghost predicate InConfig(c: Config, loc: Location, threads: nat) {
    && threads > 0 && Distinct(loc.servers) && loc.servers != []
    && forall k :: 0 <= k < |loc.servers| ==> loc.servers[k] < |c.maxConns|
  }

  /** The columns of the location's servers hold their cells of the normal distribution. */
  ghost predicate NormalDone(c: Config, loc: Location, g: Grid) {
    && InConfig(c, loc, |g|) && Shaped(g, |g|, |c.maxConns|)
    && forall q, t :: 0 <= q < |loc.servers| && 0 <= t < |g| ==>
         g[t][loc.servers[q]] == NormalCell(c, loc, |g|, q, t)
  }

  /** They hold the fallback's: the servers take turns. */
  ghost predicate FallbackDone(c: Config, loc: Location, g: Grid) {
    && InConfig(c, loc, |g|) && Shaped(g, |g|, |c.maxConns|)
    && forall q, t :: 0 <= q < |loc.servers| && 0 <= t < |g| ==>
         g[t][loc.servers[q]] == if t % |loc.servers| == q then 1 else 0
  }

  ghost predicate EmptyColumn(g: Grid, s: nat) {
    forall t :: 0 <= t < |g| ==> s < |g[t]| && g[t][s] == 0
  }

  /** Columns that are not the location's stay as they are. */
  ghost predicate OtherColumns(loc: Location, g: Grid, g': Grid) {
    && |g'| == |g| && (forall t :: 0 <= t < |g| ==> |g'[t]| == |g[t]|)
    && forall t, s :: 0 <= t < |g| && 0 <= s < |g[t]| && s !in loc.servers ==> g'[t][s] == g[t][s]
  }

  /** One server's connections, dealt on from thread to thread; `clock` is whose turn it is. */
  method DealServer(c: Config, loc: Location, m: array2<nat>, p: nat, clock: nat) returns (next: nat)
    requires InConfig(c, loc, m.Length0) && m.Length1 == |c.maxConns| && p < |loc.servers|
    requires forall t :: 0 <= t < m.Length0 ==> m[t, loc.servers[p]] == 0
    requires clock == Before(c, loc, p) % m.Length0
    modifies m
    ensures next == Before(c, loc, p + 1) % m.Length0
    ensures forall t :: 0 <= t < m.Length0 ==> m[t, loc.servers[p]] == NormalCell(c, loc, m.Length0, p, t)
    ensures forall t, s :: 0 <= t < m.Length0 && 0 <= s < m.Length1 && s != loc.servers[p] ==> m[t, s] == old(m[t, s])
  {
    var s := loc.servers[p];
    var T := m.Length0;
    var left: nat, j := c.maxConns[s], clock;
    ghost var start, dealt := Before(c, loc, p), 0;
    while left > 0
      invariant left + dealt == c.maxConns[s] && j == (start + dealt) % T
      invariant forall t :: 0 <= t < T ==> m[t, s] == Count(start + dealt, T, t) - Count(start, T, t)
      invariant forall t, k :: 0 <= t < T && 0 <= k < m.Length1 && k != s ==> m[t, k] == old(m[t, k])
    {
      Ring.DivMod(start + dealt, T);
      m[j, s] := m[j, s] + 1;
      NextShare(start + dealt, T);
      Wraps(j, T);
      j := (j + 1) % T;
      left := left - 1;
      dealt := dealt + 1;
    }
    next := j;
  }

  lemma Wraps(j: nat, m: nat)
    requires j < m
    ensures (j + 1) % m == if j + 1 < m then j + 1 else 0
  {
    if j + 1 < m {
      Ring.ModUnique(j + 1, m, 0, j + 1);
    } else {
      Ring.ModUnique(j + 1, m, 1, 0);
    }
  }

  lemma NoneBefore(c: Config, loc: Location)
    requires forall k :: 0 <= k < |loc.servers| ==> loc.servers[k] < |c.maxConns|
    ensures Before(c, loc, 0) == 0
  {}

  /** distribute_conns_normal. */
  method DistributeNormal(c: Config, loc: Location, m: array2<nat>)
    requires InConfig(c, loc, m.Length0) && m.Length1 == |c.maxConns|
    requires forall p :: 0 <= p < |loc.servers| ==> EmptyColumn(GridOf(m), loc.servers[p])
    modifies m
    ensures NormalDone(c, loc, GridOf(m)) && OtherColumns(loc, old(GridOf(m)), GridOf(m))
  {
    hide NormalCell, Before, Count;
    var clock, i := 0, 0;
    NoneBefore(c, loc);
    Ring.ModUnique(0, m.Length0, 0, 0);
    forall p, t | 0 <= p < |loc.servers| && 0 <= t < m.Length0 ensures m[t, loc.servers[p]] == 0 {
      assert GridOf(m)[t][loc.servers[p]] == 0;
    }
    while i < |loc.servers|
      invariant 0 <= i <= |loc.servers| && clock == Before(c, loc, i) % m.Length0
      invariant forall q, t :: 0 <= q < i && 0 <= t < m.Length0 ==>
                  m[t, loc.servers[q]] == NormalCell(c, loc, m.Length0, q, t)
      invariant forall q, t :: i <= q < |loc.servers| && 0 <= t < m.Length0 ==> m[t, loc.servers[q]] == 0
      invariant forall t, s :: 0 <= t < m.Length0 && 0 <= s < m.Length1 && s !in loc.servers ==> m[t, s] == old(m[t, s])
    {
      hide GridOf;
      clock := DealServer(c, loc, m, i, clock);
      i := i + 1;
    }
  }

  /** distribute_conns_fallback: one connection per thread, the servers taking turns. */
  method DistributeFallback(c: Config, loc: Location, m: array2<nat>)
    requires InConfig(c, loc, m.Length0) && m.Length1 == |c.maxConns|
    requires forall p :: 0 <= p < |loc.servers| ==> EmptyColumn(GridOf(m), loc.servers[p])
    modifies m
    ensures FallbackDone(c, loc, GridOf(m)) && OtherColumns(loc, old(GridOf(m)), GridOf(m))
  {
    var i, t := 0, 0;
    var S := |loc.servers|;
    Ring.ModUnique(0, S, 0, 0);
    forall p, u | 0 <= p < S && 0 <= u < m.Length0 ensures m[u, loc.servers[p]] == 0 {
      assert GridOf(m)[u][loc.servers[p]] == 0;
    }
    while t < m.Length0
      invariant 0 <= t <= m.Length0 && i == t % S && i < S
      invariant forall p, u :: 0 <= p < S && 0 <= u < m.Length0 ==>
                  m[u, loc.servers[p]] == if u < t && u % S == p then 1 else 0
      invariant forall u, s :: 0 <= u < m.Length0 && 0 <= s < m.Length1 && s !in loc.servers ==> m[u, s] == old(m[u, s])
    {
      hide GridOf;
      m[t, loc.servers[i]] := 1;
      NextShare(t, S);
      Wraps(i, S);
      i := (i + 1) % S;
      t := t + 1;
    }
  }

  /** The sum that decides between the two: a server without a limit counts as one. */
  function Capacity(c: Config, loc: Location, p: nat): nat
    requires p <= |loc.servers| && forall k :: 0 <= k < |loc.servers| ==> loc.servers[k] < |c.maxConns|
  {
    if p == 0 then 0 else
      Capacity(c, loc, p - 1) + (var n := c.maxConns[loc.servers[p - 1]]; if n > 0 then n else 1)
  }

  predicate UsesFallback(c: Config, loc: Location, threads: nat)
    requires forall k :: 0 <= k < |loc.servers| ==> loc.servers[k] < |c.maxConns|
  {
    Capacity(c, loc, |loc.servers|) < threads
  }

  /** The matrix holds the cells of a location. */
  ghost predicate Distributed(c: Config, loc: Location, g: Grid) {
    && InConfig(c, loc, |g|)
    && if UsesFallback(c, loc, |g|) then FallbackDone(c, loc, g) else NormalDone(c, loc, g)
  }

  /** The first `l` locations are distributed, and servers of none of them have no slots. */
  ghost predicate CreatedTo(c: Config, l: nat, g: Grid)
    requires l <= |c.locations|
  {
    && ValidConfig(c) && |g| > 0 && Shaped(g, |g|, |c.maxConns|)
    && (forall k :: 0 <= k < l ==> Distributed(c, c.locations[k], g))
    && (forall s :: 0 <= s < |c.maxConns| && UnusedBy(c, s, l) ==> EmptyColumn(g, s))
  }

  lemma OwnColumnsEmpty(c: Config, l: nat, g: Grid)
    requires l < |c.locations| && CreatedTo(c, l, g)
    ensures InConfig(c, c.locations[l], |g|)
    ensures forall p :: 0 <= p < |c.locations[l].servers| ==> EmptyColumn(g, c.locations[l].servers[p])
  {
    LaterUnused(c, l);
    hide EmptyColumn, Distributed, UnusedBy;
  }

  lemma DistributedKept(c: Config, loc: Location, other: Location, g: Grid, g': Grid)
    requires Apart(loc.servers, other.servers) && OtherColumns(other, g, g') && Distributed(c, loc, g)
    ensures Distributed(c, loc, g')
  {
    hide NormalCell, Capacity;
    assert forall p :: 0 <= p < |loc.servers| ==> loc.servers[p] in loc.servers;
  }

  lemma CreatedNext(c: Config, l: nat, g: Grid, g': Grid)
    requires l < |c.locations| && CreatedTo(c, l, g) && OtherColumns(c.locations[l], g, g')
    requires Distributed(c, c.locations[l], g')
    ensures CreatedTo(c, l + 1, g')
  {
    forall k | 0 <= k < l ensures Distributed(c, c.locations[k], g') {
      DistributedKept(c, c.locations[k], c.locations[l], g, g');
    }
    forall s | 0 <= s < |c.maxConns| && UnusedBy(c, s, l + 1) ensures EmptyColumn(g', s) {
      assert UnusedBy(c, s, l) && s !in c.locations[l].servers;
      assert EmptyColumn(g, s);
    }
    hide Distributed, UnusedBy, EmptyColumn;
  }

  /** One location, in its own columns. */
  method DistributeOne(c: Config, l: nat, m: array2<nat>)
    requires l < |c.locations| && CreatedTo(c, l, GridOf(m))
    modifies m
    ensures CreatedTo(c, l + 1, GridOf(m))
  {
    ghost var g := GridOf(m);
    OwnColumnsEmpty(c, l, g);
    assert m.Length1 == |c.maxConns| by { assert |g[0]| == m.Length1; }
    hide CreatedTo, Before, NormalCell, Capacity, NormalDone, FallbackDone, EmptyColumn, OtherColumns, GridOf;
    var loc := c.locations[l];
    if UsesFallback(c, loc, m.Length0) {
      DistributeFallback(c, loc, m);
    } else {
      DistributeNormal(c, loc, m);
    }
    CreatedNext(c, l, g, GridOf(m));
  }

  /** fcgi_fd_matrix_create: every location is distributed in its own columns. */
  method CreateMatrix(c: Config, threads: nat) returns (m: array2<nat>)
    requires ValidConfig(c) && threads > 0
    ensures fresh(m) && m.Length0 == threads && m.Length1 == |c.maxConns| && CreatedTo(c, |c.locations|, GridOf(m))
    ensures forall l :: 0 <= l < |c.locations| ==> SharedOut(c, c.locations[l], GridOf(m))
  {
    m := new nat[threads, |c.maxConns|]((i, j) => 0);
    assert CreatedTo(c, 0, GridOf(m));
    hide CreatedTo, GridOf;
    var l := 0;
    while l < |c.locations|
      invariant 0 <= l <= |c.locations| && fresh(m) && CreatedTo(c, l, GridOf(m))
    {
      DistributeOne(c, l, m);
      l := l + 1;
    }
    forall l | 0 <= l < |c.locations| ensures SharedOut(c, c.locations[l], GridOf(m)) {
      CreatedAt(c, l, GridOf(m));
      LocationSharedOut(c, c.locations[l], GridOf(m));
    }
  }

  lemma CreatedAt(c: Config, l: nat, g: Grid)
    requires l < |c.locations| && CreatedTo(c, |c.locations|, g)
    ensures Distributed(c, c.locations[l], g)
  {
    hide Distributed;
  }

  /** Server `s` is in none of the first `l` locations. */
  predicate UnusedBy(c: Config, s: nat, l: nat)
    requires l <= |c.locations|
  {
    forall k :: 0 <= k < l ==> s !in c.locations[k].servers
  }

  predicate Unused(c: Config, s: nat) { UnusedBy(c, s, |c.locations|) }

  lemma LaterUnused(c: Config, l: nat)
    requires ValidConfig(c) && l < |c.locations|
    ensures forall p :: 0 <= p < |c.locations[l].servers| ==> UnusedBy(c, c.locations[l].servers[p], l)
  {
    forall p, k | 0 <= p < |c.locations[l].servers| && 0 <= k < l
      ensures c.locations[l].servers[p] !in c.locations[k].servers
    {
      assert Apart(c.locations[k].servers, c.locations[l].servers);
    }
  }

  // ----- sums -----------------------------------------------------------------------------------

  /** The slots of server `s` on the first `n` threads. */
  ghost function ColumnSum(g: Grid, s: nat, n: nat): nat
    requires n <= |g| && forall t :: 0 <= t < |g| ==> s < |g[t]|
  {
    if n == 0 then 0 else ColumnSum(g, s, n - 1) + g[n - 1][s]
  }

  /** The slots of thread `t` for the location's first `p` servers. */
  ghost function RowSum(row: seq<nat>, loc: Location, p: nat): nat
    requires p <= |loc.servers| && forall k :: 0 <= k < |loc.servers| ==> loc.servers[k] < |row|
  {
    if p == 0 then 0 else RowSum(row, loc, p - 1) + row[loc.servers[p - 1]]
  }

  /** What two stages of a deal differ by, summed up to thread `n`. */
  lemma {:induction false} ColumnOfDeal(c: Config, loc: Location, g: Grid, p: nat, n: nat)
    requires p < |loc.servers| && NormalDone(c, loc, g) && n <= |g|
    ensures ColumnSum(g, loc.servers[p], n)
         == SumUpTo(t => Count(Before(c, loc, p + 1), |g|, t), n)
          - SumUpTo(t => Count(Before(c, loc, p), |g|, t), n)
  {
    if n > 0 {
      ColumnOfDeal(c, loc, g, p, n - 1);
      assert g[n - 1][loc.servers[p]] == NormalCell(c, loc, |g|, p, n - 1);
    }
  }

  /** Normal distribution: over all threads a server has exactly its MaxConnections. */
  lemma ColumnIsMax(c: Config, loc: Location, g: Grid, p: nat)
    requires p < |loc.servers| && NormalDone(c, loc, g)
    ensures ColumnSum(g, loc.servers[p], |g|) == c.maxConns[loc.servers[p]]
  {
    ColumnOfDeal(c, loc, g, p, |g|);
    DealtAll(Before(c, loc, p + 1), |g|);
    DealtAll(Before(c, loc, p), |g|);
  }

  lemma {:induction false} RowIsShare(c: Config, loc: Location, g: Grid, t: nat, p: nat)
    requires NormalDone(c, loc, g) && t < |g| && p <= |loc.servers|
    ensures RowSum(g[t], loc, p) == Count(Before(c, loc, p), |g|, t)
  {
    if p > 0 {
      RowIsShare(c, loc, g, t, p - 1);
      assert g[t][loc.servers[p - 1]] == NormalCell(c, loc, |g|, p - 1, t);
    }
  }

  /** Normal distribution: the threads' totals for a location differ by at most one. */
  lemma RowsEven(c: Config, loc: Location, g: Grid, t: nat, u: nat)
    requires NormalDone(c, loc, g) && t < |g| && u < |g|
    ensures RowSum(g[t], loc, |loc.servers|) <= RowSum(g[u], loc, |loc.servers|) + 1
  {
    RowIsShare(c, loc, g, t, |loc.servers|);
    RowIsShare(c, loc, g, u, |loc.servers|);
    SharesEven(Before(c, loc, |loc.servers|), |g|, t, u);
  }

  lemma {:induction false} ColumnOfFallback(c: Config, loc: Location, g: Grid, p: nat, n: nat)
    requires FallbackDone(c, loc, g) && p < |loc.servers| && n <= |g|
    ensures ColumnSum(g, loc.servers[p], n) == Count(n, |loc.servers|, p)
  {
    if n > 0 {
      ColumnOfFallback(c, loc, g, p, n - 1);
      assert g[n - 1][loc.servers[p]] == if (n - 1) % |loc.servers| == p then 1 else 0;
    }
  }

  /** Some server gets more than its share of the deal when there is more to deal than all shares. */
  lemma {:induction false} SomeoneExceeds(c: Config, loc: Location, n: nat, p: nat) returns (q: nat)
    requires forall k :: 0 <= k < |loc.servers| ==> loc.servers[k] < |c.maxConns|
    requires p <= |loc.servers| && loc.servers != []
    requires SumUpTo(t => Count(n, |loc.servers|, t), p) > Capacity(c, loc, p)
    ensures q < p && Count(n, |loc.servers|, q) > c.maxConns[loc.servers[q]]
  {
    if Count(n, |loc.servers|, p - 1) > c.maxConns[loc.servers[p - 1]] {
      q := p - 1;
    } else {
      q := SomeoneExceeds(c, loc, n, p - 1);
    }
  }

  /** How many of the location's first `p` servers have a MaxConnections of 0. */
  function Without(c: Config, loc: Location, p: nat): nat
    requires p <= |loc.servers| && forall k :: 0 <= k < |loc.servers| ==> loc.servers[k] < |c.maxConns|
  {
    if p == 0 then 0 else Without(c, loc, p - 1) + if c.maxConns[loc.servers[p - 1]] == 0 then 1 else 0
  }

  lemma {:induction false} CapacityIs(c: Config, loc: Location, p: nat)
    requires p <= |loc.servers| && forall k :: 0 <= k < |loc.servers| ==> loc.servers[k] < |c.maxConns|
    ensures Capacity(c, loc, p) == Before(c, loc, p) + Without(c, loc, p)
  {
    if p > 0 {
      CapacityIs(c, loc, p - 1);
    }
  }

  /** No server of the location has more slots, over all threads, than its MaxConnections. */
  ghost predicate LimitsKept(c: Config, loc: Location, g: Grid)
    requires InConfig(c, loc, |g|) && Shaped(g, |g|, |c.maxConns|)
  {
    forall p :: 0 <= p < |loc.servers| ==> ColumnSum(g, loc.servers[p], |g|) <= c.maxConns[loc.servers[p]]
  }

  /** Every thread has a slot for the location. */
  ghost predicate AllServed(c: Config, loc: Location, g: Grid)
    requires InConfig(c, loc, |g|) && Shaped(g, |g|, |c.maxConns|)
  {
    forall t :: 0 <= t < |g| ==> RowSum(g[t], loc, |loc.servers|) > 0
  }

  /**
   * Every server of a location is kept to its MaxConnections exactly when there are no more threads
   * than these add up to, a 0 counting as 1. With more threads some server gets more than it allows.
   */
  lemma LimitKeptIff(c: Config, loc: Location, g: Grid)
    requires Distributed(c, loc, g)
    ensures var n := |loc.servers|; LimitsKept(c, loc, g) <==> |g| <= Before(c, loc, n) + Without(c, loc, n)
  {
    CapacityIs(c, loc, |loc.servers|);
    if UsesFallback(c, loc, |g|) {
      DealtAll(|g|, |loc.servers|);
      var q := SomeoneExceeds(c, loc, |g|, |loc.servers|);
      ColumnOfFallback(c, loc, g, q, |g|);
    } else {
      forall p | 0 <= p < |loc.servers|
        ensures ColumnSum(g, loc.servers[p], |g|) <= c.maxConns[loc.servers[p]]
      {
        ColumnIsMax(c, loc, g, p);
      }
    }
  }

  /** A thread of the fallback has its one slot once the deal has passed its server. */
  lemma {:induction false} RowOfFallback(c: Config, loc: Location, g: Grid, t: nat, p: nat)
    requires FallbackDone(c, loc, g) && t < |g| && p <= |loc.servers|
    ensures RowSum(g[t], loc, p) == if t % |loc.servers| < p then 1 else 0
  {
    if p > 0 {
      RowOfFallback(c, loc, g, t, p - 1);
      assert g[t][loc.servers[p - 1]] == if t % |loc.servers| == p - 1 then 1 else 0;
    }
  }

  /**
   * Every thread gets a slot for a location, unless its servers' MaxConnections add up to less than
   * the threads but no longer do so when each 0 is counted as 1. Without a 0 every thread gets one.
   */
  lemma AllServedIff(c: Config, loc: Location, g: Grid)
    requires Distributed(c, loc, g)
    ensures var n := |loc.servers|;
            AllServed(c, loc, g) <==> !(Before(c, loc, n) < |g| <= Before(c, loc, n) + Without(c, loc, n))
  {
    var n := |loc.servers|;
    CapacityIs(c, loc, n);
    if UsesFallback(c, loc, |g|) {
      FallbackByThread(c, loc, g);
    } else {
      forall t | 0 <= t < |g| ensures RowSum(g[t], loc, n) > 0 <==> t < Before(c, loc, n) {
        RowIsShare(c, loc, g, t, n);
        FirstTurn(Before(c, loc, n), |g|, t);
      }
      if Before(c, loc, n) < |g| {
        assert !(RowSum(g[Before(c, loc, n)], loc, n) > 0);
      }
    }
  }

  /** Every server has its MaxConnections, and no two threads' totals differ by more than one. */
  ghost predicate ByServer(c: Config, loc: Location, g: Grid)
    requires InConfig(c, loc, |g|) && Shaped(g, |g|, |c.maxConns|)
  {
    && (forall p :: 0 <= p < |loc.servers| ==> ColumnSum(g, loc.servers[p], |g|) == c.maxConns[loc.servers[p]])
    && (forall t, u :: 0 <= t < |g| && 0 <= u < |g| ==>
          RowSum(g[t], loc, |loc.servers|) <= RowSum(g[u], loc, |loc.servers|) + 1)
  }

  /** Every thread has one slot, and no two servers' totals differ by more than one. */
  ghost predicate ByThread(c: Config, loc: Location, g: Grid)
    requires InConfig(c, loc, |g|) && Shaped(g, |g|, |c.maxConns|)
  {
    && (forall t :: 0 <= t < |g| ==> RowSum(g[t], loc, |loc.servers|) == 1)
    && (forall p, q :: 0 <= p < |loc.servers| && 0 <= q < |loc.servers| ==>
          ColumnSum(g, loc.servers[p], |g|) <= ColumnSum(g, loc.servers[q], |g|) + 1)
  }

  /** What a location gets, in plain numbers: how it is shared, who is served, whether the limits hold. */
  ghost predicate SharedOut(c: Config, loc: Location, g: Grid) {
    && InConfig(c, loc, |g|) && Shaped(g, |g|, |c.maxConns|)
    && var sum, zeros := Before(c, loc, |loc.servers|), Without(c, loc, |loc.servers|);
       && (if |g| <= sum + zeros then ByServer(c, loc, g) else ByThread(c, loc, g))
       && (AllServed(c, loc, g) <==> !(sum < |g| <= sum + zeros))
       && (LimitsKept(c, loc, g) <==> |g| <= sum + zeros)
  }

  lemma FallbackByThread(c: Config, loc: Location, g: Grid)
    requires FallbackDone(c, loc, g)
    ensures ByThread(c, loc, g)
  {
    var n := |loc.servers|;
    forall t | 0 <= t < |g| ensures RowSum(g[t], loc, n) == 1 {
      RowOfFallback(c, loc, g, t, n);
      Ring.DivMod(t, n);
    }
    forall p, q | 0 <= p < n && 0 <= q < n
      ensures ColumnSum(g, loc.servers[p], |g|) <= ColumnSum(g, loc.servers[q], |g|) + 1
    {
      ColumnOfFallback(c, loc, g, p, |g|);
      ColumnOfFallback(c, loc, g, q, |g|);
      SharesEven(|g|, n, p, q);
    }
  }

  lemma NormalByServer(c: Config, loc: Location, g: Grid)
    requires NormalDone(c, loc, g)
    ensures ByServer(c, loc, g)
  {
    hide NormalCell;
    forall p | 0 <= p < |loc.servers| ensures ColumnSum(g, loc.servers[p], |g|) == c.maxConns[loc.servers[p]] {
      ColumnIsMax(c, loc, g, p);
    }
    forall t, u | 0 <= t < |g| && 0 <= u < |g|
      ensures RowSum(g[t], loc, |loc.servers|) <= RowSum(g[u], loc, |loc.servers|) + 1
    {
      RowsEven(c, loc, g, t, u);
    }
  }

  lemma LocationSharedOut(c: Config, loc: Location, g: Grid)
    requires Distributed(c, loc, g)
    ensures SharedOut(c, loc, g)
  {
    hide AllServed, LimitsKept, Before, Without, ByServer, ByThread, Capacity;
    CapacityIs(c, loc, |loc.servers|);
    if UsesFallback(c, loc, |g|) {
      FallbackByThread(c, loc, g);
    } else {
      NormalByServer(c, loc, g);
    }
    AllServedIff(c, loc, g);
    LimitKeptIff(c, loc, g);
  }

  /** Two threads and two servers, one of which has a MaxConnections of 0: a thread without a slot. */
  method StarvedExample() returns (m: array2<nat>)
    ensures m.Length0 == 2 && m.Length1 == 2
    ensures m[0, 0] == m[1, 0] == 0 && m[0, 1] == 1 && m[1, 1] == 0
  {
    var loc := Location([0, 1]);
    var c := Config([0, 1], [loc]);
    m := CreateMatrix(c, 2);
    CreatedAt(c, 0, GridOf(m));
    ghost var g := GridOf(m);
    assert Capacity(c, loc, 1) == 1 && Capacity(c, loc, 2) == 2;
    assert Before(c, loc, 1) == 0 && Before(c, loc, 2) == 1;
    assert Count(0, 2, 0) == Count(0, 2, 1) == 0 && Count(1, 2, 0) == 1 && Count(1, 2, 1) == 0;
    forall t, s | 0 <= t < 2 && 0 <= s < 2 ensures m[t, s] == NormalCell(c, loc, 2, s, t) {
      assert m[t, s] == g[t][loc.servers[s]];
    }
  }

  /** Dealing in turn, those get something whose first turn comes. */
  lemma FirstTurn(n: nat, m: nat, t: nat)
    requires t < m
    ensures Count(n, m, t) > 0 <==> t < n
  {
    Ring.ModUnique(t, m, 0, t);
    assert Count(t + 1, m, t) > 0;
    if t < n {
      CountGrows(t + 1, n, m, t);
    } else {
      NoTurn(n, m, t);
    }
  }

  lemma {:induction false} NoTurn(n: nat, m: nat, t: nat)
    requires n <= t < m
    ensures Count(n, m, t) == 0
  {
    if n > 0 {
      NoTurn(n - 1, m, t);
      Ring.ModUnique(n - 1, m, 0, n - 1);
    }
  }

  // ----- the slots of a thread --------------------------------------------------------------------

  /** How many slots are for server `s`, and how many of those have a connection open. */
  function SlotsFor(cs: seq<Conn>, s: nat): nat {
    if cs == [] then 0 else (if cs[0].serverId == s then 1 else 0) + SlotsFor(cs[1..], s)
  }

  function OpenTo(cs: seq<Conn>, s: nat): nat {
    if cs == [] then 0 else (if cs[0].serverId == s && cs[0].fd != -1 then 1 else 0) + OpenTo(cs[1..], s)
  }

  lemma {:induction false} OpenAtMostSlots(cs: seq<Conn>, s: nat)
    ensures OpenTo(cs, s) <= SlotsFor(cs, s)
  {
    if cs != [] {
      OpenAtMostSlots(cs[1..], s);
    }
  }

  lemma {:induction false} SlotsAppend(cs: seq<Conn>, c: Conn, s: nat)
    ensures SlotsFor(cs + [c], s) == SlotsFor(cs, s) + if c.serverId == s then 1 else 0
  {
    if cs == [] {
      assert cs + [c] == [c] && [c][1..] == [];
    } else {
      assert (cs + [c])[1..] == cs[1..] + [c];
      SlotsAppend(cs[1..], c, s);
    }
  }

  /** Handlers open and close connections, but never move a slot to another server. */
  lemma {:induction false} SlotsStay(cs: seq<Conn>, cs': seq<Conn>, s: nat)
    requires Handlers.SameSlots(cs, cs')
    ensures SlotsFor(cs', s) == SlotsFor(cs, s)
  {
    if cs != [] {
      SlotsStay(cs[1..], cs'[1..], s);
    }
  }

  /** fcgi_fd_init. */
  function NewSlot(server: nat, location: nat): Conn {
    Conn(Free, -1, server, location, 0, None, None)
  }

  /** The location a server belongs to. */
  predicate LocationOf(c: Config, server: nat, l: nat) {
    l < |c.locations| && server in c.locations[l].servers
  }

  method FindLocation(c: Config, server: nat) returns (l: nat)
    requires !Unused(c, server)
    ensures LocationOf(c, server, l)
  {
    l := 0;
    while server !in c.locations[l].servers
      invariant 0 <= l < |c.locations| && UnusedBy(c, server, l)
      decreases |c.locations| - l
    {
      l := l + 1;
      assert UnusedBy(c, server, l);
    }
  }

  /** The slots made for one server. */
  method AddSlots(cs: seq<Conn>, c: Config, server: nat, count: nat) returns (cs': seq<Conn>)
    requires count > 0 ==> !Unused(c, server)
    requires AllNew(c, cs)
    ensures AllNew(c, cs') && SlotsFor(cs', server) == SlotsFor(cs, server) + count
    ensures forall s :: s != server ==> SlotsFor(cs', s) == SlotsFor(cs, s)
    ensures |cs'| == |cs| + count
  {
    cs' := cs;
    if count == 0 {
      return;
    }
    var l := FindLocation(c, server);
    var j := 0;
    while j < count
      invariant 0 <= j <= count && AllNew(c, cs') && |cs'| == |cs| + j
      invariant SlotsFor(cs', server) == SlotsFor(cs, server) + j
      invariant forall s :: s != server ==> SlotsFor(cs', s) == SlotsFor(cs, s)
    {
      forall s ensures SlotsFor(cs' + [NewSlot(server, l)], s) == SlotsFor(cs', s) + if s == server then 1 else 0 {
        SlotsAppend(cs', NewSlot(server, l), s);
      }
      cs' := cs' + [NewSlot(server, l)];
      j := j + 1;
    }
  }

  ghost predicate AllNew(c: Config, cs: seq<Conn>) {
    forall i :: 0 <= i < |cs| ==>
      cs[i] == NewSlot(cs[i].serverId, cs[i].locationId) && LocationOf(c, cs[i].serverId, cs[i].locationId)
  }

  /** fcgi_fd_list_init: as many fresh slots for each server as the matrix says. */
  method ListInit(c: Config, m: array2<nat>, t: nat) returns (cs: seq<Conn>)
    requires CreatedTo(c, |c.locations|, GridOf(m)) && t < m.Length0 && m.Length1 == |c.maxConns|
    ensures AllNew(c, cs)
    ensures forall s :: 0 <= s < |c.maxConns| ==> SlotsFor(cs, s) == GridOf(m)[t][s]
  {
    cs := [];
    var i := 0;
    while i < m.Length1
      invariant 0 <= i <= m.Length1 && AllNew(c, cs)
      invariant forall s :: 0 <= s < m.Length1 ==> SlotsFor(cs, s) == if s < i then m[t, s] else 0
    {
      UsedOrEmpty(c, GridOf(m), t, i);
      hide CreatedTo, AllNew, GridOf;
      cs := AddSlots(cs, c, i, m[t, i]);
      i := i + 1;
    }
  }

  lemma UsedOrEmpty(c: Config, g: Grid, t: nat, s: nat)
    requires CreatedTo(c, |c.locations|, g) && t < |g| && s < |g[t]|
    ensures g[t][s] > 0 ==> !Unused(c, s)
  {
    if Unused(c, s) {
      assert EmptyColumn(g, s);
    }
  }

  // ----- the limit, over all threads ---------------------------------------------------------------

  /** Open connections to server `s` on the first `n` threads. */
  function TotalOpen(threads: seq<seq<Conn>>, s: nat, n: nat): nat
    requires n <= |threads|
  {
    if n == 0 then 0 else TotalOpen(threads, s, n - 1) + OpenTo(threads[n - 1], s)
  }

  lemma {:induction false} OpenWithinColumn(threads: seq<seq<Conn>>, g: Grid, s: nat, n: nat)
    requires |threads| == |g| && n <= |threads| && forall t :: 0 <= t < |g| ==> s < |g[t]|
    requires forall t :: 0 <= t < |threads| ==> SlotsFor(threads[t], s) == g[t][s]
    ensures TotalOpen(threads, s, n) <= ColumnSum(g, s, n)
  {
    if n > 0 {
      OpenWithinColumn(threads, g, s, n - 1);
      OpenAtMostSlots(threads[n - 1], s);
    }
  }

  /**
   * Whatever the threads have done with the slots they started from, there are never more open
   * connections to a server of a normally distributed location than its MaxConnections.
   */
  lemma ConnectionLimit(c: Config, loc: Location, g: Grid, p: nat,
                        start: seq<seq<Conn>>, now: seq<seq<Conn>>)
    requires NormalDone(c, loc, g) && p < |loc.servers|
    requires |start| == |now| == |g|
    requires forall t :: 0 <= t < |start| ==> SlotsFor(start[t], loc.servers[p]) == g[t][loc.servers[p]]
    requires forall t :: 0 <= t < |start| ==> Handlers.SameSlots(start[t], now[t])
    ensures TotalOpen(now, loc.servers[p], |now|) <= c.maxConns[loc.servers[p]]
  {
    hide Handlers.SameSlots;
    var s := loc.servers[p];
    forall t | 0 <= t < |now| ensures SlotsFor(now[t], s) == g[t][s] {
      SlotsStay(start[t], now[t], s);
    }
    OpenWithinColumn(now, g, s, |now|);
    ColumnIsMax(c, loc, g, p);
  }
}
