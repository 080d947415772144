/** Power-of-two rings: the mask arithmetic that the scans of plugins/fastcgi/request.c rely on. */
module Ring {

  /** Bitwise and of two naturals. */
  function And(x: nat, y: nat): nat {
    if x == 0 || y == 0 then 0
    else 2 * And(x / 2, y / 2) + if x % 2 == 1 && y % 2 == 1 then 1 else 0
  }

  /** is_power_of_2. */
  predicate IsPowerOf2(v: nat) { v != 0 && And(v, v - 1) == 0 }

  function Pow2(k: nat): nat { if k == 0 then 1 else 2 * Pow2(k - 1) }

  lemma {:induction false} AndSelf(x: nat)
    ensures And(x, x) == x
  {
    if x != 0 {
      AndSelf(x / 2);
    }
  }

  /** The bit trick accepts exactly the powers of two. */
  lemma {:induction false} PowerOf2Exact(v: nat)
    ensures IsPowerOf2(v) <==> exists k: nat :: v == Pow2(k)
  {
    if v == 0 {
      forall k: nat ensures v != Pow2(k) {
        PowPositive(k);
      }
    } else if v == 1 {
      assert v == Pow2(0);
    } else if v % 2 == 1 {
      AndSelf(v / 2);
      assert And(v, v - 1) == 2 * And(v / 2, v / 2);
      forall k: nat ensures v != Pow2(k) {
        PowParity(k);
      }
    } else {
      var u := v / 2;
      assert And(v, v - 1) == 2 * And(u, u - 1);
      assert IsPowerOf2(v) <==> IsPowerOf2(u);
      PowerOf2Exact(u);
      if IsPowerOf2(u) {
        var k: nat :| u == Pow2(k);
        assert v == Pow2(k + 1);
      } else {
        forall k: nat ensures v != Pow2(k) {
          if k > 0 {
            assert u != Pow2(k - 1);
          }
        }
      }
    }
  }

  lemma {:induction false} PowPositive(k: nat)
    ensures Pow2(k) > 0
  {
    if k > 0 {
      PowPositive(k - 1);
    }
  }

  lemma PowParity(k: nat)
    ensures Pow2(k) == 1 || Pow2(k) % 2 == 0
  {}

  /** Masking with `size - 1` is taking the remainder, on every power-of-two ring. */
  lemma {:induction false} MaskIsMod(x: nat, size: nat)
    requires IsPowerOf2(size)
    ensures And(x, size - 1) == x % size
    decreases size
  {
    if size == 1 {
    } else {
      PowerOf2Even(size);
      var s := size / 2;
      MaskIsMod(x / 2, s);
      if x == 0 {
      } else {
        assert (size - 1) / 2 == s - 1 && (size - 1) % 2 == 1;
        assert And(x, size - 1) == 2 * (x / 2 % s) + x % 2;
        HalfMod(x, s);
      }
    }
  }

  lemma PowerOf2Even(v: nat)
    requires IsPowerOf2(v) && v > 1
    ensures v % 2 == 0 && IsPowerOf2(v / 2)
  {
    if v % 2 == 1 {
      AndSelf(v / 2);
    } else {
      assert And(v, v - 1) == 2 * And(v / 2, v / 2 - 1);
    }
  }

  lemma HalfMod(x: nat, s: nat)
    requires s > 0
    ensures 2 * (x / 2 % s) + x % 2 == x % (2 * s)
  {
    var q, r := x / 2 / s, x / 2 % s;
    assert x / 2 == s * q + r;
    assert x == (2 * s) * q + (2 * r + x % 2);
    ModUnique(x, 2 * s, q, 2 * r + x % 2);
  }

  lemma ModUnique(x: nat, m: nat, q: nat, r: nat)
    requires m > 0 && x == m * q + r && r < m
    ensures x % m == r && x / m == q
  {
    var q', r' := x / m, x % m;
    DivMod(x, m);
    if q < q' {
      Spread(m, q, q');
    } else if q' < q {
      Spread(m, q', q);
    }
  }

  lemma DivMod(x: nat, m: nat)
    requires m > 0
    ensures x == m * (x / m) + x % m && x % m < m
  {}

  lemma {:induction false} Spread(m: nat, a: nat, b: nat)
    requires a < b
    ensures m * a + m <= m * b
  {
    if b > a + 1 {
      Spread(m, a, b - 1);
    }
    assert m * b == m * (b - 1) + m;
  }

  // ----- scan order ---------------------------------------------------------------------------

  /** The slot visited k steps after `clock`. */
  function Slot(clock: nat, k: nat, size: nat): nat
    requires size > 0
  {
    (clock + k) % size
  }

  /** How many steps after `clock` slot `i` is reached: between 1 and `size`. */
  function Distance(clock: nat, i: nat, size: nat): nat
    requires clock < size && i < size
  {
    if i > clock then i - clock else i + size - clock
  }

  lemma SlotStep(clock: nat, k: nat, size: nat)
    requires clock < size && k < size
    ensures (Slot(clock, k, size) + 1) % size == Slot(clock, k + 1, size) < size
  {
    SlotValue(clock, k, size);
    SlotValue(clock, k + 1, size);
    var s := Slot(clock, k, size);
    if s + 1 < size {
      ModUnique(s + 1, size, 0, s + 1);
    } else {
      ModUnique(s + 1, size, 1, 0);
    }
  }

  lemma SlotValue(clock: nat, k: nat, size: nat)
    requires clock < size && k <= size
    ensures Slot(clock, k, size) == if clock + k < size then clock + k else clock + k - size
  {
    if clock + k < size {
      ModUnique(clock + k, size, 0, clock + k);
    } else {
      ModUnique(clock + k, size, 1, clock + k - size);
    }
  }

  /** Every slot is visited, the clock's own slot last. */
  lemma DistanceReaches(clock: nat, i: nat, size: nat)
    requires clock < size && i < size
    ensures 1 <= Distance(clock, i, size) <= size
    ensures Slot(clock, Distance(clock, i, size), size) == i
    ensures Distance(clock, i, size) == size <==> i == clock
  {
    SlotValue(clock, Distance(clock, i, size), size);
  }

  lemma DistanceOfSlot(clock: nat, k: nat, size: nat)
    requires clock < size && 1 <= k <= size
    ensures Slot(clock, k, size) < size && Distance(clock, Slot(clock, k, size), size) == k
  {
    SlotValue(clock, k, size);
  }
}
