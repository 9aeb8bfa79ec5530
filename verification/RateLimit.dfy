/** The partitioned rate limiter of RateLimiter.h; the current slot, read from the clock, is a parameter. */
module RateLimit {
  import opened Base
  import opened Modular
  import opened Sums

  function Amount(x: nat): int {
    x
  }

  ghost function Total(s: seq<nat>): nat {
    SumNonNegative(s, Amount);
    Sum(s, Amount)
  }

  lemma TotalUpdate(s: seq<nat>, i: nat, x: nat)
    requires i < |s|
    ensures Total(s[i := x]) == Total(s) - s[i] + x
  {
    SumUpdate(s, i, x, Amount);
  }

  // ---- The window: the current slot and the past half of the cycle ----

  function Slot(size: nat, idx: nat, j: nat): (k: nat)
    requires idx < size && j <= size / 2
    ensures k < size
  {
    if j <= idx then idx - j else idx + size - j
  }

  /** How many slots ago slot `k` was the current one. */
  function Distance(size: nat, idx: nat, k: nat): (d: nat)
    requires idx < size && k < size
    ensures d < size
  {
    if k <= idx then idx - k else idx + size - k
  }

  lemma DistanceIs(size: nat, idx: nat, k: nat)
    requires idx < size && k < size
    ensures Distance(size, idx, k) == (idx + size - k) % size
  {
    ModUnique(idx + size - k, if k <= idx then 1 else 0, size, Distance(size, idx, k));
  }

  /** Slot `k` is the one `j` ago exactly if its distance is `j`. */
  lemma SlotIs(size: nat, idx: nat, k: nat, j: nat)
    requires idx < size && k < size && j <= size / 2
    ensures Distance(size, idx, k) == j <==> k == Slot(size, idx, j)
  {}

  /** The permits of the slots at distance `j` or less, the others cleared. */
  function Recent(permits: seq<nat>, idx: nat, j: nat): (r: seq<nat>)
    requires idx < |permits|
    ensures |r| == |permits|
  {
    seq(|permits|, k requires 0 <= k < |permits| => if Distance(|permits|, idx, k) <= j then permits[k] else 0)
  }

  /** The permits of the slots nearer than slot `k`. */
  ghost function Nearer(permits: seq<nat>, idx: nat, k: nat): nat
    requires idx < |permits| && k < |permits|
  {
    var d := Distance(|permits|, idx, k);
    if d == 0 then 0 else Total(Recent(permits, idx, d - 1))
  }

  lemma SlotsDistinct(size: nat, idx: nat, i: nat, j: nat)
    requires idx < size && i < j <= size / 2
    ensures Slot(size, idx, i) != Slot(size, idx, j)
  {}

  /** Permits in the current slot and the `j` before it. */
  function Window(permits: seq<nat>, idx: nat, j: nat): nat
    requires idx < |permits| && j <= |permits| / 2
  {
    permits[Slot(|permits|, idx, j)] + if j == 0 then 0 else Window(permits, idx, j - 1)
  }

  lemma {:induction false} WindowIs(permits: seq<nat>, idx: nat, j: nat)
    requires idx < |permits| && j <= |permits| / 2
    ensures Window(permits, idx, j) == Total(Recent(permits, idx, j))
  {
    var slot := Slot(|permits|, idx, j);
    forall k | 0 <= k < |permits| ensures Distance(|permits|, idx, k) == j <==> k == slot {
      SlotIs(|permits|, idx, k, j);
    }
    var before := if j == 0 then seq(|permits|, _ => 0) else Recent(permits, idx, j - 1);
    assert Recent(permits, idx, j) == before[slot := permits[slot]];
    TotalUpdate(before, slot, permits[slot]);
    if j == 0 {
      TotalZero(|permits|);
    } else {
      WindowIs(permits, idx, j - 1);
    }
  }

  function Available(permits: seq<nat>, idx: nat): nat
    requires idx < |permits|
  {
    Window(permits, idx, |permits| / 2)
  }

  /** available() is the sum over the slots that were current at most half a cycle ago. */
  lemma AvailableIs(permits: seq<nat>, idx: nat)
    requires idx < |permits|
    ensures var n := |permits|;
            Available(permits, idx) ==
              Total(seq(n, k requires 0 <= k < n => if (idx + n - k) % n <= n / 2 then permits[k] else 0))
  {
    WindowIs(permits, idx, |permits| / 2);
    var n := |permits|;
    forall k | 0 <= k < n ensures Distance(n, idx, k) == (idx + n - k) % n {
      DistanceIs(n, idx, k);
    }
    assert seq(n, k requires 0 <= k < n => if (idx + n - k) % n <= n / 2 then permits[k] else 0)
        == Recent(permits, idx, n / 2);
  }

  /** Past slots that are not empty although the slots after them already hold `n` permits. */
  function Surplus(permits: seq<nat>, idx: nat, n: nat, j: nat): (k: nat)
    requires idx < |permits| && j <= |permits| / 2
    ensures k <= j
  {
    if j == 0 then 0
    else Surplus(permits, idx, n, j - 1)
         + if permits[Slot(|permits|, idx, j)] > 0 && Window(permits, idx, j - 1) >= n then 1 else 0
  }

  // ---- acquire(n) ----

  function Min(a: nat, b: nat): nat {
    if a < b then a else b
  }

  /** What the inner loop takes from one past slot: it looks at the demand only after taking a permit. */
  function TakenFrom(slot: nat, acquired: nat, n: nat): (k: nat)
    ensures k <= slot
  {
    if slot == 0 then 0 else if acquired >= n then 1 else Min(slot, n - acquired)
  }

  /** Permits and permits acquired after the current slot and the `j` before it. */
  function Borrowed(permits: seq<nat>, idx: nat, n: nat, j: nat): (r: (seq<nat>, nat))
    requires idx < |permits| && j <= |permits| / 2
    ensures |r.0| == |permits|
  {
    if j == 0 then (permits[idx := 0], permits[idx])
    else
      var (before, acquired) := Borrowed(permits, idx, n, j - 1);
      var k := Slot(|permits|, idx, j);
      var t := TakenFrom(before[k], acquired, n);
      (before[k := before[k] - t], acquired + t)
  }

  function Acquired(permits: seq<nat>, idx: nat, n: nat): (r: (seq<nat>, nat))
    requires idx < |permits|
    ensures |r.0| == |permits|
  {
    if permits[idx] >= n then (permits[idx := permits[idx] - n], n)
    else Borrowed(permits, idx, n, |permits| / 2)
  }

  lemma {:induction false} WindowMonotone(permits: seq<nat>, idx: nat, i: nat, j: nat)
    requires idx < |permits| && i <= j <= |permits| / 2
    ensures Window(permits, idx, i) <= Window(permits, idx, j)
  {
    if i < j {
      WindowMonotone(permits, idx, i, j - 1);
    }
  }

  lemma {:induction false} NoSurplusYet(permits: seq<nat>, idx: nat, n: nat, j: nat)
    requires idx < |permits| && j <= |permits| / 2 && (j > 0 ==> Window(permits, idx, j - 1) < n)
    ensures Surplus(permits, idx, n, j) == 0
  {
    if j > 0 {
      if j > 1 {
        WindowMonotone(permits, idx, j - 2, j - 1);
      }
      NoSurplusYet(permits, idx, n, j - 1);
    }
  }

  ghost predicate OutsideWindow(size: nat, idx: nat, j: nat, k: nat)
    requires idx < size && j <= size / 2
  {
    forall i :: 0 <= i <= j ==> Slot(size, idx, i) != k
  }

  /** Slots outside the window and slots not yet reached are untouched, and no slot gains. */
  lemma {:induction false} BorrowedFrame(permits: seq<nat>, idx: nat, n: nat, j: nat)
    requires idx < |permits| && j <= |permits| / 2
    ensures var after := Borrowed(permits, idx, n, j).0;
            && (forall k :: 0 <= k < |permits| ==> after[k] <= permits[k])
            && (forall k :: 0 <= k < |permits| && OutsideWindow(|permits|, idx, j, k) ==> after[k] == permits[k])
  {
    if j > 0 {
      BorrowedFrame(permits, idx, n, j - 1);
      forall k | 0 <= k < |permits| && OutsideWindow(|permits|, idx, j, k)
        ensures Borrowed(permits, idx, n, j).0[k] == permits[k]
      {
        assert OutsideWindow(|permits|, idx, j - 1, k);
        assert Slot(|permits|, idx, j) != k;
      }
    } else {
      assert Slot(|permits|, idx, 0) == idx;
    }
  }

  lemma NextUntouched(permits: seq<nat>, idx: nat, n: nat, j: nat)
    requires idx < |permits| && 1 <= j <= |permits| / 2
    ensures Borrowed(permits, idx, n, j - 1).0[Slot(|permits|, idx, j)] == permits[Slot(|permits|, idx, j)]
  {
    BorrowedFrame(permits, idx, n, j - 1);
    forall i | 0 <= i <= j - 1 ensures Slot(|permits|, idx, i) != Slot(|permits|, idx, j) {
      SlotsDistinct(|permits|, idx, i, j);
    }
    assert OutsideWindow(|permits|, idx, j - 1, Slot(|permits|, idx, j));
  }

  lemma {:induction false} BorrowedTotal(permits: seq<nat>, idx: nat, n: nat, j: nat)
    requires idx < |permits| && j <= |permits| / 2
    ensures Total(Borrowed(permits, idx, n, j).0) + Borrowed(permits, idx, n, j).1 == Total(permits)
  {
    if j == 0 {
      TotalUpdate(permits, idx, 0);
    } else {
      BorrowedTotal(permits, idx, n, j - 1);
      var (before, acquired) := Borrowed(permits, idx, n, j - 1);
      var k := Slot(|permits|, idx, j);
      TotalUpdate(before, k, before[k] - TakenFrom(before[k], acquired, n));
    }
  }

  /** The loop over the past slots, in closed form. */
  lemma {:induction false} BorrowedClosed(permits: seq<nat>, idx: nat, n: nat, j: nat)
    requires idx < |permits| && j <= |permits| / 2 && permits[idx] < n
    ensures var acquired := Borrowed(permits, idx, n, j).1;
            && acquired == Min(n, Window(permits, idx, j)) + Surplus(permits, idx, n, j)
            && acquired <= Window(permits, idx, j)
  {
    if j > 0 {
      BorrowedClosed(permits, idx, n, j - 1);
      NextUntouched(permits, idx, n, j);
      if Window(permits, idx, j - 1) < n {
        NoSurplusYet(permits, idx, n, j);
        NoSurplusYet(permits, idx, n, j - 1) by {
          if j > 1 {
            WindowMonotone(permits, idx, j - 2, j - 1);
          }
        }
      }
    }
  }

  /** The demand is met by the slots before distance `j` exactly if they hold that much. */
  lemma MetIff(permits: seq<nat>, idx: nat, n: nat, j: nat)
    requires idx < |permits| && j <= |permits| / 2 && permits[idx] < n
    ensures var acquired := Borrowed(permits, idx, n, j).1;
            && (acquired >= n <==> Window(permits, idx, j) >= n)
            && (acquired < n ==> acquired == Window(permits, idx, j))
  {
    BorrowedClosed(permits, idx, n, j);
    if Window(permits, idx, j) < n {
      NoSurplusYet(permits, idx, n, j) by {
        if j > 0 {
          WindowMonotone(permits, idx, j - 1, j);
        }
      }
    }
  }

  lemma {:induction false} BorrowedEach(permits: seq<nat>, idx: nat, n: nat, j: nat, k: nat)
    requires idx < |permits| && j <= |permits| / 2 && permits[idx] < n && k < |permits|
    ensures var (d, left) := (Distance(|permits|, idx, k), Borrowed(permits, idx, n, j).0[k]);
            && (d > j ==> left == permits[k])
            && (d == 0 ==> left == 0)
            && (1 <= d <= j ==> left == permits[k] - TakenFrom(permits[k], Nearer(permits, idx, k), n))
  {
    SlotIs(|permits|, idx, k, j);
    if j > 0 {
      BorrowedEach(permits, idx, n, j - 1, k);
      if k == Slot(|permits|, idx, j) {
        WindowIs(permits, idx, j - 1);
        MetIff(permits, idx, n, j - 1);
      }
    }
  }

  /**
   * acquire(n) slot by slot. A current slot that can meet the demand alone does. Otherwise it is emptied, and every
   * slot of the past half cycle that is not empty gives what the nearer ones leave open, but at least one. No other
   * slot gives anything.
   */
  lemma AcquireEach(permits: seq<nat>, idx: nat, n: nat, k: nat)
    requires idx < |permits| && k < |permits|
    ensures var (d, left) := (Distance(|permits|, idx, k), Acquired(permits, idx, n).0[k]);
            if permits[idx] >= n then left == permits[k] - if k == idx then n else 0
            else if d > |permits| / 2 || permits[k] == 0 then left == permits[k]
            else if d == 0 then left == 0
            else if Nearer(permits, idx, k) >= n then left == permits[k] - 1
            else left == permits[k] - Min(permits[k], n - Nearer(permits, idx, k))
  {
    if permits[idx] < n {
      BorrowedEach(permits, idx, n, |permits| / 2, k);
    }
  }

  /** Slots of the coming half of the cycle are left alone. */
  ghost predicate Spares(permits: seq<nat>, after: seq<nat>, idx: nat)
    requires idx < |permits| == |after|
  {
    forall k :: 0 <= k < |permits| && Distance(|permits|, idx, k) > |permits| / 2 ==> after[k] == permits[k]
  }

  lemma AcquireSpares(permits: seq<nat>, idx: nat, n: nat)
    requires idx < |permits|
    ensures Spares(permits, Acquired(permits, idx, n).0, idx)
  {
    forall k | 0 <= k < |permits| && Distance(|permits|, idx, k) > |permits| / 2
      ensures Acquired(permits, idx, n).0[k] == permits[k]
    {
      AcquireEach(permits, idx, n, k);
    }
  }

  /** acquire(n) in closed form, with its effect on the books. */
  lemma AcquireClosed(permits: seq<nat>, idx: nat, n: nat)
    requires idx < |permits|
    ensures var (after, r) := Acquired(permits, idx, n);
            && r == Min(n, Available(permits, idx))
                    + (if permits[idx] >= n then 0 else Surplus(permits, idx, n, |permits| / 2))
            && Total(after) + r == Total(permits)
            && (forall k :: 0 <= k < |permits| ==> after[k] <= permits[k])
            && Spares(permits, after, idx)
  {
    AcquireSpares(permits, idx, n);
    if permits[idx] >= n {
      TotalUpdate(permits, idx, permits[idx] - n);
      WindowMonotone(permits, idx, 0, |permits| / 2);
      assert Slot(|permits|, idx, 0) == idx;
    } else {
      BorrowedClosed(permits, idx, n, |permits| / 2);
      BorrowedTotal(permits, idx, n, |permits| / 2);
      BorrowedFrame(permits, idx, n, |permits| / 2);
    }
  }

  lemma {:induction false} SurplusBound(permits: seq<nat>, idx: nat, n: nat, j: nat)
    requires idx < |permits| && 1 <= j <= |permits| / 2 && permits[idx] < n
    ensures Surplus(permits, idx, n, j) <= j - 1
  {
    if j > 1 {
      SurplusBound(permits, idx, n, j - 1);
    }
  }

  /** acquire(n) returns what was asked for, or all there is, and at most one more for each past slot but one. */
  lemma AcquireBounds(permits: seq<nat>, idx: nat, n: nat)
    requires idx < |permits| && |permits| >= 2
    ensures var r := Acquired(permits, idx, n).1;
            && Min(n, Available(permits, idx)) <= r <= Available(permits, idx)
            && r <= n + |permits| / 2 - 1
  {
    AcquireClosed(permits, idx, n);
    if permits[idx] < n {
      SurplusBound(permits, idx, n, |permits| / 2);
      BorrowedClosed(permits, idx, n, |permits| / 2);
    }
  }

  /** A past slot of the window that is not empty although the nearer ones hold `n` permits. */
  ghost predicate SurplusAt(permits: seq<nat>, idx: nat, n: nat, j: nat, k: nat)
    requires idx < |permits|
  {
    k < |permits| && 1 <= Distance(|permits|, idx, k) <= j && permits[k] > 0 && Nearer(permits, idx, k) >= n
  }

  lemma {:induction false} SurplusIff(permits: seq<nat>, idx: nat, n: nat, j: nat)
    requires idx < |permits| && j <= |permits| / 2
    ensures Surplus(permits, idx, n, j) > 0 <==> exists k: nat :: SurplusAt(permits, idx, n, j, k)
  {
    if j > 0 {
      var i := j - 1;
      SurplusIff(permits, idx, n, i);
      var slot := Slot(|permits|, idx, j);
      WindowIs(permits, idx, j - 1);
      forall k: nat | k < |permits| ensures Distance(|permits|, idx, k) == j <==> k == slot {
        SlotIs(|permits|, idx, k, j);
      }
      assert SurplusAt(permits, idx, n, j, slot) <==> permits[slot] > 0 && Window(permits, idx, j - 1) >= n;
      if k: nat :| SurplusAt(permits, idx, n, i, k) {
        assert SurplusAt(permits, idx, n, j, k);
      }
      if k: nat :| SurplusAt(permits, idx, n, j, k) {
        assert k == slot || SurplusAt(permits, idx, n, i, k);
      }
    }
  }

  /** acquire(n) hands out more than `n` exactly if the current slot is short and the window has surplus slots. */
  lemma OvershootIff(permits: seq<nat>, idx: nat, n: nat)
    requires idx < |permits|
    ensures Acquired(permits, idx, n).1 > n <==>
            permits[idx] < n && exists k: nat :: SurplusAt(permits, idx, n, |permits| / 2, k)
  {
    SurplusIff(permits, idx, n, |permits| / 2);
    AcquireClosed(permits, idx, n);
    var j := |permits| / 2;
    if j > 0 && Window(permits, idx, j - 1) < n {
      NoSurplusYet(permits, idx, n, j);
    } else if j > 0 {
      WindowMonotone(permits, idx, j - 1, j);
    }
  }

  /** The upper bound is attained for every number of slots: one permit in every past slot, one asked for. */
  lemma OvershootAttained(size: nat)
    requires size >= 2
    ensures var permits := seq(size, i => if i == 0 then 0 else 1);
            Acquired(permits, 0, 1).1 == 1 + size / 2 - 1
  {
    var permits := seq(size, i => if i == 0 then 0 else 1);
    OnesWindow(permits, size / 2);
    AcquireClosed(permits, 0, 1);
  }

  lemma {:induction false} OnesWindow(permits: seq<nat>, j: nat)
    requires 2 <= |permits| && 1 <= j <= |permits| / 2
    requires forall i :: 0 <= i < |permits| ==> permits[i] == if i == 0 then 0 else 1
    ensures Window(permits, 0, j) == j && Surplus(permits, 0, 1, j) == j - 1
  {
    if j > 1 {
      OnesWindow(permits, j - 1);
    }
  }

  lemma {:induction false} TotalMonotone(a: seq<nat>, b: seq<nat>)
    requires |a| == |b| && forall i :: 0 <= i < |a| ==> a[i] <= b[i]
    ensures Total(a) <= Total(b)
  {
    if a != [] {
      TotalMonotone(a[..|a| - 1], b[..|b| - 1]);
    }
  }

  /** The 32-bit sums of available() and acquire() cannot overflow while no slot exceeds its share of the quota. */
  lemma SumsFit(partition: seq<nat>, permits: seq<nat>, idx: nat, n: nat)
    requires |partition| == |permits| && idx < |permits| && Total(partition) < UINT32_MODULUS
    requires forall i :: 0 <= i < |permits| ==> permits[i] <= partition[i]
    ensures Available(permits, idx) <= Total(permits) < UINT32_MODULUS
    ensures Acquired(permits, idx, n).1 <= Total(permits)
  {
    TotalMonotone(permits, partition);
    AcquireClosed(permits, idx, n);
    var all := Total(permits) + Available(permits, idx) + permits[idx] + 1;
    AcquireClosed(permits, idx, all);
  }

  // ---- acquire(), tick() and whole runs ----

  /** The first slot of the window that is not empty. */
  function FirstFilled(permits: seq<nat>, idx: nat, j: nat): (r: nat)
    requires idx < |permits| && j <= |permits| / 2
    ensures j <= r <= |permits| / 2 + 1
    ensures forall i :: j <= i < r ==> permits[Slot(|permits|, idx, i)] == 0
    ensures r <= |permits| / 2 ==> permits[Slot(|permits|, idx, r)] > 0
    decreases |permits| / 2 - j
  {
    if permits[Slot(|permits|, idx, j)] > 0 then j
    else if j == |permits| / 2 then j + 1
    else FirstFilled(permits, idx, j + 1)
  }

  lemma {:induction false} WindowEmpty(permits: seq<nat>, idx: nat, j: nat)
    requires idx < |permits| && j <= |permits| / 2
    ensures Window(permits, idx, j) == 0 <==> forall i :: 0 <= i <= j ==> permits[Slot(|permits|, idx, i)] == 0
  {
    if j > 0 {
      WindowEmpty(permits, idx, j - 1);
    }
  }

  /** The search over the window fails exactly if available() is 0. */
  lemma AvailableIff(permits: seq<nat>, idx: nat)
    requires idx < |permits|
    ensures Available(permits, idx) > 0 <==> FirstFilled(permits, idx, 0) <= |permits| / 2
  {
    WindowEmpty(permits, idx, |permits| / 2);
  }

  /** Slot `k` is not empty, within the window, and no slot that is not empty is nearer. */
  ghost predicate Nearest(permits: seq<nat>, idx: nat, k: nat)
    requires idx < |permits|
  {
    && k < |permits| && permits[k] > 0 && Distance(|permits|, idx, k) <= |permits| / 2
    && forall i :: 0 <= i < |permits| && permits[i] > 0 ==>
         Distance(|permits|, idx, k) <= Distance(|permits|, idx, i)
  }

  lemma FirstFilledIsNearest(permits: seq<nat>, idx: nat)
    requires idx < |permits| && FirstFilled(permits, idx, 0) <= |permits| / 2
    ensures Nearest(permits, idx, Slot(|permits|, idx, FirstFilled(permits, idx, 0)))
  {
    var size, j := |permits|, FirstFilled(permits, idx, 0);
    var slot := Slot(size, idx, j);
    SlotIs(size, idx, slot, j);
    forall i | 0 <= i < size && permits[i] > 0 ensures j <= Distance(size, idx, i) {
      var d := Distance(size, idx, i);
      if d < j {
        SlotIs(size, idx, i, d);
      }
    }
  }

  /** One permit less in the nearest slot that has one. */
  ghost predicate TakesNearest(permits: seq<nat>, after: seq<nat>, idx: nat)
    requires idx < |permits|
  {
    exists k: nat :: Nearest(permits, idx, k) && after == permits[k := permits[k] - 1]
  }

  lemma FirstFilledTaken(permits: seq<nat>, idx: nat, after: seq<nat>)
    requires idx < |permits| && FirstFilled(permits, idx, 0) <= |permits| / 2
    requires var k := Slot(|permits|, idx, FirstFilled(permits, idx, 0)); after == permits[k := permits[k] - 1]
    ensures TakesNearest(permits, after, idx)
  {
    FirstFilledIsNearest(permits, idx);
  }

  datatype Ledger = Ledger(partition: seq<nat>, permits: seq<nat>, granted: nat, refilled: nat)

  datatype Action =
    | Tick(idx: nat)
    | AcquireMany(idx: nat, n: nat)
    | AcquireOne(idx: nat)               // acquire() finding a permit in the window
    | AcquireWaited(seen: nat, idx: nat) // acquire() after waiting: the predicate saw slot `seen`, re-read is `idx`

  predicate Enabled(s: Ledger, a: Action) {
    && |s.partition| == |s.permits|
    && a.idx < |s.permits|
    && match a
       case AcquireOne(idx) => FirstFilled(s.permits, idx, 0) <= |s.permits| / 2
       case AcquireWaited(seen, idx) => seen < |s.permits| && s.permits[seen] > 0
       case _ => true
  }

  function Apply(s: Ledger, a: Action): Ledger
    requires Enabled(s, a)
  {
    match a
    case Tick(idx) => s.(permits := s.permits[idx := s.partition[idx]], refilled := s.refilled + s.partition[idx])
    case AcquireMany(idx, n) =>
      var (after, r) := Acquired(s.permits, idx, n);
      s.(permits := after, granted := s.granted + r)
    case AcquireOne(idx) =>
      var k := Slot(|s.permits|, idx, FirstFilled(s.permits, idx, 0));
      s.(permits := s.permits[k := s.permits[k] - 1], granted := s.granted + 1)
    case AcquireWaited(_, idx) =>
      s.(permits := s.permits[idx := (s.permits[idx] - 1) % UINT32_MODULUS], granted := s.granted + 1)
  }

  ghost predicate Inv(s: Ledger) {
    && |s.permits| == |s.partition|
    && (forall i :: 0 <= i < |s.permits| ==> s.permits[i] <= s.partition[i] < UINT32_MODULUS)
    && s.granted + Total(s.permits) <= s.refilled
  }

  lemma TwoShares(partition: seq<nat>, i: nat, j: nat)
    requires i < |partition| && j < |partition| && i != j
    ensures partition[i] + partition[j] <= Total(partition)
  {
    TotalUpdate(partition, i, 0);
    var rest := partition[i := 0];
    TotalUpdate(rest, j, 0);
    assert Total(rest) - rest[j] >= 0;
  }

  /**
   * After a wait the slot is read again; the books stay balanced exactly if that slot is not empty. The quota is a
   * 32-bit number, so a slot with the share 2^32 - 1 is the only one with permits.
   */
  lemma WaitedIff(s: Ledger, seen: nat, idx: nat)
    requires Inv(s) && Enabled(s, AcquireWaited(seen, idx))
    requires Total(s.partition) < UINT32_MODULUS || s.partition[idx] < UINT32_MODULUS - 1
    ensures Inv(Apply(s, AcquireWaited(seen, idx))) <==> s.permits[idx] > 0
    ensures seen == idx ==> s.permits[idx] > 0
  {
    TotalUpdate(s.permits, idx, (s.permits[idx] - 1) % UINT32_MODULUS);
    if seen != idx {
      TwoShares(s.partition, seen, idx);
    }
  }

  /** The failing run: the predicate sees slot 0, the slot re-read is 1, and its counter wraps around. */
  lemma WaitedWraps() returns (states: seq<Ledger>, actions: seq<Action>)
    ensures Execution([1, 1], states, actions) && actions == [Tick(0), AcquireWaited(0, 1)]
    ensures states[2].permits == [1, UINT32_MODULUS - 1] && !Inv(states[2])
  {
    var s0 := Init([1, 1]);
    assert s0.permits == [0, 0];
    var s1 := Apply(s0, Tick(0));
    assert s1.permits == [1, 0];
    var s2 := Apply(s1, AcquireWaited(0, 1));
    assert s2.permits == [1, UINT32_MODULUS - 1];
    states, actions := [s0, s1, s2], [Tick(0), AcquireWaited(0, 1)];
    assert s2.permits[1] > s2.partition[1];
  }

  lemma WaitedKeeps(s: Ledger, seen: nat, idx: nat)
    requires Inv(s) && Enabled(s, AcquireWaited(seen, idx)) && s.permits[idx] > 0
    ensures Inv(Apply(s, AcquireWaited(seen, idx)))
  {
    TotalUpdate(s.permits, idx, s.permits[idx] - 1);
  }

  lemma TickKeeps(s: Ledger, idx: nat)
    requires Inv(s) && Enabled(s, Tick(idx))
    ensures Inv(Apply(s, Tick(idx)))
  {
    TotalUpdate(s.permits, idx, s.partition[idx]);
  }

  lemma AcquireManyKeeps(s: Ledger, idx: nat, n: nat)
    requires Inv(s) && Enabled(s, AcquireMany(idx, n))
    ensures Inv(Apply(s, AcquireMany(idx, n)))
  {
    AcquireClosed(s.permits, idx, n);
  }

  lemma AcquireOneKeeps(s: Ledger, idx: nat)
    requires Inv(s) && Enabled(s, AcquireOne(idx))
    ensures Inv(Apply(s, AcquireOne(idx)))
  {
    var k := Slot(|s.permits|, idx, FirstFilled(s.permits, idx, 0));
    TotalUpdate(s.permits, k, s.permits[k] - 1);
  }

  lemma InvStep(s: Ledger, a: Action)
    requires Inv(s) && Enabled(s, a) && (a.AcquireWaited? ==> s.permits[a.idx] > 0)
    ensures Inv(Apply(s, a))
  {
    match a {
      case Tick(idx) => TickKeeps(s, idx);
      case AcquireMany(idx, n) => AcquireManyKeeps(s, idx, n);
      case AcquireOne(idx) => AcquireOneKeeps(s, idx);
      case AcquireWaited(seen, idx) => WaitedKeeps(s, seen, idx);
    }
  }

  lemma {:induction false} TotalZero(n: nat)
    ensures Total(seq(n, _ => 0)) == 0
  {
    if n > 0 {
      TotalZero(n - 1);
      assert seq(n, _ => 0)[..n - 1] == seq(n - 1, _ => 0);
    }
  }

  function Init(partition: seq<nat>): Ledger {
    Ledger(partition, seq(|partition|, _ => 0), 0, 0)
  }

  ghost predicate Execution(partition: seq<nat>, states: seq<Ledger>, actions: seq<Action>) {
    && |states| == |actions| + 1 && states[0] == Init(partition)
    && forall k :: 0 <= k < |actions| ==>
         Enabled(states[k], actions[k]) && states[k + 1] == Apply(states[k], actions[k])
  }

  /**
   * Over any run in which waiting callers re-read a slot that is not empty, no slot exceeds its share and no more is
   * granted than was refilled.
   */
  lemma {:induction false} NeverOverGranted(partition: seq<nat>, states: seq<Ledger>, actions: seq<Action>, k: nat)
    requires Execution(partition, states, actions) && k < |states|
    requires forall i :: 0 <= i < |partition| ==> partition[i] < UINT32_MODULUS
    requires forall m :: 0 <= m < k && actions[m].AcquireWaited? ==> states[m].permits[actions[m].idx] > 0
    ensures states[k].partition == partition && Inv(states[k])
  {
    if k == 0 {
      TotalZero(|partition|);
    } else {
      NeverOverGranted(partition, states, actions, k - 1);
      InvStep(states[k - 1], actions[k - 1]);
    }
  }

  /** What each step of any run does to the slots; acquire(n) is given slot by slot by AcquireEach. */
  lemma LedgerSteps(partition: seq<nat>, states: seq<Ledger>, actions: seq<Action>, m: nat)
    requires Execution(partition, states, actions) && m < |actions|
    ensures var s, s', a := states[m], states[m + 1], actions[m];
            && |s.permits| == |s'.permits| == |partition| && s.partition == s'.partition == partition
            && match a
               case Tick(idx) =>
                 && s'.permits == s.permits[idx := partition[idx]] && s'.granted == s.granted
                 && s'.refilled == s.refilled + partition[idx]
               case AcquireMany(idx, n) =>
                 && s'.granted - s.granted == Total(s.permits) - Total(s'.permits) && s'.refilled == s.refilled
                 && Spares(s.permits, s'.permits, idx)
               case AcquireOne(idx) =>
                 && s'.granted == s.granted + 1 && s'.refilled == s.refilled
                 && TakesNearest(s.permits, s'.permits, idx)
               case AcquireWaited(_, idx) =>
                 && s'.granted == s.granted + 1 && s'.refilled == s.refilled
                 && s'.permits == s.permits[idx := if s.permits[idx] == 0 then UINT32_MODULUS - 1
                                                   else (s.permits[idx] - 1) % UINT32_MODULUS]
  {
    ShapeKept(partition, states, actions, m);
    var s, a := states[m], actions[m];
    match a {
      case AcquireMany(idx, n) => AcquireClosed(s.permits, idx, n);
      case AcquireOne(idx) => FirstFilledTaken(s.permits, idx, states[m + 1].permits);
      case _ =>
    }
  }

  lemma {:induction false} ShapeKept(partition: seq<nat>, states: seq<Ledger>, actions: seq<Action>, m: nat)
    requires Execution(partition, states, actions) && m < |states|
    ensures states[m].partition == partition && |states[m].permits| == |partition|
  {
    if m > 0 {
      ShapeKept(partition, states, actions, m - 1);
    }
  }

  // ---- The limiter ----

  /** Slot `p` is one of 0, step, 2 * step and so on, `i` of them. */
  ghost predicate Raised(p: nat, i: nat, step: nat) {
    exists m: nat :: m < i && p == Multiple(m, step)
  }

  function Multiple(m: nat, step: nat): nat {
    m * step
  }

  /** The first `i` slots, `step` apart, have been raised from the average by one. */
  ghost predicate PartlyRaised(s: seq<nat>, avg: nat, i: nat, step: nat) {
    && (forall p :: 0 <= p < |s| ==> s[p] == avg + if Raised(p, i, step) then 1 else 0)
    && Total(s) == |s| * avg + i
  }

  lemma NotYetRaised(i: nat, step: nat)
    requires step >= 1
    ensures !Raised(Multiple(i, step), i, step)
    ensures forall p: nat :: Raised(p, i + 1, step) <==> Raised(p, i, step) || p == Multiple(i, step)
  {
    forall m: nat | m < i ensures Multiple(m, step) < Multiple(i, step) {
      MultipleBelow(m, i, step);
    }
    forall p: nat | Raised(p, i, step) ensures Raised(p, i + 1, step) {
      var m: nat :| m < i && p == Multiple(m, step);
      assert m < i + 1;
    }
    assert i < i + 1 && Raised(Multiple(i, step), i + 1, step);
  }

  lemma RaiseOne(s: seq<nat>, avg: nat, i: nat, step: nat)
    requires PartlyRaised(s, avg, i, step) && step >= 1 && Multiple(i, step) < |s|
    ensures PartlyRaised(s[Multiple(i, step) := s[Multiple(i, step)] + 1], avg, i + 1, step)
  {
    NotYetRaised(i, step);
    TotalUpdate(s, Multiple(i, step), s[Multiple(i, step)] + 1);
  }

  /** The slot gets one of the permits left over by an even split. */
  ghost predicate Extra(permit: nat, size: nat, i: nat)
    requires size > 0
  {
    var r := permit % size;
    r != 0 && size / r > 0 && i % (size / r) == 0 && i / (size / r) < r
  }

  lemma RaisedIs(p: nat, i: nat, step: nat)
    requires step >= 1
    ensures Raised(p, i, step) <==> p % step == 0 && p / step < i
  {
    if Raised(p, i, step) {
      var m: nat :| m < i && p == Multiple(m, step);
      ModUnique(p, m, step, 0);
      assert step * (p / step - m) == 0;
    } else {
      assert p == Multiple(p / step, step) + p % step;
    }
  }

  /** The quota is split exactly: the average for every slot, and the rest, one each, for slots evenly apart. */
  ghost predicate FairShares(s: seq<nat>, permit: nat) {
    && s != [] && Total(s) == permit
    && forall i :: 0 <= i < |s| ==> s[i] == permit / |s| + if Extra(permit, |s|, i) then 1 else 0
  }

  lemma EvenShares(s: seq<nat>, permit: nat)
    requires s != [] && permit % |s| == 0 && forall i :: 0 <= i < |s| ==> s[i] == permit / |s|
    ensures FairShares(s, permit)
  {
    TotalConstant(s, permit / |s|);
  }

  lemma NoneRaised(s: seq<nat>, avg: nat, step: nat)
    requires forall i :: 0 <= i < |s| ==> s[i] == avg
    ensures PartlyRaised(s, avg, 0, step)
  {
    TotalConstant(s, avg);
  }

  lemma RaisedShares(s: seq<nat>, permit: nat, r: nat, step: nat)
    requires s != [] && r == permit % |s| && r != 0 && step == |s| / r && step >= 1
    requires PartlyRaised(s, permit / |s|, r, step)
    ensures FairShares(s, permit)
  {
    forall i | 0 <= i < |s| ensures Raised(i, r, step) == Extra(permit, |s|, i) {
      RaisedIs(i, r, step);
    }
  }

  class RateLimiter {
    const size: nat
    const partition: array<nat>
    const permits: array<nat>

    ghost predicate Valid()
      reads this, partition, permits
    {
      && size > 0 && partition.Length == permits.Length == size && partition != permits
      && forall i :: 0 <= i < size ==> permits[i] <= partition[i]
    }

    constructor (permit: nat, size: nat)
      requires size > 0 && permit < UINT32_MODULUS
      ensures Valid() && fresh(partition) && fresh(permits) && this.size == size
      ensures FairShares(partition[..], permit) && Total(permits[..]) == 0
    {
      var shares := SplitQuota(permit, size);
      var counters := new nat[size](_ => 0);
      TotalConstant(counters[..], 0);
      this.size, partition, permits := size, shares, counters;
    }

    static method SplitQuota(permit: nat, size: nat) returns (shares: array<nat>)
      requires size > 0
      ensures fresh(shares) && shares.Length == size && FairShares(shares[..], permit)
    {
      var avg, r := permit / size, permit % size;
      shares := new nat[size](_ => avg);
      if r != 0 {
        StepInRange(size, r);
        NoneRaised(shares[..], avg, size / r);
        RaiseSlots(shares, avg, r, size / r);
        RaisedShares(shares[..], permit, r, size / r);
      } else {
        EvenShares(shares[..], permit);
      }
    }

    /** Gives one more permit to the slots 0, step, 2 * step and so on. */
    static method RaiseSlots(shares: array<nat>, avg: nat, r: nat, step: nat)
      requires step >= 1 && r * step <= shares.Length
      requires PartlyRaised(shares[..], avg, 0, step)
      modifies shares
      ensures PartlyRaised(shares[..], avg, r, step)
    {
      for i := 0 to r
        invariant PartlyRaised(shares[..], avg, i, step)
      {
        MultipleBelow(i, r, step);
        RaiseOne(shares[..], avg, i, step);
        shares[Multiple(i, step)] := shares[Multiple(i, step)] + 1;
      }
    }

    method AvailablePermits(idx: nat) returns (available: nat)
      requires Valid() && idx < size
      ensures available == Available(permits[..], idx)
      ensures available == Total(Recent(permits[..], idx, size / 2))
    {
      AvailableIs(permits[..], idx);
      WindowIs(permits[..], idx, size / 2);
      available := permits[idx];
      var j := 1;
      while j <= size / 2
        invariant 1 <= j <= size / 2 + 1
        invariant available == Window(permits[..], idx, j - 1)
      {
        available := available + permits[Slot(size, idx, j)];
        j := j + 1;
      }
    }

    method Acquire(idx: nat, permit: nat) returns (acquired: nat)
      requires Valid() && idx < size
      modifies permits
      ensures Valid()
      ensures (permits[..], acquired) == Acquired(old(permits[..]), idx, permit)
      ensures Spares(old(permits[..]), permits[..], idx)
    {
      ghost var was := permits[..];
      if permits[idx] >= permit {
        permits[idx] := permits[idx] - permit;
        assert permits[..] == was[idx := was[idx] - permit];
        AcquireSpares(was, idx, permit);
        return permit;
      }
      acquired := permits[idx];
      permits[idx] := 0;
      assert permits[..] == was[idx := 0];
      var j := 1;
      while j <= size / 2
        invariant 1 <= j <= size / 2 + 1
        invariant Valid()
        invariant (permits[..], acquired) == Borrowed(was, idx, permit, j - 1)
      {
        acquired := DrainSlot(Slot(size, idx, j), acquired, permit);
        j := j + 1;
      }
      AcquireSpares(was, idx, permit);
    }

    /** acquire() up to its wait: one permit from the nearest slot of the window that has one. */
    method TryAcquireOne(idx: nat) returns (ok: bool)
      requires Valid() && idx < size
      modifies permits
      ensures Valid()
      ensures ok <==> Available(old(permits[..]), idx) > 0
      ensures ok ==> TakesNearest(old(permits[..]), permits[..], idx)
      ensures !ok ==> permits[..] == old(permits[..])
    {
      AvailableIff(permits[..], idx);
      ghost var was := permits[..];
      if permits[idx] > 0 {
        permits[idx] := permits[idx] - 1;
        FirstFilledTaken(was, idx, permits[..]);
        return true;
      }
      var j := 1;
      while j <= size / 2
        invariant 1 <= j <= size / 2 + 1
        invariant permits[..] == was
        invariant FirstFilled(was, idx, 0) == if j <= size / 2 then FirstFilled(was, idx, j) else j
      {
        var index := Slot(size, idx, j);
        if permits[index] > 0 {
          permits[index] := permits[index] - 1;
          FirstFilledTaken(was, idx, permits[..]);
          return true;
        }
        j := j + 1;
      }
      return false;
    }

    /** The inner loop of acquire: its break leaves this loop only. */
    method DrainSlot(index: nat, before: nat, permit: nat) returns (acquired: nat)
      requires Valid() && index < size && permit > 0
      modifies permits
      ensures Valid()
      ensures var t := TakenFrom(old(permits[index]), before, permit);
              acquired == before + t && permits[..] == old(permits[..])[index := old(permits[index]) - t]
    {
      acquired := before;
      while permits[index] > 0
        invariant Valid()
        invariant permits[index] <= old(permits[index]) && acquired == before + old(permits[index]) - permits[index]
        invariant acquired == before || acquired < permit
        invariant permits[..] == old(permits[..])[index := permits[index]]
        decreases permits[index]
      {
        permits[index] := permits[index] - 1;
        acquired := acquired + 1;
        if acquired >= permit {
          break;
        }
      }
    }

    method RunTick(idx: nat)
      requires Valid() && idx < size
      modifies permits
      ensures Valid() && permits[..] == old(permits[..])[idx := partition[idx]]
    {
      permits[idx] := partition[idx];
    }
  }

  lemma {:induction false} TotalConstant(s: seq<nat>, x: nat)
    requires forall i :: 0 <= i < |s| ==> s[i] == x
    ensures Total(s) == |s| * x
  {
    if s != [] {
      TotalConstant(s[..|s| - 1], x);
      assert |s| * x == (|s| - 1) * x + x;
    }
  }

  lemma StepInRange(size: nat, r: nat)
    requires 0 < r < size
    ensures r * (size / r) <= size && size / r >= 1
  {}

  lemma MultipleBelow(i: nat, r: nat, step: nat)
    requires i < r && step >= 1
    ensures Multiple(i, step) < Multiple(r, step)
  {}
}
