/** Message and request identifiers: UniqueIdGenerator.cpp. */
module UniqueId {
  import opened Base
  import opened Modular
  import opened Hex

  const VERSION: byte := 1
  const PREFIX_LENGTH: nat := 8

  datatype Slot = Slot(seconds: nat, sequence: nat)

  /** The critical section of next(): a new second restarts the sequence, which otherwise counts modulo its width. */
  function NextSlot(s: Slot, delta: nat): Slot {
    if s.seconds != delta then Slot(delta, 0) else Slot(delta, (s.sequence + 1) % UINT32_MODULUS)
  }

  /** The slot behind the `k`-th identifier, the clock having read `clock[k]` for it. */
  function SlotAt(start: Slot, clock: seq<nat>, k: nat): Slot
    requires k < |clock|
  {
    NextSlot(if k == 0 then start else SlotAt(start, clock, k - 1), clock[k])
  }

  /** A 32-bit word in little-endian byte order, as memcpy of the slot lays it out. */
  function Word(x: nat): (b: seq<byte>)
    requires x < UINT32_MODULUS
    ensures |b| == 4
  {
    [(x % 256) as byte, (x / 256 % 256) as byte, (x / 65536 % 256) as byte, (x / 16777216) as byte]
  }

  function UnWord(b: seq<byte>): nat
    requires |b| == 4
  {
    b[0] as nat + 256 * b[1] as nat + 65536 * b[2] as nat + 16777216 * b[3] as nat
  }

  lemma WordRoundTrip(x: nat)
    requires x < UINT32_MODULUS
    ensures UnWord(Word(x)) == x
  {
    assert x == x % 256 + 256 * (x / 256);
    assert x / 256 == x / 256 % 256 + 256 * (x / 65536);
    assert x / 65536 == x / 65536 % 256 + 256 * (x / 16777216);
  }

  function IdText(prefix: seq<byte>, slot: Slot): (id: string)
    requires slot.seconds < UINT32_MODULUS && slot.sequence < UINT32_MODULUS
  {
    Encode([VERSION] + prefix + Word(slot.seconds) + Word(slot.sequence))
  }

  lemma IdTextInjective(prefix: seq<byte>, a: Slot, b: Slot)
    requires a.seconds < UINT32_MODULUS && a.sequence < UINT32_MODULUS
    requires b.seconds < UINT32_MODULUS && b.sequence < UINT32_MODULUS
    ensures IdText(prefix, a) == IdText(prefix, b) <==> a == b
  {
    var head := [VERSION] + prefix;
    var ra, rb := head + Word(a.seconds) + Word(a.sequence), head + Word(b.seconds) + Word(b.sequence);
    if IdText(prefix, a) == IdText(prefix, b) {
      EncodeInjective(ra, rb);
      var n := |head|;
      assert ra[n..n + 4] == Word(a.seconds) && ra[n + 4..] == Word(a.sequence);
      assert rb[n..n + 4] == Word(b.seconds) && rb[n + 4..] == Word(b.sequence);
      WordRoundTrip(a.seconds);
      WordRoundTrip(b.seconds);
      WordRoundTrip(a.sequence);
      WordRoundTrip(b.sequence);
    }
  }

  lemma WordIs(x: nat, b: seq<byte>)
    requires x < UINT32_MODULUS && b == Word(x)
    ensures x == b[0] as nat + 0x100 * b[1] as nat + 0x1_0000 * b[2] as nat + 0x100_0000 * b[3] as nat
  {
    WordRoundTrip(x);
  }

  /** An identifier spells 17 bytes: the version, the prefix, the seconds and the sequence, low bytes first. */
  lemma IdLayout(prefix: seq<byte>, slot: Slot, raw: seq<byte>)
    requires |prefix| == 8 && slot.seconds < UINT32_MODULUS && slot.sequence < UINT32_MODULUS
    requires ValidHex(IdText(prefix, slot)) && raw == Decode(IdText(prefix, slot))
    ensures |raw| == 17 && raw[0] == 1 && raw[1..9] == prefix
    ensures slot.seconds ==
            raw[9] as nat + 0x100 * raw[10] as nat + 0x1_0000 * raw[11] as nat + 0x100_0000 * raw[12] as nat
    ensures slot.sequence ==
            raw[13] as nat + 0x100 * raw[14] as nat + 0x1_0000 * raw[15] as nat + 0x100_0000 * raw[16] as nat
  {
    DecodeEncode([VERSION] + prefix + Word(slot.seconds) + Word(slot.sequence));
    assert raw[9..13] == Word(slot.seconds) && raw[13..17] == Word(slot.sequence);
    WordIs(slot.seconds, raw[9..13]);
    WordIs(slot.sequence, raw[13..17]);
  }

  /** Every identifier is valid hexadecimal text. */
  lemma IdIsHex(prefix: seq<byte>, slot: Slot)
    requires slot.seconds < UINT32_MODULUS && slot.sequence < UINT32_MODULUS
    ensures ValidHex(IdText(prefix, slot))
  {
    DecodeEncode([VERSION] + prefix + Word(slot.seconds) + Word(slot.sequence));
  }

  /** The steady clock, in whole seconds, as read under the lock. */
  ghost predicate Steady(start: Slot, clock: seq<nat>) {
    && start.seconds < UINT32_MODULUS && start.sequence == 0
    && (forall i :: 0 <= i < |clock| ==> start.seconds <= clock[i] < UINT32_MODULUS)
    && (forall i, j :: 0 <= i <= j < |clock| ==> clock[i] <= clock[j])
  }

  /** Identifiers drawn in the second of draw `k`, up to and including it. */
  function DrawnInSecond(clock: seq<nat>, k: nat): (n: nat)
    requires k < |clock|
    ensures 1 <= n <= k + 1
  {
    if k > 0 && clock[k - 1] == clock[k] then DrawnInSecond(clock, k - 1) + 1 else 1
  }

  /** Seconds are exact, and the sequence number counts the draws of the second modulo its width. */
  lemma {:induction false} SlotCounts(start: Slot, clock: seq<nat>, k: nat)
    requires Steady(start, clock) && k < |clock|
    ensures SlotAt(start, clock, k).seconds == clock[k]
    ensures SlotAt(start, clock, k).sequence ==
            (DrawnInSecond(clock, k) - 1 + if clock[k] == start.seconds then 1 else 0) % UINT32_MODULUS
  {
    if k > 0 {
      SlotCounts(start, clock, k - 1);
      if clock[k - 1] == clock[k] {
        var drawn := DrawnInSecond(clock, k - 1) - 1 + if clock[k] == start.seconds then 1 else 0;
        ModAdd(drawn, 1, UINT32_MODULUS);
      }
    }
  }

  lemma {:induction false} SameSecond(clock: seq<nat>, i: nat, j: nat)
    requires i <= j < |clock| && (forall a, b :: 0 <= a <= b < |clock| ==> clock[a] <= clock[b]) && clock[i] == clock[j]
    ensures DrawnInSecond(clock, j) == DrawnInSecond(clock, i) + (j - i)
  {
    if i < j {
      assert clock[j - 1] == clock[j];
      SameSecond(clock, i, j - 1);
    }
  }

  /** The `k`-th identifier of a run. */
  function IdAt(prefix: seq<byte>, start: Slot, clock: seq<nat>, k: nat): (id: string)
    requires Steady(start, clock) && k < |clock|
  {
    var slot := SlotAt(start, clock, k);
    SlotCounts(start, clock, k);
    IdText(prefix, slot)
  }

  ghost predicate AllDistinct(prefix: seq<byte>, start: Slot, clock: seq<nat>)
    requires Steady(start, clock)
  {
    forall i, j :: 0 <= i < j < |clock| ==> IdAt(prefix, start, clock, i) != IdAt(prefix, start, clock, j)
  }

  lemma Congruent(a: nat, d: nat)
    ensures (a + d) % UINT32_MODULUS == a % UINT32_MODULUS <==> d % UINT32_MODULUS == 0
  {}

  /** Two draws coincide exactly if they fall in one second and lie a multiple of 2^32 draws apart. */
  lemma IdsEqualIff(prefix: seq<byte>, start: Slot, clock: seq<nat>, i: nat, j: nat)
    requires Steady(start, clock) && i < j < |clock|
    ensures IdAt(prefix, start, clock, i) == IdAt(prefix, start, clock, j) <==>
            clock[i] == clock[j] && (j - i) % UINT32_MODULUS == 0
  {
    SlotCounts(start, clock, i);
    SlotCounts(start, clock, j);
    IdTextInjective(prefix, SlotAt(start, clock, i), SlotAt(start, clock, j));
    if clock[i] == clock[j] {
      SameSecond(clock, i, j);
      Congruent(DrawnInSecond(clock, i) - 1 + (if clock[i] == start.seconds then 1 else 0), j - i);
    }
  }

  lemma IdsDiffer(prefix: seq<byte>, start: Slot, clock: seq<nat>, i: nat, j: nat)
    requires Steady(start, clock) && i < j < |clock| && DrawnInSecond(clock, j) <= UINT32_MODULUS
    ensures IdAt(prefix, start, clock, i) != IdAt(prefix, start, clock, j)
  {
    IdsEqualIff(prefix, start, clock, i, j);
    if clock[i] == clock[j] {
      SameSecond(clock, i, j);
      ModUnique(j - i, 0, UINT32_MODULUS, j - i);
    }
  }

  lemma IdRepeats(prefix: seq<byte>, start: Slot, clock: seq<nat>, j: nat)
    requires Steady(start, clock) && j < |clock| && DrawnInSecond(clock, j) > UINT32_MODULUS
    ensures exists i :: 0 <= i < j && IdAt(prefix, start, clock, i) == IdAt(prefix, start, clock, j)
  {
    SecondSpans(clock, j, UINT32_MODULUS);
    IdsEqualIff(prefix, start, clock, j - UINT32_MODULUS, j);
  }

  /**
   * Identifiers of one process run, drawn under a steady clock that stays within 32 bits, are pairwise distinct exactly
   * if no second sees more draws than the sequence has values.
   */
  lemma IdsDistinctIff(prefix: seq<byte>, start: Slot, clock: seq<nat>)
    requires Steady(start, clock)
    ensures AllDistinct(prefix, start, clock) <==>
            forall k :: 0 <= k < |clock| ==> DrawnInSecond(clock, k) <= UINT32_MODULUS
  {
    if forall k :: 0 <= k < |clock| ==> DrawnInSecond(clock, k) <= UINT32_MODULUS {
      forall i, j | 0 <= i < j < |clock|
        ensures IdAt(prefix, start, clock, i) != IdAt(prefix, start, clock, j)
      {
        IdsDiffer(prefix, start, clock, i, j);
      }
    } else {
      var j :| 0 <= j < |clock| && DrawnInSecond(clock, j) > UINT32_MODULUS;
      IdRepeats(prefix, start, clock, j);
    }
  }

  /** A draw's second reaches back as many draws as the second has seen. */
  lemma {:induction false} SecondSpans(clock: seq<nat>, j: nat, d: nat)
    requires j < |clock| && DrawnInSecond(clock, j) > d
    ensures d <= j && clock[j - d] == clock[j]
  {
    if d > 0 {
      SecondSpans(clock, j - 1, d - 1);
    }
  }

  class UniqueIdGenerator {
    const prefix: seq<byte>
    var seconds: nat
    var sequence: nat

    ghost predicate Valid()
      reads this
    {
      |prefix| == PREFIX_LENGTH && seconds < UINT32_MODULUS && sequence < UINT32_MODULUS
    }

    ghost function Value(): Slot
      reads this
    {
      Slot(seconds, sequence)
    }

    constructor (prefix: seq<byte>, now: nat)
      requires |prefix| == PREFIX_LENGTH
      ensures Valid() && this.prefix == prefix && Value() == Slot(now % UINT32_MODULUS, 0)
    {
      this.prefix := prefix;
      seconds := now % UINT32_MODULUS;
      sequence := 0;
    }

    /** `now` is the steady clock in whole seconds since the custom epoch; deltaSeconds() truncates it to 32 bits. */
    method Next(now: nat) returns (id: string)
      requires Valid()
      modifies this
      ensures Valid() && Value() == NextSlot(old(Value()), now % UINT32_MODULUS)
      ensures id == IdText(prefix, Value())
    {
      var delta := now % UINT32_MODULUS;
      if seconds != delta {
        seconds := delta;
        sequence := 0;
      } else {
        sequence := (sequence + 1) % UINT32_MODULUS;
      }
      var raw := new byte[17](_ => 0);
      raw[0] := VERSION;
      CopyInto(raw, 1, prefix);
      CopyInto(raw, 1 + PREFIX_LENGTH, Word(seconds) + Word(sequence));
      assert raw[..] == [VERSION] + prefix + Word(seconds) + Word(sequence);
      id := ToHex(raw[..]);
    }
  }

  /** memcpy into `raw` at `at`. */
  method CopyInto(raw: array<byte>, at: nat, data: seq<byte>)
    requires at + |data| <= raw.Length
    modifies raw
    ensures forall k :: 0 <= k < raw.Length ==> raw[k] == if at <= k < at + |data| then data[k - at] else old(raw[k])
  {
    for i := 0 to |data|
      invariant forall k :: 0 <= k < raw.Length ==> raw[k] == if at <= k < at + i then data[k - at] else old(raw[k])
    {
      raw[at + i] := data[i];
    }
  }
}
