/** The arithmetic of the timer wheel: slot numbers, and the ticks at which each slot is looked at. */
module WheelArith {

  const TVR_SIZE: nat := 256
  const TVN_SIZE: nat := 64
  const WHEEL_BUCKETS: nat := 4
  const MAX_TVAL: nat := 0xFFFF_FFFF
  const SLOTS: nat := TVR_SIZE + WHEEL_BUCKETS * TVN_SIZE

  /** The number of ticks one slot of bucket `level` stands for: 2^8, 2^14, 2^20 or 2^26. */
  function Width(level: nat): (w: nat)
    requires level < WHEEL_BUCKETS
    ensures w > 0 && w % TVR_SIZE == 0
  {
    match level
    case 0 => 0x100
    case 1 => 0x4000
    case 2 => 0x10_0000
    case _ => 0x400_0000
  }

  /** The 256 near slots come first, then the four buckets of 64 slots each. */
  function BucketSlot(level: nat, i: nat): (k: nat)
    requires level < WHEEL_BUCKETS && i < TVN_SIZE
    ensures TVR_SIZE <= k < SLOTS && LevelOf(k) == level && IndexOf(k) == i
  {
    TVR_SIZE + TVN_SIZE * level + i
  }

  function LevelOf(k: nat): (level: nat)
    requires TVR_SIZE <= k < SLOTS
    ensures level < WHEEL_BUCKETS
  {
    (k - TVR_SIZE) / TVN_SIZE
  }

  function IndexOf(k: nat): (i: nat)
    requires TVR_SIZE <= k < SLOTS
    ensures i < TVN_SIZE
  {
    (k - TVR_SIZE) % TVN_SIZE
  }

  /** The slot `addTimerEntry` picks for an expiry, seen from the current tick. */
  function SlotFor(jiffies: nat, expired: int): (k: nat)
    ensures k < SLOTS
  {
    var idx := expired - jiffies;
    if 0 <= idx < 0x100 then
      expired % 0x100
    else if 0 <= idx < 0x4000 then
      BucketSlot(0, expired / 0x100 % TVN_SIZE)
    else if 0 <= idx < 0x10_0000 then
      BucketSlot(1, expired / 0x4000 % TVN_SIZE)
    else if 0 <= idx < 0x400_0000 then
      BucketSlot(2, expired / 0x10_0000 % TVN_SIZE)
    else if idx < 0 then
      jiffies % TVR_SIZE
    else
      var expires := if idx > MAX_TVAL then jiffies + MAX_TVAL else expired;
      BucketSlot(3, expires / 0x400_0000 % TVN_SIZE)
  }

  /** The index `update` cascades at a tick on a given level. */
  function CascadeIndex(jiffies: nat, level: nat): (i: nat)
    requires level < WHEEL_BUCKETS
    ensures i < TVN_SIZE
  {
    jiffies / Width(level) % TVN_SIZE
  }

  /** The first tick at or after `from` at which near slot `k` is executed. */
  function NextExecution(from: nat, k: nat): (tick: nat)
    requires k < TVR_SIZE
    ensures from <= tick < from + TVR_SIZE && tick % TVR_SIZE == k
  {
    from + (k - from) % TVR_SIZE
  }

  /** The first tick at or after `from` at which `update` reaches slot `i` of bucket `level`. */
  function NextCascade(from: nat, level: nat, i: nat): (tick: nat)
    requires level < WHEEL_BUCKETS && i < TVN_SIZE
  {
    var w := Width(level);
    var q := (from + w - 1) / w;
    w * (q + (i - q) % TVN_SIZE)
  }

  /** Tick `t` is one at which slot `i` of bucket `level` is cascaded. */
  predicate Reaches(t: nat, level: nat, i: nat)
    requires level < WHEEL_BUCKETS && i < TVN_SIZE
  {
    t % Width(level) == 0 && CascadeIndex(t, level) == i
  }

  /** NextCascade is the only tick that reaches the slot within one revolution. */
  lemma NextCascadeReaches(from: nat, level: nat, i: nat)
    requires level < WHEEL_BUCKETS && i < TVN_SIZE
    ensures var t := NextCascade(from, level, i);
      from <= t < from + TVN_SIZE * Width(level) && Reaches(t, level, i)
  {
    match level
    case 0 => NextOfWidth(0x100, from, i);
    case 1 => NextOfWidth(0x4000, from, i);
    case 2 => NextOfWidth(0x10_0000, from, i);
    case _ => NextOfWidth(0x400_0000, from, i);
  }

  lemma NextOfWidth(w: nat, from: nat, i: nat)
    requires w in {0x100, 0x4000, 0x10_0000, 0x400_0000} && i < TVN_SIZE
    ensures var q := (from + w - 1) / w;
      var t := w * (q + (i - q) % TVN_SIZE);
      from <= t < from + TVN_SIZE * w && t % w == 0 && t / w % TVN_SIZE == i
  {
    var q := (from + w - 1) / w;
    var m := q + (i - q) % TVN_SIZE;
    assert m % TVN_SIZE == i;
    MultipleOf(w, m);
    CeilingOf(w, from);
    assert w * m == w * q + w * (m - q);
  }

  lemma MultipleOf(w: nat, m: nat)
    requires w in {0x100, 0x4000, 0x10_0000, 0x400_0000}
    ensures (w * m) % w == 0 && (w * m) / w == m
  {
    if w == 0x100 {
      assert (0x100 * m) / 0x100 == m;
    } else if w == 0x4000 {
      assert (0x4000 * m) / 0x4000 == m;
    } else if w == 0x10_0000 {
      assert (0x10_0000 * m) / 0x10_0000 == m;
    } else {
      assert (0x400_0000 * m) / 0x400_0000 == m;
    }
  }

  lemma CeilingOf(w: nat, from: nat)
    requires w in {0x100, 0x4000, 0x10_0000, 0x400_0000}
    ensures var q := (from + w - 1) / w; from <= w * q < from + w
  {
    var q := (from + w - 1) / w;
    if w == 0x100 {
      assert from <= 0x100 * q < from + 0x100;
    } else if w == 0x4000 {
      assert from <= 0x4000 * q < from + 0x4000;
    } else if w == 0x10_0000 {
      assert from <= 0x10_0000 * q < from + 0x10_0000;
    } else {
      assert from <= 0x400_0000 * q < from + 0x400_0000;
    }
  }

  lemma NextCascadeUnique(from: nat, level: nat, i: nat, t: nat)
    requires level < WHEEL_BUCKETS && i < TVN_SIZE
    requires Reaches(t, level, i) && from <= t < from + TVN_SIZE * Width(level)
    ensures NextCascade(from, level, i) == t
  {
    NextCascadeReaches(from, level, i);
    var u := NextCascade(from, level, i);
    match level
    case 0 => SameBlock(0x100, t, u);
    case 1 => SameBlock(0x4000, t, u);
    case 2 => SameBlock(0x10_0000, t, u);
    case _ => SameBlock(0x400_0000, t, u);
  }

  lemma SameBlock(w: nat, t: nat, u: nat)
    requires w in {0x100, 0x4000, 0x10_0000, 0x400_0000}
    requires t % w == u % w == 0 && t / w % TVN_SIZE == u / w % TVN_SIZE
    requires -(TVN_SIZE * w) < t - u < TVN_SIZE * w
    ensures t == u
  {
  }

  /** Moving `from` past a tick that does not reach the slot leaves the next cascade tick alone. */
  lemma NextCascadeStable(from: nat, level: nat, i: nat)
    requires level < WHEEL_BUCKETS && i < TVN_SIZE
    requires !Reaches(from, level, i)
    ensures NextCascade(from + 1, level, i) == NextCascade(from, level, i)
  {
    NextCascadeReaches(from, level, i);
    NextCascadeUnique(from + 1, level, i, NextCascade(from, level, i));
  }

  lemma NextCascadeNow(from: nat, level: nat, i: nat)
    requires level < WHEEL_BUCKETS && i < TVN_SIZE
    requires Reaches(from, level, i)
    ensures NextCascade(from, level, i) == from
  {
    NextCascadeUnique(from, level, i, from);
  }

  /** The start of the block of `level` that holds tick `t`. */
  function BlockStart(t: int, level: nat): int
    requires level < WHEEL_BUCKETS
  {
    t - t % Width(level)
  }

  /** The expiry that an entry linked at a tick is placed by. */
  function Clamped(expired: int, linked: nat): int {
    if expired - linked > MAX_TVAL then linked + MAX_TVAL else expired
  }

  /** Where `SlotFor` puts an expiry at least 256 ticks ahead. The slot belongs to the block of the
      expiry, or, above the range of the wheel, to the block of the clamped expiry. */
  lemma BucketPlacement(jiffies: nat, expired: int)
    requires expired - jiffies >= TVR_SIZE
    ensures var k := SlotFor(jiffies, expired);
      && TVR_SIZE <= k
      && var level := LevelOf(k);
         var expires := Clamped(expired, jiffies);
         var block := BlockStart(expires, level);
         && (expired - jiffies > MAX_TVAL ==> level == 3)
         && jiffies < block <= expires
         && block < jiffies + TVN_SIZE * Width(level)
         && Reaches(block, level, IndexOf(k))
  {
    var idx := expired - jiffies;
    if idx < 0x4000 {
      BlockReaches(expired, 0);
    } else if idx < 0x10_0000 {
      BlockReaches(expired, 1);
    } else if idx < 0x400_0000 {
      BlockReaches(expired, 2);
    } else {
      BlockReaches(Clamped(expired, jiffies), 3);
    }
  }

  lemma BlockReaches(t: nat, level: nat)
    requires level < WHEEL_BUCKETS
    ensures 0 <= BlockStart(t, level) <= t < BlockStart(t, level) + Width(level)
    ensures Reaches(BlockStart(t, level), level, t / Width(level) % TVN_SIZE)
  {
    match level
    case 0 => BlockOfWidth(0x100, t);
    case 1 => BlockOfWidth(0x4000, t);
    case 2 => BlockOfWidth(0x10_0000, t);
    case _ => BlockOfWidth(0x400_0000, t);
  }

  lemma BlockOfWidth(w: nat, t: nat)
    requires w in {0x100, 0x4000, 0x10_0000, 0x400_0000}
    ensures var b := t - t % w; 0 <= b <= t < b + w && b % w == 0 && b / w == t / w
  {
    var q := t / w;
    if w == 0x100 {
      assert t - t % 0x100 == 0x100 * q;
      assert (0x100 * q) / 0x100 == q && (0x100 * q) % 0x100 == 0;
    } else if w == 0x4000 {
      assert t - t % 0x4000 == 0x4000 * q;
      assert (0x4000 * q) / 0x4000 == q && (0x4000 * q) % 0x4000 == 0;
    } else if w == 0x10_0000 {
      assert t - t % 0x10_0000 == 0x10_0000 * q;
      assert (0x10_0000 * q) / 0x10_0000 == q && (0x10_0000 * q) % 0x10_0000 == 0;
    } else {
      assert t - t % 0x400_0000 == 0x400_0000 * q;
      assert (0x400_0000 * q) / 0x400_0000 == q && (0x400_0000 * q) % 0x400_0000 == 0;
    }
  }

  /** An aligned tick is aligned to the next level exactly when its index is 0. */
  lemma AlignedAbove(w: nat, t: nat)
    requires w in {0x100, 0x4000, 0x10_0000} && t % w == 0
    ensures t % (TVN_SIZE * w) == 0 <==> t / w % TVN_SIZE == 0
  {
    var q := t / w;
    if w == 0x100 {
      Remainder256(q / 64, q % 64);
    } else if w == 0x4000 {
      Remainder16K(q / 64, q % 64);
    } else {
      Remainder1M(q / 64, q % 64);
    }
  }

  lemma Remainder256(h: nat, r: nat)
    requires r < 64
    ensures (0x4000 * h + 0x100 * r) % 0x4000 == 0x100 * r
  {
  }

  lemma Remainder16K(h: nat, r: nat)
    requires r < 64
    ensures (0x10_0000 * h + 0x4000 * r) % 0x10_0000 == 0x4000 * r
  {
  }

  lemma Remainder1M(h: nat, r: nat)
    requires r < 64
    ensures (0x400_0000 * h + 0x10_0000 * r) % 0x400_0000 == 0x10_0000 * r
  {
  }
}
