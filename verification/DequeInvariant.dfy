/** What every step of the deque keeps: the index bounds, and the claims of the thieves that have seen an item
    but not taken it yet. */
module DequeInvariant {
  import opened Deque

  /** The owner is between the decrement of a pop and its end or its own compare-and-swap. */
  predicate Popping(o: Owner) {
    o.PopTop? || Decided(o)
  }

  /** The owner has loaded the top in a pop and not yet settled the outcome. */
  predicate Decided(o: Owner) {
    o.PopCompare? || o.PopGet? || o.PopTest? || o.PopCas?
  }

  predicate Pushing(o: Owner) {
    o.PushBottom? || o.PushTop? || o.PushCheck? || o.PushPut? || o.PushInc?
  }

  /** Where bottom may be, for each place the owner can be at. */
  ghost predicate Bounds(s: State)
    requires Shape(s)
  {
    && s.top >= 1
    && |Tasks(s)| >= 2
    && s.bottom - s.top <= |Tasks(s)| - 1
    && match s.owner
       case Resting => s.bottom >= 1 && s.bottom >= s.top - 1
       case PushBottom(x) => s.bottom >= 1 && s.bottom >= s.top - 1
       case PushTop(x, ob) => ob == s.bottom >= 1 && s.bottom >= s.top - 1
       case PushCheck(x, ob, ot) => ob == s.bottom >= 1 && s.bottom >= s.top - 1 && ot <= s.top
       case PushPut(x, ob) => ob == s.bottom >= 1 && s.bottom >= s.top - 1 && ob - s.top < |Tasks(s)| - 1
       case PushInc(x, ob) =>
         && ob == s.bottom >= 1 && s.bottom >= s.top - 1 && ob - s.top < |Tasks(s)| - 1
         && Cell(Tasks(s), ob) == x
       case PopDec => s.bottom >= 1 && s.bottom >= s.top - 1
       case PopTop => s.bottom >= 0 && s.bottom >= s.top - 2 && s.bottom - s.top < |Tasks(s)| - 1
       case PopCompare(ot) => s.bottom >= 0 && s.bottom - s.top < |Tasks(s)| - 1 && LoadedTop(s, ot)
       case PopRestore(ot) => 0 <= s.bottom < ot == s.top && s.bottom >= s.top - 2
       case PopGet(ot) => ot <= s.bottom && s.bottom - s.top < |Tasks(s)| - 1 && LoadedTop(s, ot)
       case PopTest(ot, v) =>
         && ot <= s.bottom && s.bottom - s.top < |Tasks(s)| - 1 && LoadedTop(s, ot)
         && v == Cell(Tasks(s), s.bottom)
       case PopCas(ot, v) =>
         && ot == s.bottom && s.bottom - s.top < |Tasks(s)| - 1 && LoadedTop(s, ot)
         && v == Cell(Tasks(s), s.bottom)
       case PopStore(ot, v) => ot == s.bottom >= 1 && s.top == ot + 1
  }

  /** What the top can have become since a pop loaded it: with more than one item left, thieves cannot get
      past bottom; with one, a thief can take it; with none, nothing moves. */
  ghost predicate LoadedTop(s: State, ot: int) {
    && 1 <= ot <= s.top
    && s.bottom >= ot - 2
    && (s.bottom > ot ==> s.top <= s.bottom)
    && (s.bottom == ot ==> s.top <= ot + 1)
    && (s.bottom < ot ==> s.top == ot)
  }

  /** The top that a pop in progress has loaded. */
  function OwnerTop(o: Owner): int
    requires Decided(o)
  {
    match o
    case PopCompare(ot) => ot
    case PopGet(ot) => ot
    case PopTest(ot, _) => ot
    case PopCas(ot, _) => ot
  }

  /** A thief past its test of bottom, at index `i`, whose swap may still succeed: the item is there, and if
      it is the one at bottom, the owner will have to swap for it too. */
  ghost predicate Claim(s: State, i: int) {
    && 1 <= i <= s.top
    && (i == s.top ==> i < s.bottom || (i == s.bottom && Popping(s.owner)))
    && (Decided(s.owner) ==> i < s.bottom || i <= OwnerTop(s.owner))
  }

  /** What the indices a thief holds say. */
  ghost predicate ThiefIndex(s: State, p: Thief) {
    match p
    case StealBottom(i) => 1 <= i <= s.top
    case StealArray(i) => Claim(s, i)
    case StealGet(i, g) => Claim(s, i) && g < |s.arrays|
    case StealCas(i, v) => Claim(s, i)
    case _ => true
  }

  /** What a thief has read, or will read, is what stands at its index now. */
  ghost predicate ThiefReads(s: State, p: Thief)
    requires Shape(s) && ThiefIndex(s, p)
  {
    match p
    case StealGet(i, g) => i == s.top ==> Cell(s.arrays[g], i) == Cell(Tasks(s), i)
    case StealCas(i, v) => i == s.top ==> v == Cell(Tasks(s), i)
    case _ => true
  }

  ghost predicate ThiefOk(s: State, p: Thief)
    requires Shape(s)
  {
    ThiefIndex(s, p) && ThiefReads(s, p)
  }

  /** What holds whatever the growths do to the window. */
  ghost predicate IndexInv(s: State) {
    && Shape(s)
    && Bounds(s)
    && (forall t: nat {:trigger ThiefOf(s, t)} :: ThiefIndex(s, ThiefOf(s, t)))
  }

  ghost predicate Inv(s: State) {
    && IndexInv(s)
    && (forall t: nat {:trigger ThiefOf(s, t)} :: ThiefReads(s, ThiefOf(s, t)))
  }

  /** The content of the indices from `top` up to `bottom`. */
  function Window(data: seq<nat>, top: int, bottom: int): (r: seq<nat>)
    requires data != []
    ensures |r| == if top < bottom then bottom - top else 0
  {
    seq<nat>(if top < bottom then bottom - top else 0, k => Cell(data, top + k))
  }

  // ---------- The array ----------

  lemma InRange(i: nat, n: nat)
    requires i < n
    ensures i % n == i
  {
  }

  lemma MultipleSize(m: nat, d: int)
    requires m > 0
    ensures d >= 1 ==> m * d >= m
    ensures d <= -1 ==> m * d <= 0 - m
  {
    if d >= 1 {
      assert m * (d - 1) >= 0;
    } else if d <= -1 {
      assert m * (-d - 1) >= 0;
    }
  }

  lemma SameCell(n: nat, i: int, j: int)
    requires n > 0 && i - n < j < i + n && i % n == j % n
    ensures i == j
  {
    var q, p := i / n, j / n;
    assert i == n * q + i % n && j == n * p + j % n;
    assert i - j == n * q - n * p == n * (q - p);
    MultipleSize(n, q - p);
  }

  /** Below the growth threshold, a push writes over no live slot. */
  lemma PutKeeps(data: seq<nat>, i: int, x: nat, j: int)
    requires data != [] && -|data| < i - j < |data| && i != j
    ensures Cell(Put(data, i, x), j) == Cell(data, j)
  {
    if i % |data| == j % |data| {
      SameCell(|data|, i, j);
    }
  }

  lemma PutKeepsWindow(data: seq<nat>, bottom: int, x: nat, top: int)
    requires data != [] && bottom - top < |data|
    ensures Window(Put(data, bottom, x), top, bottom) == Window(data, top, bottom)
  {
    forall j: int | top <= j < bottom ensures Cell(Put(data, bottom, x), j) == Cell(data, j) {
      PutKeeps(data, bottom, x, j);
    }
  }

  /** The remainder of a number given as a multiple and a rest. */
  lemma ModOf(m: nat, h: int, r: int, i: int)
    requires 0 <= r < m && i == m * h + r
    ensures i % m == r
  {
    var q := i / m;
    assert m * (h - q) == m * h - m * q;
    MultipleSize(m, h - q);
  }

  /** Where an index falls in the doubled array. */
  lemma DoubledIndex(n: nat, q: int, r: int, i: int)
    requires 0 <= r < n && i == n * q + r
    ensures i % (2 * n) == if q % 2 == 0 then r else n + r
  {
    var h := q / 2;
    if q % 2 == 0 {
      assert n * (2 * h) == (2 * n) * h;
      ModOf(2 * n, h, r, i);
    } else {
      assert n * (2 * h + 1) == (2 * n) * h + n;
      ModOf(2 * n, h, n + r, i);
    }
  }

  /** Doubling keeps the content of an index for every content of the new half exactly when the bit of the
      old capacity is zero in the index. */
  lemma DoubledCell(data: seq<nat>, junk: seq<nat>, i: int)
    requires |junk| == |data| > 0 && i >= 0
    ensures Cell(Doubled(data, junk), i) ==
      if i / |data| % 2 == 0 then Cell(data, i) else junk[i % |data|]
  {
    DoubledIndex(|data|, i / |data|, i % |data|, i);
  }

  /** The exact growth condition: the whole window survives whatever the new half holds if and only if no
      index in it has the bit of the old capacity set. */
  lemma GrowthKeepsWindowIff(data: seq<nat>, top: int, bottom: int)
    requires data != [] && top >= 0
    ensures (forall junk: seq<nat> | |junk| == |data| ::
              Window(Doubled(data, junk), top, bottom) == Window(data, top, bottom))
      <==> WindowFits(|data|, top, bottom)
  {
    if WindowFits(|data|, top, bottom) {
      forall junk: seq<nat> | |junk| == |data|
        ensures Window(Doubled(data, junk), top, bottom) == Window(data, top, bottom)
      {
        GrowthKeepsWindow(data, junk, top, bottom);
      }
    } else {
      var i: int :| top <= i < bottom && i / |data| % 2 != 0;
      var junk := seq(|data|, _ => Cell(data, i) + 1);
      DoubledCell(data, junk, i);
      assert Window(Doubled(data, junk), top, bottom)[i - top] != Window(data, top, bottom)[i - top];
    }
  }

  lemma GrowthKeepsWindow(data: seq<nat>, junk: seq<nat>, top: int, bottom: int)
    requires |junk| == |data| > 0 && top >= 0 && WindowFits(|data|, top, bottom)
    ensures Window(Doubled(data, junk), top, bottom) == Window(data, top, bottom)
  {
    forall i: int | top <= i < bottom ensures Cell(Doubled(data, junk), i) == Cell(data, i) {
      assert i / |data| % 2 == 0;
      DoubledCell(data, junk, i);
    }
  }

  // ---------- The steps ----------

  lemma InitInv(data: seq<nat>)
    requires |data| >= 2
    ensures Inv(Init(data))
  {
  }

  lemma PushBounds(s: State, junk: seq<nat>)
    requires Shape(s) && Bounds(s) && Enabled(s, OwnerStep(junk))
    requires Pushing(s.owner) && !s.owner.PushCheck? && !s.owner.PushPut?
    ensures Bounds(OwnerNext(s, junk))
  {
  }

  lemma PutBounds(s: State, junk: seq<nat>)
    requires Shape(s) && Bounds(s) && Enabled(s, OwnerStep(junk)) && (s.owner.PushCheck? || s.owner.PushPut?)
    ensures Bounds(OwnerNext(s, junk))
  {
  }

  lemma PopBounds(s: State, junk: seq<nat>)
    requires Shape(s) && Bounds(s) && Enabled(s, OwnerStep(junk)) && !Pushing(s.owner)
    ensures Bounds(OwnerNext(s, junk))
  {
  }

  lemma OwnerClaim(s: State, junk: seq<nat>, i: int)
    requires Shape(s) && Bounds(s) && Enabled(s, OwnerStep(junk)) && Claim(s, i)
    ensures Claim(OwnerNext(s, junk), i)
  {
  }

  lemma OwnerFrame(s: State, junk: seq<nat>)
    requires Shape(s) && Enabled(s, OwnerStep(junk))
    ensures var r := OwnerNext(s, junk);
      && r.thieves == s.thieves && |s.arrays| <= |r.arrays| && (r.top == s.top || (s.owner.PopCas? && s.top < r.top))
      && (!s.owner.PushCheck? && !s.owner.PushPut? ==> r.arrays == s.arrays)
  {
  }

  lemma OwnerIndex(s: State, junk: seq<nat>)
    requires IndexInv(s) && Enabled(s, OwnerStep(junk))
    ensures IndexInv(OwnerNext(s, junk))
  {
    var r := OwnerNext(s, junk);
    OwnerFrame(s, junk);
    if s.owner.PushCheck? || s.owner.PushPut? {
      PutBounds(s, junk);
    } else if Pushing(s.owner) {
      PushBounds(s, junk);
    } else {
      PopBounds(s, junk);
    }
    forall t: nat ensures ThiefIndex(r, ThiefOf(r, t)) {
      var p := ThiefOf(s, t);
      assert ThiefIndex(s, p);
      if p.StealArray? || p.StealGet? || p.StealCas? {
        OwnerClaim(s, junk, p.i);
      }
    }
  }

  lemma ThiefBounds(s: State, t: nat)
    requires IndexInv(s) && Enabled(s, ThiefStep(t))
    ensures Bounds(ThiefNext(s, t))
  {
    assert ThiefIndex(s, ThiefOf(s, t));
  }

  /** A successful steal moves the top past every other claim. */
  lemma OtherIndex(s: State, t: nat, u: nat)
    requires IndexInv(s) && Enabled(s, ThiefStep(t)) && u != t
    ensures ThiefIndex(ThiefNext(s, t), ThiefOf(s, u))
  {
    assert ThiefIndex(s, ThiefOf(s, u));
    assert ThiefIndex(s, ThiefOf(s, t));
  }

  lemma SameIndex(s: State, t: nat)
    requires IndexInv(s) && Enabled(s, ThiefStep(t))
    ensures ThiefIndex(ThiefNext(s, t), ThiefOf(ThiefNext(s, t), t))
  {
    assert ThiefIndex(s, ThiefOf(s, t));
  }

  /** Every step keeps the index bounds and the claims, with no condition on growths: none of them looks at what
      the array holds. */
  lemma NextIndex(s: State, a: Action)
    requires IndexInv(s) && Enabled(s, a)
    ensures IndexInv(Next(s, a))
  {
    var r := Next(s, a);
    match a
    case OwnerStep(junk) => OwnerIndex(s, junk);
    case ThiefStep(t) =>
      ThiefBounds(s, t);
      SameIndex(s, t);
      forall u: nat ensures ThiefIndex(r, ThiefOf(r, u)) {
        if u != t {
          OtherIndex(s, t, u);
          assert ThiefOf(r, u) == ThiefOf(s, u);
        }
      }
    case _ =>
      forall t: nat ensures ThiefIndex(r, ThiefOf(r, t)) {
        assert ThiefIndex(s, ThiefOf(s, t));
      }
  }

  lemma {:induction false} TraceIndex(s: State, actions: seq<Action>)
    requires IndexInv(s) && IsTrace(s, actions)
    ensures IndexInv(Trace(s, actions))
    decreases |actions|
  {
    if actions != [] {
      NextIndex(s, actions[0]);
      TraceIndex(Next(s, actions[0]), actions[1..]);
    }
  }

  // ---------- What the thieves have read ----------

  /** A step that leaves the arrays alone, or rewrites them without touching the item at the top. */
  lemma SameReads(s: State, r: State, p: Thief)
    requires Shape(s) && Shape(r) && ThiefIndex(s, p) && ThiefReads(s, p) && ThiefIndex(r, p)
    requires s.top <= r.top && |s.arrays| <= |r.arrays|
    requires forall i: int, g: nat | i == s.top == r.top && Claim(s, i) && g < |s.arrays| ::
      Cell(r.arrays[g], i) == Cell(s.arrays[g], i)
    requires forall i: int | i == s.top == r.top && Claim(s, i) :: Cell(Tasks(r), i) == Cell(Tasks(s), i)
    ensures ThiefReads(r, p)
  {
  }

  /** Growing or writing an array leaves the item at the top of the window in place, for the thieves too. */
  lemma PutReads(s: State, junk: seq<nat>)
    requires Inv(s) && Enabled(s, OwnerStep(junk)) && GrowthOk(s, OwnerStep(junk))
    requires s.owner.PushCheck? || s.owner.PushPut?
    requires s.top < s.bottom
    ensures var r := OwnerNext(s, junk);
      && Cell(Tasks(r), s.top) == Cell(Tasks(s), s.top)
      && forall g: nat | g < |s.arrays| :: Cell(r.arrays[g], s.top) == Cell(s.arrays[g], s.top)
  {
    if s.owner.PushPut? {
      PutKeeps(Tasks(s), s.bottom, s.owner.x, s.top);
    } else if Growing(s) {
      var r := OwnerNext(s, junk);
      GrowthKeepsWindow(Tasks(s), junk, s.top, s.bottom);
      assert Window(Tasks(r), s.top, s.bottom)[0] == Window(Tasks(s), s.top, s.bottom)[0];
    }
  }

  /** Every access of the owner: the claims of all thieves survive it. */
  lemma OwnerKeeps(s: State, junk: seq<nat>)
    requires Inv(s) && Enabled(s, OwnerStep(junk)) && GrowthOk(s, OwnerStep(junk))
    ensures Inv(OwnerNext(s, junk))
  {
    var r := OwnerNext(s, junk);
    OwnerFrame(s, junk);
    OwnerIndex(s, junk);
    if s.top < s.bottom && (s.owner.PushCheck? || s.owner.PushPut?) {
      PutReads(s, junk);
    }
    forall t: nat ensures ThiefReads(r, ThiefOf(r, t)) {
      var p := ThiefOf(s, t);
      assert ThiefIndex(s, p) && ThiefReads(s, p) && ThiefIndex(r, ThiefOf(r, t));
      SameReads(s, r, p);
    }
  }

  lemma ThiefStepReads(s: State, t: nat)
    requires Inv(s) && Enabled(s, ThiefStep(t)) && IndexInv(ThiefNext(s, t))
    ensures Inv(ThiefNext(s, t))
  {
    var r := ThiefNext(s, t);
    assert ThiefReads(s, ThiefOf(s, t));
    forall u: nat ensures ThiefReads(r, ThiefOf(r, u)) {
      if u != t {
        assert ThiefOf(r, u) == ThiefOf(s, u);
        assert ThiefReads(s, ThiefOf(s, u)) && ThiefIndex(r, ThiefOf(r, u));
        SameReads(s, r, ThiefOf(s, u));
      }
    }
  }

  lemma NextKeeps(s: State, a: Action)
    requires Inv(s) && Enabled(s, a) && GrowthOk(s, a)
    ensures Inv(Next(s, a))
  {
    NextIndex(s, a);
    match a
    case OwnerStep(junk) => OwnerKeeps(s, junk);
    case ThiefStep(t) => ThiefStepReads(s, t);
    case _ =>
      var r := Next(s, a);
      forall t: nat ensures ThiefReads(r, ThiefOf(r, t)) {
        assert ThiefReads(s, ThiefOf(s, t));
      }
  }

  lemma {:induction false} RunKeeps(s: State, actions: seq<Action>)
    requires Inv(s) && IsRun(s, actions)
    ensures Inv(Run(s, actions))
    decreases |actions|
  {
    if actions != [] {
      NextKeeps(s, actions[0]);
      RunKeeps(Next(s, actions[0]), actions[1..]);
    }
  }
}
