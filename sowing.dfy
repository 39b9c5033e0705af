/**
 * Sowing (src/board.rs, get_next_location and sow).  For a fixed sower the
 * reachable locations form a ring of 2 * numHoles + 1 slots: both rows of
 * pits and the sower's own pot; the opponent's pot is skipped.
 */
module Sowing {
  import opened Boards

  datatype Loc = Loc(side: Side, hole: int)

  /** A location the sower can ever stand on: a pit of either side, or the sower's own pot. */
  predicate OnRing(l: Loc, sower: Side, n: int) {
    0 <= l.hole <= n && (l.hole == 0 ==> l.side == sower)
  }

  /** Board::get_next_location: where the next bean goes. */
  function NextLocation(side: Side, hole: int, sower: Side, numHoles: int): (r: Loc)
    requires numHoles >= 1 && 0 <= hole <= numHoles
    ensures 0 <= r.hole <= numHoles
    ensures r.hole == 0 ==> r.side == sower
  {
    if hole == 0 then
      match side
      case North => Loc(South, 1)
      case South => Loc(North, numHoles)
    else
      match side
      case North =>
        if hole == 1 then
          (match sower
           case North => Loc(North, 0)
           case South => Loc(South, 1))
        else Loc(North, hole - 1)
      case South =>
        if hole == numHoles then
          (match sower
           case North => Loc(North, numHoles)
           case South => Loc(South, 0))
        else Loc(South, hole + 1)
  }

  /** The slot a ring location occupies, counted from the sower's first pit. */
  function RingIndex(l: Loc, sower: Side, n: int): (i: nat)
    requires n >= 1 && OnRing(l, sower, n)
    ensures i <= 2 * n
  {
    if l.side == sower then
      if l.hole == 0 then n
      else if sower == South then l.hole - 1
      else n - l.hole
    else if sower == South then 2 * n + 1 - l.hole
    else n + l.hole
  }

  /** Distinct ring locations occupy distinct slots. */
  lemma RingIndexInjective(l1: Loc, l2: Loc, sower: Side, n: int)
    requires n >= 1 && OnRing(l1, sower, n) && OnRing(l2, sower, n)
    requires RingIndex(l1, sower, n) == RingIndex(l2, sower, n)
    ensures l1 == l2
  {
  }

  /** One call of NextLocation advances the ring slot by one, wrapping after 2 * n. */
  lemma RingStep(l: Loc, sower: Side, n: int)
    requires n >= 1 && OnRing(l, sower, n)
    ensures OnRing(NextLocation(l.side, l.hole, sower, n), sower, n)
    ensures var i := RingIndex(l, sower, n);
            RingIndex(NextLocation(l.side, l.hole, sower, n), sower, n) == if i == 2 * n then 0 else i + 1
  {
  }

  /** NextLocation applied `k` times. */
  function Iterate(l: Loc, sower: Side, n: int, k: nat): (r: Loc)
    requires n >= 1 && OnRing(l, sower, n)
    ensures OnRing(r, sower, n)
  {
    if k == 0 then l
    else
      var p := Iterate(l, sower, n, k - 1);
      NextLocation(p.side, p.hole, sower, n)
  }

  /**
   * How many steps after `start` the walk first reaches `q`: 1 for the slot
   * right after `start`, up to 2 * n + 1 for `start` itself.
   */
  function Offset(q: Loc, start: Loc, sower: Side, n: int): (d: int)
    requires n >= 1 && OnRing(q, sower, n) && OnRing(start, sower, n)
    ensures 1 <= d <= 2 * n + 1
  {
    var iq, i0 := RingIndex(q, sower, n), RingIndex(start, sower, n);
    if iq > i0 then iq - i0 else iq - i0 + 2 * n + 1
  }

  lemma OffsetInjective(q1: Loc, q2: Loc, start: Loc, sower: Side, n: int)
    requires n >= 1 && OnRing(q1, sower, n) && OnRing(q2, sower, n) && OnRing(start, sower, n)
    requires Offset(q1, start, sower, n) == Offset(q2, start, sower, n)
    ensures q1 == q2
  {
    RingIndexInjective(q1, q2, sower, n);
  }

  lemma {:induction false} MulAtLeast(a: nat, d: int)
    requires a >= 1 && d >= 1
    ensures a * d >= d
  {
    if a > 1 {
      MulAtLeast(a - 1, d);
      assert a * d == (a - 1) * d + d;
    }
  }

  lemma DivModUnique(x: int, d: int, q: int, r: int)
    requires d > 0 && x == q * d + r && 0 <= r < d
    ensures x / d == q && x % d == r
  {
    var q', r' := x / d, x % d;
    assert x == q' * d + r';
    var e := q - q';
    assert e * d == r' - r by {
      assert q * d - q' * d == (q - q') * d;
    }
    if e > 0 {
      MulAtLeast(e, d);
    }
  }

  lemma DivModSucc(x: nat, d: nat)
    requires d > 0
    ensures (x + 1) % d == if x % d == d - 1 then 0 else x % d + 1
    ensures (x + 1) / d == if x % d == d - 1 then x / d + 1 else x / d
  {
    var q, r := x / d, x % d;
    assert x == q * d + r;
    if r == d - 1 {
      assert x + 1 == (q + 1) * d + 0;
      DivModUnique(x + 1, d, q + 1, 0);
    } else {
      DivModUnique(x + 1, d, q, r + 1);
    }
  }

  /** Moving one slot on advances the offset from `start` by one, wrapping after 2 * n + 1. */
  lemma OffsetStep(p: Loc, start: Loc, sower: Side, n: int)
    requires n >= 1 && OnRing(p, sower, n) && OnRing(start, sower, n)
    ensures OnRing(NextLocation(p.side, p.hole, sower, n), sower, n)
    ensures var d := Offset(p, start, sower, n);
            Offset(NextLocation(p.side, p.hole, sower, n), start, sower, n) == if d == 2 * n + 1 then 1 else d + 1
  {
    RingStep(p, sower, n);
  }

  /** After `k >= 1` steps the walk stands `(k - 1) % (2n + 1) + 1` slots past its start. */
  lemma {:induction false} IterateOffset(start: Loc, sower: Side, n: int, k: nat)
    requires n >= 1 && OnRing(start, sower, n) && k >= 1
    ensures Offset(Iterate(start, sower, n, k), start, sower, n) == (k - 1) % (2 * n + 1) + 1
  {
    var p := Iterate(start, sower, n, k - 1);
    OffsetStep(p, start, sower, n);
    var len := 2 * n + 1;
    if k == 1 {
      assert p == start;
      DivModUnique(0, len, 0, 0);
    } else {
      IterateOffset(start, sower, n, k - 1);
      DivModSucc(k - 2, len);
    }
  }

  /** Iterating NextLocation 2 * numHoles + 1 times from a ring location returns to it. */
  lemma RingPeriod(l: Loc, sower: Side, n: int)
    requires n >= 1 && OnRing(l, sower, n)
    ensures Iterate(l, sower, n, 2 * n + 1) == l
  {
    IterateOffset(l, sower, n, 2 * n + 1);
    DivModUnique(2 * n, 2 * n + 1, 0, 2 * n);
    assert Offset(l, l, sower, n) == 2 * n + 1;
    OffsetInjective(Iterate(l, sower, n, 2 * n + 1), l, l, sower, n);
  }

  /** The board and the hand's position part-way through a sowing. */
  datatype SowState = SowState(board: Board, at: Loc)

  /** One bean dropped at `l`, as sow does it: set_beans(l, beans(l) + 1). */
  function AddBean(b: Board, l: Loc): Board
    requires WellFormed(b)
  {
    SetBeans(b, l.side, l.hole, Beans(b, l.side, l.hole) + 1).board
  }

  /** Dropping a bean at a ring location of a non-negative board adds one bean and touches nothing else. */
  lemma AddBeanFacts(b: Board, l: Loc, sower: Side)
    requires WellFormed(b) && NonNegative(b) && OnRing(l, sower, b.numHoles)
    ensures Total(AddBean(b, l)) == Total(b) + 1 && NonNegative(AddBean(b, l))
    ensures Beans(AddBean(b, l), l.side, l.hole) == Beans(b, l.side, l.hole) + 1
  {
    SetBeansTotal(b, l.side, l.hole, Beans(b, l.side, l.hole) + 1);
  }

  /** Dropping a bean at `l` raises `l` by one and leaves every other ring location alone. */
  lemma AddBeanAt(b: Board, l: Loc, q: Loc, sower: Side)
    requires WellFormed(b) && NonNegative(b) && OnRing(l, sower, b.numHoles) && OnRing(q, sower, b.numHoles)
    ensures Beans(AddBean(b, l), q.side, q.hole) == Beans(b, q.side, q.hole) + (if q == l then 1 else 0)
  {
    BeansNonNegative(b, l.side, l.hole);
  }

  /** The first `steps` iterations of sow's loop, from `start`. */
  function Walk(b: Board, start: Loc, sower: Side, steps: nat): (w: SowState)
    requires WellFormed(b) && OnRing(start, sower, b.numHoles)
    ensures WellFormed(w.board) && w.board.numHoles == b.numHoles && OnRing(w.at, sower, b.numHoles)
  {
    if steps == 0 then SowState(b, start)
    else
      var w := Walk(b, start, sower, steps - 1);
      var next := NextLocation(w.at.side, w.at.hole, sower, b.numHoles);
      SowState(AddBean(w.board, next), next)
  }

  datatype SowOutcome = SowRejected | Sown(board: Board, last: Loc)

  /**
   * Board::sow as a function: pick up every bean of the pit, empty it, and drop
   * the beans one by one along the ring; report where the last one landed.
   */
  function SowResult(b: Board, side: Side, hole: int): (r: SowOutcome)
    requires WellFormed(b)
    ensures r.SowRejected? <==> hole <= 0 || hole > b.numHoles
    ensures r.Sown? ==> WellFormed(r.board) && r.board.numHoles == b.numHoles && OnRing(r.last, side, b.numHoles)
  {
    if hole <= 0 || hole > b.numHoles then SowRejected
    else
      var inHand := Beans(b, side, hole);
      var picked := SetBeans(b, side, hole, 0).board;
      var w := Walk(picked, Loc(side, hole), side, if inHand > 0 then inHand else 0);
      Sown(w.board, w.at)
  }

  /** Board::sow, counting the beans in hand down one at a time. */
  method Sow(b: Board, side: Side, hole: int) returns (r: SowOutcome)
    requires WellFormed(b)
    ensures r == SowResult(b, side, hole)
  {
    if hole <= 0 || hole > b.numHoles {
      return SowRejected;
    }
    var inHand := Beans(b, side, hole);
    var board := SetBeans(b, side, hole, 0).board;
    var at := Loc(side, hole);
    ghost var picked := board;
    ghost var steps: nat := 0;
    while inHand > 0
      invariant SowState(board, at) == Walk(picked, Loc(side, hole), side, steps)
      invariant inHand > 0 ==> inHand + steps == Beans(b, side, hole)
      invariant inHand <= 0 ==> steps == if Beans(b, side, hole) > 0 then Beans(b, side, hole) else 0
    {
      at := NextLocation(at.side, at.hole, side, b.numHoles);
      board := SetBeans(board, at.side, at.hole, Beans(board, at.side, at.hole) + 1).board;
      inHand := inHand - 1;
      steps := steps + 1;
    }
    return Sown(board, at);
  }

  // ---------------------------------------------------------------------------
  // What a walk does to the board

  /** One more step of a walk drops one bean at the next ring location. */
  lemma {:induction false} WalkStep(b: Board, start: Loc, sower: Side, steps: nat)
    requires WellFormed(b) && OnRing(start, sower, b.numHoles) && steps > 0
    ensures Walk(b, start, sower, steps - 1).at == Iterate(start, sower, b.numHoles, steps - 1)
    ensures var w := Walk(b, start, sower, steps - 1);
            var next := Iterate(start, sower, b.numHoles, steps);
            Walk(b, start, sower, steps) == SowState(AddBean(w.board, next), next)
  {
    if steps > 1 {
      WalkStep(b, start, sower, steps - 1);
    }
  }

  /** A walk of k steps stands k locations along the ring. */
  lemma WalkAt(b: Board, start: Loc, sower: Side, steps: nat)
    requires WellFormed(b) && OnRing(start, sower, b.numHoles)
    ensures Walk(b, start, sower, steps).at == Iterate(start, sower, b.numHoles, steps)
  {
    WalkStep(b, start, sower, steps + 1);
  }

  /** Each step of a walk over non-negative counts adds exactly one bean. */
  lemma {:induction false} WalkTotal(b: Board, start: Loc, sower: Side, steps: nat)
    requires WellFormed(b) && NonNegative(b) && OnRing(start, sower, b.numHoles)
    ensures Total(Walk(b, start, sower, steps).board) == Total(b) + steps
    ensures NonNegative(Walk(b, start, sower, steps).board)
  {
    if steps > 0 {
      WalkTotal(b, start, sower, steps - 1);
      WalkStep(b, start, sower, steps);
      AddBeanFacts(Walk(b, start, sower, steps - 1).board, Iterate(start, sower, b.numHoles, steps), sower);
    }
  }

  /** A walk never drops a bean into the opponent's pot. */
  lemma {:induction false} WalkSkipsOpponentPot(b: Board, start: Loc, sower: Side, steps: nat)
    requires WellFormed(b) && OnRing(start, sower, b.numHoles)
    ensures Pot(Walk(b, start, sower, steps).board, Opponent(sower)) == Pot(b, Opponent(sower))
  {
    if steps > 0 {
      WalkSkipsOpponentPot(b, start, sower, steps - 1);
      var w := Walk(b, start, sower, steps - 1);
      assert Beans(w.board, Opponent(sower), 0) == Pot(w.board, Opponent(sower));
    }
  }

  /** The sower's pot only grows during a walk, and a walk ending there has just added to it. */
  lemma {:induction false} WalkOwnPot(b: Board, start: Loc, sower: Side, steps: nat)
    requires WellFormed(b) && NonNegative(b) && OnRing(start, sower, b.numHoles)
    ensures Pot(Walk(b, start, sower, steps).board, sower) >= Pot(b, sower)
    ensures steps > 0 && Walk(b, start, sower, steps).at.hole == 0 ==>
              Pot(Walk(b, start, sower, steps).board, sower) > Pot(b, sower)
  {
    if steps > 0 {
      WalkOwnPot(b, start, sower, steps - 1);
      var w := Walk(b, start, sower, steps - 1);
      assert Beans(w.board, sower, 0) == Pot(w.board, sower);
    }
  }

  /** How many of the first m steps of a walk round a ring of `len` slots land `off` slots past the start. */
  function Tally(m: nat, len: nat, off: int): (t: nat)
    requires len > 0
  {
    m / len + (if off <= m % len then 1 else 0)
  }

  /** The m-th step adds one to the tally of exactly the slot it lands on. */
  lemma TallyStep(m: nat, len: nat, off: int)
    requires len > 0 && 1 <= off <= len && m > 0
    ensures Tally(m, len, off) == Tally(m - 1, len, off) + (if off == (m - 1) % len + 1 then 1 else 0)
  {
    DivModSucc(m - 1, len);
  }

  /**
   * After `m` steps every ring location `q` has received one bean per full lap
   * (m / (2n + 1)) plus one more when its offset from `start` is within the
   * unfinished lap.
   */
  lemma {:induction false} WalkDistribution(b: Board, start: Loc, sower: Side, m: nat, q: Loc)
    requires WellFormed(b) && NonNegative(b)
    requires OnRing(start, sower, b.numHoles) && OnRing(q, sower, b.numHoles)
    ensures Beans(Walk(b, start, sower, m).board, q.side, q.hole)
            == Beans(b, q.side, q.hole) + Tally(m, 2 * b.numHoles + 1, Offset(q, start, sower, b.numHoles))
  {
    var len := 2 * b.numHoles + 1;
    if m > 0 {
      var off := Offset(q, start, sower, b.numHoles);
      var hit := q == Iterate(start, sower, b.numHoles, m);
      var prev := Beans(Walk(b, start, sower, m - 1).board, q.side, q.hole);
      var now := Beans(Walk(b, start, sower, m).board, q.side, q.hole);
      assert now == prev + (if hit then 1 else 0) by {
        WalkStepAt(b, start, sower, m, q);
      }
      assert prev == Beans(b, q.side, q.hole) + Tally(m - 1, len, off) by {
        WalkDistribution(b, start, sower, m - 1, q);
      }
      assert Tally(m, len, off) == Tally(m - 1, len, off) + (if hit then 1 else 0) by {
        StepTarget(start, sower, b.numHoles, m, q);
        TallyStep(m, len, off);
      }
    } else {
      DivModUnique(0, len, 0, 0);
    }
  }

  /** The m-th step of a walk adds one bean at the m-th location and nowhere else on the ring. */
  lemma WalkStepAt(b: Board, start: Loc, sower: Side, m: nat, q: Loc)
    requires WellFormed(b) && NonNegative(b) && m > 0
    requires OnRing(start, sower, b.numHoles) && OnRing(q, sower, b.numHoles)
    ensures Beans(Walk(b, start, sower, m).board, q.side, q.hole)
            == Beans(Walk(b, start, sower, m - 1).board, q.side, q.hole)
               + (if q == Iterate(start, sower, b.numHoles, m) then 1 else 0)
  {
    WalkStep(b, start, sower, m);
    WalkTotal(b, start, sower, m - 1);
    AddBeanAt(Walk(b, start, sower, m - 1).board, Iterate(start, sower, b.numHoles, m), q, sower);
  }

  /** The m-th step lands on `q` exactly when `q` lies (m - 1) % (2n + 1) + 1 slots past the start. */
  lemma StepTarget(start: Loc, sower: Side, n: int, m: nat, q: Loc)
    requires n >= 1 && m > 0 && OnRing(start, sower, n) && OnRing(q, sower, n)
    ensures q == Iterate(start, sower, n, m) <==> Offset(q, start, sower, n) == (m - 1) % (2 * n + 1) + 1
  {
    IterateOffset(start, sower, n, m);
    var next := Iterate(start, sower, n, m);
    if Offset(q, start, sower, n) == Offset(next, start, sower, n) {
      OffsetInjective(q, next, start, sower, n);
    }
  }

  // ---------------------------------------------------------------------------
  // Properties of sow

  /** sow over non-negative counts moves beans but neither creates nor destroys one. */
  lemma SowConserves(b: Board, side: Side, hole: int)
    requires WellFormed(b) && NonNegative(b) && 1 <= hole <= b.numHoles
    ensures var r := SowResult(b, side, hole);
            NonNegative(r.board) && Total(r.board) == Total(b)
  {
    var picked := SetBeans(b, side, hole, 0).board;
    SetBeansTotal(b, side, hole, 0);
    BeansNonNegative(b, side, hole);
    WalkTotal(picked, Loc(side, hole), side, Beans(b, side, hole));
  }

  /** sow never changes the opponent's pot. */
  lemma SowSkipsOpponentPot(b: Board, side: Side, hole: int)
    requires WellFormed(b) && 1 <= hole <= b.numHoles
    ensures Pot(SowResult(b, side, hole).board, Opponent(side)) == Pot(b, Opponent(side))
  {
    var inHand := Beans(b, side, hole);
    var picked := SetBeans(b, side, hole, 0).board;
    assert Beans(picked, Opponent(side), 0) == Beans(b, Opponent(side), 0);
    WalkSkipsOpponentPot(picked, Loc(side, hole), side, if inHand > 0 then inHand else 0);
  }

  /** Whatever hole is asked for, sow leaves the opponent's pot as it was. */
  lemma SowSkipsOpponentPotAll(b: Board, side: Side, hole: int)
    requires WellFormed(b)
    ensures 1 <= hole <= b.numHoles ==> Pot(SowResult(b, side, hole).board, Opponent(side)) == Pot(b, Opponent(side))
  {
    if 1 <= hole <= b.numHoles {
      SowSkipsOpponentPot(b, side, hole);
    }
  }

  /** Sowing an empty pit changes nothing and ends where it started. */
  lemma SowEmptyPit(b: Board, side: Side, hole: int)
    requires WellFormed(b) && 1 <= hole <= b.numHoles && Beans(b, side, hole) == 0
    ensures SowResult(b, side, hole) == Sown(b, Loc(side, hole))
  {
    var picked := SetBeans(b, side, hole, 0).board;
    assert Row(b, side)[hole - 1 := 0] == Row(b, side);
  }

  /** A sow that ends in a pot ends in the sower's own pot, which has grown. */
  lemma SowEndsInOwnPot(b: Board, side: Side, hole: int)
    requires WellFormed(b) && NonNegative(b) && 1 <= hole <= b.numHoles
    requires SowResult(b, side, hole).last.hole == 0
    ensures SowResult(b, side, hole).last.side == side
    ensures Pot(SowResult(b, side, hole).board, side) > Pot(b, side)
  {
    var inHand := Beans(b, side, hole);
    var picked := SetBeans(b, side, hole, 0).board;
    assert Pot(picked, side) == Beans(picked, side, 0) == Beans(b, side, 0);
    WalkOwnPot(picked, Loc(side, hole), side, inHand);
  }

  /**
   * The exact contents of every ring location after sow: the source pit starts
   * from 0, every other location from its old count, and with k beans in hand
   * each gets k / (2n + 1) beans plus one if it lies within the last k % (2n + 1) steps.
   */
  lemma SowDistribution(b: Board, side: Side, hole: int, q: Loc)
    requires WellFormed(b) && NonNegative(b) && 1 <= hole <= b.numHoles
    requires OnRing(q, side, b.numHoles)
    ensures var n, k, src := b.numHoles, Beans(b, side, hole), Loc(side, hole);
            Beans(SowResult(b, side, hole).board, q.side, q.hole)
            == (if q == src then 0 else Beans(b, q.side, q.hole)) + k / (2 * n + 1)
               + (if Offset(q, src, side, n) <= k % (2 * n + 1) then 1 else 0)
  {
    var picked := SetBeans(b, side, hole, 0).board;
    WalkDistribution(picked, Loc(side, hole), side, Beans(b, side, hole), q);
  }

  /** Where the last bean lands: k steps along the ring, or the source itself when k == 0. */
  lemma SowLastLocation(b: Board, side: Side, hole: int)
    requires WellFormed(b) && NonNegative(b) && 1 <= hole <= b.numHoles
    ensures var n, k, src := b.numHoles, Beans(b, side, hole), Loc(side, hole);
            var last := SowResult(b, side, hole).last;
            (k == 0 ==> last == src) &&
            (k > 0 ==> Offset(last, src, side, n) == (k - 1) % (2 * n + 1) + 1)
  {
    var k := Beans(b, side, hole);
    BeansNonNegative(b, side, hole);
    var picked := SetBeans(b, side, hole, 0).board;
    WalkAt(picked, Loc(side, hole), side, k);
    if k > 0 {
      IterateOffset(Loc(side, hole), side, b.numHoles, k);
    }
  }
}
