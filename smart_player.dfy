/**
 * SmartPlayer (src/smart_player.rs): a fixed-depth minimax search.  The
 * search is specified by functions on board values (`Finished`,
 * `Evaluation`) and carried out by methods that follow the source's loops
 * (`CollectFinished`, `Evaluate`, `ChooseMove`), each proved equal to its
 * specification.
 *
 * Every board the search looks at is `Good`: well formed with no negative
 * count.  That is what makes a chain of extra turns finite, since each one
 * drops a bean into the mover's own pot.
 */
module SmartPlayer {
  import opened Wrappers
  import opened Boards
  import opened Sowing
  import BadPlayer

  /** i32::MAX and i32::MIN, the scores of a won and a lost game. */
  const I32Max: int := 0x7fff_ffff
  const I32Min: int := -0x8000_0000

  /** How many turns ahead choose_move looks. */
  const LookAhead: nat := 5

  /** BoardEval: a score (positive is good for South) and the hole that leads to it. */
  datatype BoardEval = BoardEval(eval: int, bestMove: int)

  predicate Good(b: Board) {
    WellFormed(b) && NonNegative(b)
  }

  // ---------------------------------------------------------------------------
  // One sowing, with its capture

  /** The board after one legal sowing and the hole where it ended (0: the mover's pot). */
  datatype Played = Played(board: Board, endHole: int)

  /**
   * A capture happens when the last bean lands in one of the mover's own pits,
   * that pit now holds exactly one bean, and the pit opposite is not empty.
   */
  predicate CaptureApplies(b: Board, side: Side, last: Loc)
    requires WellFormed(b)
  {
    last.hole != 0 && last.side == side
    && Beans(b, side, last.hole) == 1 && Beans(b, Opponent(side), last.hole) != 0
  }

  /** Sow pit `hole` of `side`, then carry out a capture if one applies. */
  function PlayHole(ob: Board, side: Side, hole: int): (p: Played)
    requires WellFormed(ob) && 1 <= hole <= ob.numHoles
    ensures WellFormed(p.board) && p.board.numHoles == ob.numHoles
  {
    var sown := SowResult(ob, side, hole);
    var b := sown.board;
    var last := sown.last;
    if CaptureApplies(b, side, last) then
      var kept := MoveToPot(b, side, last.hole, side).board;
      Played(MoveToPot(kept, Opponent(side), last.hole, side).board, last.hole)
    else
      Played(b, last.hole)
  }

  /** A sowing with its capture keeps counts non-negative and neither creates nor destroys a bean. */
  lemma PlayHoleConserves(ob: Board, side: Side, hole: int)
    requires Good(ob) && 1 <= hole <= ob.numHoles
    ensures Good(PlayHole(ob, side, hole).board)
    ensures Total(PlayHole(ob, side, hole).board) == Total(ob)
  {
    var sown := SowResult(ob, side, hole);
    SowConserves(ob, side, hole);
    if CaptureApplies(sown.board, side, sown.last) {
      var kept := MoveToPot(sown.board, side, sown.last.hole, side).board;
      MoveToPotConserves(sown.board, side, sown.last.hole, side);
      MoveToPotConserves(kept, Opponent(side), sown.last.hole, side);
    }
  }

  /** A sowing that ends in a pot ends in the mover's own pot, has made it grow, and captures nothing. */
  lemma PlayHoleExtraTurn(ob: Board, side: Side, hole: int)
    requires Good(ob) && 1 <= hole <= ob.numHoles
    requires PlayHole(ob, side, hole).endHole == 0
    ensures PlayHole(ob, side, hole).board == SowResult(ob, side, hole).board
    ensures SowResult(ob, side, hole).last == Loc(side, 0)
    ensures Pot(PlayHole(ob, side, hole).board, side) > Pot(ob, side)
  {
    SowEndsInOwnPot(ob, side, hole);
  }

  /**
   * The capture rule: when it applies, the mover's landing pit and the pit
   * opposite it are emptied into the mover's pot and the opponent's pot is left
   * alone; when it does not, the sown board is kept as it is.
   */
  lemma PlayHoleCapture(ob: Board, side: Side, hole: int)
    requires WellFormed(ob) && 1 <= hole <= ob.numHoles
    ensures var sown := SowResult(ob, side, hole);
            var p := PlayHole(ob, side, hole);
            var e := sown.last.hole;
            p.endHole == e
            && (CaptureApplies(sown.board, side, sown.last) ==>
                  Beans(p.board, side, e) == 0 && Beans(p.board, Opponent(side), e) == 0
                  && Pot(p.board, side) == Pot(sown.board, side) + 1 + Beans(sown.board, Opponent(side), e)
                  && Pot(p.board, Opponent(side)) == Pot(sown.board, Opponent(side))
                  && (forall t: Side, h :: (h != e || h == 0) && (t != side || h != 0) ==>
                        Beans(p.board, t, h) == Beans(sown.board, t, h)))
            && (!CaptureApplies(sown.board, side, sown.last) ==> p.board == sown.board)
  {
  }

  // ---------------------------------------------------------------------------
  // Every position a turn can reach

  /** A board on the search's stack and the first hole of the turn that reached it (None at the root). */
  datatype Reached = Reached(board: Board, source: Option<int>)

  /** A position where the turn is over, credited to the turn's first hole. */
  datatype Candidate = Candidate(board: Board, source: int)

  /** What one board's legal holes lead to: finished turns, and positions where the mover goes again. */
  datatype Expansion = Expansion(done: seq<Candidate>, again: seq<Reached>)

  /** The for loop over holes 1..hole of one popped board, in the source's order. */
  function Expand(ob: Board, side: Side, src: Option<int>, hole: int): (e: Expansion)
    requires WellFormed(ob) && 0 <= hole <= ob.numHoles
  {
    if hole == 0 then Expansion([], [])
    else
      var e := Expand(ob, side, src, hole - 1);
      if Beans(ob, side, hole) > 0 then
        var p := PlayHole(ob, side, hole);
        var first := src.GetOr(hole);
        if p.endHole == 0 then Expansion(e.done, e.again + [Reached(p.board, Some(first))])
        else Expansion(e.done + [Candidate(p.board, first)], e.again)
      else e
  }

  /** The beans not yet in the mover's pot: each extra turn lowers it. */
  function Measure(b: Board, side: Side): nat
    requires NonNegative(b)
  {
    PotAtMostTotal(b, side);
    Total(b) - Pot(b, side)
  }

  predicate AllGood(stack: seq<Reached>) {
    forall i :: 0 <= i < |stack| ==> Good(stack[i].board)
  }

  predicate AllGoodCandidates(cands: seq<Candidate>) {
    forall i :: 0 <= i < |cands| ==> Good(cands[i].board)
  }

  /** Every board of an expansion of `ob` is good, and every extra-turn board has a smaller measure. */
  predicate ExpansionGood(e: Expansion, ob: Board, side: Side)
    requires NonNegative(ob)
  {
    AllGood(e.again) && AllGoodCandidates(e.done)
    && forall i :: 0 <= i < |e.again| ==> Measure(e.again[i].board, side) < Measure(ob, side)
  }

  lemma AgainGood(e: Expansion, ob: Board, side: Side, r: Reached)
    requires NonNegative(ob) && ExpansionGood(e, ob, side)
    requires Good(r.board) && Measure(r.board, side) < Measure(ob, side)
    ensures ExpansionGood(Expansion(e.done, e.again + [r]), ob, side)
  {
    var again := e.again + [r];
    assert forall i :: 0 <= i < |e.again| ==> again[i] == e.again[i];
  }

  lemma DoneGood(e: Expansion, ob: Board, side: Side, c: Candidate)
    requires NonNegative(ob) && ExpansionGood(e, ob, side) && Good(c.board)
    ensures ExpansionGood(Expansion(e.done + [c], e.again), ob, side)
  {
    var done := e.done + [c];
    assert forall i :: 0 <= i < |e.done| ==> done[i] == e.done[i];
  }

  /** Every board an expansion produces is good, and every extra-turn board has a smaller measure. */
  lemma {:induction false} ExpandGood(ob: Board, side: Side, src: Option<int>, hole: int)
    requires Good(ob) && 0 <= hole <= ob.numHoles
    ensures ExpansionGood(Expand(ob, side, src, hole), ob, side)
  {
    if hole > 0 {
      var e := Expand(ob, side, src, hole - 1);
      ExpandGood(ob, side, src, hole - 1);
      if Beans(ob, side, hole) > 0 {
        var p := PlayHole(ob, side, hole);
        PlayHoleConserves(ob, side, hole);
        if p.endHole == 0 {
          PlayHoleExtraTurn(ob, side, hole);
          AgainGood(e, ob, side, Reached(p.board, Some(src.GetOr(hole))));
        } else {
          DoneGood(e, ob, side, Candidate(p.board, src.GetOr(hole)));
        }
      }
    }
  }

  /** One more than the largest measure on the stack; 0 for an empty stack. */
  function Bound(stack: seq<Reached>, side: Side): nat
    requires AllGood(stack)
  {
    if stack == [] then 0
    else
      var top := Measure(stack[|stack| - 1].board, side) + 1;
      var rest := Bound(stack[..|stack| - 1], side);
      if top > rest then top else rest
  }

  lemma {:induction false} BoundBelow(stack: seq<Reached>, side: Side, m: nat)
    requires AllGood(stack)
    requires forall i :: 0 <= i < |stack| ==> Measure(stack[i].board, side) < m
    ensures Bound(stack, side) <= m
  {
    if stack != [] {
      BoundBelow(stack[..|stack| - 1], side, m);
    }
  }

  /**
   * Every finished position of the turn from `ob`: the ones its holes reach
   * directly, then those of the extra-turn positions, the last one pushed first.
   */
  function Finished(ob: Board, side: Side, src: Option<int>): (r: seq<Candidate>)
    requires Good(ob)
    ensures AllGoodCandidates(r)
    decreases Measure(ob, side) + 1, 0, 0
  {
    var e := Expand(ob, side, src, ob.numHoles);
    ExpandGood(ob, side, src, ob.numHoles);
    assert ExpansionGood(e, ob, side);
    BoundBelow(e.again, side, Measure(ob, side));
    e.done + Drain(e.again, side)
  }

  /** The finished positions of a whole stack, popped from the end as Vec::pop does. */
  function Drain(stack: seq<Reached>, side: Side): (r: seq<Candidate>)
    requires AllGood(stack)
    ensures AllGoodCandidates(r)
    decreases Bound(stack, side), 1, |stack|
  {
    if stack == [] then []
    else
      var top := stack[|stack| - 1];
      Finished(top.board, side, top.source) + Drain(stack[..|stack| - 1], side)
  }

  /** How many boards popping the stack empty visits. */
  ghost function Nodes(ob: Board, side: Side, src: Option<int>): nat
    requires Good(ob)
    decreases Measure(ob, side) + 1, 0, 0
  {
    var e := Expand(ob, side, src, ob.numHoles);
    ExpandGood(ob, side, src, ob.numHoles);
    assert ExpansionGood(e, ob, side);
    BoundBelow(e.again, side, Measure(ob, side));
    1 + NodesDrain(e.again, side)
  }

  ghost function NodesDrain(stack: seq<Reached>, side: Side): nat
    requires AllGood(stack)
    decreases Bound(stack, side), 1, |stack|
  {
    if stack == [] then 0
    else
      var top := stack[|stack| - 1];
      Nodes(top.board, side, top.source) + NodesDrain(stack[..|stack| - 1], side)
  }

  /** One board's finished positions: its direct ones, then those of its extra-turn positions. */
  lemma FinishedUnfold(ob: Board, side: Side, src: Option<int>)
    requires Good(ob)
    ensures var e := Expand(ob, side, src, ob.numHoles);
            AllGood(e.again)
            && Finished(ob, side, src) == e.done + Drain(e.again, side)
            && Nodes(ob, side, src) == 1 + NodesDrain(e.again, side)
  {
    ExpandGood(ob, side, src, ob.numHoles);
  }

  /** A non-empty stack drains its top first, then the rest. */
  lemma DrainUnfold(stack: seq<Reached>, side: Side)
    requires AllGood(stack) && |stack| > 0
    ensures var top := stack[|stack| - 1];
            var rest := stack[..|stack| - 1];
            AllGood(rest) && Good(top.board)
            && Drain(stack, side) == Finished(top.board, side, top.source) + Drain(rest, side)
            && NodesDrain(stack, side) == Nodes(top.board, side, top.source) + NodesDrain(rest, side)
  {
  }

  /** Concatenation is associative. */
  lemma ConcatAssoc<T>(a: seq<T>, b: seq<T>, c: seq<T>)
    ensures (a + b) + c == a + (b + c)
  {
  }

  /** Pushing `b` on top of `a` means draining `b` first. */
  lemma {:induction false} DrainAppend(a: seq<Reached>, b: seq<Reached>, side: Side)
    requires AllGood(a) && AllGood(b)
    ensures AllGood(a + b)
    ensures Drain(a + b, side) == Drain(b, side) + Drain(a, side)
    ensures NodesDrain(a + b, side) == NodesDrain(a, side) + NodesDrain(b, side)
    decreases |b|
  {
    if b != [] {
      var ab := a + b;
      var init := b[..|b| - 1];
      var top := b[|b| - 1];
      assert ab[..|ab| - 1] == a + init && ab[|ab| - 1] == top;
      DrainAppend(a, init, side);
      DrainUnfold(ab, side);
      DrainUnfold(b, side);
      ConcatAssoc(Finished(top.board, side, top.source), Drain(init, side), Drain(a, side));
    } else {
      assert a + b == a;
    }
  }

  // ---------------------------------------------------------------------------
  // Which hole a finished position is credited to

  /** The credit rule: the root's own legal hole, or the hole that started the chain. */
  predicate SourceOk(ob: Board, side: Side, src: Option<int>, x: int)
    requires WellFormed(ob)
  {
    match src
    case Some(first) => x == first
    case None => LegalHole(ob, side, x)
  }

  predicate ExpansionSources(e: Expansion, ob: Board, side: Side, src: Option<int>)
    requires WellFormed(ob)
  {
    (forall i :: 0 <= i < |e.done| ==> SourceOk(ob, side, src, e.done[i].source))
    && forall i :: 0 <= i < |e.again| ==>
         e.again[i].source.Some? && SourceOk(ob, side, src, e.again[i].source.value)
  }

  lemma SourcesAgain(e: Expansion, ob: Board, side: Side, src: Option<int>, r: Reached)
    requires WellFormed(ob) && ExpansionSources(e, ob, side, src)
    requires r.source.Some? && SourceOk(ob, side, src, r.source.value)
    ensures ExpansionSources(Expansion(e.done, e.again + [r]), ob, side, src)
  {
    var again := e.again + [r];
    assert forall i :: 0 <= i < |e.again| ==> again[i] == e.again[i];
  }

  lemma SourcesDone(e: Expansion, ob: Board, side: Side, src: Option<int>, c: Candidate)
    requires WellFormed(ob) && ExpansionSources(e, ob, side, src) && SourceOk(ob, side, src, c.source)
    ensures ExpansionSources(Expansion(e.done + [c], e.again), ob, side, src)
  {
    var done := e.done + [c];
    assert forall i :: 0 <= i < |e.done| ==> done[i] == e.done[i];
  }

  /** Each hole an expansion credits satisfies the credit rule. */
  lemma {:induction false} ExpandSources(ob: Board, side: Side, src: Option<int>, hole: int)
    requires WellFormed(ob) && 0 <= hole <= ob.numHoles
    ensures ExpansionSources(Expand(ob, side, src, hole), ob, side, src)
  {
    if hole > 0 {
      var e := Expand(ob, side, src, hole - 1);
      ExpandSources(ob, side, src, hole - 1);
      if Beans(ob, side, hole) > 0 {
        var p := PlayHole(ob, side, hole);
        var first := src.GetOr(hole);
        if p.endHole == 0 {
          SourcesAgain(e, ob, side, src, Reached(p.board, Some(first)));
        } else {
          SourcesDone(e, ob, side, src, Candidate(p.board, first));
        }
      }
    }
  }

  predicate CreditedTo(cands: seq<Candidate>, first: int) {
    forall i :: 0 <= i < |cands| ==> cands[i].source == first
  }

  predicate CreditedLegal(cands: seq<Candidate>, b: Board, side: Side)
    requires WellFormed(b)
  {
    forall i :: 0 <= i < |cands| ==> LegalHole(b, side, cands[i].source)
  }

  lemma CreditedConcat(a: seq<Candidate>, c: seq<Candidate>, first: int)
    requires CreditedTo(a, first) && CreditedTo(c, first)
    ensures CreditedTo(a + c, first)
  {
  }

  lemma CreditedLegalConcat(a: seq<Candidate>, c: seq<Candidate>, b: Board, side: Side)
    requires WellFormed(b) && CreditedLegal(a, b, side) && CreditedLegal(c, b, side)
    ensures CreditedLegal(a + c, b, side)
  {
  }

  /** Every position finished after a chain started by hole `first` is credited to `first`. */
  lemma {:induction false} FinishedSources(ob: Board, side: Side, first: int)
    requires Good(ob)
    ensures CreditedTo(Finished(ob, side, Some(first)), first)
    decreases Measure(ob, side) + 1, 0, 0
  {
    var e := Expand(ob, side, Some(first), ob.numHoles);
    ExpandGood(ob, side, Some(first), ob.numHoles);
    assert ExpansionGood(e, ob, side);
    BoundBelow(e.again, side, Measure(ob, side));
    ExpandSources(ob, side, Some(first), ob.numHoles);
    assert forall j :: 0 <= j < |e.again| ==> e.again[j].source == Some(first);
    DrainSources(e.again, side, first);
    CreditedConcat(e.done, Drain(e.again, side), first);
  }

  /** Draining a stack whose chains all started at `first` finishes positions credited to `first`. */
  lemma {:induction false} DrainSources(stack: seq<Reached>, side: Side, first: int)
    requires AllGood(stack)
    requires forall j :: 0 <= j < |stack| ==> stack[j].source == Some(first)
    ensures CreditedTo(Drain(stack, side), first)
    decreases Bound(stack, side), 1, |stack|
  {
    if stack != [] {
      var top := stack[|stack| - 1];
      FinishedSources(top.board, side, first);
      DrainSources(stack[..|stack| - 1], side, first);
      CreditedConcat(Finished(top.board, side, top.source), Drain(stack[..|stack| - 1], side), first);
    }
  }

  /** Draining chains that each started at a legal hole of `b` finishes positions credited to legal holes. */
  lemma {:induction false} DrainLegal(stack: seq<Reached>, side: Side, b: Board)
    requires AllGood(stack) && WellFormed(b)
    requires forall j :: 0 <= j < |stack| ==> stack[j].source.Some? && LegalHole(b, side, stack[j].source.value)
    ensures CreditedLegal(Drain(stack, side), b, side)
  {
    if stack != [] {
      var top := stack[|stack| - 1];
      var f := Finished(top.board, side, top.source);
      FinishedSources(top.board, side, top.source.value);
      assert CreditedLegal(f, b, side) by {
        assert forall i :: 0 <= i < |f| ==> f[i].source == top.source.value;
      }
      DrainLegal(stack[..|stack| - 1], side, b);
      CreditedLegalConcat(f, Drain(stack[..|stack| - 1], side), b, side);
    }
  }

  /** Every position the search finishes from the root is credited to a legal hole of the root. */
  lemma RootSources(b: Board, side: Side)
    requires Good(b)
    ensures CreditedLegal(Finished(b, side, None), b, side)
  {
    var e := Expand(b, side, None, b.numHoles);
    ExpandGood(b, side, None, b.numHoles);
    assert ExpansionGood(e, b, side);
    ExpandSources(b, side, None, b.numHoles);
    DrainLegal(e.again, side, b);
    CreditedLegalConcat(e.done, Drain(e.again, side), b, side);
  }

  /** A side without a legal move finishes no position at all. */
  lemma {:induction false} ExpandNoMoves(ob: Board, side: Side, src: Option<int>, hole: int)
    requires WellFormed(ob) && 0 <= hole <= ob.numHoles && !HasLegalMove(ob, side)
    ensures Expand(ob, side, src, hole) == Expansion([], [])
  {
    if hole > 0 {
      ExpandNoMoves(ob, side, src, hole - 1);
    }
  }

  // ---------------------------------------------------------------------------
  // Scoring

  /** Rust's `/` on integers: the quotient truncated toward zero. */
  function TruncDiv(a: int, d: int): (q: int)
    requires d > 0
    ensures a >= 0 ==> 0 <= a - q * d < d
    ensures a < 0 ==> -d < a - q * d <= 0
  {
    if a >= 0 then a / d else -((-a) / d)
  }

  /**
   * The score of a position where `side` has no finished move: a win for
   * whoever holds more than half of all beans in play and in the pots.
   */
  function TerminalScore(b: Board, side: Side): int
    requires WellFormed(b)
  {
    var mine := Beans(b, side, 0);
    var half := TruncDiv(Total(b), 2);
    if mine == half then 0
    else if mine > half then (if side == South then I32Max else I32Min)
    else (if side == South then I32Min else I32Max)
  }

  /**
   * With an even number of beans (every game board has one) the terminal score
   * names the side that ends with more beans once the rest are swept to the
   * other side, and 0 for a tie.
   */
  lemma TerminalVerdict(b: Board, side: Side)
    requires WellFormed(b) && Total(b) % 2 == 0
    ensures var mine := Pot(b, side);
            var theirs := Total(b) - mine;
            var south := if side == South then mine else theirs;
            var north := if side == South then theirs else mine;
            (TerminalScore(b, side) == I32Max <==> south > north)
            && (TerminalScore(b, side) == I32Min <==> south < north)
            && (TerminalScore(b, side) == 0 <==> south == north)
  {
    var t := Total(b);
    assert TruncDiv(t, 2) * 2 == t;
  }

  /** `x` is strictly better than `y` for `side`: higher for South, lower for North. */
  predicate Better(x: int, y: int, side: Side) {
    if side == South then x > y else x < y
  }

  /** The selection loop: keep `best` unless a later evaluation is strictly better. */
  function Scan(best: BoardEval, rest: seq<BoardEval>, side: Side): BoardEval
    decreases |rest|
  {
    if rest == [] then best
    else Scan(if Better(rest[0].eval, best.eval, side) then rest[0] else best, rest[1..], side)
  }

  /** Start from the last evaluation (Vec::pop), then scan the others in order. */
  function PickBest(evals: seq<BoardEval>, side: Side): BoardEval
    requires |evals| > 0
  {
    Scan(evals[|evals| - 1], evals[..|evals| - 1], side)
  }

  /**
   * Scan returns an evaluation nothing beats: either the starting one, when
   * nothing is strictly better, or the first of the strictly better ones
   * that is best.
   */
  lemma {:induction false} ScanOutcome(best: BoardEval, rest: seq<BoardEval>, side: Side)
    ensures var r := Scan(best, rest, side);
            !Better(best.eval, r.eval, side)
            && (forall i :: 0 <= i < |rest| ==> !Better(rest[i].eval, r.eval, side))
            && ((r == best && forall i :: 0 <= i < |rest| ==> !Better(rest[i].eval, best.eval, side))
                || exists j :: 0 <= j < |rest| && r == rest[j] && Better(r.eval, best.eval, side)
                               && forall i :: 0 <= i < j ==> Better(r.eval, rest[i].eval, side))
    decreases |rest|
  {
    if rest != [] {
      var x := rest[0];
      var next := if Better(x.eval, best.eval, side) then x else best;
      var tail := rest[1..];
      ScanOutcome(next, tail, side);
      var r := Scan(best, rest, side);
      assert r == Scan(next, tail, side);
      forall i | 0 <= i < |rest|
        ensures !Better(rest[i].eval, r.eval, side)
      {
        if i > 0 { assert rest[i] == tail[i - 1]; }
      }
      if r == next && forall i :: 0 <= i < |tail| ==> !Better(tail[i].eval, next.eval, side) {
        if next == x && Better(x.eval, best.eval, side) {
          assert r == rest[0];
        }
      } else {
        var j :| 0 <= j < |tail| && r == tail[j] && Better(r.eval, next.eval, side)
                 && forall i :: 0 <= i < j ==> Better(r.eval, tail[i].eval, side);
        assert r == rest[j + 1];
        forall i | 0 <= i < j + 1
          ensures Better(r.eval, rest[i].eval, side)
        {
          if i > 0 { assert rest[i] == tail[i - 1]; }
        }
      }
    }
  }

  /**
   * The evaluation choose_move's search keeps: one nothing else beats; the
   * last one when nothing beats it, and otherwise the earliest of the best.
   */
  lemma PickBestChoice(evals: seq<BoardEval>, side: Side)
    requires |evals| > 0
    ensures var r := PickBest(evals, side);
            var last := evals[|evals| - 1];
            (exists i :: 0 <= i < |evals| && r == evals[i])
            && (forall i :: 0 <= i < |evals| ==> !Better(evals[i].eval, r.eval, side))
            && ((forall i :: 0 <= i < |evals| ==> !Better(evals[i].eval, last.eval, side)) ==> r == last)
            && ((exists i :: 0 <= i < |evals| && Better(evals[i].eval, last.eval, side)) ==>
                  exists j :: 0 <= j < |evals| - 1 && r == evals[j]
                              && forall i :: 0 <= i < j ==> Better(r.eval, evals[i].eval, side))
  {
    var last := evals[|evals| - 1];
    var rest := evals[..|evals| - 1];
    ScanOutcome(last, rest, side);
    var r := PickBest(evals, side);
    assert forall i :: 0 <= i < |rest| ==> rest[i] == evals[i];
    if r == last && forall i :: 0 <= i < |rest| ==> !Better(rest[i].eval, last.eval, side) {
      assert r == evals[|evals| - 1];
    } else {
      var j :| 0 <= j < |rest| && r == rest[j] && Better(r.eval, last.eval, side)
               && forall i :: 0 <= i < j ==> Better(r.eval, rest[i].eval, side);
      assert r == evals[j];
    }
  }

  // ---------------------------------------------------------------------------
  // The search

  /**
   * evaluate_board: at depth 0 the pot difference; otherwise the best score
   * for `side` over every finished position of its turn, each scored for the
   * opponent one level down; a terminal score when the turn finishes nowhere.
   */
  function Evaluation(b: Board, depth: nat, side: Side): BoardEval
    requires Good(b)
    decreases depth, 1, 0
  {
    if depth == 0 then BoardEval(Beans(b, South, 0) - Beans(b, North, 0), 1)
    else
      var evals := Scores(Finished(b, side, None), depth - 1, Opponent(side));
      if |evals| == 0 then BoardEval(TerminalScore(b, side), -1)
      else PickBest(evals, side)
  }

  /** The evaluation of each finished position, credited to its first hole. */
  function Scores(cands: seq<Candidate>, depth: nat, side: Side): (r: seq<BoardEval>)
    requires AllGoodCandidates(cands)
    ensures |r| == |cands|
    decreases depth + 1, 0, |cands|
  {
    if cands == [] then []
    else
      var last := cands[|cands| - 1];
      Scores(cands[..|cands| - 1], depth, side) + [BoardEval(Evaluation(last.board, depth, side).eval, last.source)]
  }

  /** Scores keeps the order of the finished positions, and scores each one level down. */
  lemma {:induction false} ScoresAt(cands: seq<Candidate>, depth: nat, side: Side)
    requires AllGoodCandidates(cands)
    ensures forall i :: 0 <= i < |cands| ==>
              Scores(cands, depth, side)[i] == BoardEval(Evaluation(cands[i].board, depth, side).eval, cands[i].source)
  {
    if cands != [] {
      var init := cands[..|cands| - 1];
      ScoresAt(init, depth, side);
      var r := Scores(cands, depth, side);
      forall i | 0 <= i < |init|
        ensures r[i] == BoardEval(Evaluation(cands[i].board, depth, side).eval, cands[i].source)
      {
        assert init[i] == cands[i];
        assert r[i] == Scores(init, depth, side)[i];
      }
    }
  }

  /** With no depth left the score is South's pot less North's, unsaturated, credited to hole 1. */
  lemma EvaluationStatic(b: Board, side: Side)
    requires Good(b)
    ensures Evaluation(b, 0, side) == BoardEval(Pot(b, South) - Pot(b, North), 1)
  {
    assert Beans(b, South, 0) == Pot(b, South) && Beans(b, North, 0) == Pot(b, North);
  }

  /** A side without a legal move gets the terminal score and hole -1. */
  lemma EvaluationNoMove(b: Board, depth: nat, side: Side)
    requires Good(b) && depth > 0 && !HasLegalMove(b, side)
    ensures Finished(b, side, None) == []
    ensures Evaluation(b, depth, side) == BoardEval(TerminalScore(b, side), -1)
  {
    ExpandNoMoves(b, side, None, b.numHoles);
  }

  /**
   * Past depth 0 the chosen hole is -1 exactly when no position finishes,
   * and a legal hole of `b` otherwise.
   */
  lemma EvaluationMove(b: Board, depth: nat, side: Side)
    requires Good(b) && depth > 0
    ensures var r := Evaluation(b, depth, side);
            (r.bestMove == -1 <==> Finished(b, side, None) == [])
            && (r.bestMove == -1 ==> r.eval == TerminalScore(b, side))
            && (r.bestMove != -1 ==> LegalHole(b, side, r.bestMove))
  {
    var cands := Finished(b, side, None);
    var evals := Scores(cands, depth - 1, Opponent(side));
    RootSources(b, side);
    ScoresAt(cands, depth - 1, Opponent(side));
    if |evals| > 0 {
      PickBestChoice(evals, side);
      var i :| 0 <= i < |evals| && PickBest(evals, side) == evals[i];
      assert LegalHole(b, side, cands[i].source);
    }
  }

  /** The best for `chooser` of positions scored for `scorer` is the score of one of them, with its first hole. */
  lemma ScoresAttained(r: BoardEval, cands: seq<Candidate>, depth: nat, scorer: Side, chooser: Side)
    requires AllGoodCandidates(cands) && cands != []
    requires r == PickBest(Scores(cands, depth, scorer), chooser)
    ensures exists i :: 0 <= i < |cands| && r.bestMove == cands[i].source
                        && r.eval == Evaluation(cands[i].board, depth, scorer).eval
  {
    var evals := Scores(cands, depth, scorer);
    ScoresAt(cands, depth, scorer);
    PickBestChoice(evals, chooser);
  }

  /** Past depth 0, when some position finishes, the result is the scan over their scores. */
  lemma EvaluationPicks(b: Board, depth: nat, side: Side)
    requires Good(b) && depth > 0 && Finished(b, side, None) != []
    ensures Evaluation(b, depth, side) == PickBest(Scores(Finished(b, side, None), depth - 1, Opponent(side)), side)
  {
  }

  /**
   * Minimax, first half: past depth 0, when some position finishes, the
   * result is one of them, scored one level down for the opponent.
   */
  lemma EvaluationAttained(b: Board, depth: nat, side: Side)
    requires Good(b) && depth > 0 && Finished(b, side, None) != []
    ensures var r := Evaluation(b, depth, side);
            var cands := Finished(b, side, None);
            exists i :: 0 <= i < |cands| && r.bestMove == cands[i].source
                        && r.eval == Evaluation(cands[i].board, depth - 1, Opponent(side)).eval
  {
    EvaluationPicks(b, depth, side);
    ScoresAttained(Evaluation(b, depth, side), Finished(b, side, None), depth - 1, Opponent(side), side);
  }

  /**
   * Minimax, second half: no finished position scores better for `side`
   * (higher for South, lower for North) than the result.
   */
  lemma EvaluationOptimal(b: Board, depth: nat, side: Side, k: int)
    requires Good(b) && depth > 0 && 0 <= k < |Finished(b, side, None)|
    ensures var c := Finished(b, side, None)[k];
            !Better(Evaluation(c.board, depth - 1, Opponent(side)).eval, Evaluation(b, depth, side).eval, side)
  {
    var cands := Finished(b, side, None);
    var evals := Scores(cands, depth - 1, Opponent(side));
    var r := PickBest(evals, side);
    assert Evaluation(b, depth, side) == r;
    ScoresAt(cands, depth - 1, Opponent(side));
    PickBestChoice(evals, side);
    assert !Better(evals[k].eval, r.eval, side);
  }

  // ---------------------------------------------------------------------------
  // The search as the source runs it

  /** One legal hole as the source plays it: sow, then capture if the rule applies. */
  method PlayHoleAt(ob: Board, side: Side, hole: int) returns (board: Board, endHole: int)
    requires WellFormed(ob) && 1 <= hole <= ob.numHoles
    ensures Played(board, endHole) == PlayHole(ob, side, hole)
  {
    var sown := Sow(ob, side, hole);
    var last := sown.last;
    board := sown.board;
    if last.hole != 0 && last.side == side {
      if Beans(board, side, last.hole) == 1 {
        if Beans(board, Opponent(side), last.hole) != 0 {
          board := MoveToPot(board, side, last.hole, side).board;
          board := MoveToPot(board, Opponent(side), last.hole, side).board;
        }
      }
    }
    endHole := last.hole;
  }

  /**
   * The for loop over the holes of one popped board: finished positions are
   * appended to `done`, extra-turn positions pushed on `stack`.
   */
  method ExpandInto(ob: Board, side: Side, src: Option<int>, done0: seq<Candidate>, stack0: seq<Reached>)
    returns (done: seq<Candidate>, stack: seq<Reached>)
    requires WellFormed(ob)
    ensures var e := Expand(ob, side, src, ob.numHoles);
            done == done0 + e.done && stack == stack0 + e.again
  {
    done, stack := done0, stack0;
    for hole := 1 to ob.numHoles + 1
      invariant done == done0 + Expand(ob, side, src, hole - 1).done
      invariant stack == stack0 + Expand(ob, side, src, hole - 1).again
    {
      ghost var e := Expand(ob, side, src, hole - 1);
      if Beans(ob, side, hole) > 0 {
        var board, endHole := PlayHoleAt(ob, side, hole);
        if endHole == 0 {
          var first := match src case None => hole case Some(x) => x;
          stack := stack + [Reached(board, Some(first))];
          assert Expand(ob, side, src, hole) == Expansion(e.done, e.again + [Reached(board, Some(first))]);
        } else {
          done := done + [Candidate(board, src.GetOr(hole))];
          assert Expand(ob, side, src, hole) == Expansion(e.done + [Candidate(board, src.GetOr(hole))], e.again);
        }
      } else {
        assert Expand(ob, side, src, hole) == e;
      }
    }
  }

  /** Popping the top of the stack and pushing its extra-turn positions drains the same positions. */
  lemma DrainPop(stack: seq<Reached>, side: Side)
    requires AllGood(stack) && |stack| > 0
    ensures var top := stack[|stack| - 1];
            var e := Expand(top.board, side, top.source, top.board.numHoles);
            AllGood(stack[..|stack| - 1] + e.again)
            && Drain(stack, side) == e.done + Drain(stack[..|stack| - 1] + e.again, side)
  {
    var top := stack[|stack| - 1];
    var rest := stack[..|stack| - 1];
    var e := Expand(top.board, side, top.source, top.board.numHoles);
    DrainUnfold(stack, side);
    FinishedUnfold(top.board, side, top.source);
    DrainAppend(rest, e.again, side);
    ConcatAssoc(e.done, Drain(e.again, side), Drain(rest, side));
  }

  /** Popping the top of the stack and pushing its extra-turn positions leaves fewer boards to visit. */
  lemma DrainPopShrinks(stack: seq<Reached>, side: Side)
    requires AllGood(stack) && |stack| > 0
    ensures var top := stack[|stack| - 1];
            var e := Expand(top.board, side, top.source, top.board.numHoles);
            AllGood(stack[..|stack| - 1] + e.again)
            && NodesDrain(stack[..|stack| - 1] + e.again, side) < NodesDrain(stack, side)
  {
    var top := stack[|stack| - 1];
    var rest := stack[..|stack| - 1];
    var e := Expand(top.board, side, top.source, top.board.numHoles);
    DrainUnfold(stack, side);
    FinishedUnfold(top.board, side, top.source);
    DrainAppend(rest, e.again, side);
  }

  lemma DrainSingle(r: Reached, side: Side)
    requires Good(r.board)
    ensures AllGood([r]) && Drain([r], side) == Finished(r.board, side, r.source)
  {
    assert [r][..0] == [];
  }

  /** One pass of the outer loop: pop the top board and run the holes loop on it. */
  method PopAndExpand(done0: seq<Candidate>, stack0: seq<Reached>, side: Side)
    returns (done: seq<Candidate>, stack: seq<Reached>)
    requires AllGood(stack0) && |stack0| > 0
    ensures AllGood(stack)
    ensures done + Drain(stack, side) == done0 + Drain(stack0, side)
    ensures NodesDrain(stack, side) < NodesDrain(stack0, side)
  {
    var top := stack0[|stack0| - 1];
    DrainPop(stack0, side);
    DrainPopShrinks(stack0, side);
    done, stack := ExpandInto(top.board, side, top.source, done0, stack0[..|stack0| - 1]);
  }

  /**
   * The first loop of evaluate_board: pop a board, try each of its legal
   * holes, push the positions where the mover goes again and collect the rest.
   */
  method CollectFinished(b: Board, side: Side) returns (done: seq<Candidate>)
    requires Good(b)
    ensures done == Finished(b, side, None)
  {
    done := [];
    var stack := [Reached(b, None)];
    DrainSingle(stack[0], side);
    while |stack| > 0
      invariant AllGood(stack)
      invariant done + Drain(stack, side) == Finished(b, side, None)
      decreases NodesDrain(stack, side)
    {
      done, stack := PopAndExpand(done, stack, side);
    }
  }

  /** The terminal branch of evaluate_board, counting the beans with total_beans. */
  method TerminalEval(b: Board, side: Side) returns (eval: int)
    requires WellFormed(b)
    ensures eval == TerminalScore(b, side)
  {
    var mine := Beans(b, side, 0);
    var total := TotalBeans(b);
    var half := TruncDiv(total, 2);
    if mine == half {
      eval := 0;
    } else if mine > half {
      eval := if side == South then I32Max else I32Min;
    } else {
      eval := if side == South then I32Min else I32Max;
    }
  }

  /** The selection loop: start from the popped last evaluation, replace it only by a strictly better one. */
  method SelectBest(evals: seq<BoardEval>, side: Side) returns (best: BoardEval)
    requires |evals| > 0
    ensures best == PickBest(evals, side)
  {
    best := evals[|evals| - 1];
    var rest := evals[..|evals| - 1];
    for i := 0 to |rest|
      invariant Scan(best, rest[i..], side) == PickBest(evals, side)
    {
      assert rest[i..][1..] == rest[i + 1..];
      if Better(rest[i].eval, best.eval, side) {
        best := rest[i];
      }
    }
    assert rest[|rest|..] == [];
  }

  /** evaluate_board as the source runs it: collect, score each one level down, then select. */
  method Evaluate(b: Board, depth: nat, side: Side) returns (r: BoardEval)
    requires Good(b)
    ensures r == Evaluation(b, depth, side)
    decreases depth, 1
  {
    if depth == 0 {
      return BoardEval(Beans(b, South, 0) - Beans(b, North, 0), 1);
    }
    var possible := CollectFinished(b, side);
    var evals := ScoreAll(possible, depth - 1, Opponent(side));
    if |evals| == 0 {
      var eval := TerminalEval(b, side);
      return BoardEval(eval, -1);
    }
    r := SelectBest(evals, side);
  }

  /** The loop that scores each finished position for the opponent, one level down. */
  method ScoreAll(possible: seq<Candidate>, depth: nat, side: Side) returns (evals: seq<BoardEval>)
    requires AllGoodCandidates(possible)
    ensures evals == Scores(possible, depth, side)
    decreases depth + 1, 0
  {
    evals := [];
    for i := 0 to |possible|
      invariant evals == Scores(possible[..i], depth, side)
    {
      assert possible[..i + 1][..i] == possible[..i];
      var sub := Evaluate(possible[i].board, depth, side);
      evals := evals + [BoardEval(sub.eval, possible[i].source)];
    }
    assert possible[..|possible|] == possible;
  }

  // ---------------------------------------------------------------------------
  // SmartPlayer::choose_move

  /** What choose_move answers, as a value: -1 without a bean to sow, else the search's hole. */
  function Choice(b: Board, s: Side): int
    requires Good(b)
  {
    if HasLegalMove(b, s) then Evaluation(b, LookAhead, s).bestMove else -1
  }

  /**
   * choose_move as written: -1 when no pit of `s` holds a bean, otherwise the
   * hole the five-turn search credits with its best score, which is -1 itself
   * when no turn of `s` finishes (see the example in module Findings).
   */
  method ChooseMove(b: Board, s: Side) returns (r: int)
    requires Good(b)
    ensures !HasLegalMove(b, s) ==> r == -1
    ensures HasLegalMove(b, s) ==> r == Evaluation(b, LookAhead, s).bestMove
    ensures r != -1 ==> LegalHole(b, s, r)
  {
    var hasLegalMove := false;
    for hole := 1 to b.numHoles + 1
      invariant !hasLegalMove ==> forall h :: 1 <= h < hole ==> Beans(b, s, h) <= 0
      invariant hasLegalMove ==> HasLegalMove(b, s)
    {
      if Beans(b, s, hole) > 0 {
        hasLegalMove := true;
        break;
      }
    }
    if !hasLegalMove {
      return -1;
    }
    var best := Evaluate(b, LookAhead, s);
    EvaluationMove(b, LookAhead, s);
    r := best.bestMove;
  }

  /**
   * What choose_move answers once corrected: -1 exactly when `s` has no legal
   * move; when the search credits no hole, the first legal hole instead.
   */
  function FixedChoice(b: Board, s: Side): (r: int)
    requires Good(b)
    ensures r == -1 <==> !HasLegalMove(b, s)
    ensures r != -1 ==> LegalHole(b, s, r)
    ensures HasLegalMove(b, s) && Evaluation(b, LookAhead, s).bestMove != -1 ==>
              r == Evaluation(b, LookAhead, s).bestMove
  {
    if !HasLegalMove(b, s) then -1
    else
      EvaluationMove(b, LookAhead, s);
      var m := Evaluation(b, LookAhead, s).bestMove;
      if m == -1 then BadPlayer.Choice(b, s) else m
  }

  /** choose_move corrected: the first-legal scan doubles as the legality check and the fallback. */
  method ChooseMoveFixed(b: Board, s: Side) returns (r: int)
    requires Good(b)
    ensures r == FixedChoice(b, s)
  {
    var firstLegal := BadPlayer.ChooseMove(b, s);
    if firstLegal == -1 {
      return -1;
    }
    var best := Evaluate(b, LookAhead, s);
    r := if best.bestMove == -1 then firstLegal else best.bestMove;
  }
}
