/**
 * The game loop (src/game.rs).  A player is reduced to its choose_move,
 * given as a function value; the game owns the board and the result, and
 * updates them in place turn by turn.
 */
module Games {
  import opened Wrappers
  import opened Boards
  import opened Sowing

  /** A player's choose_move: the hole it picks for side `s` on a board, -1 for "no move". */
  type Player = (Board, Side) -> int

  /** Game::get_player: the player seated on side `s`. */
  function PlayerOf(north: Player, south: Player, s: Side): Player {
    match s
    case North => north
    case South => south
  }

  // ---------------------------------------------------------------------------
  // One turn, as a function of the board and the chosen hole

  /** The sweep of make_move: pits 1..hole of `s` emptied, in order, into `s`'s own pot. */
  function Sweep(b: Board, s: Side, hole: nat): (r: Board)
    requires WellFormed(b) && hole <= b.numHoles
    ensures WellFormed(r) && r.numHoles == b.numHoles
  {
    if hole == 0 then b else MoveToPot(Sweep(b, s, hole - 1), s, hole, s).board
  }

  /**
   * Sweeping pits 1..hole of `s` empties them into `s`'s pot and leaves the
   * other pits of `s` and the whole opponent side alone.
   */
  lemma {:induction false} SweepEffect(b: Board, s: Side, hole: nat)
    requires WellFormed(b) && hole <= b.numHoles
    ensures var r := Sweep(b, s, hole);
            (forall h :: 1 <= h <= hole ==> Beans(r, s, h) == 0)
            && (forall h :: hole < h <= b.numHoles ==> Beans(r, s, h) == Beans(b, s, h))
            && (forall h :: 0 <= h <= b.numHoles ==> Beans(r, Opponent(s), h) == Beans(b, Opponent(s), h))
            && Pot(r, s) == Pot(b, s) + Sum(Row(b, s)[..hole])
  {
    if hole == 0 {
      assert Row(b, s)[..0] == [];
    } else {
      SweepEffect(b, s, hole - 1);
      assert Row(b, s)[..hole][..hole - 1] == Row(b, s)[..hole - 1];
    }
  }

  /** A sweep loses no bean and keeps every count non-negative. */
  lemma {:induction false} SweepConserves(b: Board, s: Side, hole: nat)
    requires WellFormed(b) && hole <= b.numHoles
    ensures var r := Sweep(b, s, hole);
            Total(r) == Total(b) && (NonNegative(b) ==> NonNegative(r))
  {
    if hole > 0 {
      SweepConserves(b, s, hole - 1);
      MoveToPotConserves(Sweep(b, s, hole - 1), s, hole, s);
    }
  }

  /** The winner make_move records: the side with the fuller pot, None on equal pots. */
  function Winner(b: Board): Option<Side>
    requires WellFormed(b)
  {
    var northPot := Beans(b, North, 0);
    var southPot := Beans(b, South, 0);
    if northPot > southPot then Some(North)
    else if northPot < southPot then Some(South)
    else None
  }

  /** What a turn leads to: the game goes on, or it is over with a winner. */
  datatype Step = Moved(board: Board) | Ended(board: Board, winner: Option<Side>)

  /**
   * make_move for side `s` once its player has chosen `choice`: -1 sweeps the
   * opponent's pits into the opponent's pot and ends the game; any other
   * choice is sown, and a sow the board rejects changes nothing.
   */
  function TakeTurn(b: Board, s: Side, choice: int): (t: Step)
    requires WellFormed(b)
    ensures WellFormed(t.board) && t.board.numHoles == b.numHoles
    ensures t.Ended? <==> choice == -1
    ensures choice != -1 && !(1 <= choice <= b.numHoles) ==> t == Moved(b)
    ensures 1 <= choice <= b.numHoles ==> Pot(t.board, Opponent(s)) == Pot(b, Opponent(s))
  {
    SowSkipsOpponentPotAll(b, s, choice);
    if choice == -1 then
      var swept := Sweep(b, Opponent(s), b.numHoles);
      Ended(swept, Winner(swept))
    else
      match SowResult(b, s, choice)
      case SowRejected => Moved(b)
      case Sown(after, _) => Moved(after)
  }

  /** A turn keeps the board good and neither creates nor destroys a bean. */
  lemma TakeTurnConserves(b: Board, s: Side, choice: int)
    requires WellFormed(b) && NonNegative(b)
    ensures var t := TakeTurn(b, s, choice);
            NonNegative(t.board) && Total(t.board) == Total(b)
  {
    if choice == -1 {
      SweepConserves(b, Opponent(s), b.numHoles);
    } else if 1 <= choice <= b.numHoles {
      SowConserves(b, s, choice);
    }
  }

  /** After the full sweep of `o`'s pits, `o` has no bean in play. */
  lemma SweepEmptiesRow(b: Board, o: Side)
    requires WellFormed(b)
    ensures Sum(Row(Sweep(b, o, b.numHoles), o)) == 0
  {
    var r := Sweep(b, o, b.numHoles);
    SweepEffect(b, o, b.numHoles);
    assert Row(r, o) == seq(b.numHoles, _ => 0) by {
      forall i | 0 <= i < b.numHoles
        ensures Row(r, o)[i] == 0
      {
        assert Beans(r, o, i + 1) == 0;
      }
    }
    SumZeros(b.numHoles);
  }

  /**
   * The full sweep of `o`'s pits: every one of them is empty, `o`'s pot has
   * gained what they held, and the other side's row and pot are unchanged.
   */
  lemma SweepAll(b: Board, o: Side)
    requires WellFormed(b) && NonNegative(b)
    ensures var r := Sweep(b, o, b.numHoles);
            Sum(Row(r, o)) == 0 && Pot(r, o) == Pot(b, o) + Sum(Row(b, o))
            && Row(r, Opponent(o)) == Row(b, Opponent(o)) && Pot(r, Opponent(o)) == Pot(b, Opponent(o))
            && Total(r) == Total(b) && NonNegative(r)
  {
    var s := Opponent(o);
    var r := Sweep(b, o, b.numHoles);
    SweepEffect(b, o, b.numHoles);
    SweepConserves(b, o, b.numHoles);
    assert Row(b, o)[..b.numHoles] == Row(b, o);
    assert Beans(r, s, 0) == Beans(b, s, 0);
    RowsAgree(r, b, s);
    SweepEmptiesRow(b, o);
  }

  /**
   * When the side to move really has no bean to sow, ending the game puts
   * every bean in a pot, and the winner is the side holding more than half.
   */
  lemma GameOverVerdict(b: Board, s: Side)
    requires WellFormed(b) && NonNegative(b) && !HasLegalMove(b, s)
    ensures var t := TakeTurn(b, s, -1);
            var total := Total(b);
            Pot(t.board, North) + Pot(t.board, South) == total
            && (t.winner == Some(North) <==> 2 * Pot(t.board, North) > total)
            && (t.winner == Some(South) <==> 2 * Pot(t.board, South) > total)
            && (t.winner == None <==> 2 * Pot(t.board, South) == total)
  {
    var o := Opponent(s);
    var r := Sweep(b, o, b.numHoles);
    SweepAll(b, o);
    assert Opponent(o) == s;
    InPlayPositiveIffLegalMove(b, s);
    SumNonNegative(Row(b, s));
    assert Sum(Row(r, s)) == 0;
    assert Pot(r, North) + Pot(r, South) == Total(r);
  }

  /**
   * When the side to move still has beans but its player answers -1 anyway,
   * the game ends with those beans in no one's pot.
   */
  lemma EarlyEndStrandsBeans(b: Board, s: Side)
    requires WellFormed(b) && NonNegative(b) && HasLegalMove(b, s)
    ensures var t := TakeTurn(b, s, -1);
            Pot(t.board, North) + Pot(t.board, South) < Total(b)
  {
    var o := Opponent(s);
    SweepAll(b, o);
    assert Opponent(o) == s;
    InPlayPositiveIffLegalMove(b, s);
  }

  lemma {:induction false} SumZeros(n: nat)
    ensures Sum(seq(n, _ => 0)) == 0
  {
    if n > 0 {
      assert seq(n, _ => 0)[..n - 1] == seq(n - 1, _ => 0);
      SumZeros(n - 1);
    }
  }

  // ---------------------------------------------------------------------------
  // A whole game

  /** How a run of turns ends: the board, whether some turn ended the game, and its winner. */
  datatype Outcome = Outcome(board: Board, ended: bool, winner: Option<Side>)

  /**
   * play: South moves first and the sides alternate until a turn ends the
   * game.  `fuel` bounds the number of turns; a run that uses it all up
   * reports `ended` false.
   */
  function Run(b: Board, s: Side, north: Player, south: Player, fuel: nat): (o: Outcome)
    requires WellFormed(b)
    ensures WellFormed(o.board) && o.board.numHoles == b.numHoles
    decreases fuel
  {
    if fuel == 0 then Outcome(b, false, None)
    else
      match TakeTurn(b, s, PlayerOf(north, south, s)(b, s))
      case Ended(after, w) => Outcome(after, true, w)
      case Moved(after) => Run(after, Opponent(s), north, south, fuel - 1)
  }

  /** A game neither creates nor destroys a bean, and never drives a count negative. */
  lemma {:induction false} RunConserves(b: Board, s: Side, north: Player, south: Player, fuel: nat)
    requires WellFormed(b) && NonNegative(b)
    ensures var o := Run(b, s, north, south, fuel);
            NonNegative(o.board) && Total(o.board) == Total(b)
    decreases fuel
  {
    if fuel > 0 {
      var choice := PlayerOf(north, south, s)(b, s);
      TakeTurnConserves(b, s, choice);
      var t := TakeTurn(b, s, choice);
      if t.Moved? {
        RunConserves(t.board, Opponent(s), north, south, fuel - 1);
      }
    }
  }

  /**
   * A player that answers -1 exactly when the side it plays has no legal move,
   * on every board a game can hold.
   */
  ghost predicate Honest(p: Player) {
    forall b: Board, s: Side :: WellFormed(b) && NonNegative(b) ==> (p(b, s) == -1 <==> !HasLegalMove(b, s))
  }

  /**
   * Between honest players a finished game has every bean in a pot, and its
   * winner is the side holding more than half of them.
   */
  lemma {:induction false} RunVerdict(b: Board, s: Side, north: Player, south: Player, fuel: nat)
    requires WellFormed(b) && NonNegative(b) && Honest(north) && Honest(south)
    requires Run(b, s, north, south, fuel).ended
    ensures var o := Run(b, s, north, south, fuel);
            var total := Total(b);
            Pot(o.board, North) + Pot(o.board, South) == total
            && (o.winner == Some(North) <==> 2 * Pot(o.board, North) > total)
            && (o.winner == Some(South) <==> 2 * Pot(o.board, South) > total)
            && (o.winner == None <==> 2 * Pot(o.board, South) == total)
    decreases fuel
  {
    var choice := PlayerOf(north, south, s)(b, s);
    var t := TakeTurn(b, s, choice);
    if t.Moved? {
      TakeTurnConserves(b, s, choice);
      RunVerdict(t.board, Opponent(s), north, south, fuel - 1);
    } else {
      assert choice == -1;
      GameOverVerdict(b, s);
    }
  }

  // ---------------------------------------------------------------------------
  // The game object

  class Game {
    var board: Board
    const north: Player
    const south: Player
    var isOver: bool
    var winner: Option<Side>

    /** Game::new: the given board and players, not over, no winner. */
    constructor (board: Board, south: Player, north: Player)
      ensures this.board == board && this.south == south && this.north == north
      ensures !isOver && winner == None
    {
      this.board := board;
      this.north := north;
      this.south := south;
      isOver := false;
      winner := None;
    }

    /**
     * make_move: ask the player of `s` for a hole; on -1 sweep the opponent's
     * pits into the opponent's pot, mark the game over, record the winner and
     * answer false; otherwise sow the hole and answer true.
     */
    method MakeMove(s: Side) returns (moved: bool)
      requires WellFormed(board)
      modifies this
      ensures var t := TakeTurn(old(board), s, PlayerOf(north, south, s)(old(board), s));
              board == t.board && (moved <==> t.Moved?)
              && (t.Ended? ==> isOver && winner == t.winner)
              && (t.Moved? ==> isOver == old(isOver) && winner == old(winner))
    {
      var player := PlayerOf(north, south, s);
      var moveChosen := player(board, s);
      if moveChosen == -1 {
        ghost var before := board;
        var o := Opponent(s);
        for hole := 1 to board.numHoles + 1
          invariant WellFormed(board) && board.numHoles == before.numHoles
          invariant board == Sweep(before, o, hole - 1)
        {
          board := MoveToPot(board, o, hole, o).board;
        }
        isOver := true;
        var northPotBeans := Beans(board, North, 0);
        var southPotBeans := Beans(board, South, 0);
        winner := if northPotBeans > southPotBeans then Some(North)
                  else if northPotBeans < southPotBeans then Some(South)
                  else None;
        return false;
      }
      var sown := Sow(board, s, moveChosen);
      if sown.Sown? {
        board := sown.board;
      }
      return true;
    }

    /**
     * play, for at most `maxTurns` turns: South first, then alternating,
     * until make_move answers false.
     */
    method Play(maxTurns: nat) returns (ended: bool)
      requires WellFormed(board)
      modifies this
      ensures var o := Run(old(board), South, north, south, maxTurns);
              board == o.board && ended == o.ended
              && (ended ==> isOver && winner == o.winner)
              && (!ended ==> isOver == old(isOver) && winner == old(winner))
    {
      var sideToMove := South;
      var turns := 0;
      while turns < maxTurns
        invariant 0 <= turns <= maxTurns && WellFormed(board)
        invariant Run(board, sideToMove, north, south, maxTurns - turns) == Run(old(board), South, north, south, maxTurns)
        invariant isOver == old(isOver) && winner == old(winner)
        decreases maxTurns - turns
      {
        var res := MakeMove(sideToMove);
        if !res {
          return true;
        }
        sideToMove := Opponent(sideToMove);
        turns := turns + 1;
      }
      return false;
    }
  }
}
