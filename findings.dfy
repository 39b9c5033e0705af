/**
 * A board on which SmartPlayer::choose_move answers -1 although the mover has
 * a legal hole: the only move ends in the mover's pot, and the extra turn it
 * earns has no move left, so the search finds no finished turn at all.
 */
module Findings {
  import opened Wrappers
  import opened Boards
  import opened Sowing
  import opened SowExamples
  import opened SmartPlayer
  import opened Games

  /**
   * Board::new(1, 1) with South to move: hole 1 is legal, yet the search
   * credits no hole and reports hole -1 and a win for North.
   */
  lemma ForcedMoveDropped(b: Board)
    requires Fresh(b, 1, 1)
    ensures Good(b) && HasLegalMove(b, South)
    ensures Finished(b, South, None) == []
    ensures Evaluation(b, LookAhead, South) == BoardEval(I32Min, -1)
  {
    assert Beans(b, South, 1) == 1 && Beans(b, North, 1) == 1;
    assert Good(b);
    var sown := SowResult(b, South, 1);
    assert sown.last == Loc(South, 0) by {
      SowLastLocation(b, South, 1);
      OffsetInjective(sown.last, Loc(South, 0), Loc(South, 1), South, 1);
    }
    assert Beans(sown.board, South, 1) == 0 by {
      SowDistribution(b, South, 1, Loc(South, 1));
    }
    var p := PlayHole(b, South, 1);
    assert p == Played(sown.board, 0);
    PlayHoleConserves(b, South, 1);
    assert !HasLegalMove(p.board, South);
    assert Finished(p.board, South, Some(1)) == [] by {
      ExpandNoMoves(p.board, South, Some(1), 1);
    }
    assert Expand(b, South, None, 1) == Expansion([], [Reached(p.board, Some(1))]);
    DrainSingle(Reached(p.board, Some(1)), South);
    assert Finished(b, South, None) == [];
    assert Total(b) == 2 by {
      assert Row(b, North) == [1] && Row(b, South) == [1];
      assert [1][..0] == [];
    }
  }

  /** Board::new(1, 1) is exactly such a board. */
  lemma NewBoardForcedMoveDropped()
    ensures Good(NewBoard(1, 1)) && HasLegalMove(NewBoard(1, 1), South)
    ensures Evaluation(NewBoard(1, 1), LookAhead, South).bestMove == -1
  {
    NewBoardFresh(1, 1);
    ForcedMoveDropped(NewBoard(1, 1));
  }

  /** SmartPlayer as written, seated at a game. */
  function WrittenPlayer(): Player {
    (b: Board, s: Side) => if Good(b) then Choice(b, s) else -1
  }

  /** SmartPlayer with choose_move corrected, seated at a game. */
  function FixedPlayer(): Player {
    (b: Board, s: Side) => if Good(b) then FixedChoice(b, s) else -1
  }

  /** As written, SmartPlayer can give up on a board where it still has a move. */
  lemma WrittenPlayerNotHonest()
    ensures !Honest(WrittenPlayer())
  {
    var b := NewBoard(1, 1);
    NewBoardForcedMoveDropped();
    assert WrittenPlayer()(b, South) == -1;
  }

  /** Corrected, SmartPlayer answers -1 exactly when it has no legal move. */
  lemma FixedPlayerHonest()
    ensures Honest(FixedPlayer())
  {
    var p := FixedPlayer();
    forall b: Board, s: Side | WellFormed(b) && NonNegative(b)
      ensures p(b, s) == -1 <==> !HasLegalMove(b, s)
    {
      assert p(b, s) == FixedChoice(b, s);
    }
  }

  /**
   * A game between corrected SmartPlayers that ends leaves every bean in a
   * pot, and its winner holds more than half of them.
   */
  lemma FixedGameVerdict(b: Board, fuel: nat)
    requires WellFormed(b) && NonNegative(b)
    requires Run(b, South, FixedPlayer(), FixedPlayer(), fuel).ended
    ensures var o := Run(b, South, FixedPlayer(), FixedPlayer(), fuel);
            var total := Total(b);
            Pot(o.board, North) + Pot(o.board, South) == total
            && (o.winner == Some(North) <==> 2 * Pot(o.board, North) > total)
            && (o.winner == Some(South) <==> 2 * Pot(o.board, South) > total)
            && (o.winner == None <==> 2 * Pot(o.board, South) == total)
  {
    FixedPlayerHonest();
    RunVerdict(b, South, FixedPlayer(), FixedPlayer(), fuel);
  }
}
