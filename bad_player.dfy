/**
 * BadPlayer (src/bad_player.rs): plays the first pit of its side that holds
 * a bean.  It only reads the board, which is passed as a value.
 */
module BadPlayer {
  import opened Wrappers
  import opened Boards
  import opened Games

  /**
   * The first pit among `from`..numHoles of side `s` holding a bean, or -1
   * when all of them are empty.
   */
  function FirstLegalFrom(b: Board, s: Side, from: int): (r: int)
    requires WellFormed(b) && from >= 1
    ensures r == -1 <==> forall h :: from <= h <= b.numHoles ==> Beans(b, s, h) <= 0
    ensures r != -1 ==> from <= r && LegalHole(b, s, r)
    ensures r != -1 ==> forall h :: from <= h < r ==> Beans(b, s, h) <= 0
    decreases b.numHoles - from
  {
    if from > b.numHoles then -1
    else if Beans(b, s, from) > 0 then from
    else FirstLegalFrom(b, s, from + 1)
  }

  /**
   * BadPlayer::choose_move: the for loop over holes 1..=holes() that returns
   * the first hole with a bean, and -1 after the loop.
   */
  method ChooseMove(b: Board, s: Side) returns (r: int)
    requires WellFormed(b)
    ensures r == -1 <==> !HasLegalMove(b, s)
    ensures r != -1 ==> LegalHole(b, s, r)
    ensures r != -1 ==> forall h :: 1 <= h < r ==> Beans(b, s, h) <= 0
    ensures r == Choice(b, s)
  {
    for hole := 1 to b.numHoles + 1
      invariant forall h :: 1 <= h < hole ==> Beans(b, s, h) <= 0
    {
      if Beans(b, s, hole) > 0 {
        return hole;
      }
    }
    return -1;
  }

  /** The choice the loop makes, as a value. */
  function Choice(b: Board, s: Side): int
    requires WellFormed(b)
  {
    FirstLegalFrom(b, s, 1)
  }

  /** Over non-negative counts, the chooser answers -1 exactly when beans_in_play is zero. */
  lemma ChoiceNoneIffNothingInPlay(b: Board, s: Side)
    requires WellFormed(b) && NonNegative(b)
    ensures Choice(b, s) == -1 <==> Sum(Row(b, s)) == 0
  {
    InPlayPositiveIffLegalMove(b, s);
    SumNonNegative(Row(b, s));
  }

  /** BadPlayer seated at a game: boards of any shape get -1, which the game never asks about. */
  function AsPlayer(): Player {
    (b: Board, s: Side) => if WellFormed(b) then Choice(b, s) else -1
  }

  /** BadPlayer answers -1 exactly when the side it plays has no legal move. */
  lemma AsPlayerHonest()
    ensures Honest(AsPlayer())
  {
    var p := AsPlayer();
    forall b: Board, s: Side | WellFormed(b)
      ensures p(b, s) == -1 <==> !HasLegalMove(b, s)
    {
      assert p(b, s) == Choice(b, s);
      if HasLegalMove(b, s) {
        var h :| 1 <= h <= b.numHoles && Beans(b, s, h) > 0;
        assert Choice(b, s) != -1;
      }
    }
  }

  /**
   * A game between two BadPlayers that ends leaves every bean in a pot, and
   * its winner holds more than half of them.
   */
  lemma BadGameVerdict(b: Board, fuel: nat)
    requires WellFormed(b) && NonNegative(b)
    requires Run(b, South, AsPlayer(), AsPlayer(), fuel).ended
    ensures var o := Run(b, South, AsPlayer(), AsPlayer(), fuel);
            var total := Total(b);
            Pot(o.board, North) + Pot(o.board, South) == total
            && (o.winner == Some(North) <==> 2 * Pot(o.board, North) > total)
            && (o.winner == Some(South) <==> 2 * Pot(o.board, South) > total)
            && (o.winner == None <==> 2 * Pot(o.board, South) == total)
  {
    AsPlayerHonest();
    RunVerdict(b, South, AsPlayer(), AsPlayer(), fuel);
  }
}
