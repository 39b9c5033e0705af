/**
 * The two worked examples of the board's own tests, derived from the general
 * sowing lemmas rather than by running the sow.
 */
module SowExamples {
  import opened Boards
  import opened Sowing

  /**
   * The board Board::new(n, init) builds, described by its contents rather than
   * as that function's value, so that the solver reasons about the sow
   * through the general lemmas instead of evaluating it step by step.
   */
  predicate Fresh(b: Board, n: int, init: int)
  {
    WellFormed(b) && b.numHoles == n && b.northPot == 0 && b.southPot == 0
    && (forall i :: 0 <= i < n ==> b.northHoles[i] == init && b.southHoles[i] == init)
  }

  /** Every board Board::new builds is fresh. */
  lemma NewBoardFresh(n: int, init: int)
    requires n >= 1
    ensures Fresh(NewBoard(n, init), n, init)
  {
    var b := NewBoard(n, init);
    forall i | 0 <= i < n
      ensures b.northHoles[i] == init && b.southHoles[i] == init
    {
      assert Beans(b, North, i + 1) == init && Beans(b, South, i + 1) == init;
    }
  }

  /** Pins the lap arithmetic of a k-bean sow on n holes to that of the given numerals. */
  lemma LapArithmetic(k: int, n: int, kValue: int, nValue: int)
    requires k == kValue && n == nValue && nValue >= 1
    ensures k / (2 * n + 1) == kValue / (2 * nValue + 1)
    ensures k % (2 * n + 1) == kValue % (2 * nValue + 1)
    ensures (k - 1) % (2 * n + 1) == (kValue - 1) % (2 * nValue + 1)
  {
  }

  lemma SumTwo(x: int, y: int)
    ensures Sum([x, y]) == x + y
  {
    assert [x, y][..1] == [x];
    assert [x][..0] == [];
    assert Sum([x]) == x;
  }

  lemma SumFour(w: int, x: int, y: int, z: int)
    ensures Sum([w, x, y, z]) == w + x + y + z
  {
    assert [w, x, y, z][..3] == [w, x, y];
    assert [w, x, y][..2] == [w, x];
    SumTwo(w, x);
  }

  /** Four pits of four: sowing South's first pit fills the rest of the row and the pot. */
  lemma SowFourByFour(b: Board)
    requires Fresh(b, 4, 4)
    ensures SowResult(b, South, 0).SowRejected?
    ensures var r := SowResult(b, South, 1);
            r.Sown? && r.last == Loc(South, 0)
            && Beans(r.board, South, 0) == 1 && Beans(r.board, North, 0) == 0
            && Beans(r.board, South, 1) == 0
            && Beans(r.board, South, 2) == 5
            && Beans(r.board, South, 3) == 5
            && Beans(r.board, South, 4) == 5
            && Beans(r.board, North, 1) == 4
            && Beans(r.board, North, 2) == 4
            && Beans(r.board, North, 3) == 4
            && Beans(r.board, North, 4) == 4
            && Sum(Row(r.board, South)) == 15 && Sum(Row(r.board, North)) == 16
            && Total(r.board) == 32
  {
    var r := SowResult(b, South, 1);
    assert Beans(b, South, 1) == 4 && Beans(b, South, 1) - 1 == 3 && 2 * b.numHoles + 1 == 9;
    assert r.last == Loc(South, 0) by {
      SowLastLocation(b, South, 1);
      OffsetInjective(r.last, Loc(South, 0), Loc(South, 1), South, 4);
    }
    assert Beans(r.board, South, 0) == 1 by {
      SowDistribution(b, South, 1, Loc(South, 0));
    }
    assert Beans(r.board, North, 0) == 0 by {
      SowSkipsOpponentPot(b, South, 1);
    }
    assert Beans(r.board, South, 1) == 0 by {
      SowDistribution(b, South, 1, Loc(South, 1));
    }
    assert Beans(r.board, South, 2) == 5 by {
      SowDistribution(b, South, 1, Loc(South, 2));
    }
    assert Beans(r.board, South, 3) == 5 by {
      SowDistribution(b, South, 1, Loc(South, 3));
    }
    assert Beans(r.board, South, 4) == 5 by {
      SowDistribution(b, South, 1, Loc(South, 4));
    }
    assert Beans(r.board, North, 1) == 4 by {
      SowDistribution(b, South, 1, Loc(North, 1));
    }
    assert Beans(r.board, North, 2) == 4 by {
      SowDistribution(b, South, 1, Loc(North, 2));
    }
    assert Beans(r.board, North, 3) == 4 by {
      SowDistribution(b, South, 1, Loc(North, 3));
    }
    assert Beans(r.board, North, 4) == 4 by {
      SowDistribution(b, South, 1, Loc(North, 4));
    }
    assert Row(r.board, South) == [0, 5, 5, 5];
    assert Row(r.board, North) == [4, 4, 4, 4];
    SumFour(0, 5, 5, 5);
    SumFour(4, 4, 4, 4);
    assert Total(r.board) == 32 by {
      SowConserves(b, South, 1);
      assert Row(b, North) == [4, 4, 4, 4] && Row(b, South) == [4, 4, 4, 4];
      SumFour(4, 4, 4, 4);
    }
  }

  /** Two pits of sixty-one: the beans lap the five-slot ring twelve times and stop one short. */
  lemma SowManyLaps(b: Board)
    requires Fresh(b, 2, 61)
    ensures var r := SowResult(b, South, 1);
            r.Sown? && r.last == Loc(South, 2)
            && Beans(r.board, South, 0) == 12 && Beans(r.board, North, 0) == 0
            && Beans(r.board, South, 1) == 12 && Beans(r.board, South, 2) == 74
            && Beans(r.board, North, 1) == 73 && Beans(r.board, North, 2) == 73
            && Sum(Row(r.board, South)) == 86 && Sum(Row(r.board, North)) == 146
            && Total(r.board) == 244
  {
    var r := SowResult(b, South, 1);
    LapArithmetic(Beans(b, South, 1), b.numHoles, 61, 2);
    assert r.last == Loc(South, 2) by {
      SowLastLocation(b, South, 1);
      OffsetInjective(r.last, Loc(South, 2), Loc(South, 1), South, 2);
    }
    SowDistribution(b, South, 1, Loc(South, 0));
    SowSkipsOpponentPot(b, South, 1);
    SowDistribution(b, South, 1, Loc(South, 1));
    SowDistribution(b, South, 1, Loc(South, 2));
    SowDistribution(b, South, 1, Loc(North, 1));
    SowDistribution(b, South, 1, Loc(North, 2));
    assert Row(r.board, South) == [12, 74];
    assert Row(r.board, North) == [73, 73];
    SumTwo(12, 74);
    SumTwo(73, 73);
    assert Total(r.board) == 244 by {
      SowConserves(b, South, 1);
      assert Row(b, North) == [61, 61] && Row(b, South) == [61, 61];
      SumTwo(61, 61);
    }
  }
}
