/**
 * The Kalah board (src/board.rs): two rows of pits and one pot per side.
 * Pit `h` of a side (1 <= h <= numHoles) is kept at index h - 1 of that
 * side's row; "hole 0" names the side's pot.  Bean counts are unbounded
 * integers: 32-bit overflow of the source's accumulators is not modelled.
 */
module Boards {

  datatype Side = North | South

  /** The other side. */
  function Opponent(s: Side): (r: Side)
    ensures r != s
  {
    match s
    case North => South
    case South => North
  }

  datatype Board = Board(northHoles: seq<int>, southHoles: seq<int>, northPot: int, southPot: int, numHoles: int)

  /** The shape every constructed board has: at least one pit, both rows that long. */
  predicate WellFormed(b: Board) {
    b.numHoles >= 1 && |b.northHoles| == b.numHoles && |b.southHoles| == b.numHoles
  }

  predicate AllNonNegative(s: seq<int>) {
    forall i :: 0 <= i < |s| ==> s[i] >= 0
  }

  /** No pit and no pot holds a negative count. */
  predicate NonNegative(b: Board) {
    b.northPot >= 0 && b.southPot >= 0 && AllNonNegative(b.northHoles) && AllNonNegative(b.southHoles)
  }

  function Row(b: Board, s: Side): seq<int> {
    match s
    case North => b.northHoles
    case South => b.southHoles
  }

  function Pot(b: Board, s: Side): int {
    match s
    case North => b.northPot
    case South => b.southPot
  }

  function WithRow(b: Board, s: Side, row: seq<int>): Board {
    match s
    case North => b.(northHoles := row)
    case South => b.(southHoles := row)
  }

  function WithPot(b: Board, s: Side, n: int): Board {
    match s
    case North => b.(northPot := n)
    case South => b.(southPot := n)
  }

  /** The sum of a row, accumulated front to back as the source's loops do. */
  function Sum(s: seq<int>): int {
    if s == [] then 0 else Sum(s[..|s| - 1]) + s[|s| - 1]
  }

  /** Every bean on the board: both rows and both pots. */
  function Total(b: Board): int {
    Sum(b.northHoles) + Sum(b.southHoles) + b.northPot + b.southPot
  }

  /** Pit `h` of side `s` is a legal move: it is in range and holds a bean. */
  predicate LegalHole(b: Board, s: Side, h: int)
    requires WellFormed(b)
  {
    1 <= h <= b.numHoles && Beans(b, s, h) > 0
  }

  predicate HasLegalMove(b: Board, s: Side)
    requires WellFormed(b)
  {
    exists h :: 1 <= h <= b.numHoles && Beans(b, s, h) > 0
  }

  /** Board::new: a non-positive hole count is raised to 1; every pit gets `initial`, pots start empty. */
  function NewBoard(nHoles: int, initial: int): (b: Board)
    ensures WellFormed(b)
    ensures b.numHoles == if nHoles <= 0 then 1 else nHoles
    ensures forall s: Side, h :: 1 <= h <= b.numHoles ==> Beans(b, s, h) == initial
    ensures Beans(b, North, 0) == 0 && Beans(b, South, 0) == 0
    ensures initial >= 0 ==> NonNegative(b)
  {
    var n := if nHoles <= 0 then 1 else nHoles;
    Board(seq(n, _ => initial), seq(n, _ => initial), 0, 0, n)
  }

  /** Board::beans: the pot for hole 0, a pit for 1..numHoles, and the sentinel -1 otherwise. */
  function Beans(b: Board, s: Side, hole: int): (r: int)
    requires WellFormed(b)
    ensures hole < 0 || hole > b.numHoles ==> r == -1
  {
    if hole < 0 || hole > b.numHoles then -1
    else if hole == 0 then Pot(b, s)
    else Row(b, s)[hole - 1]
  }

  /** The result of a mutator: whether it succeeded, and the board afterwards. */
  datatype Update = Update(ok: bool, board: Board)

  /** Board::set_beans: writes one slot, or fails and changes nothing. */
  function SetBeans(b: Board, s: Side, hole: int, beans: int): (r: Update)
    requires WellFormed(b)
    ensures WellFormed(r.board) && r.board.numHoles == b.numHoles
    ensures r.ok <==> 0 <= hole <= b.numHoles && beans >= 0
    ensures !r.ok ==> r.board == b
    ensures r.ok ==> Beans(r.board, s, hole) == beans
    ensures forall t: Side, h :: t != s || h != hole ==> Beans(r.board, t, h) == Beans(b, t, h)
  {
    if hole < 0 || hole > b.numHoles || beans < 0 then Update(false, b)
    else if hole == 0 then Update(true, WithPot(b, s, beans))
    else Update(true, WithRow(b, s, Row(b, s)[hole - 1 := beans]))
  }

  /** On success set_beans changes the total by the difference it wrote, and keeps counts non-negative. */
  lemma SetBeansTotal(b: Board, s: Side, hole: int, beans: int)
    requires WellFormed(b)
    ensures var r := SetBeans(b, s, hole, beans);
            Total(r.board) == Total(b) + (if r.ok then beans - Beans(b, s, hole) else 0)
            && (NonNegative(b) ==> NonNegative(r.board))
  {
    if 1 <= hole <= b.numHoles && beans >= 0 {
      SumUpdate(Row(b, s), hole - 1, beans);
    }
  }

  /** Over non-negative counts, exactly the in-range holes report a non-negative count. */
  lemma BeansNonNegative(b: Board, s: Side, hole: int)
    requires WellFormed(b) && NonNegative(b)
    ensures Beans(b, s, hole) >= 0 <==> 0 <= hole <= b.numHoles
  {
  }

  /** Board::move_to_pot: empties one pit (never a pot) into `owner`'s pot. */
  function MoveToPot(b: Board, s: Side, hole: int, owner: Side): (r: Update)
    requires WellFormed(b)
    ensures WellFormed(r.board) && r.board.numHoles == b.numHoles
    ensures r.ok <==> 1 <= hole <= b.numHoles
    ensures !r.ok ==> r.board == b
    ensures r.ok ==> Beans(r.board, s, hole) == 0 && Pot(r.board, owner) == Pot(b, owner) + Beans(b, s, hole)
    ensures r.ok ==> forall t: Side, h :: (t != s || h != hole) && (t != owner || h != 0) ==>
                       Beans(r.board, t, h) == Beans(b, t, h)
  {
    if hole <= 0 || hole > b.numHoles then Update(false, b)
    else
      var removed := Row(b, s)[hole - 1];
      var emptied := WithRow(b, s, Row(b, s)[hole - 1 := 0]);
      Update(true, WithPot(emptied, owner, Pot(emptied, owner) + removed))
  }

  /** move_to_pot neither creates nor destroys beans, and keeps every count non-negative. */
  lemma MoveToPotConserves(b: Board, s: Side, hole: int, owner: Side)
    requires WellFormed(b)
    ensures Total(MoveToPot(b, s, hole, owner).board) == Total(b)
    ensures NonNegative(b) ==> NonNegative(MoveToPot(b, s, hole, owner).board)
  {
    if 1 <= hole <= b.numHoles {
      SumUpdate(Row(b, s), hole - 1, 0);
    }
  }

  /** Board::beans_in_play: the sum of one side's pits, its pot excluded. */
  method BeansInPlay(b: Board, s: Side) returns (acc: int)
    requires WellFormed(b)
    ensures acc == Sum(Row(b, s))
  {
    var row := Row(b, s);
    acc := 0;
    for i := 0 to |row|
      invariant acc == Sum(row[..i])
    {
      assert row[..i + 1][..i] == row[..i];
      acc := acc + row[i];
    }
    assert row[..|row|] == row;
  }

  /** Board::total_beans: North's pits, then South's, then both pots. */
  method TotalBeans(b: Board) returns (acc: int)
    requires WellFormed(b)
    ensures acc == Total(b)
  {
    acc := 0;
    for i := 0 to |b.northHoles|
      invariant acc == Sum(b.northHoles[..i])
    {
      assert b.northHoles[..i + 1][..i] == b.northHoles[..i];
      acc := acc + b.northHoles[i];
    }
    assert b.northHoles[..|b.northHoles|] == b.northHoles;
    for i := 0 to |b.southHoles|
      invariant acc == Sum(b.northHoles) + Sum(b.southHoles[..i])
    {
      assert b.southHoles[..i + 1][..i] == b.southHoles[..i];
      acc := acc + b.southHoles[i];
    }
    assert b.southHoles[..|b.southHoles|] == b.southHoles;
    acc := acc + (b.northPot + b.southPot);
  }

  lemma {:induction false} SumUpdate(s: seq<int>, i: int, v: int)
    requires 0 <= i < |s|
    ensures Sum(s[i := v]) == Sum(s) - s[i] + v
  {
    var t := s[i := v];
    if i < |s| - 1 {
      assert t[..|t| - 1] == s[..|s| - 1][i := v];
      SumUpdate(s[..|s| - 1], i, v);
    } else {
      assert t[..|t| - 1] == s[..|s| - 1];
    }
  }

  lemma {:induction false} SumNonNegative(s: seq<int>)
    requires AllNonNegative(s)
    ensures Sum(s) >= 0
  {
    if s != [] {
      SumNonNegative(s[..|s| - 1]);
    }
  }

  /** Over non-negative counts, a row sums to more than zero exactly when one entry does. */
  lemma {:induction false} SumPositive(s: seq<int>)
    requires AllNonNegative(s)
    ensures Sum(s) > 0 <==> exists i :: 0 <= i < |s| && s[i] > 0
  {
    if s != [] {
      var init := s[..|s| - 1];
      SumPositive(init);
      SumNonNegative(init);
      if exists i :: 0 <= i < |init| && init[i] > 0 {
        var i :| 0 <= i < |init| && init[i] > 0;
        assert s[i] > 0;
      }
      if exists i :: 0 <= i < |s| && s[i] > 0 {
        var i :| 0 <= i < |s| && s[i] > 0;
        if i < |init| { assert init[i] > 0; }
      }
    }
  }

  /** A side has a legal move exactly when beans_in_play is positive (the canonical test). */
  lemma InPlayPositiveIffLegalMove(b: Board, s: Side)
    requires WellFormed(b) && NonNegative(b)
    ensures Sum(Row(b, s)) > 0 <==> HasLegalMove(b, s)
  {
    var row := Row(b, s);
    SumPositive(row);
    if exists i :: 0 <= i < |row| && row[i] > 0 {
      var i :| 0 <= i < |row| && row[i] > 0;
      assert Beans(b, s, i + 1) > 0;
    }
    if HasLegalMove(b, s) {
      var h :| 1 <= h <= b.numHoles && Beans(b, s, h) > 0;
      assert row[h - 1] > 0;
    }
  }

  /** Two boards of the same shape whose pits of side `s` agree have equal rows for `s`. */
  lemma RowsAgree(b1: Board, b2: Board, s: Side)
    requires WellFormed(b1) && WellFormed(b2) && b1.numHoles == b2.numHoles
    requires forall h :: 1 <= h <= b1.numHoles ==> Beans(b1, s, h) == Beans(b2, s, h)
    ensures Row(b1, s) == Row(b2, s)
  {
    forall i | 0 <= i < b1.numHoles
      ensures Row(b1, s)[i] == Row(b2, s)[i]
    {
      assert Beans(b1, s, i + 1) == Beans(b2, s, i + 1);
    }
  }

  /** A pot never exceeds the board's total when no count is negative. */
  lemma PotAtMostTotal(b: Board, s: Side)
    requires NonNegative(b)
    ensures 0 <= Pot(b, s) <= Total(b)
  {
    SumNonNegative(b.northHoles);
    SumNonNegative(b.southHoles);
  }

  /** A row whose entries all equal `v` sums to its length times `v`. */
  lemma {:induction false} SumConstant(s: seq<int>, v: int)
    requires forall i :: 0 <= i < |s| ==> s[i] == v
    ensures Sum(s) == |s| * v
  {
    if s != [] {
      SumConstant(s[..|s| - 1], v);
    }
  }

  /** A new board holds 2 * numHoles * initial beans, so its total is even. */
  lemma NewBoardTotal(nHoles: int, initial: int)
    ensures var b := NewBoard(nHoles, initial);
            Total(b) == 2 * b.numHoles * initial && Total(b) % 2 == 0
  {
    var b := NewBoard(nHoles, initial);
    SumConstant(b.northHoles, initial);
    SumConstant(b.southHoles, initial);
  }
}
