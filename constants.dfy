/** The constant tables shared by the engine, the AIs and the server. */
module Constants {
  /** Piece colours: an empty cell, the black stones (who move first) and the white stones. */
  const EMPTY: int := 0
  const BLACK: int := 1
  const WHITE: int := 2

  /** The standard board is 15 by 15. */
  const BOARD_SIZE: nat := 15

  predicate IsPieceColor(c: int) { c == EMPTY || c == BLACK || c == WHITE }

  /** The three piece colours, in declaration order. */
  function PieceColors(): (cs: seq<int>)
    ensures forall i, j :: 0 <= i < j < |cs| ==> cs[i] != cs[j]
    ensures forall c :: c in cs <==> IsPieceColor(c)
  {
    [EMPTY, BLACK, WHITE]
  }

  /** The colour that moves against c: white against black, black against anything else. */
  function OpponentColor(c: int): (o: int)
    ensures IsPieceColor(o) && o != EMPTY
    ensures c == BLACK <==> o == WHITE
    ensures c == WHITE ==> o == BLACK
  {
    if c == BLACK then WHITE else BLACK
  }

  /** Game modes. */
  const PVE: string := "pve"
  const PVP: string := "pvp"
  const ONLINE: string := "online"
  const TRAIN: string := "train"

  function GameModes(): (ms: seq<string>)
    ensures forall i, j :: 0 <= i < j < |ms| ==> ms[i] != ms[j]
    ensures PVE in ms && PVP in ms && ONLINE in ms && TRAIN in ms && |ms| == 4
  {
    [PVE, PVP, ONLINE, TRAIN]
  }

  /** AI difficulty levels. */
  const EASY: string := "easy"
  const MEDIUM: string := "medium"
  const HARD: string := "hard"
  const EXPERT: string := "expert"

  function AiLevels(): (ls: seq<string>)
    ensures |ls| == 4
    ensures forall i, j :: 0 <= i < j < |ls| ==> ls[i] != ls[j]
    ensures EASY in ls && MEDIUM in ls && HARD in ls && EXPERT in ls
  {
    [EASY, MEDIUM, HARD, EXPERT]
  }

  /**
   * The pattern weights, one field per pattern, laid out as the native
   * core's Weights record.
   */
  datatype Weights = Weights(
    five: int, four: int, blockedFour: int, three: int,
    blockedThree: int, two: int, blockedTwo: int, one: int)

  predicate StrictlyDecreasing(w: Weights)
  {
    w.five > w.four > w.blockedFour > w.three > w.blockedThree
      > w.two > w.blockedTwo > w.one > 0
  }

  /** The default evaluation weights. */
  function EvalWeights(): (w: Weights)
    ensures StrictlyDecreasing(w)
    ensures w.five == 10 * w.four
  {
    Weights(100000, 10000, 5000, 1000, 500, 100, 50, 10)
  }

  /** The zero-initialised weights record (every weight 0). */
  function ZeroWeights(): Weights
  {
    Weights(0, 0, 0, 0, 0, 0, 0, 0)
  }

  /** The five star points of the 15 by 15 board. */
  function StarPositions(): (ps: seq<(int, int)>)
    ensures |ps| == 5
    ensures forall k :: 0 <= k < |ps| ==> 0 <= ps[k].0 < BOARD_SIZE && 0 <= ps[k].1 < BOARD_SIZE
    ensures (BOARD_SIZE / 2, BOARD_SIZE / 2) in ps
    ensures forall i, j :: 0 <= i < j < |ps| ==> ps[i] != ps[j]
  {
    [(3, 3), (3, 11), (7, 7), (11, 3), (11, 11)]
  }
}
