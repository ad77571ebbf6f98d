/**
 * The helpers every searcher shares: the opponent's colour (Constants),
 * the empty cells (Boards.CollectEmpty), the win test on top of the native
 * game-end check, and the thinking notification.
 */
module BaseAi {
  import opened Wrappers
  import opened Constants
  import opened Boards
  import opened Windows

  /** The line the binding hands back with a game-end result: the five cells of a stone's win, else nothing. */
  function ReportedLine(r: GameEndResult): seq<Pos>
  {
    if r.isEnd && r.winner != 0 && r.winLineSize == 5 then r.winLine else []
  }

  /**
   * Whether c has won, with the reported line: the game-end check must
   * report the end with c as the winner.  A win of a stone colour comes
   * with five consecutive cells of that colour; any other outcome is not a
   * win for c.
   */
  function IsWin(b: Board, n: nat, c: int): (r: (bool, seq<Pos>))
    requires IsSquare(b, n)
    ensures r.0 <==> GameEnd(b, n, NativeScans(n)).isEnd && GameEnd(b, n, NativeScans(n)).winner == c
    ensures r.0 && c != EMPTY ==>
      |r.1| == 5 && forall k :: 0 <= k < 5 ==> InBounds(n, r.1[k]) && At(b, r.1[k]) == c
    ensures r.0 && c == EMPTY ==> r.1 == []
  {
    GameEndWinner(b, n, NativeScans(n));
    GameEndNoWinner(b, n, NativeScans(n));
    var g := GameEnd(b, n, NativeScans(n));
    (g.isEnd && g.winner == c, ReportedLine(g))
  }

  /** A stone colour has won only with five of its stones in a row somewhere on the board. */
  lemma WinNeedsFive(b: Board, n: nat, c: int)
    requires IsSquare(b, n) && c != EMPTY && IsWin(b, n, c).0
    ensures !NoFive(b, n, NativeScans(n))
  {
    GameEndNoWinner(b, n, NativeScans(n));
  }

  /** A thinking callback, by identity, and what a call of it delivers. */
  datatype Notification<D> = Notification(callback: nat, data: D)

  /** The notifications a _notify_thinking call delivers: one to the callback when one is set, none otherwise. */
  function NotifyThinking<D>(callback: Option<nat>, data: D): (delivered: seq<Notification<D>>)
    ensures callback.None? <==> delivered == []
    ensures callback.Some? ==> delivered == [Notification(callback.value, data)]
  {
    match callback
    case None => []
    case Some(f) => [Notification(f, data)]
  }
}
