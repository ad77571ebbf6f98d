# Gomoku engine and services, modelled in Dafny

This project models the rule engine, evaluator, searchers and surrounding services of a Gomoku (five-in-a-row) program on a 15 by 15 board. The program has a Python side and a C++ native core. Each module below follows one source file. Colours are EMPTY 0, BLACK 1 and WHITE 2. Boards are `seq<seq<int>>`.

- **Rules.**
  - `RuleEngine` is the Python fallback: move validation (position, occupancy, turn parity), the game-end scan, board legality and the win-line finder.
  - `GobangCore` is the C++ core: validation, placement, the four stride scans, `check_line`, the pattern scorer, the winning-move finder and the MCTS neighbour refinement.
  - `Windows` and `Boards` hold the shared five-in-a-row windows and board operations.
- **Evaluation.**
  - `Evaluator`: the (count, blocked) → score and name tables, the pattern recogniser, board and move evaluation, and move-quality analysis.
  - `BaseAi`: the helpers the searchers share.
- **Search.**
  - `MinimaxAi`: alpha-beta over simulated moves, with the top 15 candidates and a depth-scaled win score.
  - `MctsAi`: an MCTS tree stored as an index arena, with expansion, backpropagation, greedy rollouts and selection by visits.
  - `Sorting` and `ExtReals` hold the stable descending sort and the ±infinity bounds they use.
- **Game state.**
  - `GameCore` (class `GameCore`): the session state machine, proved to keep the board equal to the replay of the history, with turn parity and no five while the game runs.
  - `BoardAnalyzer`: the replay analyser.
- **Server.**
  - `Rooms` (class `Room`): the room state machine.
  - `RoomRegistry` (class `RoomManager`): the room registry, with an invariant that every request keeps.
  - `DataSync` (class `DataSyncManager`): the full or incremental board sync and the bounded pending queue.
- **Common.**
  - `Events` (class `EventManager`): the listener registry.
  - `Security`: PKCS#7 padding (section 6.3 of RFC 5652), the XOR fallback cipher and the token layout.
  - `DataUtils`: board text, index and batch round trips and time formatting.
  - `Constants`, `Strings`, `Seqs`, `Wrappers` and `Json` are shared definitions.
- **Ranking and storage.**
  - `Ranking` and `Standings`: the Elo bookkeeping, upsert and re-rank.
  - `RankingStore`, `UserStore`, `RecordStore` and `ModelStore`: the JSON stores, their default filling, file names, ordering and versioning.
  - `Training`: the training-data bookkeeping.
- **UI.**
  - `BoardView`: the screen↔board conversion and reset.
  - `MainWindow`: the form and button checks.

Stateful source objects are classes whose methods are proved against specification functions. Those functions carry the lemmas. Clocks, randomness, hashes, CRCs, file listings and the AI's chosen move are parameters.

## Model

| member | source | states |
|---|---|---|
| Constants.PieceColors | Commom/constants.py:28-31 | The piece colours EMPTY 0, BLACK 1, WHITE 2 are distinct, and a value is a piece colour exactly when it is one of them |
| Constants.OpponentColor | AI/base_ai.py:10 | The opponent of BLACK is WHITE and of anything else is BLACK, so it is always a stone colour |
| Constants.GameModes | Commom/constants.py:34-38 | The four game modes pve, pvp, online, train are distinct |
| Constants.AiLevels | Commom/constants.py:41-45 | The four AI levels easy, medium, hard, expert are distinct |
| Constants.EvalWeights | Commom/constants.py:81-90 | The pattern weights FIVE > FOUR > BLOCKED_FOUR > THREE > BLOCKED_THREE > TWO > BLOCKED_TWO > ONE, with FIVE ten times FOUR |
| Constants.StarPositions | Commom/constants.py:126 | Five distinct star points, all on the 15x15 board, the centre among them |
| Strings.NatToString | Commom/data_utils.py:18 | str() of a natural number is a non-empty string of digits, a single digit exactly below 10 |
| Strings.NatToStringRoundTrip | Commom/data_utils.py:18-26 | Reading back the digits of str(n) gives n |
| Strings.Strip | UI/main_window.py:772 | str.strip(): neither end of the result is whitespace, and it is empty exactly when the text is all whitespace |
| Strings.StripIdempotent | UI/main_window.py:772 | Stripping twice is stripping once |
| Strings.StripPadded | UI/main_window.py:772 | Whitespace put around a trimmed text is removed exactly, leaving that text |
| Strings.IntStrip | Commom/data_utils.py:26 | The whitespace int() skips (tab to carriage return, space, non-ASCII whitespace, not \x1c-\x1f) is gone from both ends, and the result is empty exactly when the text is all such whitespace |
| Strings.ParseInt | Commom/data_utils.py:26 | int() of text that is all int() whitespace fails, and a negative result comes from text whose first character after that whitespace is '-' |
| Strings.ParseIntAccepts | Commom/data_utils.py:26 | int() succeeds exactly when the stripped text is an optional sign followed by at least one digit |
| Strings.PaddedParse | Commom/data_utils.py:26 | Whitespace int() skips, around a number, does not change what int() reads |
| Strings.SeparatorNotSkipped | Commom/data_utils.py:26 | A '\x1c' before digits is removed by str.strip() but makes int() fail |
| Strings.LeadingUnderscoreFails | Commom/data_utils.py:26 | Text starting with '_' is not a number |
| Strings.ParseDigits | Commom/data_utils.py:26 | int() of a non-empty digit string is its decimal value |
| Strings.ParseNegative | Commom/data_utils.py:26 | int() of "-" followed by digits is the negated value |
| Strings.ParseIntRoundTrip | Commom/data_utils.py:18-26 | int(str(i)) == i for every integer |
| Strings.NatToStringInjective | Commom/data_utils.py:18 | Different natural numbers print differently |
| Strings.IndexOf | Storage/user_storage.py:60-67 | The first position of a character: it is there and nowhere before |
| Strings.Split | Commom/data_utils.py:26 | str.split(sep) gives at least one part |
| Strings.SplitAtMost | Storage/model_storage.py:203-213 | str.split(sep, maxsplit) gives between 1 and maxsplit + 1 parts |
| Strings.JoinContains | Commom/data_utils.py:18 | Parts free of the separator joined contain it exactly when there are at least two parts |
| Strings.SplitJoin | Commom/data_utils.py:18-26 | Splitting a join of separator-free parts gives back the parts |
| Strings.IntToStringAvoids | Commom/data_utils.py:18 | str(i) holds only digits and '-' |
| Strings.JoinAvoids | Commom/data_utils.py:18 | A join contains no character other than the separator that the parts lack |
| Strings.SplitAtMostCut | Storage/model_storage.py:203-213 | A bounded split takes the text before the first separator as its first part |
| Strings.SplitAtMostJoin | Storage/model_storage.py:203-213 | Joining a bounded split gives back the string |
| Seqs.FirstMaxIndexSpec | AI/training_manager.py:228 | max() with a key returns the first element whose key is maximal: no key is larger, none before it equals it |
| Seqs.FirstMaxOfConstant | AI/training_manager.py:228 | When all keys are equal the first element is returned |
| Seqs.FirstMaxIndexStep | AI/training_manager.py:228 | Extending the list moves the first maximum only to a strictly larger new key |
| Seqs.FirstAboveSpec | AI/evaluator.py:147-153 | A strict `>` scan from a starting best keeps the first strictly largest value above the start, or none when no value exceeds it |
| Seqs.FirstAboveStep | AI/evaluator.py:147-153 | One more step of the strict `>` scan replaces the best exactly when the new value is larger |
| Seqs.FlattenAppend | Commom/data_utils.py:151-156 | Concatenating batch lists concatenates their contents |
| DataUtils.CellStrings | Commom/data_utils.py:18 | One string per cell, none containing ',' or ';' |
| DataUtils.RowString | Commom/data_utils.py:18 | A printed row never contains ';' |
| DataUtils.RowStrings | Commom/data_utils.py:18 | One printed row per board row, none containing ';' |
| DataUtils.ParseCells | Commom/data_utils.py:26 | A row parses exactly when every cell parses as an integer, and then cell k is int() of part k |
| DataUtils.ParseRows | Commom/data_utils.py:23-28 | str_to_board succeeds (no StorageError) exactly when every row parses, and then row i is the parse of part i |
| DataUtils.RowRoundTrip | Commom/data_utils.py:15-28 | A printed row parses back to itself exactly when it is non-empty |
| DataUtils.StrToBoardRoundTrip | Commom/data_utils.py:15-28 | str_to_board(board_to_str(b)) == b exactly when b and all its rows are non-empty; otherwise it raises |
| DataUtils.BoardToStr | Commom/data_utils.py:15-21 | A board with rows splits at ';' back into its rows' texts, and the text holds a ';' exactly when there are two rows or more |
| DataUtils.StrToBoard | Commom/data_utils.py:23-28 | A parsed board has one row per ';'-separated part and no empty row |
| DataUtils.FloorDiv | Commom/data_utils.py:38 | Python's `//`: the quotient rounded toward minus infinity, for either sign of the divisor |
| DataUtils.FloorMod | Commom/data_utils.py:39 | Python's `%`: a == d * (a // d) + r with r taking the sign of d and smaller than it |
| DataUtils.IndexToMove | Commom/data_utils.py:36-40 | index_to_move raises only for size 0; otherwise move_to_index of its result is the index again and y lies in [0, n) |
| DataUtils.MoveToIndex | Commom/data_utils.py:31-33 | A move on an n-by-n board maps to an index from 0 to n*n - 1 |
| DataUtils.MoveIndexRoundTrip | Commom/data_utils.py:31-40 | index_to_move(move_to_index(x, y, n), n) == (x, y) whenever 0 <= y < n |
| DataUtils.ValidateBoard | Commom/data_utils.py:67-77 | validate_board is true exactly when the board is n by n and every cell is EMPTY, BLACK or WHITE |
| DataUtils.GetBoardEmptyPositions | Commom/data_utils.py:165-173 | The empty cells of the board, each once, in row-major order |
| DataUtils.GetBoardCenter | Commom/data_utils.py:176-178 | The centre (n // 2, n // 2): a diagonal cell with 2c <= n < 2c + 2 |
| DataUtils.BatchesSpec | Commom/data_utils.py:151-156 | The batches concatenate to the data, each has 1 to batch_size items, and all but the last are full |
| DataUtils.BatchesStep | Commom/data_utils.py:151-156 | The batch starting at i is data[i:i+batch_size], followed by the batches of the rest |
| DataUtils.SplitBatch | Commom/data_utils.py:151-156 | range() raises for a zero step, gives no batch for a negative one, and otherwise yields exactly the batches above |
| DataUtils.TimeParts | Commom/data_utils.py:181-185 | hours * 3600 + minutes * 60 + seconds is the input, with minutes and seconds in [0, 60) |
| DataUtils.Pad2 | Commom/data_utils.py:186 | A `:02d` field has at least two characters, no ':', and parses back to its value |
| DataUtils.FormatTime | Commom/data_utils.py:181-186 | The text has exactly three ':'-separated fields |
| DataUtils.FormatTimeRoundTrip | Commom/data_utils.py:181-186 | Parsing the HH:MM:SS text back gives the number of seconds |
| DataUtils.FormatTimeLayout | Commom/data_utils.py:181-186 | Below 100 hours the text is eight characters, two digits on each side of each ':' |
| BaseAi.IsWin | AI/base_ai.py:39-44 | _is_win is true exactly when the game has ended with that colour as winner, and then the line is five of its stones on the board |
| BaseAi.WinNeedsFive | AI/base_ai.py:39-44 | A stone colour wins only when some five-in-a-row exists |
| BaseAi.NotifyThinking | AI/base_ai.py:25-28 | The callback receives the data once when it is set, and nothing happens when it is not |
| Boards.Set | cpp/core/gobang_core.cpp:34-43 | place_piece changes the one cell to the colour and leaves the shape and every other cell alone |
| Boards.EmptyBoard | Game/game_core.py:189-197 | A fresh n by n board with every cell EMPTY |
| Boards.SetTwice | cpp/core/gobang_core.cpp:34-43 | Placing the same colour twice at a cell is placing it once |
| Boards.SetKeepsSquare | cpp/core/gobang_core.cpp:34-43 | Placing a piece keeps the board n by n |
| Boards.CountColorSet | Game/rule_engine.py:126-127 | Overwriting a cell lowers the count of its old colour by one, unless the colour is unchanged |
| Boards.CountColorWrite | Game/rule_engine.py:126-127 | Writing a cell moves one unit of count from the old colour to the new |
| Boards.EmptyCountDrops | Game/game_core.py:203-253 | Placing a stone on an empty cell leaves one fewer empty cell |
| Boards.EmptyCells | AI/base_ai.py:30-37 | _get_empty_positions: exactly the empty cells, in row-major order |
| Boards.EmptyCellsDistinct | AI/base_ai.py:30-37 | No empty cell is listed twice |
| Boards.FullIffNoEmptyCells | Game/rule_engine.py:80 | The board is full exactly when it has no empty cell |
| Boards.CollectEmpty | AI/base_ai.py:30-37 | The nested loop collects exactly the empty-cell list |
| Windows.Line | Game/rule_engine.py:46 | A win line is the five cells from its start along the direction |
| Windows.ScansFit | cpp/core/gobang_core.cpp:53-147 | Every window both the Python and the native scans visit lies on the board |
| Windows.FirstFiveSpec | cpp/core/gobang_core.cpp:54-75 | One scan from a point returns the first window in loop order holding five equal stones, and none is skipped |
| Windows.ScanFiveSpec | Game/rule_engine.py:40-77 | A scan finds nothing exactly when none of its windows holds five; otherwise it reports the first in loop order |
| Windows.FirstHitSpec | cpp/core/gobang_core.cpp:46-147 | The four directions are tried in order, and the first that finds a five is reported |
| Windows.GameEndWinner | cpp/core/gobang_core.cpp:46-147 | A reported winner ends the game with a five-cell line of its stones, the first in scan order |
| Windows.GameEndNoWinner | cpp/core/gobang_core.cpp:149-165 | No winner exactly when there is no five, and then the game has ended exactly when the board is full, with an empty line |
| Windows.FiveAtReversed | cpp/core/gobang_core.cpp:125-147 | A five read from its far end in the opposite direction is the same five |
| Windows.AntiDiagonalsAgree | Game/rule_engine.py:69-77 | The Python anti-diagonal scan (going up) and the native one (going down) find a five on the same boards |
| Windows.NoFiveOfFour | Game/rule_engine.py:39-77 | No five on the board means no five in any of the four directions |
| Windows.PythonAndNativeAgree | Game/rule_engine.py:32-84 | The Python fallback and the native check agree on whether the game has ended and whether there is a winner |
| Windows.RunLengthStep | cpp/core/gobang_core.cpp:250-264 | check_line counts one more for each matching stone it steps over |
| Windows.RunLengthBounded | cpp/core/gobang_core.cpp:250-264 | The count is at most the board size and stays on the board |
| Windows.RunLengthCells | cpp/core/gobang_core.cpp:250-264 | Every counted cell is on the board and holds the colour |
| Windows.RunLengthStops | cpp/core/gobang_core.cpp:250-264 | The count stops at the first cell off the board or of another colour |
| Windows.RunEndAfterRun | AI/evaluator.py:68-73 | The cell where a run stops is the run length steps along |
| Windows.RunEndStep | AI/evaluator.py:68-73 | Stepping over a matching stone does not move the end of the run |
| RuleEngine.ValidatePosition | Game/rule_engine.py:112-116 | Valid exactly when (x, y) is on the board; otherwise 'invalid_position' |
| RuleEngine.ValidateOccupied | Game/rule_engine.py:118-122 | Valid exactly when the cell is EMPTY; otherwise 'occupied' |
| RuleEngine.ValidatePlayerTurn | Game/rule_engine.py:124-133 | 'black_turn_invalid' exactly when Black is to play with more black stones, 'white_turn_invalid' likewise for White, 'success' otherwise |
| RuleEngine.EqualCountsEitherMay | Game/rule_engine.py:124-133 | With equal stone counts the turn rule accepts either player |
| RuleEngine.ValidateMove | Game/rule_engine.py:25-30 | The rules run in order position, occupied, player turn: the first that fails gives the reason, and the move is valid exactly when all pass |
| RuleEngine.CheckGameEnd | Game/rule_engine.py:38-84 | A winner comes with a five-cell line of its stones that is a window of one of the four scans; no winner exactly when there is no five, and then the game has ended exactly when the board is full |
| RuleEngine.AllFivesFirst | Game/rule_engine.py:138-145 | The first line a scan collects is the one check_game_end would report for that scan |
| RuleEngine.AllFivesComplete | Game/rule_engine.py:138-145 | Every window of the scan that holds five is collected |
| RuleEngine.WinLinesStartWithGameEnd | Game/rule_engine.py:135-170 | The collected list is empty exactly when no scan finds a five, and starts with the first scan's first five |
| RuleEngine.FirstWinLineIsReported | Game/rule_engine.py:32-170 | _find_all_win_lines is empty exactly when check_game_end names no winner, and its first line is the reported win line |
| RuleEngine.AllWinLinesHasEachScan | Game/rule_engine.py:135-170 | Every line any of the four scans finds is in the result |
| RuleEngine.SixInARowGivesTwoLines | Game/rule_engine.py:105-107 | Six in a row counts as two win lines, so is_valid_board rejects it as multiple_win_lines |
| RuleEngine.AppendFives | Game/rule_engine.py:139-145 | One nested scan loop appends exactly the fives of that scan |
| RuleEngine.FindAllWinLines | Game/rule_engine.py:135-170 | The four loops produce exactly the lines of the four scans, in scan order |
| RuleEngine.IsValidBoard | Game/rule_engine.py:86-109 | The checks in order: size, then the first bad colour in row-major order, then a stone count difference above 1, then more than one win line; 'success' exactly when all pass |
| Evaluator.PatternOrder | AI/evaluator.py:89-113 | Pattern names are distinct, and a stronger pattern has a strictly larger weight |
| Evaluator.GetPatternName | AI/evaluator.py:102-113 | The run length is capped at five and floored at one, and the pattern is open exactly for 2 to 4 stones with no blocked end |
| Evaluator.CalcPatternScore | AI/evaluator.py:89-100 | The score is the weight of the named pattern |
| Evaluator.ClassifyScore | AI/evaluator.py:37-52 | The native threshold chain names the strongest pattern whose weight the score reaches, or ONE below BLOCKED_TWO |
| Evaluator.ClassifyStrongest | AI/evaluator.py:37-52 | No pattern stronger than the one named has a weight the score reaches |
| Evaluator.ClassifyWeight | AI/evaluator.py:37-52 | A pattern's own weight is classified as that pattern |
| Evaluator.DirBlocked | AI/evaluator.py:72-81 | Each end adds at most one blocked side, so 0 to 2 |
| Evaluator.RecognizeIsFirstMax | AI/evaluator.py:57-87 | The recognised score is the largest direction score, from the first direction that reaches it, and is the weight of the recognised pattern |
| Evaluator.Walk | AI/evaluator.py:67-71 | The while loop adds the run length of colour c and stops where the run ends |
| Evaluator.Neighbours | AI/evaluator.py:64-81 | count is 1 plus both runs, blocked counts the occupied cells just past them |
| Evaluator.ScanDirection | AI/evaluator.py:64-81 | One direction's loops compute exactly that count and blocked |
| Evaluator.RecognizeStep | AI/evaluator.py:83-86 | A strictly larger score replaces the best pattern; a tie keeps it |
| Evaluator.RecognizedAll | AI/evaluator.py:62-87 | After the four directions the running best is the recognised pattern |
| Evaluator.ConsiderDirection | AI/evaluator.py:62-86 | One pass of the direction loop keeps the running best |
| Evaluator.PythonRecognizePattern | AI/evaluator.py:57-87 | _python_recognize_pattern returns the recognised pattern and its score times the position weight |
| Evaluator.EvaluateBoard | AI/evaluator.py:115-126 | The sum of own stones' scores minus the opponent stones' scores |
| Evaluator.ScoreBeforeAntisymmetric | AI/evaluator.py:115-126 | Every prefix of the sum for Black is minus that for White |
| Evaluator.BoardScoreAntisymmetric | AI/evaluator.py:115-126 | evaluate_board for Black is minus evaluate_board for White |
| Evaluator.EvaluateMove | AI/evaluator.py:128-136 | The board score after the stone minus before, plus the position weight |
| Evaluator.MoveOntoOwnStone | AI/evaluator.py:128-136 | Re-placing a stone already there scores only the position weight |
| Evaluator.MoveValues | AI/evaluator.py:144-150 | One value per candidate cell |
| Evaluator.MoveValuesAt | AI/evaluator.py:147 | Value k is the evaluate_move of cell k |
| Evaluator.BestOfStep | AI/evaluator.py:148-150 | The best moves only on a strictly larger value |
| Evaluator.EmptyCellValue | AI/evaluator.py:144-147 | Every empty cell is among those scanned |
| Evaluator.BestIsUpperBound | AI/evaluator.py:141-150 | The best score is at least 0 and no empty cell scores more |
| Evaluator.BestIsFirstGreatest | AI/evaluator.py:141-150 | A zero best keeps (x, y); a positive one is the first empty cell in row-major order with that value |
| Evaluator.BestEmptyCell | AI/evaluator.py:141-150 | The two facts above together |
| Evaluator.Quality | AI/evaluator.py:153 | min(100, score / best * 100) when best > 0, else 0: at most 100, exactly 100 when the move reaches the best, and not negative for a non-negative score |
| Evaluator.ConsiderCell | AI/evaluator.py:145-150 | One pass of the search loop keeps the best of the cells seen |
| Evaluator.AnalyzeMoveQuality | AI/evaluator.py:138-162 | The report holds the move, its pattern, its evaluate_move score, the best move and score over the empty cells, the quality and the position weight |
| Evaluator.BestMoveHasFullQuality | AI/evaluator.py:138-162 | Analysing the best move itself gives quality 100 |
| GobangCore.ValidateMove | cpp/core/gobang_core.cpp:12-31 | 'invalid_position' exactly off the board, then 'occupied' exactly on a stone, then 'invalid_player' exactly for a player other than 1 or 2; valid exactly when none applies, and then the reason is 'success' |
| GobangCore.PlacePiece | cpp/core/gobang_core.cpp:34-43 | The copy has the colour at (x, y) and every other cell as before |
| GobangCore.CheckWindow | cpp/core/gobang_core.cpp:58-66 | The inner k loop reports a win exactly when the five cells from the start all hold its colour, and then the line is those five cells |
| GobangCore.ScanNative | cpp/core/gobang_core.cpp:54-75 | One direction's double loop returns the first window holding five, with its line |
| GobangCore.CheckGameEnd | cpp/core/gobang_core.cpp:46-166 | check_game_end computes exactly the game-end result of the four native scans and the full-board test |
| GobangCore.CheckLine | cpp/core/gobang_core.cpp:250-264 | check_line returns the number of consecutive stones of the colour from (x, y) along the direction |
| GobangCore.DirScoreBounds | cpp/core/gobang_core.cpp:297-307 | One direction adds between ONE and FIVE |
| GobangCore.DirectionBounds | cpp/core/gobang_core.cpp:278-308 | Each direction's share of the score is between ONE and FIVE |
| GobangCore.ScoreFromBounds | cpp/core/gobang_core.cpp:278-308 | The directions from i on add between (4 - i) * ONE and (4 - i) * FIVE |
| GobangCore.PatternScoreBounds | cpp/core/gobang_core.cpp:266-311 | get_pattern_score lies between 4 * ONE and 4 * FIVE |
| GobangCore.ZeroWeightsScoreZero | cpp/core/gobang_core.cpp:237 | With the zero-initialised Weights{} every pattern score is 0 |
| GobangCore.DirScoreOrder | cpp/core/gobang_core.cpp:297-307 | A longer run, or an equal run that is open rather than blocked, scores at least as much |
| GobangCore.TotalAround | cpp/core/gobang_core.cpp:281-283 | total is forward + backward + 1 |
| GobangCore.BlockedAround | cpp/core/gobang_core.cpp:286-294 | blocked exactly when an opponent stone lies just past either end of the run |
| GobangCore.EndsBlocked | cpp/core/gobang_core.cpp:286-294 | The computed flag is that blocked test |
| GobangCore.DirectionScore | cpp/core/gobang_core.cpp:279-307 | One pass of the direction loop adds that direction's score |
| GobangCore.GetPatternScore | cpp/core/gobang_core.cpp:266-311 | The sum of the four direction scores |
| GobangCore.EvaluateMove | cpp/core/gobang_core.cpp:169-180 | The pattern score of the board with the stone placed, between 4 * ONE and 4 * FIVE for ordered weights |
| GobangCore.OneStoneNoFive | cpp/core/gobang_core.cpp:183-202 | A board with one stone has no five |
| GobangCore.NoWinOnEmptyBoard | cpp/core/gobang_core.cpp:183-202 | No single move wins on an empty board |
| GobangCore.FindWinningMove | cpp/core/gobang_core.cpp:183-202 | (-1, -1) exactly when no empty cell wins at once; otherwise the first winning cell in row-major order |
| GobangCore.Candidates | cpp/core/gobang_core.cpp:218-228 | The candidates of an on-board move lie on the board |
| GobangCore.CandidatesUpToSpec | cpp/core/gobang_core.cpp:220-228 | The initial move first, then only empty on-board neighbours |
| GobangCore.CandidatesSpec | cpp/core/gobang_core.cpp:218-228 | The initial move first, followed by the empty neighbours among the eight |
| GobangCore.CollectCandidates | cpp/core/gobang_core.cpp:218-228 | The loop over the eight offsets builds exactly that list |
| GobangCore.ScoreFromNonNegative | cpp/core/gobang_core.cpp:266-311 | With non-negative weights the score is non-negative |
| GobangCore.MoveScores | cpp/core/gobang_core.cpp:231-238 | One score per candidate |
| GobangCore.MoveScoresAt | cpp/core/gobang_core.cpp:237 | Score k is evaluate_move of candidate k |
| GobangCore.MoveScoresScoredAs | cpp/core/gobang_core.cpp:231-238 | The score list matches the candidates |
| GobangCore.RepeatAverage | cpp/core/gobang_core.cpp:233-239 | Adding a value k times and dividing by k gives the value |
| GobangCore.RepeatIsProduct | cpp/core/gobang_core.cpp:233-238 | Adding a value k times is k times it |
| GobangCore.RepeatNonNegative | cpp/core/gobang_core.cpp:233-238 | Repeated addition of a non-negative value stays non-negative |
| GobangCore.SumScores | cpp/core/gobang_core.cpp:232-238 | The iteration loop adds the candidate's score once per iteration |
| GobangCore.AverageScore | cpp/core/gobang_core.cpp:232-239 | The average is the candidate's score for positive iterations, 0 for negative ones and undefined (NaN) for zero |
| GobangCore.BestSoFarStep | cpp/core/gobang_core.cpp:240-243 | A candidate replaces the best only with a strictly greater average |
| GobangCore.PickBest | cpp/core/gobang_core.cpp:231-246 | The first candidate with the highest average, or the initial move when there is no positive iteration count |
| GobangCore.BestCandidate | cpp/core/gobang_core.cpp:205-247 | The chosen move is a candidate: the first with the highest score |
| GobangCore.ZeroMoveScores | cpp/core/gobang_core.cpp:237 | With Weights{} every candidate scores 0 |
| GobangCore.MctsOptimize | cpp/core/gobang_core.cpp:205-247 | mcts_optimize always returns the initial move, since its scores use the zero Weights{} |
| MinimaxAi.GetMaxDepth | AI/minimax_ai.py:20-28 | easy 3, medium 4, hard 5, expert 6, and 5 for any other level |
| MinimaxAi.PosTable | AI/minimax_ai.py:87-96 | A direction adds 0 to 10000, exactly 10000 for five or more, and nothing for runs of two or fewer |
| MinimaxAi.PosTableMonotone | AI/minimax_ai.py:87-96 | A longer or less blocked run never scores less |
| MinimaxAi.PosScoreUpTo | AI/minimax_ai.py:62-97 | The first k directions add between 0 and 10000 * k |
| MinimaxAi.FiveScoresAtLeast | AI/minimax_ai.py:62-97 | A cell in a five scores at least 10000 |
| MinimaxAi.PyBeforeAntisymmetric | AI/minimax_ai.py:50-60 | Every prefix of the fallback sum for Black (opponent White) is minus that for White (opponent Black) |
| MinimaxAi.PyEvalAntisymmetric | AI/minimax_ai.py:50-60 | The Python evaluation of a board for Black is minus that for White |
| MinimaxAi.XMaxOf | AI/minimax_ai.py:35-45 | The running maximum from -inf is at least every score and is -inf or one of them |
| MinimaxAi.XMaxOfFinite | AI/minimax_ai.py:35-45 | Over finite scores the maximum is -inf exactly for no candidates, and otherwise one of the scores |
| MinimaxAi.XMaxOfSnoc | AI/minimax_ai.py:43-44 | A new score replaces the best only when strictly greater |
| MinimaxAi.NativeScores | AI/minimax_ai.py:36-42 | One finite score per candidate cell |
| MinimaxAi.NativeScoresSnoc | AI/minimax_ai.py:36-42 | Candidate k scores the native evaluate_move of that cell |
| MinimaxAi.NativeEval | AI/minimax_ai.py:30-45 | The native evaluation is -inf exactly when the board has no empty cell |
| MinimaxAi.WinValue | AI/minimax_ai.py:102-104 | A won position is worth 10000 * (1 + depth / 10) to the maximiser and the negation to the minimiser: positive exactly for the maximiser |
| MinimaxAi.AdvanceSpec | AI/minimax_ai.py:117-135 | One step of the loop: the maximiser raises alpha to the best score, the minimiser lowers beta, the best only takes strictly better scores, the loop stops exactly when beta <= alpha, and only a root maximiser step records the move |
| MinimaxAi.SearchKeepsBest | AI/minimax_ai.py:119-120 | Below the root the search never changes best_move |
| MinimaxAi.LoopKeepsBest | AI/minimax_ai.py:114-135 | The candidate loop below the root never changes best_move |
| MinimaxAi.RootBestIsSearched | AI/minimax_ai.py:112-124 | After the root search best_move is the starting one or one of the root candidates |
| MinimaxAi.RootLoopBest | AI/minimax_ai.py:114-123 | The root loop only records candidates it searches |
| MinimaxAi.NoCellsIsInfinite | AI/minimax_ai.py:112-136 | With no candidate the maximiser returns -inf and the minimiser +inf |
| MinimaxAi.Child | AI/minimax_ai.py:138-142 | The child board differs from the parent only in the placed stone |
| MinimaxAi.Keyed | AI/minimax_ai.py:110 | Each candidate is paired with its sort key, the evaluation after the move |
| MinimaxAi.Candidates | AI/minimax_ai.py:109-114 | At most 15 candidates, all empty cells of the board |
| MinimaxAi.MinimaxGameAgrees | AI/minimax_ai.py:99-142 | The search tree used by the proofs is the one the class's methods compute |
| MinimaxAi.RootBestIsEmptyCell | AI/minimax_ai.py:99-136 | The move the root search picks is the starting one or an empty cell of the board |
| MinimaxAi.Painted | AI/minimax_ai.py:172-174 | The thinking grid holds the value at the painted cells and 0 elsewhere |
| MinimaxAi.PaintedNothing | AI/minimax_ai.py:152 | Painting nothing leaves the zero grid |
| MinimaxAi.PaintStep | AI/minimax_ai.py:173-174 | Each loop step writes one more cell |
| MinimaxAi.MinimaxAI.constructor | AI/minimax_ai.py:10-18 | The opponent colour, the depth for the level, alpha -inf, beta +inf, best move (0, 0) and an empty cache |
| MinimaxAi.MinimaxAI.Notify | AI/base_ai.py:25-28 | The notification log grows by the callback's delivery, if any |
| MinimaxAi.MinimaxAI.SimulateMove | AI/minimax_ai.py:138-142 | The copy has the colour at (x, y) and every other cell unchanged |
| MinimaxAi.MinimaxAI.CalcPosScore | AI/minimax_ai.py:62-97 | The loops compute the table score of the four directions |
| MinimaxAi.MinimaxAI.PythonEvaluate | AI/minimax_ai.py:50-60 | The scan computes own stones' scores minus the opponent's |
| MinimaxAi.MinimaxAI.CachedScore | AI/minimax_ai.py:37-42 | A cached or fresh score is the native evaluate_move, and the cache only grows |
| MinimaxAi.MinimaxAI.Evaluate | AI/minimax_ai.py:30-48 | The native best of the first ten empty cells with the native core, the Python evaluation without it |
| MinimaxAi.MinimaxAI.NativeEvaluate | AI/minimax_ai.py:32-45 | The loop computes the native evaluation |
| MinimaxAi.MinimaxAI.OrderedMoves | AI/minimax_ai.py:109-114 | The sorted and cut candidate list |
| MinimaxAi.MinimaxAI.Minimax | AI/minimax_ai.py:99-136 | _minimax returns the alpha-beta search value and leaves best_move as the search does |
| MinimaxAi.MinimaxAI.SearchMoves | AI/minimax_ai.py:112-136 | The candidate loop computes the search loop's value and best move |
| MinimaxAi.MinimaxAI.SearchChild | AI/minimax_ai.py:115-116 | One recursive call searches the child at one less depth with the other player |
| MinimaxAi.MinimaxAI.Fold | AI/minimax_ai.py:117-135 | One loop step updates the score, alpha, beta, best move and stop flag as described |
| MinimaxAi.MinimaxAI.BeginMove | AI/minimax_ai.py:146-158 | move() first sets the callback, clears the cache, puts best_move at the centre and notifies the initial data |
| MinimaxAi.MinimaxAI.ScoreGrid | AI/minimax_ai.py:172-174 | The thinking scores: 20 times the evaluation at each of the first ten empty cells |
| MinimaxAi.MinimaxAI.SearchAndReport | AI/minimax_ai.py:169-180 | The root search picks best_move, and the final thinking data is delivered |
| MinimaxAi.MinimaxAI.Move | AI/minimax_ai.py:144-180 | As written: with the native core the result is (-1, -1) exactly when no move wins at once, otherwise the winning move; on an empty board it is (-1, -1) |
| MinimaxAi.MinimaxAI.MoveIntended | AI/minimax_ai.py:144-180 | The intended move: always the centre or an empty cell, and the first immediate win when one exists |
| ExtReals.LessIsStrictTotal | AI/minimax_ai.py:113-135 | The order on scores with -inf and +inf is a strict total order |
| ExtReals.Max | AI/minimax_ai.py:121 | max(alpha, score) is at least both and is one of them |
| ExtReals.Min | AI/minimax_ai.py:133 | min(beta, score) is at most both and is one of them |
| ExtReals.Scale | AI/minimax_ai.py:174 | Multiplying a score by a positive factor keeps infinities and scales finite values |
| Sorting.InsertElems | AI/minimax_ai.py:110 | Inserting into the sorted list adds exactly that element |
| Sorting.InsertSorted | AI/minimax_ai.py:110 | Inserting keeps the list sorted by key |
| Sorting.InsertWithKey | AI/minimax_ai.py:110 | Insertion keeps equal-key elements in their original order (stability) |
| Sorting.SortBySpec | AI/minimax_ai.py:110 | list.sort(key, reverse): sorted by key in the requested direction, a permutation, and stable for equal keys |
| Sorting.Take | AI/minimax_ai.py:114 | The slice [:m] keeps the first min(m, len) elements |
| Sorting.Items | AI/minimax_ai.py:110 | Dropping the keys keeps the order of the items |
| MctsAi.GetIterations | AI/mcts_ai.py:70-78 | easy 300, medium 600, hard 1000, expert 2000, and 1000 for any other level |
| MctsAi.NewNode | AI/mcts_ai.py:12-30 | A new node keeps its board, parent, move and colour, has no children, no visits, no wins, and exactly the empty cells untried, in row-major order |
| MctsAi.RemoveFirst | AI/mcts_ai.py:45 | list.remove leaves a list without the element unchanged |
| MctsAi.RemoveFirstSpec | AI/mcts_ai.py:45 | Removing a present move takes out exactly one copy of it |
| MctsAi.RemoveFirstWithin | AI/mcts_ai.py:45 | Removing never adds a move |
| MctsAi.UctScore | AI/mcts_ai.py:36-40 | The UCT score is +inf exactly for an unvisited node, and never -inf |
| MctsAi.FirstMaxXSpec | AI/mcts_ai.py:34 | max() over the children picks the first child with the highest UCT score |
| MctsAi.FirstMaxXPicksFirstInfinity | AI/mcts_ai.py:34-39 | The first unvisited child is selected |
| MctsAi.TreeOfSameShape | AI/mcts_ai.py:10-58 | The tree invariant depends only on boards, links and untried moves, not on the statistics |
| MctsAi.ExpandParentOk | AI/mcts_ai.py:42-51 | After expansion the parent still satisfies the node invariant |
| MctsAi.ExpandChildOk | AI/mcts_ai.py:42-51 | The new child satisfies the node invariant |
| MctsAi.ExpandOtherOk | AI/mcts_ai.py:42-51 | Expansion leaves every other node valid |
| MctsAi.ExpandSpec | AI/mcts_ai.py:42-51 | expand removes one untried move, appends a child whose board is the parent's with the parent's colour at that move and the other colour to play, and leaves every other node unchanged |
| MctsAi.PathUp | AI/mcts_ai.py:53-58 | The path of the recursion starts at the node itself |
| MctsAi.Backed | AI/mcts_ai.py:53-58 | Backpropagation keeps the number of nodes |
| MctsAi.BackedSpec | AI/mcts_ai.py:53-58 | Every node on the path to the root gains a visit and the result, flipped to 1 - result at each level; no other node changes |
| MctsAi.ShareFlips | AI/mcts_ai.py:58 | The parent's share is the child's with the result flipped |
| MctsAi.PathUpOfSameParents | AI/mcts_ai.py:53-58 | The path depends only on the parent links |
| MctsAi.BackedSameShape | AI/mcts_ai.py:53-58 | Backpropagation changes only the statistics |
| MctsAi.PathUpBelow | AI/mcts_ai.py:53-58 | The path only goes to earlier nodes |
| MctsAi.PathUpReachesRoot | AI/mcts_ai.py:53-58 | Every path reaches the root |
| MctsAi.TreeParentsEarlier | AI/mcts_ai.py:42-51 | In a tree every parent was created before its children |
| MctsAi.BackedRootVisits | AI/mcts_ai.py:53-58 | Backpropagation keeps the tree valid and adds one visit at the root |
| MctsAi.ChildScores | AI/mcts_ai.py:34 | One UCT key per child |
| MctsAi.Select | AI/mcts_ai.py:32-34 | select returns one of the node's children |
| MctsAi.SelectSpec | AI/mcts_ai.py:32-40 | The selected child has the highest UCT key, and it is unvisited when any child is |
| MctsAi.Descend | AI/mcts_ai.py:109-112 | The descent stops at a node with no children or with untried moves |
| MctsAi.RolloutMove | AI/mcts_ai.py:95-102 | A rollout move is an empty cell |
| MctsAi.FillStep | AI/mcts_ai.py:104 | Each rollout move fills one empty cell, so the rollout ends |
| MctsAi.RolloutOutcome | AI/mcts_ai.py:80-105 | _simulate returns 1.0, 0.0 or 0.5, and 1.0 whenever the AI's colour has already won |
| MctsAi.IterateSpec | AI/mcts_ai.py:107-119 | One iteration keeps the tree valid, adds a root visit, keeps the root board, and a childless root stays childless exactly when its position is terminal |
| MctsAi.IterateStays | AI/mcts_ai.py:113-119 | At a terminal leaf no node is added and the root's links stay |
| MctsAi.IterateGrows | AI/mcts_ai.py:113-119 | At a non-terminal leaf exactly one node is added |
| MctsAi.IterateTimes | AI/mcts_ai.py:121-127 | Repeated iterations keep the tree valid |
| MctsAi.IterateTimesSpec | AI/mcts_ai.py:121-127 | k iterations add k root visits and keep the root board |
| MctsAi.VisitCounts | AI/mcts_ai.py:165 | One visit count per child |
| MctsAi.MostVisited | AI/mcts_ai.py:165 | max() of the visits fails for no children and otherwise picks a child |
| MctsAi.MostVisitedSpec | AI/mcts_ai.py:165 | It picks the first child with the most visits |
| MctsAi.FirstChildDepthBound | AI/mcts_ai.py:181-188 | The first-child chain is shorter than the tree |
| MctsAi.Zeros | AI/mcts_ai.py:144 | An n by n grid |
| MctsAi.VisitShares | AI/mcts_ai.py:169-171 | The visit-share grid is n by n |
| MctsAi.VisitSharesElsewhere | AI/mcts_ai.py:169-171 | Cells of no listed child stay 0 |
| MctsAi.MovesOf | AI/mcts_ai.py:173 | One move per child |
| MctsAi.BestMove | AI/mcts_ai.py:164-166 | No move exactly when the root has no children; otherwise an empty cell of the board |
| MctsAi.SearchTree.constructor | AI/mcts_ai.py:140 | The tree holds only the root node for the board |
| MctsAi.SearchTree.Expand | AI/mcts_ai.py:42-51 | expand appends the child as described and returns its index |
| MctsAi.SearchTree.Backpropagate | AI/mcts_ai.py:53-58 | The recursion updates the path as described |
| MctsAi.MCTSAI.constructor | AI/mcts_ai.py:62-68 | The opponent colour, the iterations for the level, exploration constant 1.414 and the worker count |
| MctsAi.MCTSAI.Notify | AI/base_ai.py:25-28 | The notification log grows by the callback's delivery, if any |
| MctsAi.MCTSAI.RolloutScores | AI/mcts_ai.py:98 | The list of native evaluate_move scores of the empty cells |
| MctsAi.MCTSAI.Simulate | AI/mcts_ai.py:80-105 | The rollout loop computes the rollout result |
| MctsAi.MCTSAI.Iteration | AI/mcts_ai.py:107-119 | One iteration computes select, expand, simulate and backpropagate as specified |
| MctsAi.MCTSAI.ParallelIterations | AI/mcts_ai.py:121-127 | The sequential loop runs exactly k iterations |
| MctsAi.MCTSAI.NodeDepth | AI/mcts_ai.py:181-188 | The length of the first-child chain |
| MctsAi.MCTSAI.ShareGrid | AI/mcts_ai.py:169-171 | The visit shares of the first ten children, as a percentage of root visits |
| MctsAi.MCTSAI.BeginMove | AI/mcts_ai.py:139-151 | move() first sets the callback and notifies the initial data |
| MctsAi.MCTSAI.Grow | AI/mcts_ai.py:140-162 | The root after all iterations, with iterations visits, childless exactly for a terminal board |
| MctsAi.MCTSAI.Report | AI/mcts_ai.py:164-176 | The most visited child's move, and the final thinking data is delivered |
| MctsAi.MCTSAI.SearchAndReport | AI/mcts_ai.py:161-179 | The search returns an empty cell, or fails (max of an empty list) exactly on a terminal board |
| MctsAi.MCTSAI.Move | AI/mcts_ai.py:137-179 | As written: with the native core the result is (-1, -1) exactly when no move wins at once, otherwise the winning move; on an empty board it is (-1, -1) |
| MctsAi.MCTSAI.MoveIntended | AI/mcts_ai.py:137-179 | The intended move: an empty cell, the first immediate win when one exists, otherwise the most visited child |
| BoardAnalyzer.Clamp | Game/board_analyzer.py:34 | min(100, max(0, v)) lies in [0, 100], is v inside that range, 0 below it and 100 above it |
| BoardAnalyzer.RankScores | Game/board_analyzer.py:161-165 | Each empty cell's rank score is its move value times its position weight |
| BoardAnalyzer.Normalize | Game/board_analyzer.py:170 | The score as a percentage of FIVE, clamped to [0, 100] |
| BoardAnalyzer.EmptyCellIndex | Game/board_analyzer.py:155 | Every empty cell is in the list scanned |
| BoardAnalyzer.BestMoveSpec | Game/board_analyzer.py:153-171 | (0, 0) and 0 on a full board; otherwise the first empty cell in row-major order with the greatest rank score, and its normalised score in [0, 100] |
| BoardAnalyzer.FindBestMove | Game/board_analyzer.py:153-171 | The loop computes that best move |
| BoardAnalyzer.PostMoveScores | Game/board_analyzer.py:178-181 | Each empty cell's score is the board score after c plays there |
| BoardAnalyzer.ThreatsOfSound | Game/board_analyzer.py:183-196 | Every threat is at a scanned cell, with that cell's score and the level the score gives |
| BoardAnalyzer.ThreatsOfOrdered | Game/board_analyzer.py:178-198 | Threats come in row-major order |
| BoardAnalyzer.ThreatsOfComplete | Game/board_analyzer.py:183-196 | Every cell whose score reaches THREE yields a threat |
| BoardAnalyzer.DetectThreats | Game/board_analyzer.py:173-198 | The loop computes exactly the threat list |
| BoardAnalyzer.DetectThreatsSpec | Game/board_analyzer.py:173-198 | Each threat is an empty cell, high exactly when its score reaches FOUR and medium exactly when it reaches THREE but not FOUR; threats are in row-major order and none is missed |
| BoardAnalyzer.ClassifyMirror | Game/board_analyzer.py:67-81 | Swapping the sides mirrors the verdict, except that when both sides attack, Black is named either way |
| BoardAnalyzer.AnalyzeBoardSituation | Game/board_analyzer.py:51-93 | The report of both scores, the gap, both threat lists, both best moves and the verdict |
| BoardAnalyzer.SituationSpec | Game/board_analyzer.py:51-93 | White's score is minus Black's, the gap is twice Black's; 'black_attack' needs Black threats, 'white_attack' White threats with Black not attacking; an advantage means a gap beyond 50, and 'balanced' a gap within 50 |
| BoardAnalyzer.AnalyzeMoveQuality | Game/board_analyzer.py:17-49 | The report of pattern, position weight, impact, quality, best move, best score and gap |
| BoardAnalyzer.QualitySpec | Game/board_analyzer.py:17-49 | Quality and best score are in [0, 100], the gap is their difference, the impact plus the position weight is evaluate_move, the pattern is the recognised one and the best move is the side's best |
| BoardAnalyzer.IdentifyKeyMoments | Game/board_analyzer.py:200-236 | The loop computes the key moments move by move |
| BoardAnalyzer.KeyMomentsSpec | Game/board_analyzer.py:200-236 | A Black rise at move i is recorded exactly when Black's threat count rose; a White rise exactly when White's rose and Black's did not; a bad move exactly when quality < 50 and gap > 30 |
| BoardAnalyzer.BoardAfter | Game/board_analyzer.py:101-133 | The board after k moves is n by n |
| BoardAnalyzer.Qualities | Game/board_analyzer.py:136 | The list of the moves' qualities |
| BoardAnalyzer.CountAtLeast | Game/board_analyzer.py:137 | At most all moves have quality >= 85 |
| BoardAnalyzer.CountBelow | Game/board_analyzer.py:138 | At most all moves have quality < 60 |
| BoardAnalyzer.SumBounds | Game/board_analyzer.py:136 | Qualities in [0, 100] sum to at most 100 per move |
| BoardAnalyzer.Patterns | Game/board_analyzer.py:139 | The list of the moves' patterns |
| BoardAnalyzer.MostCommonSpec | Game/board_analyzer.py:139 | The most common pattern occurs and no pattern occurs more often |
| BoardAnalyzer.Tabulate | Game/board_analyzer.py:106-130 | One row per move analysed |
| BoardAnalyzer.TabulateAt | Game/board_analyzer.py:106-130 | Row k is the analysis of move k |
| BoardAnalyzer.MoveEntries | Game/board_analyzer.py:111-121 | One quality row per move |
| BoardAnalyzer.ThreatEntries | Game/board_analyzer.py:124-130 | One threat row per move |
| BoardAnalyzer.MoveEntriesAt | Game/board_analyzer.py:111-121 | Quality row k analyses move k on the board before it |
| BoardAnalyzer.ThreatEntriesAt | Game/board_analyzer.py:124-130 | Threat row k analyses the board before move k |
| BoardAnalyzer.ReplayStep | Game/board_analyzer.py:107-133 | One loop step produces that move's two rows |
| BoardAnalyzer.AnalyzeHistory | Game/board_analyzer.py:100-133 | The loop produces every row while playing the moves |
| BoardAnalyzer.Summarize | Game/board_analyzer.py:135-150 | The statistics and key moments of the rows |
| BoardAnalyzer.GenerateReplayReport | Game/board_analyzer.py:95-150 | An error exactly for an empty history, otherwise the full report |
| BoardAnalyzer.RatioBounds | Game/board_analyzer.py:136 | The mean of qualities in [0, 100] is in [0, 100] |
| BoardAnalyzer.ShareBounds | Game/board_analyzer.py:144 | A share of moves is between 0 and 100 percent |
| BoardAnalyzer.SummarySpec | Game/board_analyzer.py:135-146 | Average quality and high-quality rate are in [0, 100], the low-quality count is at most the moves, and the most common pattern is a mode |
| BoardAnalyzer.ReportRow | Game/board_analyzer.py:106-130 | Row k has move index k + 1, the move's coordinates, and the quality of that move on the board before it |
| BoardAnalyzer.ReportSpec | Game/board_analyzer.py:95-150 | The report counts every move, numbers the rows from 1, analyses each move on the board before it, and keeps all rates in range |
| GameCore.WinnerName | Game/game_core.py:238 | The winner is 'draw' exactly for no winner and 'black' exactly for a black winner, otherwise 'white' |
| GameCore.Review | Game/game_core.py:219-230 | The history entry carries the move, colour, AI flag and time given, and a quality of at most 100 |
| GameCore.ReviewMove | Game/game_core.py:219-230 | The history entry holds the move, its colour, the AI flag, the time and the evaluator's score, quality and pattern for the board after the move |
| GameCore.Replay | Game/game_core.py:216-229 | Replaying the history from an empty board gives an n by n board |
| GameCore.CountColorEmptyBoard | Game/game_core.py:192 | The empty board holds no stone of either colour |
| GameCore.CountColorEmptyRows | Game/game_core.py:192 | Rows of empty cells hold no stone of either colour |
| GameCore.EmptyBoardNoFive | Game/game_core.py:192 | The empty board holds no five in a row |
| GameCore.FreshConsistent | Game/game_core.py:189-197 | The reset session is consistent: the board replays the empty history, black moves with equal counts, no five |
| GameCore.FiveWithoutStone | Game/game_core.py:236-237 | A five not of the new stone's colour was already on the board before the move |
| GameCore.NewFiveIsMovers | Game/game_core.py:236-240 | From a board without a five, one move can only produce a five of the mover's colour |
| GameCore.PlacePreserves | Game/game_core.py:203-253 | place_piece keeps the session consistent: the board is the replay of the history, the turn matches the stone counts, and a running game holds no five |
| GameCore.CommitPreserves | Game/game_core.py:216-253 | Recording a legal move on a consistent session keeps it consistent |
| GameCore.PlaceRefusals | Game/game_core.py:205-213 | An inactive game answers 'game_not_active', an off-board cell 'invalid_position', an occupied one 'occupied', each leaving the session unchanged; a move is accepted exactly when the game runs and the cell is an empty one on the board |
| GameCore.PlaceAccepted | Game/game_core.py:215-253 | An accepted move places the mover's stone, records its review and checks the game end on the new board |
| GameCore.Place | Game/game_core.py:203-253 | A placement only ever appends to the history, at most one entry, and one that appends nothing leaves the session unchanged |
| GameCore.Commit | Game/game_core.py:216-253 | The game stays active exactly when it did not end; the event log only grows, by the move alone or by the move and the result |
| GameCore.CommitSpec | Game/game_core.py:216-253 | The history grows by the move; the answer is 'game_end' exactly when the game ended, which stops the game, records winner, win line and move count and announces move then result; otherwise 'success', the turn passes and only the move is announced |
| GameCore.WinnerIsMover | Game/game_core.py:236-244 | When a move ends the game, the winner is the player who moved, or it is a draw on a full board |
| GameCore.FallbackAgrees | Game/rule_engine.py:25-30 | On a consistent running session the Python rule check gives the same reason as the native one |
| GameCore.GameCore.constructor | Game/game_core.py:61-65 | A new session has an empty board, no history, no game running, black to move, no result and an empty cache |
| GameCore.GameCore.ResetGame | Game/game_core.py:189-197 | reset_game leaves an empty board, no history, a running game with black to move, no result, an empty cache, and a consistent session |
| GameCore.GameCore.PlacePiece | Game/game_core.py:203-253 | The session moves as the placement rules say and stays consistent |
| GameCore.GameCore.Record | Game/game_core.py:228-253 | The new board and history entry are stored and announced; the game ends with its result, or the turn passes |
| GameCore.GameCore.AiMove | Game/game_core.py:255-271 | Refused when no game runs or no AI is attached, or when it is not the AI's colour, leaving the session unchanged; otherwise the AI's cell is played as an AI move and returned |
| GameCore.GameCore.GenerateReplayReport | Game/game_core.py:319-350 | As written: nothing for an empty history; otherwise an error exactly when some move's quality is below 60, and else the move count, mean quality, first best and first worst move, pattern tally and no suggestions |
| GameCore.GameCore.AiSuggestionsAsWritten | Game/game_core.py:352-367 | As written: an error exactly when some move's quality is below 60 (evaluate_move is called with one argument too many), otherwise no suggestions |
| GameCore.GameCore.GenerateReplayReportIntended | Game/game_core.py:319-350 | With evaluate_move called as declared: no report exactly for an empty history, otherwise the statistics and the suggestions for the low-quality moves |
| GameCore.GameCore.AiSuggestions | Game/game_core.py:352-367 | The loop computes the suggestions of the move history on the current board |
| GameCore.SuggestionsEmpty | Game/game_core.py:355-356 | There are no suggestions exactly when no move's quality is below 60 |
| GameCore.SuggestionsSound | Game/game_core.py:355-366 | Each suggestion, in move order, names a move whose quality is below 60 (its 1-based index, cell and quality), the best cell for its colour on the board, and that cell's value |
| GameCore.SuggestionsComplete | Game/game_core.py:355-366 | Every move whose quality is below 60 gets a suggestion |
| GameCore.SumQualities | Game/game_core.py:325 | The loop computes the sum of the qualities |
| GameCore.FirstMaxOf | Game/game_core.py:327-328 | The loop finds the first index of the greatest value, as max() does |
| GameCore.CountPatterns | Game/game_core.py:331-334 | The loop computes the tally of patterns |
| GameCore.TallyCounts | Game/game_core.py:331-334 | A pattern is in the tally exactly when it occurs, with its number of occurrences |
| GameCore.TallyTotal | Game/game_core.py:331-334 | The tally's counts add up to the number of moves |
| GameCore.MeanBetween | Game/game_core.py:326 | The mean of values within bounds is within them |
| GameCore.ReplayQualities | Game/game_core.py:324-328 | The best move is the first with the highest quality, the worst the first with the lowest, and the average quality lies between them |
| GameCore.ReplayDistribution | Game/game_core.py:331-334 | The distribution names exactly the patterns that occurred, with their counts, adding up to the move count |
| Rooms.Without | Server/room.py:76 | Deleting a member keeps every other member in order, drops only that one, and keeps the ids distinct |
| Rooms.DistinctCons | Server/room.py:76 | Putting a new id in front of distinct ids keeps them distinct |
| Rooms.NewRoom | Server/room.py:10-34 | A new room satisfies the room invariant: the host alone as black and to move, an empty 15 by 15 board, no game running |
| Rooms.Join | Server/room.py:56-71 | add_player keeps the room invariant: only a PVP room with fewer than two members takes the player, as white, and starts the game once two are in |
| Rooms.Leave | Server/room.py:73-83 | remove_player keeps the room invariant: a member's removal stops the game with winner 'none' |
| Rooms.FirstOther | Server/room.py:137-139 | The first member in order who is not u, or past the end when there is none |
| Rooms.PeerOf | Server/room.py:135-140 | There is no peer exactly when every member is u; otherwise the peer is the client of a member other than u |
| Rooms.Since | Server/room.py:142-144 | The incremental data holds exactly the moves later than the timestamp, and no more moves than the history |
| Rooms.SinceAppend | Server/room.py:142-144 | Filtering a joined history is joining the filtered parts |
| Rooms.Cut | Server/room.py:142-144 | The first position of a move later than the timestamp |
| Rooms.SinceIsSuffix | Server/room.py:142-144 | On a chronological history the incremental data is the suffix after the last move not later than the timestamp |
| Rooms.SinceAll | Server/room.py:142-144 | When even the first move is later, the incremental data is the whole history |
| Rooms.IndexIn | Server/room.py:263 | players.index finds the first position of a member |
| Rooms.Advance | Server/room.py:262-266 | The next PVP player is a member |
| Rooms.AdvanceAt | Server/room.py:262-266 | The player after member i is member (i + 1) mod the member count |
| Rooms.Rotate | Server/room.py:258-266 | k turn switches land on a member |
| Rooms.RotateAt | Server/room.py:258-266 | k turn switches from member i land on member (i + k) mod the member count |
| Rooms.RotateStep | Server/room.py:258-266 | One more switch advances the rotation by one |
| Rooms.FullCircle | Server/room.py:258-266 | As many switches as members bring the turn back to the same member |
| Rooms.PveTurns | Server/room.py:260-261 | In PVE the turn goes from the host to the AI and back to the host |
| Rooms.PvpTurns | Server/room.py:262-266 | In a two-member PVP room the turn goes to the other member and then back |
| Rooms.ColorLabel | Server/room.py:177 | The winner is 'black' exactly for black, 'white' exactly for white, 'draw' otherwise |
| Rooms.AiWinnerAsWritten | Server/room.py:242 | As written: after an AI move that ends the game the AI is named exactly when the winner is white, and the host for every other outcome, a draw included |
| Rooms.AiWinner | Server/room.py:242 | Corrected naming (the source names no draw here): the AI exactly for a white five, 'draw' exactly for no five, the host otherwise |
| Rooms.AiDrawCreditsHost | Server/room.py:242 | A game the AI ends on a full board without a five is credited to the host by the code as written |
| Rooms.AiResultNamesFive | Server/room.py:242 | With the corrected naming a draw is reported exactly when the board holds no five |
| Rooms.Play | Server/room.py:146-198 | place_piece keeps the room invariant and the members, is refused exactly when a check fails, and a refusal changes nothing |
| Rooms.Settle | Server/room.py:174-198 | After the stone the room invariant holds and the mover's colour is answered |
| Rooms.AiAnswer | Server/room.py:200-256 | ai_move keeps the room invariant and the members |
| Rooms.AiSettle | Server/room.py:239-256 | After the AI's stone the members, board and history stay; an ended game stops and records the as-written winner naming, the win line, the move count and the duration; otherwise the turn returns to the host |
| Rooms.PlayRefusals | Server/room.py:149-156 | 'game not started', then 'not your turn', then 'coordinates out of range', then 'position occupied', each in that order of checking |
| Rooms.PlayAccepted | Server/room.py:158-198 | Outside PVE an accepted move puts the mover's colour on the cell, appends it to the history, and either finishes the game with the board's winner or passes the turn |
| Rooms.PlayAgainstAi | Server/room.py:193-256 | In PVE the host's accepted move is followed by the AI's white stone at its chosen cell unless the host's move ended the game; then the game ends or the turn returns to the host |
| Rooms.DormantUnlessPvp | Server/room.py:56-83 | A room that is not PVP and not running never starts through joining, leaving or playing |
| Rooms.Room.constructor | Server/room.py:10-34 | The room's state is the new room's |
| Rooms.Room.AddPlayer | Server/room.py:56-71 | The state moves as add_player says |
| Rooms.Room.StartGame | Server/room.py:91-97 | The game runs with no result and both clocks restarted |
| Rooms.Room.RemovePlayer | Server/room.py:73-83 | The state moves as remove_player says |
| Rooms.Room.PlacePiece | Server/room.py:146-198 | The state and answer are those of place_piece |
| Rooms.Room.PutStone | Server/room.py:158-171 | The stone is placed and the move recorded with the time |
| Rooms.Room.Conclude | Server/room.py:174-198 | The game ends with its result, or the turn passes and the AI may answer |
| Rooms.Room.SwitchTurn | Server/room.py:258-266 | The current player becomes the next one and nothing else changes |
| Rooms.Room.AiMove | Server/room.py:200-256 | The state moves as ai_move says |
| Rooms.Room.AiConclude | Server/room.py:239-256 | The state becomes AiSettle of the old state: the game ends with the as-written AI-or-host naming, or the turn returns to the host |
| Rooms.Room.IsFull | Server/room.py:85-89 | A full room has a member, and a room with two members is full |
| Rooms.Room.MemberList | Server/room.py:131-133 | In a valid room the member list holds each player exactly once and nothing else |
| Rooms.Room.PeerClientId | Server/room.py:135-140 | There is no peer exactly when every member is u; otherwise the answer is the client of a member other than u |
| Rooms.Room.IncrementalData | Server/room.py:142-144 | The answer holds exactly the recorded moves later than the timestamp |
| RoomRegistry.RoomIdInjective | Server/room_manager.py:35-39 | Different counter values give different room ids |
| RoomRegistry.ModeOf | Server/room_manager.py:43-44 | The mode is a known one: the requested one when known, PVE otherwise |
| RoomRegistry.LevelOf | Server/room_manager.py:45-46 | The level is a known one: the requested one when known, HARD otherwise |
| RoomRegistry.NextIdFresh | Server/room_manager.py:35-39 | The next id differs from every id issued so far |
| RoomRegistry.JoinRoom | Server/room_manager.py:85-98 | A refusal (no room, full, already in) leaves the rooms unchanged; a success stores the room's new state under its id |
| RoomRegistry.LeaveRoom | Server/room_manager.py:100-115 | A refusal (no room, not a member) leaves the rooms unchanged |
| RoomRegistry.PlayIn | Server/room_manager.py:143-163 | A refusal (no room, not a member, not started) leaves the rooms unchanged |
| RoomRegistry.MemberOf | Server/room_manager.py:122-126 | The member found uses that client; when none is found no member uses it |
| RoomRegistry.FirstWith | Server/room_manager.py:122-126 | The scan finds a member using the client, or shows none does |
| RoomRegistry.Disconnected | Server/room_manager.py:117-141 | A room stays exactly when it is not emptied by the client's removal |
| RoomRegistry.Cleaned | Server/room_manager.py:187-207 | A room stays exactly when its idle time is at most 300 seconds, and stays unchanged |
| RoomRegistry.DisconnectKeeps | Server/room_manager.py:117-141 | A member on another client keeps its room and its place in it |
| RoomRegistry.DisconnectRemoves | Server/room_manager.py:117-141 | The client's member is gone from its room when the room survives |
| RoomRegistry.LeaveDeletesLast | Server/room_manager.py:100-115 | Leaving succeeds for a member; the room is deleted exactly when that member was the last, otherwise the member is gone and the game stopped |
| RoomRegistry.JoinEffect | Server/room_manager.py:85-98 | A successful join to a PVP room adds the user as white at the end and starts the game; other rooms stay as they were |
| RoomRegistry.Step | Server/room_manager.py:41-207 | Every request keeps the registry invariant: each room valid, stored under an id already issued, of a known mode, and never running unless PVP |
| RoomRegistry.RunKeeps | Server/room_manager.py:41-207 | Any sequence of requests keeps the registry invariant |
| RoomRegistry.IssuedGrows | Server/room_manager.py:35-39 | An id issued stays issued as the counter grows |
| RoomRegistry.CreateKeeps | Server/room_manager.py:41-59 | Storing a new room under the fresh id keeps the invariant |
| RoomRegistry.JoinKeeps | Server/room_manager.py:85-98 | Joining keeps the invariant |
| RoomRegistry.LeaveKeeps | Server/room_manager.py:100-115 | Leaving keeps the invariant |
| RoomRegistry.DisconnectKeepsInvariant | Server/room_manager.py:117-141 | Disconnecting a client keeps the invariant |
| RoomRegistry.PlayKeeps | Server/room_manager.py:143-163 | Placing a piece keeps the invariant |
| RoomRegistry.CleanedKeeps | Server/room_manager.py:187-207 | Removing idle rooms keeps the invariant |
| RoomRegistry.RoomManager.constructor | Server/room_manager.py:25-32 | No rooms and the counter at 1000 |
| RoomRegistry.RoomManager.GenerateRoomId | Server/room_manager.py:35-39 | The counter goes up by one and the id is 'room_' and the new counter |
| RoomRegistry.RoomManager.CreateRoom | Server/room_manager.py:41-59 | A new room with a fresh id, a known mode and level, is added and nothing else changes |
| RoomRegistry.RoomManager.Admit | Server/room_manager.py:56 | The room is stored under a fresh id and the invariant holds |
| RoomRegistry.RoomManager.AddPlayerToRoom | Server/room_manager.py:85-98 | Rooms and answer are those of the join |
| RoomRegistry.RoomManager.RemovePlayerFromRoom | Server/room_manager.py:100-115 | Rooms and answer are those of the leave |
| RoomRegistry.RoomManager.HandlePiecePlacement | Server/room_manager.py:143-163 | Rooms and answer are those of the placement |
| RoomRegistry.RoomManager.RemoveClientFromAllRooms | Server/room_manager.py:117-141 | The rooms are the disconnected ones and the closed ids are exactly those emptied |
| RoomRegistry.RoomManager.CloseAllRooms | Server/room_manager.py:165-179 | No rooms remain and every id is reported closed |
| RoomRegistry.RoomManager.CleanupTimeoutRooms | Server/room_manager.py:187-207 | Exactly the rooms idle for more than 300 seconds are removed and reported |
| RoomRegistry.FindMember | Server/room_manager.py:122-126 | The loop finds the first member using the client |
| RoomRegistry.DropClient | Server/room_manager.py:119-129 | The loop removes the client's member from every room and collects the emptied ones |
| RoomRegistry.CollectIdle | Server/room_manager.py:190-196 | The loop collects exactly the idle rooms |
| RoomRegistry.DeleteAll | Server/room_manager.py:131-141 | The loop deletes exactly the given ids |
| RoomRegistry.DisconnectAssembled | Server/room_manager.py:117-141 | Visiting then deleting gives the disconnected rooms |
| DataSync.Init | Server/data_sync.py:19-27 | The new sync state has no pending data, the current time, and a board text that reads back as the initial board |
| DataSync.Generate | Server/data_sync.py:29-57 | None exactly for a room without sync state, changing nothing; otherwise a move message stamped now with the CRC of the board text, carrying the full board exactly when the text length changed or the history length is a multiple of 10, and the room's sync time set to now |
| DataSync.PyIndex | Server/data_sync.py:97 | A list index is valid exactly from minus the length up to the length, and a non-negative one is itself |
| DataSync.Write | Server/data_sync.py:97 | Writing a cell inside the board sets exactly that cell |
| DataSync.UnknownRoom | Server/data_sync.py:32-34 | Both generating and parsing for a room without sync state answer none and change nothing |
| DataSync.SyncRoundTrip | Server/data_sync.py:29-106 | A message generated from the board after a move, parsed by a receiver whose last board is the board before it, yields the sender's board, move and time, and the receiver stores the new board's text, with or without the full board |
| DataSync.Pushed | Server/data_sync.py:111-119 | A queue within 50 entries stays within 50 after a push |
| DataSync.Newest | Server/data_sync.py:117-119 | The newest entries number at most 50 |
| DataSync.PushAllKeepsNewest | Server/data_sync.py:111-119 | Pushing any entries one by one keeps exactly the 50 newest of all entries |
| DataSync.NewestAppend | Server/data_sync.py:117-119 | Trimming before appending and trimming after give the same newest entries |
| DataSync.AddPending | Server/data_sync.py:111-119 | An unknown room changes nothing; otherwise only that room's queue changes, by a push |
| DataSync.TakePending | Server/data_sync.py:121-128 | An unknown room yields nothing; otherwise the whole queue is returned and emptied |
| DataSync.TakeTwice | Server/data_sync.py:121-128 | Taking the pending data a second time yields nothing |
| DataSync.DataSyncManager.constructor | Server/data_sync.py:14-17 | No room has sync state |
| DataSync.DataSyncManager.InitSyncState | Server/data_sync.py:19-27 | The room gets a fresh sync state and the others are unchanged |
| DataSync.DataSyncManager.GenerateSyncData | Server/data_sync.py:29-57 | State and message are those of generate_sync_data |
| DataSync.DataSyncManager.ParseSyncData | Server/data_sync.py:59-109 | State and result are those of parse_sync_data |
| DataSync.DataSyncManager.AddPendingData | Server/data_sync.py:111-119 | The state is that of add_pending_data |
| DataSync.DataSyncManager.GetPendingData | Server/data_sync.py:121-128 | State and queue are those of get_pending_data |
| DataSync.DataSyncManager.ClearSyncState | Server/data_sync.py:130-135 | The room's sync state is removed, and nothing changes for an unknown room |
| Events.Added | Commom/event.py:31-37 | register adds the event type if new, leaves every other type's listeners as they were, and never leaves an empty list |
| Events.RemoveFirst | Commom/event.py:43-44 | list.remove takes out one occurrence of a present listener and changes nothing for an absent one |
| Events.Removed | Commom/event.py:39-47 | unregister leaves every other type as it was and never leaves an empty list behind |
| Events.RegisterCount | Commom/event.py:31-37 | Registering adds one to the count of that type and nothing to any other |
| Events.UnregisterCount | Commom/event.py:39-47 | Unregistering a registered listener takes one from that type's count, and only that listener's occurrence |
| Events.RegisterThenUnregister | Commom/event.py:31-47 | Registering a new listener and then unregistering it restores the listeners exactly |
| Events.RemoveOnly | Commom/event.py:45-47 | Removing a type's only listener deletes the type |
| Events.RemoveAgain | Commom/event.py:43-44 | Removing a listener appended last restores the list |
| Events.RemoveLast | Commom/event.py:43-44 | Removing the first occurrence of a listener found only at the end drops that end |
| Events.Callees | Commom/event.py:56-60 | One delivery per listener called |
| Events.Deliveries | Commom/event.py:56-60 | Every listener of the type is called once, in registration order, whether or not an earlier one raised |
| Events.EventManager.constructor | Commom/event.py:26-29 | No listeners |
| Events.EventManager.Register | Commom/event.py:31-37 | The listeners become those register gives |
| Events.EventManager.Unregister | Commom/event.py:39-47 | The listeners become those unregister gives |
| Events.EventManager.Emit | Commom/event.py:49-61 | Each listener of the type is called in order, a raising one not stopping the rest; a type with no listeners calls nothing |
| Events.EventManager.Clear | Commom/event.py:63-67 | No listeners remain |
| Events.EventManager.GetListenerCount | Commom/event.py:69-72 | The number of listeners of the type, 0 for an unknown type |
| Security.PadLen | Commom/security.py:77 | The padding is 1 to 16 bytes and brings the length to a multiple of 16 |
| Security.Pad | Commom/security.py:77-78 | The padded data is a multiple of 16 long, starts with the data, and every added byte holds the padding length |
| Security.Unpad | Commom/security.py:115-116 | None exactly for empty data; otherwise the last byte's count of bytes is dropped, or everything when that count is 0 or too large |
| Security.UnpadPad | Commom/security.py:77-116 | Unpadding padded data gives the data back |
| Security.Xor | Commom/security.py:130-137 | The XOR cipher keeps the length |
| Security.XorRoundTrip | Commom/security.py:130-146 | Decrypting the fallback cipher's output with the same key gives the data back |
| Security.XorTwice | Commom/security.py:136-144 | XOR with the same key byte twice is the identity |
| Security.Trunc | Commom/security.py:177 | int() truncates toward zero |
| Security.VerifyToken | Commom/security.py:183-201 | A token is accepted only when it splits into four fields, its expiry parses as an integer not earlier than now, and its signature is that of its first three fields; the user id returned is the first field |
| Security.GenerateToken | Commom/security.py:171-181 | For a user id and nonce without ':', the token splits at its first three colons into the user id, the decimal expiry int(now + expire_seconds), the nonce and the signature of the first three fields |
| Security.TokenParts | Commom/security.py:176-191 | A generated token splits back into user id, expiry, nonce and signature when neither id nor nonce holds ':' |
| Security.TokenShape | Commom/security.py:178-181 | The token text is the four fields joined by ':' |
| Security.SplitFour | Commom/security.py:188 | Splitting at the first three ':' recovers four fields that hold none in the first three |
| Security.JoinFour | Commom/security.py:178 | Joining four fields places the separator between each |
| Security.TokenRoundTrip | Commom/security.py:171-201 | A token generated for a user is accepted for that user until its expiry and refused after it |
| Security.ForgedTokenRefused | Commom/security.py:193-197 | A token whose signature is not the one of its fields is refused |
| Standings.Map | Game/ranking_system.py:183-191 | A list comprehension over every entry keeps the length and maps each entry |
| Standings.MapAppend | Game/ranking_system.py:183-186 | Mapping a joined list is joining the mapped parts |
| Standings.MapPermutes | Game/ranking_system.py:187-189 | Mapping a permutation gives a permutation of the mapped list |
| Standings.Keyed | Game/ranking_system.py:188 | Each entry is paired with its score as the sort key |
| Standings.SortDescSpec | Game/ranking_system.py:188 | sort(reverse=True) by score keeps the length, is a permutation, and leaves scores non-increasing |
| Standings.SortDescPermutes | Game/ranking_system.py:188 | The sort is a permutation of its input |
| Standings.Prefix | Game/ranking_system.py:127 | ranking[:top_n] has top_n entries, capped by the length, counted from the end for a negative top_n, and is a prefix |
| Ranking.KFactor | Game/ranking_system.py:148-155 | K is 40 exactly for fewer than 20 games, 24 exactly for 20 or more games at a rating of 2000 or more, and 32 otherwise |
| Ranking.KFactorSettles | Game/ranking_system.py:148-155 | More games and a higher rating never raise K |
| Ranking.UpdateStats | Game/ranking_system.py:171-179 | The total and exactly one of wins, losses or draws go up by one, as the result says; nothing else changes |
| Ranking.StatsStayConsistent | Game/ranking_system.py:171-179 | After any run of games the total still equals wins plus losses plus draws, grown by the number of games |
| Ranking.ActualScore | Game/ranking_system.py:27 | The actual score is 1 for a win, 0 for a loss, 0.5 for a draw, always in [0, 1] |
| Ranking.ActualScoresComplement | Game/ranking_system.py:27-28 | The two players' actual scores add up to 1 |
| Ranking.RoundHalfEven | Game/ranking_system.py:31-32 | round() gives an integer within 0.5, and the even one at a tie |
| Ranking.RoundAround | Game/ranking_system.py:31-32 | Rounding a rating plus a non-negative change never lowers it, plus a non-positive one never raises it |
| Ranking.InitPlayer | Game/ranking_system.py:157-169 | A new player has the given id and name, score 1500, no wins, losses, draws or games, the current time and rank 0 |
| Ranking.NewRating | Game/ranking_system.py:18-32 | round(rating + K (actual - expected)) does not fall when the side did at least as well as expected, does not rise when it did at most as well, and moves by at most K |
| Ranking.NewRatings | Game/ranking_system.py:16-34 | When player 1 scored at least its expectation its rating does not fall and player 2's does not rise, and the reverse when it scored at most its expectation |
| Ranking.RatingsFollowResult | Game/ranking_system.py:16-34 | A win never lowers the winner's rating nor raises the loser's, a loss the reverse, and a draw at even odds changes nothing |
| Ranking.Scaled | Game/ranking_system.py:31-32 | K times a change keeps the change's sign |
| Ranking.WithoutCount | Game/ranking_system.py:184 | Filtering out a user removes all and only that user's entries |
| Ranking.Ranked | Game/ranking_system.py:189-190 | Each entry's rank becomes its position plus one |
| Ranking.UpsertOrder | Game/ranking_system.py:181-191 | After an upsert, one entry more than the others, ranks 1, 2, … in order, and scores non-increasing |
| Ranking.UpsertEntries | Game/ranking_system.py:181-191 | After an upsert the player appears once, as given, and every other player's entries are kept |
| Ranking.UnrankWithout | Game/ranking_system.py:184 | Filtering a user out commutes with ignoring ranks |
| Ranking.Upsert | Game/ranking_system.py:181-191 | The upsert method computes the upserted leaderboard |
| Ranking.Renumber | Game/ranking_system.py:189-190 | The loop numbers the entries from 1 |
| Ranking.Find | Game/ranking_system.py:43-44 | None exactly when no entry has the id; otherwise an entry with that id |
| Ranking.Format | Game/ranking_system.py:193-200 | The reported change is the new rating minus the old |
| Ranking.RatingChangeAlwaysZero | Game/ranking_system.py:66-87 | As written, both players' reported rating change is always 0 |
| Ranking.ReportAsWritten | Game/ranking_system.py:64-89 | As written, each side's reported old rating equals its new rating |
| Ranking.AsWrittenDiffersOnlyInOldRating | Game/ranking_system.py:64-89 | The as-written report shows the same entries (with their new ranks and counts), new ratings and player total as the corrected one; only the old rating and the change differ |
| Ranking.FinalEntry | Game/ranking_system.py:81-82 | The entry found for a user in the new leaderboard is one of its entries and has that user's id |
| Ranking.UpdatePlayerRating | Game/ranking_system.py:36-89 | The new leaderboard is ranked 1 to n in order and its size is the reported player count; each side's reported old rating is its score before the game (the stored one, or the new player's default) |
| Ranking.RatingChangeFollowsResult | Game/ranking_system.py:36-90 | With the old rating taken before the update, the change is new minus old, non-negative for a winner and non-positive for a loser |
| Ranking.GetRankingList | Game/ranking_system.py:122-145 | The first top_n stored entries in order, at most top_n, each with rank its position plus one and its counts and win rate |
| RankingStore.Completed | Storage/ranking_storage.py:63-72 | The stored entry takes each given field, else its default (nickname '匿名用户', ELO 1500, zero counts), the user id, the time and rank 0; the total is wins plus losses plus draws and the win rate is 0 with no games |
| RankingStore.FindIndex | Storage/ranking_storage.py:55-60 | The loop finds the first index with the user id, or -1 exactly when none has it |
| RankingStore.Placed | Storage/ranking_storage.py:75-78 | An existing user's entry is replaced in place, keeping the length; a new user is appended; the entry is in the result |
| RankingStore.Ranked | Storage/ranking_storage.py:81-83 | Each entry's rank becomes its position plus one |
| RankingStore.UpdatedSpec | Storage/ranking_storage.py:47-92 | After update_ranking the leaderboard holds the completed entry, is a permutation of the placed entries up to ranks, has ELO scores non-increasing and ranks 1, 2, … in order |
| RankingStore.UpdateRanking | Storage/ranking_storage.py:47-92 | The method computes the updated leaderboard |
| RankingStore.PlacedAt | Storage/ranking_storage.py:75-76 | Replacing at the found index is the placement |
| RankingStore.Renumber | Storage/ranking_storage.py:82-83 | The loop numbers the entries from 1 |
| RankingStore.TopRanking | Storage/ranking_storage.py:94-108 | ranking[:top_n], at most top_n entries, each keeping its stored rank, nickname, ELO, win rate, total games and time |
| RankingStore.TopAfterUpdate | Storage/ranking_storage.py:47-108 | Right after an update the top entries are ranked 1, 2, … with ELO non-increasing |
| Json.Add | Storage/user_storage.py:52 | Python's + on JSON values: integers and booleans add to an integer, strings and lists concatenate, any number with a float adds as a float, and anything else raises |
| UserStore.DefaultKeysListed | Storage/user_storage.py:15-26 | The default fields are exactly the ten listed |
| UserStore.Completed | Storage/user_storage.py:31-33 | Completing keeps every given field and adds each missing default field with its default value, and nothing else |
| UserStore.CompletedIdempotent | Storage/user_storage.py:31-33 | Completing twice is completing once |
| UserStore.UserFilename | Storage/user_storage.py:69-71 | A user's file name starts with 'user_', ends with '.json', and is the id with ten characters around it |
| UserStore.UserIdOf | Storage/user_storage.py:64-65 | A listed file name yields a user id exactly when it starts with 'user_' and ends with '.json' |
| UserStore.UserIdRoundTrip | Storage/user_storage.py:65-71 | The user id read back from a user's file name is that user's id |
| UserStore.UserFilenameRoundTrip | Storage/user_storage.py:65-71 | A user file name is the file name of the id read from it |
| UserStore.UserIds | Storage/user_storage.py:60-67 | At most one user per listed file |
| UserStore.UserIdsOfFilenames | Storage/user_storage.py:60-71 | Listing the users' own file names gives back the users, in order |
| UserStore.Loaded | Storage/user_storage.py:37-44 | load_user returns the stored data when it is there and truthy, otherwise the defaults; never a falsy value |
| UserStore.SaveThenLoad | Storage/user_storage.py:28-44 | Loading after saving gives the completed data back |
| UserStore.Total | Storage/user_storage.py:52 | With integer counts the total is wins plus losses plus draws |
| UserStore.Updated | Storage/user_storage.py:46-53 | The update fails exactly when the stored value is not a dict or a count changed and the counts cannot be added; otherwise updated fields take the new values, the others are kept, and total_games is recomputed exactly when a count is updated |
| UserStore.UpdateKeepsTotal | Storage/user_storage.py:51-52 | After a count update with integer counts, total_games is wins plus losses plus draws |
| UserStore.FilledIsCompleted | Storage/user_storage.py:31-33 | A dict that kept every field and gained exactly the missing defaults is the completed one |
| UserStore.FillDefaults | Storage/user_storage.py:31-33 | The loop completes the data with the defaults |
| UserStore.UserStorage.constructor | Storage/user_storage.py:10-26 | The store holds the given files |
| UserStore.UserStorage.SaveUser | Storage/user_storage.py:28-35 | The caller's dict is completed in place and stored under the user's file name |
| UserStore.UserStorage.LoadUser | Storage/user_storage.py:37-44 | The loaded value is load_user's |
| UserStore.UserStorage.UpdateUser | Storage/user_storage.py:46-53 | A successful update stores the completed updated data; a failed one stores nothing |
| UserStore.UserStorage.DeleteUser | Storage/user_storage.py:55-58 | The user's file is removed, and the answer says whether it existed |
| UserStore.UserStorage.ListAllUsers | Storage/user_storage.py:60-67 | The users are the ids of the user files listed, in order |
| RecordStore.RequiredDefaults | Storage/game_record_storage.py:15-27 | The defaults cover exactly the four required fields, each with its default ('unknown' mode, empty history, a draw result, the current time) |
| RecordStore.Completed | Storage/game_record_storage.py:19-27 | Completing keeps every given field and adds exactly the missing required ones with their defaults |
| RecordStore.CompletedTimestamp | Storage/game_record_storage.py:22-30 | The record's timestamp is the given one, or the current time when none was given |
| RecordStore.RecordFilename | Storage/game_record_storage.py:66-68 | A record file name starts with 'user_' id '_record_' and ends with '.json' |
| RecordStore.RecordFilenameTimestamp | Storage/game_record_storage.py:66-68 | An integer timestamp can be read back from between the prefix and the suffix |
| RecordStore.CountPrefixed | Storage/game_record_storage.py:58-64 | The count is at most the number of files listed |
| RecordStore.CountAfterSave | Storage/game_record_storage.py:17-64 | Saving a record adds one to its user's count, and one to another user's count only when the file name also carries that user's prefix |
| RecordStore.LoadedRecords | Storage/game_record_storage.py:36-42 | No more records than the user's files, each of them truthy |
| RecordStore.LoadedFromUserFiles | Storage/game_record_storage.py:38-42 | Every loaded record is the content of one of the user's listed files |
| RecordStore.Keyed | Storage/game_record_storage.py:45 | Each record is paired with its timestamp as the sort key |
| RecordStore.ByTimestampSpec | Storage/game_record_storage.py:45 | The sort is a permutation with timestamps non-increasing |
| RecordStore.NewestSpec | Storage/game_record_storage.py:44-46 | records[:limit] of the sorted records: limit of them (capped, or counted from the end for a negative limit), drawn from the records, newest first |
| RecordStore.NewestDropsOlder | Storage/game_record_storage.py:44-46 | A record left out is no newer than any record returned |
| RecordStore.FillRequired | Storage/game_record_storage.py:20-27 | The loop completes the record |
| RecordStore.GameRecordStorage.constructor | Storage/game_record_storage.py:11-15 | The store holds the given files |
| RecordStore.GameRecordStorage.SaveRecord | Storage/game_record_storage.py:17-32 | The caller's dict is completed in place and stored under the file name built from the user and its timestamp |
| RecordStore.GameRecordStorage.LoadUserRecords | Storage/game_record_storage.py:34-46 | An error exactly when some loaded record has no comparable timestamp; otherwise the newest records up to the limit, newest first |
| RecordStore.GameRecordStorage.GetRecordCount | Storage/game_record_storage.py:58-64 | The number of listed files with the user's record prefix |
| ModelStore.WithModelSuffix | Storage/model_storage.py:199-200 | The name ends in '.pth' afterwards, starts with the given name, grows by at most the suffix, and is unchanged exactly when it already ended in '.pth' |
| ModelStore.ModelPathIdempotent | Storage/model_storage.py:197-201 | Completing the suffix twice is completing it once, and gives the same path |
| ModelStore.GetModelPath | Storage/model_storage.py:197-201 | The path lies in the model directory and ends in '.pth', adding at most the suffix to the name |
| ModelStore.DigitRun | Storage/model_storage.py:210 | \d+ matches the longest run of digits from a position |
| ModelStore.FindTag | Storage/model_storage.py:210 | re.search finds the first position of '_v', digits, '_', or shows there is none |
| ModelStore.TagDigits | Storage/model_storage.py:210-212 | The captured group is one or more digits |
| ModelStore.StemVersion | Storage/model_storage.py:210 | A file named name_v{version}_{timestamp}… reads back that version, when the model name holds no version tag itself |
| ModelStore.RunLength | Storage/model_storage.py:210 | A digit run ended by a non-digit has exactly its length |
| ModelStore.Keep | Storage/model_storage.py:217 | The comprehension keeps exactly the listed names the test accepts |
| ModelStore.MetaFilesAsWritten | Storage/model_storage.py:215-217 | As written, the meta files are the listed '_meta.json' names that start with the model name |
| ModelStore.OwnMetaFiles | Storage/model_storage.py:215-217 | As intended, the meta files are the listed '_meta.json' names that start with the model name followed by '_v' |
| ModelStore.PrefixTakesOtherModel | Storage/model_storage.py:215-217 | As written, model 'm' claims the meta file of model 'm2', and its version 5; the corrected match does not |
| ModelStore.OwnPrefixExact | Storage/model_storage.py:215-217 | With the corrected match a model's saved meta file belongs to that model and to no other |
| ModelStore.Versions | Storage/model_storage.py:208-212 | The versions are exactly those read from the names that carry one |
| ModelStore.Max | Storage/model_storage.py:213 | max() is a member no smaller than any other |
| ModelStore.NextVersion | Storage/model_storage.py:203-213 | The next version is at least 1, above every version found, and one above a version found when it is not 1 |
| ModelStore.WithKeyFirst | Storage/model_storage.py:229 | The stable sort puts first the first entry with the greatest key |
| ModelStore.LatestMetaFile | Storage/model_storage.py:223-230 | None exactly for no meta files; otherwise a listed file whose version (0 when none) is the greatest |
| ModelStore.LatestIsFirstListed | Storage/model_storage.py:229-230 | The latest file is the first listed among those with the greatest version |
| ModelStore.SaveModelWithVersion | Storage/model_storage.py:22-57 | An error exactly for a model type outside rl, mcts, minimax and hybrid; otherwise a version above every version read from a listed '_meta.json' name that starts with the model name (another model's included, as the prefix match is written), and one above such a version when it is not 1; files named name_v{version}_{timestamp} with '.pth' and '_meta.json', and the metadata with its defaults (no training data, win rate 0, empty training parameters, a 15-line board, no description) |
| ModelStore.SavedIsOwn | Storage/model_storage.py:215-217 | A saved meta file is one of its model's own meta files |
| ModelStore.SavedIsLatest | Storage/model_storage.py:223-230 | Right after a save, the latest meta file found by the prefix match as written is the one just saved, whatever the listing order |
| ModelStore.OwnSavedIsLatest | Storage/model_storage.py:223-230 | With the corrected '_v' match, a save above the model's own versions is likewise found as the latest |
| Training.ParseMove | AI/training_manager.py:116 | A move parses only from text holding a comma |
| Training.ParseMoveRoundTrip | AI/training_manager.py:116 | A move written as 'x,y' parses back to (x, y) |
| Training.ParseMoveSpaced | AI/training_manager.py:116 | A move written as 'x, y', with a space after the comma, also parses to (x, y) |
| Training.FreshExpiredMembers | AI/training_manager.py:263-268 | A sample is kept exactly when its time (0 when missing) is at or after the cutoff, and deleted exactly when it is before |
| Training.FreshExpiredPartition | AI/training_manager.py:260-268 | Kept and deleted samples together are exactly the samples, each once |
| Training.FreshExpiredMultiset | AI/training_manager.py:260-268 | Kept and deleted samples together are a permutation of the samples |
| Training.FreshExpiredStep | AI/training_manager.py:263-268 | One more sample goes to exactly one side |
| Training.MultisetSnoc | AI/training_manager.py:263 | A list is its front plus its last element |
| Training.ClearTwiceDeletesNothing | AI/training_manager.py:255-280 | Clearing again with the same cutoff deletes nothing and keeps everything |
| Training.FreshOfFresh | AI/training_manager.py:263-268 | Filtering the kept samples again keeps them all |
| Training.ClearOldData | AI/training_manager.py:255-280 | The kept samples are those at or after now minus days × 86400 seconds, the deleted count is the rest, and the store is rewritten with the kept samples only when something was deleted |
| Training.CountResult | AI/training_manager.py:217-219 | A result's count is at most the number of samples |
| Training.ResultCountsBounded | AI/training_manager.py:217-219 | Wins, losses and draws together are at most the number of samples |
| Training.DistinctCons | AI/training_manager.py:224-227 | A new key in front of distinct keys keeps them distinct |
| Training.DistinctTail | AI/training_manager.py:224-227 | The keys after the first are distinct and do not repeat it |
| Training.CountOfFront | AI/training_manager.py:227 | Looking a pattern up in a tally with one entry in front |
| Training.CountOfMissing | AI/training_manager.py:227 | dict.get(p, 0) of an absent pattern is 0 |
| Training.BumpKeys | AI/training_manager.py:227 | Counting a pattern keeps the keys distinct and adds it at the end when new |
| Training.BumpCount | AI/training_manager.py:227 | Counting a pattern adds one to its count and nothing to any other |
| Training.BumpTotal | AI/training_manager.py:227 | Counting a pattern adds one to the total |
| Training.TotalFront | AI/training_manager.py:224-227 | The total of a tally with one entry in front |
| Training.PatternCountsKeys | AI/training_manager.py:224-227 | The distribution's keys are distinct and are exactly the patterns that occur |
| Training.PatternCountsSpec | AI/training_manager.py:224-227 | Each pattern's count is the number of samples with it, and the counts add up to the number of samples |
| Training.CountPatterns | AI/training_manager.py:224-227 | The loop computes the pattern distribution |
| Training.CountValues | AI/training_manager.py:228 | The counts of the distribution, in its order |
| Training.MostCommonSpec | AI/training_manager.py:228 | The most common pattern has the greatest count and is the first in the distribution with it |
| Training.CoveredStep | AI/training_manager.py:232-234 | Adding a sample adds its move to the covered positions |
| Training.CoveredPositions | AI/training_manager.py:231-234 | The covered set exactly when every move parses: the set of moves, at most one per sample |
| Training.GetDataStatistics | AI/training_manager.py:194-253 | The zero report for no data; otherwise none exactly when a move does not parse, else the counts, win rate, averages, pattern distribution, most common pattern and coverage of all samples |
| Training.NormalizedInUnit | AI/training_manager.py:159 | The normalised score is in [0, 1], 0 exactly at the minimum and 1 exactly at the maximum when they differ |
| Training.ResultLabel | AI/training_manager.py:165 | The label is 1 exactly for 'win', 0 exactly for 'lose', and 0.5 for anything else |
| Training.MinScore | AI/training_manager.py:153 | min() is a sample's score no greater than any other |
| Training.MaxScore | AI/training_manager.py:152 | max() is a sample's score no smaller than any other |
| Training.EmptyRatioOfSquare | AI/training_manager.py:161-163 | On a square board the empty ratio is in [0, 1] |
| Training.RatioInUnit | AI/training_manager.py:163 | A part over a positive whole is in [0, 1] |
| Training.CountEmptyBound | AI/training_manager.py:162 | A board has at most rows × width empty cells |
| Training.CountEmptyInRowBound | AI/training_manager.py:162 | A row has at most its length empty cells |
| Training.FeaturesBounded | AI/training_manager.py:155-178 | A processed sample's normalised score is in [0, 1] and its label is 0, 0.5 or 1 |
| Training.FeaturizeAll | AI/training_manager.py:155-178 | The loop succeeds exactly when every sample processes, and then yields each sample's features in order |
| Training.PreprocessData | AI/training_manager.py:136-192 | Success exactly when there is data and every sample's move and board parse; then one feature row per sample, normalised by the global minimum and maximum score, each in range |
| Training.MissingColumns | AI/training_manager.py:106-107 | The missing columns are exactly the required ones absent from the header |
| Training.Missing | AI/training_manager.py:107 | The comprehension keeps exactly the columns absent from the header |
| Training.ManualGameIdsDistinct | AI/training_manager.py:124 | Rows cleaned in one import get distinct game ids |
| Training.CleanRow | AI/training_manager.py:115-125 | A row is skipped exactly when its move is missing or does not parse as 'x,y' |
| Training.CleanLast | AI/training_manager.py:112-125 | Each row in turn is kept, cleaned, exactly when its move parses, and the kept rows so far are unchanged |
| Training.CleanCount | AI/training_manager.py:112-125 | The rows kept are as many as the rows whose move parses |
| Training.CleanShape | AI/training_manager.py:115-125 | Every kept row has a parsing move, a timestamp, a normalised board and game id 'manual_' user '_' time '_' its index |
| Training.NormalizedBoardStable | AI/training_manager.py:121 | A normalised board text normalises to itself |
| Training.ImportManualData | AI/training_manager.py:94-134 | Success exactly when the file exists, no required column is missing and no kept row's board fails to parse; then the cleaned rows are saved, otherwise nothing |
| Training.CleanFailSticks | AI/training_manager.py:113-134 | A row that raises makes the whole import fail |
| BoardView.RoundHalfEven | UI/board.py:35-36 | round() gives an integer within 0.5 of the value |
| BoardView.RoundWhole | UI/board.py:35-36 | A whole number rounds to itself |
| BoardView.Clamp | UI/board.py:38-39 | max(lo, min(hi, v)) is within [lo, hi] and is v when v already is |
| BoardView.Board.constructor | UI/board.py:12-25 | A board at the given position and size for the given game session, with no pieces, no win line, no animation and animation speed 5 |
| BoardView.Board.BoardToScreen | UI/board.py:27-31 | The pixel lies inside the cell's square: the column gives the screen x, the row the screen y |
| BoardView.Board.ScreenToBoard | UI/board.py:33-40 | The cell is on the board; each coordinate is the rounded nearest cell, within half a cell of the pixel, when that cell is on the board (row from the screen y, column from the screen x) |
| BoardView.Board.ScreenToBoardRoundTrip | UI/board.py:27-40 | Converting a cell's centre pixel back gives that cell |
| BoardView.Board.CellCentre | UI/board.py:27-36 | The centre pixel of cell b rounds back to b |
| BoardView.Board.Reset | UI/board.py:153-159 | No pieces, no win line, no animation, the game session reset, and the geometry and animation settings unchanged |
| MainWindow.RegistrationError | UI/main_window.py:554-564 | No error exactly for a username of 4 to 20 characters and a password of at least 6 with a digit and a letter; the length message exactly for a bad username, the weak-password message exactly for a good username and a weak password |
| MainWindow.SamplePasswordAccepted | UI/main_window.py:562-564 | A password such as 'abc123' is accepted with a username of valid length |
| MainWindow.TrainError | UI/main_window.py:831-851 | No error exactly for a logged-in non-guest user in training mode with no game running, 1 to 100 epochs and a batch of 1 to 256; the guest message for no user or the guest; the epochs and batch messages exactly when those are out of range |
| MainWindow.SaveModelName | UI/main_window.py:763-775 | The stripped name exactly for a non-guest user in training mode and a name with some non-whitespace character; the guest error for no user or the guest, the mode error outside training mode |
| MainWindow.Window.constructor | UI/main_window.py:39-42 | The window starts at its default size with the given minimum |
| MainWindow.Window.HandleResize | UI/main_window.py:357-361 | After a resize each dimension is the requested one, raised to the minimum when below it |

## Left out

- I/O is not modelled: files, sockets, JSON/CSV/zlib encoding, torch, pygame drawing and animation, and loggers. Stores are maps from file names to JSON values. File listings are given in directory order.
- Locks and threads are not modelled. Neither is the AI thread that `reset_game` starts when the AI moves first.
- The event emit deadlock is not modelled. `emit` holds its non-reentrant lock while calling listeners, and the game session's listeners emit again (Commom/event.py:49-61 with Game/game_core.py:105-166).
- The `create_room` deadlock is not modelled. `create_room` takes the registry lock and then calls `_generate_room_id`, which takes the same lock again (Server/room_manager.py:37, 48-49).
- MctsAi.MCTSAI: the tree is an index arena rather than linked nodes.
- MctsAi.MCTSAI.ParallelIterations: AI/mcts_ai.py:8 imports `ParallelWorker`, but " Compute/parallel_compute.py" defines only `ParallelCompute` (line 7), so as written importing AI/mcts_ai.py raises ImportError and MCTS never runs. The model treats AI/mcts_ai.py as importable and runs the iterations one after another; since `ParallelWorker` does not exist, the workers are not modelled.
- MctsAi: `random.choice` is a `choose` parameter.
- MctsAi: the UCT exploration term sqrt(ln N / n) is a `bonus` parameter.
- MctsAi: `MCTSNode.value` is never read, so it is omitted.
- Floating point is modelled as exact reals: Elo expectation and rounding, averages, ratios and screen coordinates.
- `round(…, n)`, `:.1f` and `strftime` output formatting are not modelled. Affected: Evaluator.AnalyzeMoveQuality, BoardAnalyzer.AnalyzeMoveQuality, Training.GetDataStatistics, Ranking.GetRankingList, RankingStore.TopRanking (time formatting, Storage/ranking_storage.py:105), RankingStore.Completed (win rate rounding, Storage/ranking_storage.py:69-72), ModelStore.SaveModelWithVersion (win rate rounded to four places, Storage/model_storage.py:47).
- Ranking: the Elo expectation 1/(1+10^(Δ/400)) is passed as `expected1`, since it needs a real power.
- Ranking.UpdatePlayerRating: when both ids are the same existing player, the source finds one dict for both sides and updates it twice. The model reads the stored entry once for each side, so it does not capture that aliasing.
- Constants: PIECE_COLORS, GAME_MODES, AI_LEVELS and ROOM_STATUSES are plain classes (Commom/constants.py:28-45), yet the source subscripts them or calls `.values()` on them throughout, for example AI/base_ai.py:10, AI/evaluator.py:72, Game/game_core.py:61, 64, 69, 151, 172, 177, AI/training_manager.py:162 and Server/room_manager.py:43-46. As written each such use raises TypeError or AttributeError; the default arguments at AI/mcts_ai.py:12, 62 and AI/minimax_ai.py:10 are evaluated when those modules are imported, so the imports themselves fail. Also every `from Common.` import names a package that is spelt `Commom` on disk, so those imports fail. The model reads each constant as its value and treats the modules as importable.
- Hashes and ciphers are function parameters: HMAC-SHA256, MD5, CRC-32 and AES-CBC. Only padding, XOR and the token layout are modelled.
- The position-weight matrix is a given table of positive reals, because its formula needs a square root.
- RuleEngine: `validate_move` and `check_game_end` always take the native branch in the program. The session therefore uses the C++ core's answers (GobangCore), and GameCore.FallbackAgrees proves the Python fallback gives the same reason as that core.
- The ctypes wrapper in " Compute/cpp_interface.py" is modelled as the C++ core's intended answers, not as written. Its `validate_move` calls `.decode` on a `c_char_p` (" Compute/cpp_interface.py":166-169), so every rejected move raises AttributeError instead of returning the reason. Its `evaluate_move` omits the `board_size` argument that `gobang_core_evaluate_move` takes (" Compute/cpp_interface.py":215-217, cpp/core/gobang_core.cpp:383-390), so the native score is read with an undefined board size. Affected: GameCore.Place, GameCore.GameCore.PlacePiece, MctsAi.MCTSAI.RolloutScores, MinimaxAi.NativeScores, MinimaxAi.MinimaxAI.CachedScore, MinimaxAi.MinimaxAI.Evaluate.
- Evaluator.EvaluateBoard: this and Evaluator.EvaluateMove and Evaluator.AnalyzeMoveQuality model the Python fallback recogniser (AI/evaluator.py:57-86): the best of four directions, any stone blocks, scaled by the position weight. The program has the native core, so `_recognize_pattern` takes the native branch (AI/evaluator.py:33-36): the score is GobangCore.MoveScore summed over the four directions, only opponent stones block, and no position weight is applied (cpp/core/gobang_core.cpp:266-311). GameCore.Review, GameCore.ReviewMove and BoardAnalyzer, which score through the evaluator, inherit this substitution.
- Evaluator.EvaluateMove: scores with the Python fallback recogniser, not the native one that runs; see Evaluator.EvaluateBoard.
- Evaluator.AnalyzeMoveQuality: recognises with the Python fallback, not the native classifier that runs; see Evaluator.EvaluateBoard.
- `set_mode` is not modelled; GameCore.GameCore.ResetGame models only the reset. In the source `set_mode` deadlocks: it holds the non-reentrant `state_lock` while calling `reset_game`, which takes the same lock again (Game/game_core.py:59, 171, 184, 191).
- Ranking: Game/ranking_system.py:16 annotates with `Tuple`, which the file never imports (Game/ranking_system.py:2). Before Python 3.14 annotations are evaluated at definition time, so importing the module raises NameError, and with it the import of Game/game_core.py:20 fails. The model treats the module as importable.
- Rooms.AiWinner: this is the corrected naming of Server/room.py:242, kept as the corrected half of a Findings row. The room concludes through Rooms.AiWinnerAsWritten, as the source does.
- MinimaxAi.MinimaxAI: the AI settings (colour, level, board size, native flag, depth and window) are constants. The program never reassigns them after construction.
- BoardAnalyzer.FindBestMove: the source calls a method the evaluator does not have (`_get_empty_positions`) and passes five arguments to the four-argument `evaluate_move` (Game/board_analyzer.py:155, 162), so as written it raises AttributeError on every call. The intended behaviour is modelled. The same holds for BoardAnalyzer.DetectThreats, BoardAnalyzer.AnalyzeMoveQuality, BoardAnalyzer.AnalyzeBoardSituation and BoardAnalyzer.GenerateReplayReport, each listed below.
- BoardAnalyzer.DetectThreats: as written it calls the missing `_get_empty_positions` (Game/board_analyzer.py:176) and raises AttributeError on every call. The intended threat scan is modelled.
- BoardAnalyzer.AnalyzeMoveQuality: as written it reaches `_find_best_move`, which calls the missing `_get_empty_positions` (Game/board_analyzer.py:155), and raises AttributeError on every call. The intended report is modelled.
- BoardAnalyzer.AnalyzeBoardSituation: as written it reaches `_detect_threats` and `_find_best_move`, which call the missing `_get_empty_positions` (Game/board_analyzer.py:155, 176), and raises AttributeError on every call. The intended report is modelled.
- BoardAnalyzer.GenerateReplayReport: for a non-empty history it reaches `_detect_threats` and `analyze_move_quality`, which call the missing `_get_empty_positions` (Game/board_analyzer.py:155, 176), so as written it raises AttributeError. The error for an empty history is as written; the intended report is modelled.
- BoardAnalyzer.MostCommonSpec: ties between equally common patterns go to the first in move order, where Python's set order is unspecified.
- Rooms.Room.constructor: the source reads `self.logger` in `_init_ai` before assigning it, and reads `self.ai_first`, which a room never sets (Server/room.py:39-54, 99). The intended behaviour is modelled: the room is created and the game starts without an AI first move.
- Security: the fallback branch of `decrypt_data` verifies an undefined `data` (Commom/security.py:123), so it always fails. It is not modelled; the XOR round trip is.
- ModelStore: `_find_meta_files_by_version` calls a string (Storage/model_storage.py:221), and `load_model` loads torch files. Neither is modelled.
- Strings.ParseInt: Python's int() also accepts '_' between digits ("1_0") and non-ASCII decimal digits ("١٢"). The model reads such text as no number, so it fails where the source parses. The whitespace int() skips is modelled by Strings.IsIntSpace, which differs from str.strip()'s set in leaving out \x1c-\x1f.
- ModelStore.DigitRun: matches ASCII digits only. The `\d` of Storage/model_storage.py:210 also matches non-ASCII decimal digits, so a file name with such digits after '_v' is matched there and not here.
- DataUtils.ParseCells: parses numbers with Strings.ParseInt, so '_' digit grouping and non-ASCII digits fail here where the source accepts them.
- DataUtils.ParseRows: parses numbers with Strings.ParseInt, so '_' digit grouping and non-ASCII digits fail here where the source accepts them.
- DataUtils.StrToBoard: parses numbers with Strings.ParseInt, so '_' digit grouping and non-ASCII digits fail here where the source accepts them.
- Training.ParseMove: parses numbers with Strings.ParseInt, so '_' digit grouping and non-ASCII digits fail here where the source accepts them.
- Training.CleanRow: parses numbers with Strings.ParseInt, so '_' digit grouping and non-ASCII digits fail here where the source accepts them.
- Training.CoveredPositions: parses numbers with Strings.ParseInt, so '_' digit grouping and non-ASCII digits fail here where the source accepts them.
- Training.GetDataStatistics: parses numbers with Strings.ParseInt, so '_' digit grouping and non-ASCII digits fail here where the source accepts them.
- Training.PreprocessData: parses numbers with Strings.ParseInt, so '_' digit grouping and non-ASCII digits fail here where the source accepts them.
- Training.ImportManualData: parses numbers with Strings.ParseInt, so '_' digit grouping and non-ASCII digits fail here where the source accepts them.
- Training.ImportManualData, Training.PreprocessData: `float()` and `int()` failures on numeric columns are not modelled. Samples carry already converted numbers; a move or board that does not parse is modelled.
- Training: `generate_self_play_data` runs the AI training loop and is not modelled. The output CSV of `preprocess_data` is returned as a value rather than written.
- RecordStore.GameRecordStorage.LoadUserRecords: answers an error whenever a loaded record has no numeric timestamp. In the source a record without a `timestamp` key, or one that is not a dict, makes the sort raise. A non-numeric timestamp raises only beside a key it cannot be compared with. A single such record, or records whose timestamps are all strings, sort without error in the source but answer an error in the model.
- RankingStore.Completed: `update_ranking` copies every key of `user_data` into the stored dict (Storage/ranking_storage.py:63-64), so keys beyond the player fields are kept in the source; the record here holds only the player fields.
- BoardView.Board: the `GameCore` the board creates is passed to its constructor instead.
- BoardView.Board.ScreenToBoard: pixel arithmetic uses exact reals instead of floats.
- MainWindow.RegistrationError: `isdigit` and `isalpha` are modelled for ASCII only, while Python's cover all of Unicode.
- MainWindow: only the checks of the registration, train and save-model handlers are modelled. The actions that follow them (register, train, save) are not.

## Findings

| source | as written | input that shows it | evidently intended | confidence | as-written member | corrected member |
|---|---|---|---|---|---|---|
| AI/minimax_ai.py:161-166 | With the native core, `find_winning_move` always returns a pair, and (-1, -1) when there is no win (cpp/core/gobang_core.cpp:201). A non-empty tuple is truthy, so `move` returns (-1, -1). | An empty board with the native core | Search when there is no winning move | not executed | MinimaxAi.MinimaxAI.Move | MinimaxAi.MinimaxAI.MoveIntended |
| AI/mcts_ai.py:154-159 | The same truthy (-1, -1) check ends `move` before any MCTS iteration | An empty board with the native core | Run MCTS when there is no winning move | not executed | MctsAi.MCTSAI.Move | MctsAi.MCTSAI.MoveIntended |
| Server/room.py:242 | After an AI move that ends the game, any winner other than the AI's colour is reported as the host, including a draw on a full board | A full board with no five after the AI's last stone; this cannot arise, because a room that is not PVP never starts (Rooms.DormantUnlessPvp) and on the 225-cell board Black, not the AI's White, places the last stone | Report 'draw' when no five exists | not executed | Rooms.AiDrawCreditsHost | Rooms.AiResultNamesFive |
| Game/ranking_system.py:66-87 | The old rating passed to `_format_player_ranking` is read after the score was overwritten, so `rating_change` is always 0 | Any game, e.g. two new players where player 1 wins | Report the rating before the game, so the change is new minus old | not executed | Ranking.RatingChangeAlwaysZero | Ranking.RatingChangeFollowsResult |
| Storage/model_storage.py:215-217 | Meta files are matched by name prefix only, so model 'm' takes the versions of model 'm2' | Saving 'm' when m2_v5_100_meta.json exists gives 'm' version 6 | Match name + '_v' | not executed | ModelStore.PrefixTakesOtherModel | ModelStore.OwnPrefixExact |
| Game/game_core.py:365 | The reason text calls `evaluate_move` with five arguments (EVAL_WEIGHTS last), but it takes four (AI/evaluator.py:128), so `_get_ai_suggestions` raises a TypeError for the first move whose quality is below 60. The game-end listener stops there, the event manager logs the error, and no replay report is saved. | A training game in which some recorded move has quality below 60 | Call `evaluate_move(board, x, y, color)` and save the report with its suggestions | not executed | GameCore.GameCore.GenerateReplayReport | GameCore.GameCore.GenerateReplayReportIntended |
