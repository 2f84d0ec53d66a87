# Chess game analysis and game store — a Dafny model

This project models the two core classes of a chess-analysis application:

- `ChessAnalyzer` (`src/analysis/analyzer.py`) replays a game's mainline and asks
  a UCI engine (Stockfish) for a score before and after every move. Each move
  gets a record with its score change: the absolute difference of the two
  side-to-move-relative scores. Moves whose score change is at least 200 are
  blunders, and moves whose score change is at least 100 but less than 200
  are mistakes. Accuracy is the percentage of moves whose score change is
  less than 50. The class also
  classifies a game's phase by its ply count, evaluates a single FEN position,
  finds the engine binary and closes the engine.
- `ChessDatabase` (`src/db/database.py`) stores fetched games in a `games`
  SQLite table keyed by game id. Single and batch writes are insert-or-replace.
  Games can be read back by id, by player (newest first, with an optional
  limit) and by player and date range. Engine evaluations are cached in an
  `analysis_cache` table keyed by (game id, move number).

Layout:

- `wrappers.dfy` (`Wrappers`): `Option`.
- `text.dfy` (`Text`): Python's `str.split`, `s.split(sep)[-1]`,
  `str.startswith` and substring containment, with lemmas about them.
- `analyzer.dfy` (`Analyzer`): the analysis pipeline. `Analyze` is a function
  specifying what `analyze_game` returns, with lemmas about it. The
  `ChessAnalyzer` class's methods carry the source's loops and state and are
  proved equal to those functions.
- `database.dfy` (`Database`): the tables as values. The `games` table is a
  sequence of rows with unique ids, and the cache is a map from its primary
  key. Each SQL statement is a function over those contents, with lemmas. The
  `ChessDatabase` class holds the tables and the connection flag, and its
  methods update them.

External systems enter as parameters, and every property holds for all of them:

- The engine is a value `Engine(analyse)`. `analyse` maps a position and a
  depth to a `Reply`:
  - either the call raised;
  - or it returned a side-to-move relative score (mates folded in as
    `mate_score=10000`) together with a principal variation. That variation
    may be missing, or present but empty.
- The chess library is `ChessLib`:
  - PGN parsing (`None` when no game is found);
  - FEN rendering of a position;
  - whether `chess.Board(fen)` accepts a FEN.
- Engine discovery takes the set of existing paths and the PATH lookup's
  answer as parameters.
- The engine start takes the process-start function as a parameter.

Four points of the code shape what the model proves:

- Without a working engine every score is 0; there is no material-count
  evaluation (src/analysis/analyzer.py:140-147, 153-164).
- Moves are pushed without a legality check (line 150).
- `score_change` is 0 whenever either score is 0 (line 167).
- The two scores are taken from opposite sides' points of view: the mover's
  before the push (line 143) and the opponent's after it (line 156). So a move
  that keeps a +100 evaluation scores 200, and a real drop of 300 centipawns
  can score 0 (`Analyzer.SteadyAdvantageIsFlagged`,
  `Analyzer.FlatScoreIsNotFlagged`).

## Model

| member | source | states |
|---|---|---|
| Analyzer.FirstExistingIsEarliest | src/analysis/analyzer.py:106-108 | The scan returns exactly the earliest listed path that exists, and nothing when none exists |
| Analyzer.DiscoveryOrder | src/analysis/analyzer.py:96-116 | Discovery picks a listed path only if it exists and no earlier listed path does; PATH is consulted only when no listed path exists, and an empty PATH answer counts as none |
| Analyzer.ChessAnalyzer.FindStockfish | src/analysis/analyzer.py:96-116 | The loop over the five common paths, then the PATH lookup, returns the discovery result |
| Analyzer.ChessAnalyzer.constructor | src/analysis/analyzer.py:83-94 | A non-empty given path is kept, otherwise the discovered one; an engine exists only for an existing path, and for an existing non-empty path it is whatever the process start yields |
| Analyzer.ScoreChange | src/analysis/analyzer.py:167 | The score change is never negative and is 0 exactly when either score is 0 or the two scores are equal |
| Analyzer.ChessAnalyzer.EvaluateBefore | src/analysis/analyzer.py:139-147 | The pre-move score is the engine's score, or 0 without an engine or when the call raises |
| Analyzer.ChessAnalyzer.EvaluateAfter | src/analysis/analyzer.py:152-164 | The post-move score and best move come from one reading of the position after the move; both fall back to (0, None) when the call raises or the principal variation is empty |
| Analyzer.ChessAnalyzer.AnalyzeGame | src/analysis/analyzer.py:118-197 | The loop over the mainline, with its running blunder and mistake lists and its summary, returns exactly the analysis `Analyze` specifies for the parsed game |
| Analyzer.AnalyzeShape | src/analysis/analyzer.py:118-197 | An unparsable PGN gives the error "Invalid PGN" and nothing else does; otherwise there is one record per mainline move numbered 1..N with that move, no change is negative, and the summary counts N moves, the lengths of the two lists, and the accuracy of the records (0 for no moves) |
| Analyzer.AnalyzeSelections | src/analysis/analyzer.py:181-185 | Blunders are exactly the records whose score change is at least 200; mistakes are exactly those whose score change is 100 to 199; the two are disjoint; both keep the records' order |
| Analyzer.RecordReadings | src/analysis/analyzer.py:139-176 | Record i's pre-move score comes from the position before move i, and its post-move score, best move and FEN all come from the position after it; its score change is the zero-forcing difference of those two scores |
| Analyzer.SilentEngineAnalysis | src/analysis/analyzer.py:140-167 | With no engine, or an engine whose every call raises, all scores and changes are 0, no best move is given, there are no blunders or mistakes, and accuracy is 100 (0 for an empty game) |
| Analyzer.SteadyAdvantageIsFlagged | src/analysis/analyzer.py:139-183 | When the engine sees one side ahead by the same non-zero v in every position, each record's score change is 2|v|, since the score before is the mover's view and the score after the opponent's; for |v| of at least 100 every move is a blunder |
| Analyzer.FlatScoreIsNotFlagged | src/analysis/analyzer.py:139-185 | When the engine gives the side to move the same score c in every position (a swing of 2|c| per ply for either side), both scores of every record are c, every score change is 0, and there are no blunders or mistakes |
| Analyzer.FlaggedMovesHaveBothScores | src/analysis/analyzer.py:167-185 | A blunder or mistake always has a non-zero score both before and after the move |
| Analyzer.InaccurateCountBounds | src/analysis/analyzer.py:204-210 | The number of inaccurate moves is at most the number of moves, and is 0 exactly when no move has a score change of 50 or more |
| Analyzer.AccuracyRange | src/analysis/analyzer.py:199-213 | Accuracy lies between 0 and 100; for a non-empty list it is 100 exactly when no move is inaccurate |
| Analyzer.ChessAnalyzer.CalculateAccuracy | src/analysis/analyzer.py:199-213 | The counting loop returns the accuracy: 0 for no moves, otherwise the share of accurate moves as a percentage |
| Analyzer.OpeningClassification | src/analysis/analyzer.py:240-253 | The phase, and its label string, is Unknown / "Unknown" exactly for an unparsable PGN; "Opening" exactly for at most 10 moves, "Middlegame" for 11 to 30, "Endgame" for more than 30 |
| Analyzer.ClassificationMatchesSummary | src/analysis/analyzer.py:240-253 | The phase of a parsable PGN is the phase of the move total that `analyze_game` reports for it |
| Analyzer.ChessAnalyzer.GetPositionEvaluation | src/analysis/analyzer.py:215-233 | Without an engine, the error names Stockfish. A FEN the library rejects raises to the caller. An engine error becomes an error result, and so does an empty principal variation ("list index out of range"). Otherwise the result is the score, the first move of the variation if any, the depth and the FEN |
| Analyzer.ChessAnalyzer.DetectBlunders | src/analysis/analyzer.py:235-238 | The blunders of a default-depth (15) analysis, or none for an unparsable PGN; every one has a score change of at least 200 |
| Analyzer.ChessAnalyzer.Close | src/analysis/analyzer.py:255-259 | After closing there is no engine; quit is sent once if there was one and not otherwise |
| Analyzer.CloseTwice | src/analysis/analyzer.py:255-263 | Closing a second time, as `__del__` does after an explicit close, sends no further quit |
| Text.LastSegmentIsAfterLastSeparator | src/db/database.py:141 | `s.split('/')[-1]` is a suffix of `s` containing no '/', and it is either all of `s` or preceded by '/' |
| Database.GameIdOfUrl | src/db/database.py:141 | The game id of a URL ending in `/<id>` is `<id>` |
| Database.InsertRow | src/db/database.py:136-149 | The single-insert row dates the game by its end time, stores the given result or '' (no PGN fallback), and has a game id without '/' |
| Database.TagValueIsQuoted | src/db/database.py:169-170 | For a line `[Result "<v>"...` with no quote in v, the extracted result is v |
| Database.FirstResultTagIsFirst | src/db/database.py:166-171 | The PGN result is read from the first line that starts with `[Result "`, and is '' when no line does |
| Database.ResultFromPgn | src/db/database.py:163-171 | The line loop with its early break returns the result of the first result-tag line |
| Database.DeriveRow | src/db/database.py:159-182 | The loop body builds the batch row: an id only for a present, non-empty URL, and the PGN result when the given one is missing or empty |
| Database.BatchRowMatchesInsertRow | src/db/database.py:159-182 | The batch path writes the same row as the single insert except for the result fallback, and the same row whenever a result is given |
| Database.FindSpec | src/db/database.py:216-218 | With unique ids, a lookup finds nothing exactly when no row has the id, and otherwise finds the row that has it |
| Database.ReplaceSpec | src/db/database.py:136-139 | Insert-or-replace keeps ids unique, makes the new row the one found under its id, leaves every other id's row unchanged, and keeps exactly the new row and the old rows with other ids |
| Database.ReplaceAllSpec | src/db/database.py:184-188 | After a batch, ids stay unique; an id in the batch finds the batch's last row with it, and every other id finds what it found before |
| Database.InsertedGameIsFound | src/db/database.py:131-151 | After `insert_game`, looking up the id taken from the URL returns the inserted row |
| Database.OfUser | src/db/database.py:197-199 | The rows selected are exactly the stored rows in which the user played white or black, none duplicated |
| Database.OfUserInRange | src/db/database.py:236-241 | The rows selected are exactly the user's stored rows whose date lies in the inclusive range, none duplicated |
| Database.InsertByDateMembers | src/db/database.py:200 | Placing a row into the sorted list adds exactly that row |
| Database.InsertByDateSorted | src/db/database.py:200 | Placing a row into a newest-first list keeps it newest first |
| Database.SortNewestFirstSpec | src/db/database.py:200 | `ORDER BY date DESC` yields a newest-first permutation of its input |
| Database.LimitSpec | src/db/database.py:204-206 | A positive limit keeps the first `limit` rows (all, if fewer); a missing, 0 or negative limit keeps all; nothing dropped is newer than anything kept |
| Database.GamesByUsernameSpec | src/db/database.py:192-209 | The user's games, newest first; without an effective limit (none, 0 or negative) exactly the stored rows in which the user played, each once |
| Database.GamesByUsernameLimit | src/db/database.py:204-209 | The rows returned are a prefix of the user's newest-first games, with no row more often than it is stored; with a positive limit they are the first min(limit, number of the user's games), and no omitted game of the user is newer than a returned one |
| Database.GamesByDateRangeSpec | src/db/database.py:220-243 | The user's games dated within the inclusive range, each once, newest first |
| Database.AllGames | src/db/database.py:245-251 | All stored rows, each once, newest first |
| Database.ChessDatabase.constructor | src/db/database.py:71-94 | Opening the store keeps the tables' existing rows and leaves a connection open |
| Database.ChessDatabase.InsertGame | src/db/database.py:131-151 | The table becomes the old one with the row inserted or replaced. Ids stay unique, the row is found under its id, and lookups of every other id are unchanged |
| Database.ChessDatabase.InsertGamesBatch | src/db/database.py:153-190 | The derivation loop builds one row per game, then the rows are applied in order. Ids stay unique, and each id finds the batch's last row with it or else its old row |
| Database.ChessDatabase.GetGamesByUsername | src/db/database.py:192-209 | Returns the by-user query's rows for the stored table |
| Database.ChessDatabase.GetGameById | src/db/database.py:211-218 | Returns the stored row with the id, or nothing |
| Database.ChessDatabase.GetGamesByDateRange | src/db/database.py:220-243 | Returns the date-range query's rows for the stored table |
| Database.ChessDatabase.GetAllGames | src/db/database.py:245-251 | Returns every stored row, newest first |
| Database.ChessDatabase.CacheAnalysis | src/db/database.py:253-265 | The cache maps (game id, move number) to the new entry, every other key is unchanged, and each entry stays under its own key |
| Database.ChessDatabase.GetCachedAnalysis | src/db/database.py:267-278 | Returns the entry under (game id, move number), or nothing when there is none |
| Database.ChessDatabase.Close | src/db/database.py:280-284 | Afterwards no connection is open; the stored tables are unchanged |
| Database.StoreThenRead | src/db/database.py:131-218 | A game inserted and then looked up by its id is found. An analysis cached and then read back returns its evaluation and best move. Closing twice leaves the store closed |

## Left out

- Engine and library internals: the UCI protocol, python-chess PGN parsing, move generation and FEN rendering are parameters. The engine is assumed to answer the same position at the same depth the same way.
- Engine time limits, engine process failures after start, and the engine's own resource use are not modelled.
- A move whose `best_move` is the null move is falsy in python-chess and would be reported as no best move. The model reports the first move of the principal variation in that case.
- Illegal moves in a parsed game are not checked, because the code does not check them: `board.push` accepts the move.
- Accuracy is the exact rational percentage; Python's float rounding (100/3 gives 33.33333333333333) is not modelled.
- The printed warnings in `ChessAnalyzer.__init__` and `ChessDatabase.__init__` are output only and are left out.
- `__del__` on both classes is only a call to `close`; `Analyzer.CloseTwice` covers the second call.
- Database.ChessDatabase.constructor: does not model a failure to create the tables, which the source prints and swallows. It also does not model the PyInstaller path choice, the file location or the `sqlite3.Row` row factory.
- The `created_at` default columns of both tables are not modelled.
- Fetched dictionaries that hold an explicit `None` value are not modelled. A key that is present with a None value is treated like a missing key, whereas Python's `.get` would return None.
- Database.ChessDatabase.GetGamesByDateRange: takes the range as integer timestamps. The conversion of naive datetimes to UTC and the `int(...timestamp())` truncation are not modelled.
- Rows returned by SQLite with equal dates may come in any order. The model fixes one order, and the lemmas state only what holds for every order: newest first, and the same rows.
- SQLite type affinity (a non-integer `end_time` stored in the INTEGER column) is not modelled.
- Database.ChessDatabase.GetGamesByUsername: a non-integer limit is not modelled.
- The web API client, the AI clients, the GUI, the web app and the command line are not part of this model.
