/**
 * The game-analysis pipeline of `ChessAnalyzer` (src/analysis/analyzer.py).
 *
 * The chess library (PGN parsing, FEN rendering, FEN validation) and the UCI
 * engine process are outside the model: they enter as values of the types
 * `ChessLib` and `Engine` below, and every statement is proved for all of them.
 */
module Analyzer {
  import opened Wrappers
  import opened Text

  /** A move as `move.uci()` renders it, e.g. "e2e4". */
  type Uci = string

  /**
   * A position: the setup the game started from (its FEN) and the moves pushed
   * onto it since. `board.push(m)` only appends; what the position looks like
   * is left to the chess library.
   */
  datatype Board = Board(setup: string, played: seq<Uci>) {
    function Push(m: Uci): Board {
      Board(setup, played + [m])
    }
  }

  /** A parsed game: its initial position and its mainline moves, in order. */
  datatype Game = Game(setup: string, mainline: seq<Uci>) {
    /** `game.board()`: the initial position with no moves pushed. */
    function StartBoard(): Board {
      Board(setup, [])
    }
  }

  /**
   * The outcome of one `engine.analyse(board, Limit(depth=d))` call as the
   * analyzer reads it: either the call (or reading its score) raised, or it
   * produced the side-to-move relative score (mates folded in with
   * `mate_score=10000`) and the principal variation, which may be absent
   * (`pv` is None) or present but empty (`Some([])`).
   */
  datatype Reply = Raised(message: string) | Info(score: int, pv: Option<seq<Uci>>)

  /** A live engine process; its answers are a function of the position and the depth. */
  datatype Engine = Engine(analyse: (Board, int) -> Reply)

  /**
   * The chess library: `chess.pgn.read_game` (None when it finds no game),
   * `board.fen()`, and whether `chess.Board(fen)` accepts a FEN.
   */
  datatype ChessLib = ChessLib(readGame: string -> Option<Game>, fen: Board -> string, fenIsValid: string -> bool)

  /** One entry of `analysis["moves"]`. */
  datatype MoveRecord = MoveRecord(
    moveNumber: nat,
    move: Uci,
    scoreBefore: int,
    scoreAfter: int,
    scoreChange: int,
    bestMove: Option<Uci>,
    fen: string)

  /** `analysis["summary"]`. Accuracy is a percentage, kept exact. */
  datatype Summary = Summary(totalMoves: nat, blunderCount: nat, mistakeCount: nat, accuracy: real)

  /** The dictionary `analyze_game` returns: `{"error": ...}` or the full report. */
  datatype Analysis =
    | Failed(error: string)
    | Report(moves: seq<MoveRecord>, blunders: seq<MoveRecord>, mistakes: seq<MoveRecord>, summary: Summary)

  /** The dictionary `get_position_evaluation` returns, or the exception it lets escape. */
  datatype PositionReport =
    | EvalError(error: string)
    | Evaluation(score: int, bestMove: Option<Uci>, depth: int, fen: string)
    | FenRejected  // `chess.Board(fen)` raised ValueError; it is outside the try and reaches the caller

  /** Game phase by ply count, as `get_opening_classification` names it. */
  datatype Phase = Unknown | Opening | Middlegame | Endgame {
    function Label(): string {
      match this
      case Unknown => "Unknown"
      case Opening => "Opening"
      case Middlegame => "Middlegame"
      case Endgame => "Endgame"
    }
  }

  const DefaultDepth: int := 15
  const BlunderThreshold: int := 200
  const MistakeThreshold: int := 100
  const InaccuracyThreshold: int := 50
  const InvalidPgnMessage: string := "Invalid PGN"
  const NoEngineMessage: string := "Stockfish engine not available"
  /** What `str(e)` says for the IndexError of `[][0]` when the engine reports an empty pv. */
  const EmptyPvMessage: string := "list index out of range"

  /** Engine discovery order, before the PATH lookup. */
  const CommonPaths: seq<string> := [
    "/usr/local/bin/stockfish",
    "/usr/bin/stockfish",
    "/opt/homebrew/bin/stockfish",
    "./engines/stockfish",
    "./stockfish"
  ]

  // ---------------------------------------------------------------------------
  // Engine discovery
  // ---------------------------------------------------------------------------

  /** The first of `paths` that exists. */
  function FirstExisting(paths: seq<string>, existing: set<string>): Option<string>
  {
    if paths == [] then None
    else if paths[0] in existing then Some(paths[0])
    else FirstExisting(paths[1..], existing)
  }

  /** `_find_stockfish`: the first existing common path, else a non-empty PATH hit, else None. */
  function Discovery(existing: set<string>, which: Option<string>): Option<string>
  {
    match FirstExisting(CommonPaths, existing)
    case Some(p) => Some(p)
    case None => if which.Some? && which.value != "" then which else None
  }

  /** `FirstExisting` finds exactly the earliest listed path that exists. */
  lemma {:induction false} FirstExistingIsEarliest(paths: seq<string>, existing: set<string>)
    ensures FirstExisting(paths, existing).None? <==> (forall i :: 0 <= i < |paths| ==> paths[i] !in existing)
    ensures forall i :: 0 <= i < |paths| && paths[i] in existing && (forall j :: 0 <= j < i ==> paths[j] !in existing)
                        ==> FirstExisting(paths, existing) == Some(paths[i])
  {
    if paths != [] {
      FirstExistingIsEarliest(paths[1..], existing);
      forall i | 0 <= i < |paths| && paths[i] in existing && (forall j :: 0 <= j < i ==> paths[j] !in existing)
        ensures FirstExisting(paths, existing) == Some(paths[i])
      {
        if i > 0 {
          assert paths[0] !in existing;
          assert paths[1..][i - 1] == paths[i];
          assert forall j :: 0 <= j < i - 1 ==> paths[1..][j] == paths[j + 1];
        }
      }
      if paths[0] !in existing {
        assert forall i :: 1 <= i < |paths| ==> paths[i] == paths[1..][i - 1];
      }
    }
  }

  /**
   * Discovery returns a listed path only if it exists and no earlier one does,
   * and falls back to the PATH lookup only when no listed path exists.
   */
  lemma DiscoveryOrder(existing: set<string>, which: Option<string>)
    ensures forall i :: 0 <= i < |CommonPaths| && CommonPaths[i] in existing
                        && (forall j :: 0 <= j < i ==> CommonPaths[j] !in existing)
                        ==> Discovery(existing, which) == Some(CommonPaths[i])
    ensures (forall i :: 0 <= i < |CommonPaths| ==> CommonPaths[i] !in existing)
            ==> Discovery(existing, which) == (if which.Some? && which.value != "" then which else None)
  {
    FirstExistingIsEarliest(CommonPaths, existing);
  }

  // ---------------------------------------------------------------------------
  // Scores and move records
  // ---------------------------------------------------------------------------

  function Abs(x: int): nat {
    if x < 0 then -x else x
  }

  /** The score before a move: the engine's score, or 0 without an engine or when the call raises. */
  function ScoreBefore(engine: Option<Engine>, board: Board, depth: int): int
  {
    match engine
    case None => 0
    case Some(e) =>
      match e.analyse(board, depth)
      case Raised(_) => 0
      case Info(s, _) => s
  }

  /** Score and suggested move read from the analysis of the position after a move. */
  datatype After = After(score: int, bestMove: Option<Uci>)

  /**
   * The post-move reading: the whole try block falls back to (0, None) when
   * the call raises or when the pv is an empty list (its `[0]` raises).
   */
  function ScoreAfter(engine: Option<Engine>, board: Board, depth: int): After
  {
    match engine
    case None => After(0, None)
    case Some(e) =>
      match e.analyse(board, depth)
      case Raised(_) => After(0, None)
      case Info(s, pv) =>
        match pv
        case None => After(s, None)
        case Some(line) => if line == [] then After(0, None) else After(s, Some(line[0]))
  }

  /**
   * `abs(score_before - score_after) if score_before and score_after else 0`:
   * never negative, and zero exactly when either score is zero or they agree.
   */
  function ScoreChange(before: int, after: int): (change: int)
    ensures change >= 0
    ensures change == 0 <==> (before == 0 || after == 0 || before == after)
  {
    if before != 0 && after != 0 then Abs(before - after) else 0
  }

  predicate IsBlunder(r: MoveRecord) {
    r.scoreChange >= BlunderThreshold
  }

  /** Reached through the `elif`, so only below the blunder threshold. */
  predicate IsMistake(r: MoveRecord) {
    !IsBlunder(r) && r.scoreChange >= MistakeThreshold
  }

  predicate IsInaccurate(r: MoveRecord) {
    r.scoreChange >= InaccuracyThreshold
  }

  /** The record for the `i`-th mainline move (0-based), evaluated around that move. */
  function RecordAt(engine: Option<Engine>, depth: int, fen: Board -> string, g: Game, i: nat): MoveRecord
    requires i < |g.mainline|
  {
    var before := Board(g.setup, g.mainline[..i]);
    var after := before.Push(g.mainline[i]);
    var s := ScoreBefore(engine, before, depth);
    var a := ScoreAfter(engine, after, depth);
    MoveRecord(i + 1, g.mainline[i], s, a.score, ScoreChange(s, a.score), a.bestMove, fen(after))
  }

  /** The records of the first `n` mainline moves. */
  function Records(engine: Option<Engine>, depth: int, fen: Board -> string, g: Game, n: nat): seq<MoveRecord>
    requires n <= |g.mainline|
  {
    if n == 0 then [] else Records(engine, depth, fen, g, n - 1) + [RecordAt(engine, depth, fen, g, n - 1)]
  }

  lemma {:induction false} RecordsAt(engine: Option<Engine>, depth: int, fen: Board -> string, g: Game, n: nat)
    requires n <= |g.mainline|
    ensures |Records(engine, depth, fen, g, n)| == n
    ensures forall i :: 0 <= i < n ==> Records(engine, depth, fen, g, n)[i] == RecordAt(engine, depth, fen, g, i)
  {
    if n > 0 {
      RecordsAt(engine, depth, fen, g, n - 1);
    }
  }

  /** The order-preserving selection of the records that satisfy `p`. */
  function Filter(s: seq<MoveRecord>, p: MoveRecord -> bool): seq<MoveRecord>
  {
    if s == [] then []
    else Filter(s[..|s| - 1], p) + (if p(s[|s| - 1]) then [s[|s| - 1]] else [])
  }

  lemma FilterSnoc(s: seq<MoveRecord>, x: MoveRecord, p: MoveRecord -> bool)
    ensures Filter(s + [x], p) == Filter(s, p) + (if p(x) then [x] else [])
  {
  }

  /** `a` is `b` with some elements left out and the rest in the same order. */
  predicate IsSubsequence(a: seq<MoveRecord>, b: seq<MoveRecord>)
  {
    if a == [] then true
    else if b == [] then false
    else (a[|a| - 1] == b[|b| - 1] && IsSubsequence(a[..|a| - 1], b[..|b| - 1]))
         || IsSubsequence(a, b[..|b| - 1])
  }

  lemma {:induction false} FilterMembers(s: seq<MoveRecord>, p: MoveRecord -> bool)
    ensures forall x :: x in Filter(s, p) <==> x in s && p(x)
  {
    if s != [] {
      var init := s[..|s| - 1];
      FilterMembers(init, p);
      assert s == init + [s[|s| - 1]];
    }
  }

  lemma {:induction false} FilterIsSubsequence(s: seq<MoveRecord>, p: MoveRecord -> bool)
    ensures IsSubsequence(Filter(s, p), s)
  {
    if s != [] {
      var init := s[..|s| - 1];
      var f := Filter(s, p);
      FilterIsSubsequence(init, p);
      if p(s[|s| - 1]) {
        assert f[..|f| - 1] == Filter(init, p);
      } else {
        assert f == Filter(init, p);
      }
    }
  }

  /** How many records have a score change of at least `InaccuracyThreshold`. */
  function InaccurateCount(moves: seq<MoveRecord>): nat
  {
    if moves == [] then 0
    else InaccurateCount(moves[..|moves| - 1]) + (if IsInaccurate(moves[|moves| - 1]) then 1 else 0)
  }

  lemma {:induction false} InaccurateCountBounds(moves: seq<MoveRecord>)
    ensures InaccurateCount(moves) <= |moves|
    ensures InaccurateCount(moves) == 0 <==> (forall i :: 0 <= i < |moves| ==> !IsInaccurate(moves[i]))
  {
    if moves != [] {
      var init := moves[..|moves| - 1];
      InaccurateCountBounds(init);
      assert forall i :: 0 <= i < |init| ==> init[i] == moves[i];
    }
  }

  /** `_calculate_accuracy`: the share of moves that are not inaccurate, as a percentage; 0 for no moves. */
  function Accuracy(moves: seq<MoveRecord>): real
  {
    if |moves| == 0 then 0.0
    else ((|moves| - InaccurateCount(moves)) as real / |moves| as real) * 100.0
  }

  /** Accuracy is a percentage, and it is 100 exactly when no move of a non-empty list is inaccurate. */
  lemma AccuracyRange(moves: seq<MoveRecord>)
    ensures 0.0 <= Accuracy(moves) <= 100.0
    ensures |moves| > 0 ==> (Accuracy(moves) == 100.0 <==> forall i :: 0 <= i < |moves| ==> !IsInaccurate(moves[i]))
  {
    InaccurateCountBounds(moves);
    if |moves| > 0 {
      ShareOfRemaining(|moves| as real, InaccurateCount(moves) as real);
    }
  }

  /** For 0 <= k <= n and n > 0, (n - k) / n lies in [0, 1] and is 1 exactly when k is 0. */
  lemma ShareOfRemaining(n: real, k: real)
    requires 0.0 < n && 0.0 <= k <= n
    ensures 0.0 <= (n - k) / n <= 1.0
    ensures (n - k) / n == 1.0 <==> k == 0.0
  {
  }

  /** What `analyze_game` returns for the result of parsing its PGN. */
  function Analyze(game: Option<Game>, engine: Option<Engine>, depth: int, fen: Board -> string): Analysis
  {
    match game
    case None => Failed(InvalidPgnMessage)
    case Some(g) =>
      var moves := Records(engine, depth, fen, g, |g.mainline|);
      var blunders := Filter(moves, IsBlunder);
      var mistakes := Filter(moves, IsMistake);
      Report(moves, blunders, mistakes, Summary(|g.mainline|, |blunders|, |mistakes|, Accuracy(moves)))
  }

  /**
   * The shape of an analysis: an error exactly for an unparsable game;
   * otherwise one record per mainline move numbered 1..N, and a summary whose
   * counts are the lengths of the blunder and mistake lists.
   */
  lemma AnalyzeShape(game: Option<Game>, engine: Option<Engine>, depth: int, fen: Board -> string)
    ensures var r := Analyze(game, engine, depth, fen);
      && (game.None? <==> r.Failed?)
      && (game.None? ==> r == Failed("Invalid PGN"))
      && (game.Some? ==>
            var n := |game.value.mainline|;
            && |r.moves| == n
            && (forall i :: 0 <= i < n ==> r.moves[i].moveNumber == i + 1 && r.moves[i].move == game.value.mainline[i])
            && (forall i :: 0 <= i < n ==> r.moves[i].scoreChange >= 0)
            && r.summary.totalMoves == n
            && r.summary.blunderCount == |r.blunders|
            && r.summary.mistakeCount == |r.mistakes|
            && r.summary.accuracy == Accuracy(r.moves)
            && (n == 0 ==> r.summary.accuracy == 0.0))
  {
    if game.Some? {
      var g := game.value;
      RecordsAt(engine, depth, fen, g, |g.mainline|);
    }
  }

  /**
   * Blunders and mistakes are disjoint, order-preserving selections of the
   * move records by the score-change thresholds 200 and 100.
   */
  lemma AnalyzeSelections(g: Game, engine: Option<Engine>, depth: int, fen: Board -> string)
    ensures var r := Analyze(Some(g), engine, depth, fen);
      && (forall x :: x in r.blunders <==> x in r.moves && x.scoreChange >= 200)
      && (forall x :: x in r.mistakes <==> x in r.moves && 100 <= x.scoreChange < 200)
      && (forall x :: x in r.blunders ==> x !in r.mistakes)
      && IsSubsequence(r.blunders, r.moves) && IsSubsequence(r.mistakes, r.moves)
  {
    var moves := Records(engine, depth, fen, g, |g.mainline|);
    FilterMembers(moves, IsBlunder);
    FilterMembers(moves, IsMistake);
    FilterIsSubsequence(moves, IsBlunder);
    FilterIsSubsequence(moves, IsMistake);
  }

  /**
   * Each record is evaluated around its own move: the score before comes from
   * the position before the move, and both the score after and the suggested
   * best move come from the position after it.
   */
  lemma RecordReadings(engine: Option<Engine>, depth: int, fen: Board -> string, g: Game, i: nat)
    requires i < |g.mainline|
    ensures var moves := Analyze(Some(g), engine, depth, fen).moves;
            var after := Board(g.setup, g.mainline[..i + 1]);
            && i < |moves|
            && var r := moves[i];
            && r.scoreBefore == ScoreBefore(engine, Board(g.setup, g.mainline[..i]), depth)
            && r.scoreAfter == ScoreAfter(engine, after, depth).score
            && r.bestMove == ScoreAfter(engine, after, depth).bestMove
            && r.fen == fen(after)
            && r.scoreChange == ScoreChange(r.scoreBefore, r.scoreAfter)
  {
    RecordsAt(engine, depth, fen, g, |g.mainline|);
    assert g.mainline[..i] + [g.mainline[i]] == g.mainline[..i + 1];
  }

  /** An engine that is missing, or whose every call at this depth raises. */
  ghost predicate SilentEngine(engine: Option<Engine>, depth: int) {
    engine.None? || forall b: Board :: engine.value.analyse(b, depth).Raised?
  }

  /**
   * Without a working engine every score is 0 and no best move is suggested,
   * so nothing is a blunder or a mistake and a non-empty game scores 100.
   */
  lemma SilentEngineAnalysis(g: Game, engine: Option<Engine>, depth: int, fen: Board -> string)
    requires SilentEngine(engine, depth)
    ensures var r := Analyze(Some(g), engine, depth, fen);
      && (forall i :: 0 <= i < |r.moves| ==>
            r.moves[i].scoreBefore == 0 && r.moves[i].scoreAfter == 0
            && r.moves[i].scoreChange == 0 && r.moves[i].bestMove.None?)
      && r.blunders == [] && r.mistakes == []
      && r.summary.blunderCount == 0 && r.summary.mistakeCount == 0
      && r.summary.accuracy == (if |g.mainline| == 0 then 0.0 else 100.0)
  {
    var moves := Records(engine, depth, fen, g, |g.mainline|);
    RecordsAt(engine, depth, fen, g, |g.mainline|);
    forall i | 0 <= i < |moves|
      ensures moves[i].scoreBefore == 0 && moves[i].scoreAfter == 0
      ensures moves[i].scoreChange == 0 && moves[i].bestMove.None?
    {
      var before := Board(g.setup, g.mainline[..i]);
      var after := before.Push(g.mainline[i]);
      if engine.Some? {
        assert engine.value.analyse(before, depth).Raised?;
        assert engine.value.analyse(after, depth).Raised?;
      }
    }
    FilterMembers(moves, IsBlunder);
    FilterMembers(moves, IsMistake);
    NoneSelected(moves, IsBlunder);
    NoneSelected(moves, IsMistake);
    AccuracyRange(moves);
  }

  /**
   * An engine that sees the same side ahead by `v` in every position: it
   * answers `v` after an even number of plies from the setup and `-v` after
   * an odd number, each time suggesting `best`.
   */
  function SteadyEngine(v: int, best: Uci): Engine {
    Engine((b: Board, d: int) => Info(if |b.played| % 2 == 0 then v else -v, Some([best])))
  }

  /** An engine that gives the side to move `c` in every position, suggesting `best`. */
  function FlatEngine(c: int, best: Uci): Engine {
    Engine((b: Board, d: int) => Info(c, Some([best])))
  }

  /**
   * The two scores of a record are read from opposite sides' points of view
   * (the mover's before the push, the opponent's after it). So an evaluation
   * that never changes, `v` for one side throughout, scores `2|v|` on every
   * move, and every move is a blunder once `|v|` reaches 100.
   */
  lemma SteadyAdvantageIsFlagged(g: Game, v: int, best: Uci, depth: int, fen: Board -> string)
    requires v != 0
    ensures var r := Analyze(Some(g), Some(SteadyEngine(v, best)), depth, fen);
      && (forall i :: 0 <= i < |r.moves| ==> r.moves[i].scoreChange == 2 * Abs(v))
      && (Abs(v) >= 100 ==> r.blunders == r.moves)
  {
    var e := SteadyEngine(v, best);
    var moves := Records(Some(e), depth, fen, g, |g.mainline|);
    RecordsAt(Some(e), depth, fen, g, |g.mainline|);
    forall i | 0 <= i < |moves|
      ensures moves[i].scoreChange == 2 * Abs(v)
    {
      var before := Board(g.setup, g.mainline[..i]);
      var after := before.Push(g.mainline[i]);
      assert |after.played| == i + 1;
    }
    if Abs(v) >= 100 {
      AllSelected(moves, IsBlunder);
    }
  }

  /**
   * Conversely, an engine that gives the side to move the same `c` everywhere
   * describes a swing of `2|c|` on each ply, yet every score change is 0 and
   * nothing is flagged.
   */
  lemma FlatScoreIsNotFlagged(g: Game, c: int, best: Uci, depth: int, fen: Board -> string)
    ensures var r := Analyze(Some(g), Some(FlatEngine(c, best)), depth, fen);
      && (forall i :: 0 <= i < |r.moves| ==> r.moves[i].scoreBefore == c && r.moves[i].scoreAfter == c)
      && (forall i :: 0 <= i < |r.moves| ==> r.moves[i].scoreChange == 0)
      && r.blunders == [] && r.mistakes == []
  {
    var e := FlatEngine(c, best);
    var moves := Records(Some(e), depth, fen, g, |g.mainline|);
    RecordsAt(Some(e), depth, fen, g, |g.mainline|);
    NoneSelected(moves, IsBlunder);
    NoneSelected(moves, IsMistake);
  }

  /** A selection that every element satisfies is the whole sequence. */
  lemma {:induction false} AllSelected(s: seq<MoveRecord>, p: MoveRecord -> bool)
    requires forall i :: 0 <= i < |s| ==> p(s[i])
    ensures Filter(s, p) == s
  {
    if s != [] {
      var init := s[..|s| - 1];
      assert forall i :: 0 <= i < |init| ==> init[i] == s[i];
      AllSelected(init, p);
    }
  }

  /** A selection that no element satisfies is empty. */
  lemma {:induction false} NoneSelected(s: seq<MoveRecord>, p: MoveRecord -> bool)
    requires forall i :: 0 <= i < |s| ==> !p(s[i])
    ensures Filter(s, p) == []
  {
    if s != [] {
      var init := s[..|s| - 1];
      assert forall i :: 0 <= i < |init| ==> init[i] == s[i];
      NoneSelected(init, p);
    }
  }

  /** A move can only be a blunder or a mistake when both of its scores are non-zero. */
  lemma FlaggedMovesHaveBothScores(game: Option<Game>, engine: Option<Engine>, depth: int, fen: Board -> string)
    requires game.Some?
    ensures var r := Analyze(game, engine, depth, fen);
            forall x :: x in r.blunders + r.mistakes ==> x.scoreBefore != 0 && x.scoreAfter != 0
  {
    var g := game.value;
    var moves := Records(engine, depth, fen, g, |g.mainline|);
    RecordsAt(engine, depth, fen, g, |g.mainline|);
    FilterMembers(moves, IsBlunder);
    FilterMembers(moves, IsMistake);
  }

  // ---------------------------------------------------------------------------
  // Phase classification
  // ---------------------------------------------------------------------------

  function PhaseOfPlies(n: nat): Phase {
    if n <= 10 then Opening else if n <= 30 then Middlegame else Endgame
  }

  /** `get_opening_classification`. */
  function OpeningClassification(readGame: string -> Option<Game>, pgn: string): (phase: Phase)
    ensures phase == Unknown <==> readGame(pgn).None?
    ensures phase == Opening <==> readGame(pgn).Some? && |readGame(pgn).value.mainline| <= 10
    ensures phase == Middlegame <==> readGame(pgn).Some? && 10 < |readGame(pgn).value.mainline| <= 30
    ensures phase == Endgame <==> readGame(pgn).Some? && |readGame(pgn).value.mainline| > 30
    ensures phase.Label() == "Unknown" <==> readGame(pgn).None?
    ensures phase.Label() == "Opening" <==> readGame(pgn).Some? && |readGame(pgn).value.mainline| <= 10
    ensures phase.Label() == "Middlegame" <==> readGame(pgn).Some? && 10 < |readGame(pgn).value.mainline| <= 30
    ensures phase.Label() == "Endgame" <==> readGame(pgn).Some? && |readGame(pgn).value.mainline| > 30
  {
    match readGame(pgn)
    case None => Unknown
    case Some(g) => PhaseOfPlies(|g.mainline|)
  }

  /** The classification agrees with the ply count that `analyze_game` reports for the same PGN. */
  lemma ClassificationMatchesSummary(lib: ChessLib, pgn: string, engine: Option<Engine>, depth: int)
    requires lib.readGame(pgn).Some?
    ensures OpeningClassification(lib.readGame, pgn)
            == PhaseOfPlies(Analyze(lib.readGame(pgn), engine, depth, lib.fen).summary.totalMoves)
  {
  }

  // ---------------------------------------------------------------------------
  // The analyzer object
  // ---------------------------------------------------------------------------

  class ChessAnalyzer {
    /** `self.engine`: the engine process, if one is open. */
    var engine: Option<Engine>
    /** `self.stockfish_path`. */
    var stockfishPath: Option<string>
    /** How many `quit` commands this analyzer has sent to its engine. */
    ghost var quits: nat

    /**
     * `__init__`: use the given path if it is non-empty, else discover one;
     * start an engine only at a path that exists. `popen` is the process
     * start, None when it raises (the warning is printed and there is no engine).
     */
    constructor (path: Option<string>, existing: set<string>, which: Option<string>, popen: string -> Option<Engine>)
      ensures stockfishPath == (if path.Some? && path.value != "" then path else Discovery(existing, which))
      ensures engine.Some? ==> stockfishPath.Some? && stockfishPath.value in existing
      ensures stockfishPath.Some? && stockfishPath.value != "" && stockfishPath.value in existing
              ==> engine == popen(stockfishPath.value)
      ensures quits == 0
    {
      var p := path;
      if p.None? || p.value == "" {
        p := FindStockfish(existing, which);
      }
      stockfishPath := p;
      engine := None;
      quits := 0;
      if p.Some? && p.value != "" && p.value in existing {
        engine := popen(p.value);
      }
    }

    /** `_find_stockfish`: scan the common paths in order, then ask PATH. */
    static method FindStockfish(existing: set<string>, which: Option<string>) returns (path: Option<string>)
      ensures path == Discovery(existing, which)
    {
      var i := 0;
      while i < |CommonPaths|
        invariant 0 <= i <= |CommonPaths|
        invariant FirstExisting(CommonPaths, existing) == FirstExisting(CommonPaths[i..], existing)
      {
        if CommonPaths[i] in existing {
          return Some(CommonPaths[i]);
        }
        assert CommonPaths[i..][1..] == CommonPaths[i + 1..];
        i := i + 1;
      }
      if which.Some? && which.value != "" {
        return which;
      }
      return None;
    }

    /** `analyze_game`: one pass over the mainline, then the summary. */
    method AnalyzeGame(pgn: string, maxDepth: int, lib: ChessLib) returns (r: Analysis)
      ensures r == Analyze(lib.readGame(pgn), engine, maxDepth, lib.fen)
    {
      var game := lib.readGame(pgn);
      if game.None? {
        return Failed(InvalidPgnMessage);
      }
      var g := game.value;
      var board := g.StartBoard();
      var moves: seq<MoveRecord> := [];
      var blunders: seq<MoveRecord> := [];
      var mistakes: seq<MoveRecord> := [];
      var prevScore := 0;  // written on every move and never read
      var moveNumber := 0;
      while moveNumber < |g.mainline|
        invariant 0 <= moveNumber <= |g.mainline|
        invariant board == Board(g.setup, g.mainline[..moveNumber])
        invariant moves == Records(engine, maxDepth, lib.fen, g, moveNumber)
        invariant blunders == Filter(moves, IsBlunder)
        invariant mistakes == Filter(moves, IsMistake)
      {
        var move := g.mainline[moveNumber];
        moveNumber := moveNumber + 1;
        ghost var prevMoves := moves;

        var scoreBefore := EvaluateBefore(board, maxDepth);
        ghost var boardBefore := board;
        board := board.Push(move);
        var after := EvaluateAfter(board, maxDepth);
        var scoreAfter, bestMove := after.score, after.bestMove;

        var scoreChange := if scoreBefore != 0 && scoreAfter != 0 then Abs(scoreBefore - scoreAfter) else 0;
        var record := MoveRecord(moveNumber, move, scoreBefore, scoreAfter, scoreChange, bestMove, lib.fen(board));
        assert record == RecordAt(engine, maxDepth, lib.fen, g, moveNumber - 1) by {
          assert boardBefore == Board(g.setup, g.mainline[..moveNumber - 1]);
          assert board == boardBefore.Push(g.mainline[moveNumber - 1]);
        }
        moves := moves + [record];
        FilterSnoc(prevMoves, record, IsBlunder);
        FilterSnoc(prevMoves, record, IsMistake);
        if scoreChange >= BlunderThreshold {
          blunders := blunders + [record];
        } else if scoreChange >= MistakeThreshold {
          mistakes := mistakes + [record];
        }
        prevScore := scoreAfter;
      }
      var accuracy := CalculateAccuracy(moves);
      r := Report(moves, blunders, mistakes, Summary(moveNumber, |blunders|, |mistakes|, accuracy));
    }

    /** The first try block of the loop: the score before the move, 0 when there is no engine or it raises. */
    method EvaluateBefore(board: Board, depth: int) returns (score: int)
      ensures score == ScoreBefore(engine, board, depth)
    {
      score := 0;
      if engine.Some? {
        var info := engine.value.analyse(board, depth);
        if info.Info? {
          score := info.score;
        }
      }
    }

    /** The second try block: score and best move after the move, (0, None) when anything in it raises. */
    method EvaluateAfter(board: Board, depth: int) returns (after: After)
      ensures after == ScoreAfter(engine, board, depth)
    {
      after := After(0, None);
      if engine.Some? {
        var info := engine.value.analyse(board, depth);
        if info.Info? && !(info.pv.Some? && info.pv.value == []) {
          var bestMove := if info.pv.Some? then Some(info.pv.value[0]) else None;
          after := After(info.score, bestMove);
        }
      }
    }

    /** `_calculate_accuracy`: count the inaccurate moves in one loop. */
    method CalculateAccuracy(moves: seq<MoveRecord>) returns (accuracy: real)
      ensures accuracy == Accuracy(moves)
    {
      if |moves| == 0 {
        return 0.0;
      }
      var totalMoves := |moves|;
      var inaccurateMoves := 0;
      var i := 0;
      while i < |moves|
        invariant 0 <= i <= |moves|
        invariant inaccurateMoves == InaccurateCount(moves[..i])
      {
        assert moves[..i + 1][..i] == moves[..i];
        if moves[i].scoreChange >= InaccuracyThreshold {
          inaccurateMoves := inaccurateMoves + 1;
        }
        i := i + 1;
      }
      assert moves[..i] == moves;
      var accurateMoves := totalMoves - inaccurateMoves;
      accuracy := (accurateMoves as real / totalMoves as real) * 100.0;
    }

    /** `get_position_evaluation`. */
    method GetPositionEvaluation(fen: string, depth: int, lib: ChessLib) returns (r: PositionReport)
      ensures engine.None? ==> r == EvalError(NoEngineMessage) && Contains(r.error, "Stockfish")
      ensures engine.Some? && !lib.fenIsValid(fen) ==> r == FenRejected
      ensures engine.Some? && lib.fenIsValid(fen) ==>
                var reply := engine.value.analyse(Board(fen, []), depth);
                match reply
                case Raised(msg) => r == EvalError(msg)
                case Info(s, pv) =>
                  if pv.Some? && pv.value == [] then r == EvalError(EmptyPvMessage)
                  else r.Evaluation? && r.score == s && r.depth == depth && r.fen == fen
                       && r.bestMove == (if pv.Some? then Some(pv.value[0]) else None)
    {
      if engine.None? {
        assert OccursAt(NoEngineMessage, "Stockfish", 0);
        return EvalError(NoEngineMessage);
      }
      if !lib.fenIsValid(fen) {
        return FenRejected;
      }
      var board := Board(fen, []);
      var info := engine.value.analyse(board, depth);
      match info
      case Raised(msg) =>
        r := EvalError(msg);
      case Info(score, pv) =>
        if pv.Some? && pv.value == [] {
          r := EvalError(EmptyPvMessage);
        } else {
          var bestMove := if pv.Some? then Some(pv.value[0]) else None;
          r := Evaluation(score, bestMove, depth, fen);
        }
    }

    /** `detect_blunders`: the blunders of a default-depth analysis, or [] for an unparsable PGN. */
    method DetectBlunders(pgn: string, lib: ChessLib) returns (blunders: seq<MoveRecord>)
      ensures lib.readGame(pgn).None? ==> blunders == []
      ensures lib.readGame(pgn).Some? ==> blunders == Analyze(lib.readGame(pgn), engine, DefaultDepth, lib.fen).blunders
      ensures forall x :: x in blunders ==> x.scoreChange >= BlunderThreshold
    {
      var analysis := AnalyzeGame(pgn, DefaultDepth, lib);
      if lib.readGame(pgn).Some? {
        AnalyzeSelections(lib.readGame(pgn).value, engine, DefaultDepth, lib.fen);
      }
      blunders := if analysis.Report? then analysis.blunders else [];
    }

    /** `close`: quit the engine if there is one; afterwards there is none. */
    method Close()
      modifies this`engine, this`quits
      ensures engine.None?
      ensures quits == old(quits) + (if old(engine).Some? then 1 else 0)
    {
      if engine.Some? {
        quits := quits + 1;
        engine := None;
      }
    }
  }

  /** Closing twice quits the engine at most once and leaves no engine. */
  method CloseTwice(a: ChessAnalyzer)
    modifies a`engine, a`quits
    ensures a.engine.None?
    ensures a.quits == old(a.quits) + (if old(a.engine).Some? then 1 else 0)
  {
    a.Close();
    a.Close();
  }
}
