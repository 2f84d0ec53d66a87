/**
 * The game store `ChessDatabase` (src/db/database.py).
 *
 * SQLite is modelled by its contents: the `games` table as the sequence of its
 * rows, the `analysis_cache` table as a map from its primary key. What each
 * statement reads or writes is a function over those contents.
 */
module Database {
  import opened Wrappers
  import opened Text

  /** The `white` / `black` entries of a fetched game: a dictionary that may hold `username`. */
  datatype Player = Player(username: Option<string>)

  /** A game as fetched from the web API; every key may be missing. */
  datatype GameData = GameData(
    url: Option<string>,
    pgn: Option<string>,
    endTime: Option<int>,
    result: Option<string>,
    white: Option<Player>,
    black: Option<Player>,
    timeControl: Option<string>)

  /** A row of the `games` table (the `created_at` default column is left out). */
  datatype GameRow = GameRow(
    gameId: string,
    pgn: string,
    date: int,
    result: string,
    whiteUsername: string,
    blackUsername: string,
    timeControl: string,
    endTime: int)

  /** A row of the `analysis_cache` table, keyed by (game id, move number). */
  datatype CacheRow = CacheRow(gameId: string, moveNumber: int, fen: string, evaluation: real, bestMove: string)

  type CacheKey = (string, int)

  // ---------------------------------------------------------------------------
  // Deriving a row from fetched data
  // ---------------------------------------------------------------------------

  /** `game.get(side, {}).get('username', '')`. */
  function Username(side: Option<Player>): string {
    match side
    case None => ""
    case Some(p) => p.username.GetOr("")
  }

  /** `url.split('/')[-1]`: the game id is the last path segment of its URL. */
  function GameIdFromUrl(url: string): string {
    LastSegment(url, '/')
  }

  /** The game id of a URL ending in `/<id>` is `<id>`. */
  lemma GameIdOfUrl(prefix: string, id: string)
    requires '/' !in id
    ensures GameIdFromUrl(prefix + "/" + id) == id
  {
    LastSegmentAfter(prefix, '/', id);
  }

  /** The row `insert_game` writes: no result fallback, `date` and `end_time` both from `end_time`. */
  function InsertRow(g: GameData): (row: GameRow)
    ensures row.date == row.endTime == g.endTime.GetOr(0)
    ensures row.result == g.result.GetOr("")
    ensures '/' !in row.gameId
  {
    LastSegmentIsAfterLastSeparator(g.url.GetOr(""), '/');
    GameRow(GameIdFromUrl(g.url.GetOr("")), g.pgn.GetOr(""), g.endTime.GetOr(0), g.result.GetOr(""),
            Username(g.white), Username(g.black), g.timeControl.GetOr(""), g.endTime.GetOr(0))
  }

  /** The game id `insert_games_batch` derives: '' for a missing or empty URL. */
  function BatchGameId(url: Option<string>): string {
    if url.Some? && url.value != "" then GameIdFromUrl(url.value) else ""
  }

  /** The PGN header line that carries the result. */
  const ResultTag: string := "[Result \""

  /** `line.split('"')[1]` for a line that starts with the result tag. */
  function TagValue(line: string): string
    requires StartsWith(line, ResultTag)
  {
    assert line == "[Result " + ['"'] + line[|ResultTag|..];
    SplitConcat("[Result ", '"', line[|ResultTag|..]);
    SplitFree("[Result ", '"');
    Split(line, '"')[1]
  }

  /** The tag value is the text between the first pair of double quotes. */
  lemma TagValueIsQuoted(value: string, rest: string)
    requires '"' !in value
    ensures StartsWith(ResultTag + value + "\"" + rest, ResultTag)
    ensures TagValue(ResultTag + value + "\"" + rest) == value
  {
    var line := ResultTag + value + "\"" + rest;
    assert line[..|ResultTag|] == ResultTag;
    var tail := line[|ResultTag|..];
    assert tail == value + ['"'] + rest;
    assert line == "[Result " + ['"'] + tail;
    SplitConcat("[Result ", '"', tail);
    SplitFree("[Result ", '"');
    SplitConcat(value, '"', rest);
    SplitFree(value, '"');
    assert Split(line, '"') == ["[Result "] + ([value] + Split(rest, '"'));
  }

  /** The value of the first line starting with the result tag, or '' when there is none. */
  function FirstResultTag(lines: seq<string>): string
  {
    if lines == [] then ""
    else if StartsWith(lines[0], ResultTag) then TagValue(lines[0])
    else FirstResultTag(lines[1..])
  }

  /** The result read from a PGN's lines. */
  function PgnResult(pgn: string): string {
    FirstResultTag(Split(pgn, '\n'))
  }

  lemma {:induction false} FirstResultTagIsFirst(lines: seq<string>)
    ensures (forall j :: 0 <= j < |lines| ==> !StartsWith(lines[j], ResultTag)) ==> FirstResultTag(lines) == ""
    ensures forall j :: 0 <= j < |lines| && StartsWith(lines[j], ResultTag)
                        && (forall i :: 0 <= i < j ==> !StartsWith(lines[i], ResultTag))
                        ==> FirstResultTag(lines) == TagValue(lines[j])
  {
    if lines != [] {
      FirstResultTagIsFirst(lines[1..]);
      assert forall j :: 1 <= j < |lines| ==> lines[j] == lines[1..][j - 1];
      forall j | 0 < j < |lines| && StartsWith(lines[j], ResultTag)
                 && (forall i :: 0 <= i < j ==> !StartsWith(lines[i], ResultTag))
        ensures FirstResultTag(lines) == TagValue(lines[j])
      {
        assert !StartsWith(lines[0], ResultTag);
        assert forall i :: 0 <= i < j - 1 ==> lines[1..][i] == lines[i + 1];
      }
    }
  }

  /** The result `insert_games_batch` stores: the given one, else the one in the PGN. */
  function BatchResult(g: GameData): string {
    var r := g.result.GetOr("");
    if r != "" then r else PgnResult(g.pgn.GetOr(""))
  }

  /** The row `insert_games_batch` writes for one fetched game. */
  function BatchRow(g: GameData): (row: GameRow)
    ensures row.date == row.endTime == g.endTime.GetOr(0)
  {
    GameRow(BatchGameId(g.url), g.pgn.GetOr(""), g.endTime.GetOr(0), BatchResult(g),
            Username(g.white), Username(g.black), g.timeControl.GetOr(""), g.endTime.GetOr(0))
  }

  /**
   * The two insert paths write the same row except for the result: the batch
   * path's guard on the URL changes nothing, since an empty URL's last segment
   * is already ''. With a non-empty result they agree entirely.
   */
  lemma BatchRowMatchesInsertRow(g: GameData)
    ensures BatchRow(g) == InsertRow(g).(result := BatchResult(g))
    ensures g.result.GetOr("") != "" ==> BatchRow(g) == InsertRow(g)
  {
  }

  function BatchRows(games: seq<GameData>): (rows: seq<GameRow>)
    ensures |rows| == |games|
    ensures forall i :: 0 <= i < |games| ==> rows[i] == BatchRow(games[i])
  {
    if games == [] then [] else [BatchRow(games[0])] + BatchRows(games[1..])
  }

  /** The result scan inside `insert_games_batch`: the first `[Result "` line of the PGN. */
  method ResultFromPgn(pgn: string) returns (result: string)
    ensures result == PgnResult(pgn)
  {
    result := "";
    var lines := Split(pgn, '\n');
    var i := 0;
    while i < |lines|
      invariant 0 <= i <= |lines|
      invariant FirstResultTag(lines[i..]) == FirstResultTag(lines)
    {
      if StartsWith(lines[i], ResultTag) {
        result := TagValue(lines[i]);
        return;
      }
      assert lines[i..][1..] == lines[i + 1..];
      i := i + 1;
    }
  }

  /** The body of the derivation loop in `insert_games_batch`, for one fetched game. */
  method DeriveRow(game: GameData) returns (row: GameRow)
    ensures row == BatchRow(game)
  {
    var gameId := if game.url.Some? && game.url.value != "" then GameIdFromUrl(game.url.value) else "";
    var result := game.result.GetOr("");
    if result == "" {
      result := ResultFromPgn(game.pgn.GetOr(""));
    }
    row := GameRow(gameId, game.pgn.GetOr(""), game.endTime.GetOr(0), result,
                   Username(game.white), Username(game.black),
                   game.timeControl.GetOr(""), game.endTime.GetOr(0));
  }

  // ---------------------------------------------------------------------------
  // The games table
  // ---------------------------------------------------------------------------

  /** The primary key holds: no two rows share a game id. */
  ghost predicate UniqueIds(t: seq<GameRow>) {
    forall i, j :: 0 <= i < j < |t| ==> t[i].gameId != t[j].gameId
  }

  /** `SELECT * FROM games WHERE game_id = ?`. */
  function Find(t: seq<GameRow>, id: string): Option<GameRow>
  {
    if t == [] then None
    else if t[|t| - 1].gameId == id then Some(t[|t| - 1])
    else Find(t[..|t| - 1], id)
  }

  lemma {:induction false} FindSpec(t: seq<GameRow>, id: string)
    requires UniqueIds(t)
    ensures Find(t, id).None? <==> (forall r :: r in t ==> r.gameId != id)
    ensures forall r :: r in t && r.gameId == id ==> Find(t, id) == Some(r)
  {
    if t != [] {
      var init := t[..|t| - 1];
      FindSpec(init, id);
      assert t == init + [t[|t| - 1]];
    }
  }

  /** The rows whose id is not `id`, in table order. */
  function Without(t: seq<GameRow>, id: string): seq<GameRow>
  {
    if t == [] then []
    else Without(t[..|t| - 1], id) + (if t[|t| - 1].gameId == id then [] else [t[|t| - 1]])
  }

  lemma {:induction false} WithoutMembers(t: seq<GameRow>, id: string)
    ensures forall r :: r in Without(t, id) <==> r in t && r.gameId != id
    ensures UniqueIds(t) ==> UniqueIds(Without(t, id))
  {
    if t != [] {
      var init := t[..|t| - 1];
      var last := t[|t| - 1];
      WithoutMembers(init, id);
      assert t == init + [last];
      if UniqueIds(t) {
        assert UniqueIds(init);
        assert forall r :: r in init ==> r.gameId != last.gameId;
      }
    }
  }

  /** `INSERT OR REPLACE`: the row with the same id, if any, is deleted and the new row added. */
  function Replace(t: seq<GameRow>, row: GameRow): seq<GameRow>
  {
    Without(t, row.gameId) + [row]
  }

  /**
   * Insert-or-replace keeps one row per id, makes the new row the one found
   * under its id, and leaves what is found under every other id unchanged.
   */
  lemma ReplaceSpec(t: seq<GameRow>, row: GameRow)
    requires UniqueIds(t)
    ensures UniqueIds(Replace(t, row))
    ensures Find(Replace(t, row), row.gameId) == Some(row)
    ensures forall id :: id != row.gameId ==> Find(Replace(t, row), id) == Find(t, id)
    ensures forall r :: r in Replace(t, row) <==> r == row || (r in t && r.gameId != row.gameId)
  {
    var w := Without(t, row.gameId);
    WithoutMembers(t, row.gameId);
    var t' := w + [row];
    assert UniqueIds(t');
    FindSpec(t', row.gameId);
    forall id | id != row.gameId
      ensures Find(t', id) == Find(t, id)
    {
      FindSpec(t', id);
      FindSpec(t, id);
      if Find(t, id).Some? {
        FindFound(t, id);
      }
      if Find(t', id).Some? {
        FindFound(t', id);
      }
    }
  }

  lemma {:induction false} FindFound(t: seq<GameRow>, id: string)
    requires Find(t, id).Some?
    ensures Find(t, id).value in t && Find(t, id).value.gameId == id
  {
    var init := t[..|t| - 1];
    if t[|t| - 1].gameId != id {
      FindFound(init, id);
    }
  }

  /** `executemany` of insert-or-replace: the rows are applied in order. */
  function ReplaceAll(t: seq<GameRow>, rows: seq<GameRow>): seq<GameRow>
    decreases |rows|
  {
    if rows == [] then t else ReplaceAll(Replace(t, rows[0]), rows[1..])
  }

  /** The last of `rows` with game id `id`. */
  function LastWithId(rows: seq<GameRow>, id: string): Option<GameRow>
  {
    if rows == [] then None
    else
      var later := LastWithId(rows[1..], id);
      if later.Some? then later else if rows[0].gameId == id then Some(rows[0]) else None
  }

  /**
   * After a batch, each id that occurs in the batch finds the batch's last row
   * with that id; every other id finds what it found before.
   */
  lemma {:induction false} ReplaceAllSpec(t: seq<GameRow>, rows: seq<GameRow>)
    requires UniqueIds(t)
    ensures UniqueIds(ReplaceAll(t, rows))
    ensures forall id :: Find(ReplaceAll(t, rows), id)
                         == (if LastWithId(rows, id).Some? then LastWithId(rows, id) else Find(t, id))
    decreases |rows|
  {
    if rows != [] {
      ReplaceSpec(t, rows[0]);
      ReplaceAllSpec(Replace(t, rows[0]), rows[1..]);
    }
  }

  /** The row `insert_game` stores is the one then found under its id. */
  lemma InsertedGameIsFound(t: seq<GameRow>, g: GameData)
    ensures Find(Replace(t, InsertRow(g)), GameIdFromUrl(g.url.GetOr(""))) == Some(InsertRow(g))
  {
  }

  // ---------------------------------------------------------------------------
  // Queries
  // ---------------------------------------------------------------------------

  predicate Involves(r: GameRow, username: string) {
    r.whiteUsername == username || r.blackUsername == username
  }

  predicate InRange(r: GameRow, startTs: int, endTs: int) {
    startTs <= r.date <= endTs
  }

  /** `WHERE white_username = ? OR black_username = ?`, in table order. */
  function OfUser(t: seq<GameRow>, username: string): (s: seq<GameRow>)
    ensures forall r :: r in s <==> r in t && Involves(r, username)
    ensures multiset(s) <= multiset(t)
  {
    if t == [] then []
    else
      var init := t[..|t| - 1];
      assert t == init + [t[|t| - 1]];
      OfUser(init, username) + (if Involves(t[|t| - 1], username) then [t[|t| - 1]] else [])
  }

  /** The same filter, further restricted to `date BETWEEN ? AND ?`. */
  function OfUserInRange(t: seq<GameRow>, username: string, startTs: int, endTs: int): (s: seq<GameRow>)
    ensures forall r :: r in s <==> r in t && Involves(r, username) && InRange(r, startTs, endTs)
    ensures multiset(s) <= multiset(t)
  {
    if t == [] then []
    else
      var init := t[..|t| - 1];
      var last := t[|t| - 1];
      assert t == init + [last];
      OfUserInRange(init, username, startTs, endTs)
      + (if Involves(last, username) && InRange(last, startTs, endTs) then [last] else [])
  }

  /** `ORDER BY date DESC`. */
  ghost predicate NewestFirst(s: seq<GameRow>) {
    forall i, j :: 0 <= i < j < |s| ==> s[i].date >= s[j].date
  }

  /** Put `r` into a newest-first list after every row at least as recent. */
  function InsertByDate(s: seq<GameRow>, r: GameRow): seq<GameRow>
  {
    if s == [] then [r]
    else if s[0].date >= r.date then [s[0]] + InsertByDate(s[1..], r)
    else [r] + s
  }

  lemma {:induction false} InsertByDateMembers(s: seq<GameRow>, r: GameRow)
    ensures forall x :: x in InsertByDate(s, r) <==> x in s || x == r
    ensures multiset(InsertByDate(s, r)) == multiset(s) + multiset{r}
  {
    if s != [] && s[0].date >= r.date {
      InsertByDateMembers(s[1..], r);
      assert s == [s[0]] + s[1..];
    }
  }

  lemma {:induction false} InsertByDateSorted(s: seq<GameRow>, r: GameRow)
    requires NewestFirst(s)
    ensures NewestFirst(InsertByDate(s, r))
  {
    if s == [] {
    } else if s[0].date >= r.date {
      var tail := s[1..];
      assert NewestFirst(tail);
      InsertByDateSorted(tail, r);
      InsertByDateMembers(tail, r);
      var u' := InsertByDate(tail, r);
      forall x | x in u'
        ensures s[0].date >= x.date
      {
        if x != r {
          var k :| 0 <= k < |tail| && tail[k] == x;
          assert s[k + 1] == x;
        }
      }
      var u := [s[0]] + u';
      forall i, j | 0 <= i < j < |u|
        ensures u[i].date >= u[j].date
      {
        assert u[j] == u'[j - 1];
        if i > 0 {
          assert u[i] == u'[i - 1];
        }
      }
    } else {
      var u := [r] + s;
      forall i, j | 0 <= i < j < |u|
        ensures u[i].date >= u[j].date
      {
        assert u[j] == s[j - 1];
        if i > 0 {
          assert u[i] == s[i - 1];
        } else if j > 1 {
          assert s[0].date >= s[j - 1].date;
        }
      }
    }
  }

  /** The sort SQLite performs for `ORDER BY date DESC`; rows with equal dates may come in any order. */
  function SortNewestFirst(s: seq<GameRow>): seq<GameRow>
  {
    if s == [] then [] else InsertByDate(SortNewestFirst(s[..|s| - 1]), s[|s| - 1])
  }

  /** Sorting yields a newest-first permutation of its input. */
  lemma {:induction false} SortNewestFirstSpec(s: seq<GameRow>)
    ensures NewestFirst(SortNewestFirst(s))
    ensures multiset(SortNewestFirst(s)) == multiset(s)
  {
    if s != [] {
      assert s == s[..|s| - 1] + [s[|s| - 1]];
      SortNewestFirstSpec(s[..|s| - 1]);
      InsertByDateSorted(SortNewestFirst(s[..|s| - 1]), s[|s| - 1]);
      InsertByDateMembers(SortNewestFirst(s[..|s| - 1]), s[|s| - 1]);
    }
  }

  /** `LIMIT ?` when `limit` is truthy; SQLite reads a negative limit as no limit. */
  function Limit(s: seq<GameRow>, limit: Option<int>): seq<GameRow>
  {
    if limit.Some? && 0 < limit.value < |s| then s[..limit.value] else s
  }

  /** `get_games_by_username`. */
  function GamesByUsername(t: seq<GameRow>, username: string, limit: Option<int>): seq<GameRow>
  {
    Limit(SortNewestFirst(OfUser(t, username)), limit)
  }

  /**
   * The user's games, newest first; without an effective limit (none, 0 or
   * negative) they are exactly the rows in which the user played white or black.
   */
  lemma GamesByUsernameSpec(t: seq<GameRow>, username: string, limit: Option<int>)
    ensures var rows := GamesByUsername(t, username, limit);
      && NewestFirst(rows)
      && (forall r :: r in rows ==> r in t && Involves(r, username))
      && (!(limit.Some? && limit.value > 0) ==> multiset(rows) == multiset(OfUser(t, username)))
      && (!(limit.Some? && limit.value > 0) ==> forall r :: r in rows <==> r in t && Involves(r, username))
  {
    var all := SortNewestFirst(OfUser(t, username));
    SortNewestFirstSpec(OfUser(t, username));
    LimitSpec(all, limit);
    assert forall r :: r in all <==> r in multiset(all);
  }

  /**
   * With a positive limit the user's games are the first that many of the
   * newest-first list (all, if fewer), none repeated, and none of the user's
   * games left out is more recent than one returned.
   */
  lemma GamesByUsernameLimit(t: seq<GameRow>, username: string, limit: Option<int>)
    ensures var rows := GamesByUsername(t, username, limit);
      && rows <= GamesByUsername(t, username, None)
      && multiset(rows) <= multiset(OfUser(t, username))
      && (limit.Some? && limit.value > 0 ==>
            |rows| == (if limit.value < |OfUser(t, username)| then limit.value else |OfUser(t, username)|))
      && (forall r :: r in t && Involves(r, username) && r !in rows ==>
            forall x :: x in rows ==> x.date >= r.date)
  {
    var all := SortNewestFirst(OfUser(t, username));
    SortNewestFirstSpec(OfUser(t, username));
    LimitSpec(all, limit);
    assert forall r :: r in all <==> r in multiset(all);
    assert GamesByUsername(t, username, None) == all;
    PrefixMultiset(Limit(all, limit), all);
  }

  /** A prefix holds no row more often than the whole list. */
  lemma PrefixMultiset(a: seq<GameRow>, b: seq<GameRow>)
    requires a <= b
    ensures multiset(a) <= multiset(b)
  {
    assert b == a + b[|a|..];
  }

  /** A limit keeps a prefix of a newest-first list, so nothing it drops is newer than what it keeps. */
  lemma LimitSpec(all: seq<GameRow>, limit: Option<int>)
    requires NewestFirst(all)
    ensures var rows := Limit(all, limit);
      && NewestFirst(rows)
      && rows <= all
      && (!(limit.Some? && limit.value > 0) ==> rows == all)
      && (limit.Some? && limit.value > 0 ==> |rows| == (if limit.value < |all| then limit.value else |all|))
      && (forall r :: r in all && r !in rows ==> forall x :: x in rows ==> x.date >= r.date)
  {
  }

  /** `get_games_by_date_range` with the bounds already converted to timestamps. */
  function GamesByDateRange(t: seq<GameRow>, username: string, startTs: int, endTs: int): seq<GameRow>
  {
    SortNewestFirst(OfUserInRange(t, username, startTs, endTs))
  }

  /** The user's games dated within the inclusive range, each once, newest first. */
  lemma GamesByDateRangeSpec(t: seq<GameRow>, username: string, startTs: int, endTs: int)
    ensures var rows := GamesByDateRange(t, username, startTs, endTs);
      && NewestFirst(rows)
      && (forall r :: r in rows <==> r in t && Involves(r, username) && InRange(r, startTs, endTs))
      && multiset(rows) == multiset(OfUserInRange(t, username, startTs, endTs))
  {
    var rows := GamesByDateRange(t, username, startTs, endTs);
    SortNewestFirstSpec(OfUserInRange(t, username, startTs, endTs));
    assert forall r :: r in rows <==> r in multiset(rows);
  }

  /** `get_all_games`: every stored row, newest first. */
  function AllGames(t: seq<GameRow>): (rows: seq<GameRow>)
    ensures NewestFirst(rows)
    ensures multiset(rows) == multiset(t)
  {
    SortNewestFirstSpec(t);
    SortNewestFirst(t)
  }

  // ---------------------------------------------------------------------------
  // The database object
  // ---------------------------------------------------------------------------

  /** Every cache row is stored under its own (game id, move number). */
  ghost predicate CacheKeyed(cache: map<CacheKey, CacheRow>) {
    forall k :: k in cache ==> cache[k].gameId == k.0 && cache[k].moveNumber == k.1
  }

  class ChessDatabase {
    /** Whether `self.conn` holds an open connection. */
    var connected: bool
    /** The `games` table. */
    var games: seq<GameRow>
    /** The `analysis_cache` table. */
    var cache: map<CacheKey, CacheRow>

    ghost predicate Valid()
      reads this`games, this`cache
    {
      UniqueIds(games) && CacheKeyed(cache)
    }

    /**
     * `__init__`: open the database file, whose tables may already hold rows,
     * and create the tables if they are missing.
     */
    constructor (storedGames: seq<GameRow>, storedCache: map<CacheKey, CacheRow>)
      requires UniqueIds(storedGames) && CacheKeyed(storedCache)
      ensures Valid() && connected
      ensures games == storedGames && cache == storedCache
    {
      connected := true;
      games := storedGames;
      cache := storedCache;
    }

    /** `insert_game`. */
    method InsertGame(data: GameData)
      requires Valid()
      modifies this`connected, this`games
      ensures Valid() && connected
      ensures games == Replace(old(games), InsertRow(data))
      ensures Find(games, InsertRow(data).gameId) == Some(InsertRow(data))
      ensures forall id :: id != InsertRow(data).gameId ==> Find(games, id) == Find(old(games), id)
    {
      connected := true;
      var row := InsertRow(data);
      ReplaceSpec(games, row);
      games := Replace(games, row);
    }

    /** `insert_games_batch`: derive all rows in one loop, then insert-or-replace them in order. */
    method InsertGamesBatch(batch: seq<GameData>)
      requires Valid()
      modifies this`connected, this`games
      ensures Valid() && connected
      ensures games == ReplaceAll(old(games), BatchRows(batch))
      ensures forall id :: Find(games, id) == (if LastWithId(BatchRows(batch), id).Some?
                                               then LastWithId(BatchRows(batch), id) else Find(old(games), id))
    {
      connected := true;
      var gamesData: seq<GameRow> := [];
      var i := 0;
      while i < |batch|
        invariant 0 <= i <= |batch|
        invariant |gamesData| == i
        invariant forall k :: 0 <= k < i ==> gamesData[k] == BatchRow(batch[k])
        invariant games == old(games) && connected
      {
        var row := DeriveRow(batch[i]);
        gamesData := gamesData + [row];
        i := i + 1;
      }
      assert gamesData == BatchRows(batch);
      ReplaceAllSpec(games, gamesData);
      games := ReplaceAll(games, gamesData);
    }

    /** `get_games_by_username`. */
    method GetGamesByUsername(username: string, limit: Option<int>) returns (rows: seq<GameRow>)
      modifies this`connected
      ensures connected
      ensures rows == GamesByUsername(games, username, limit)
    {
      connected := true;
      rows := GamesByUsername(games, username, limit);
    }

    /** `get_game_by_id`. */
    method GetGameById(gameId: string) returns (row: Option<GameRow>)
      modifies this`connected
      ensures connected
      ensures row == Find(games, gameId)
    {
      connected := true;
      row := Find(games, gameId);
    }

    /** `get_games_by_date_range`, given the bounds as timestamps. */
    method GetGamesByDateRange(username: string, startTs: int, endTs: int) returns (rows: seq<GameRow>)
      modifies this`connected
      ensures connected
      ensures rows == GamesByDateRange(games, username, startTs, endTs)
    {
      connected := true;
      rows := GamesByDateRange(games, username, startTs, endTs);
    }

    /** `get_all_games`. */
    method GetAllGames() returns (rows: seq<GameRow>)
      modifies this`connected
      ensures connected
      ensures rows == AllGames(games)
    {
      connected := true;
      rows := AllGames(games);
    }

    /** `cache_analysis`: insert-or-replace under (game id, move number). */
    method CacheAnalysis(gameId: string, moveNumber: int, fen: string, evaluation: real, bestMove: string)
      requires Valid()
      modifies this`connected, this`cache
      ensures Valid() && connected
      ensures cache == old(cache)[(gameId, moveNumber) := CacheRow(gameId, moveNumber, fen, evaluation, bestMove)]
    {
      connected := true;
      cache := cache[(gameId, moveNumber) := CacheRow(gameId, moveNumber, fen, evaluation, bestMove)];
    }

    /** `get_cached_analysis`. */
    method GetCachedAnalysis(gameId: string, moveNumber: int) returns (row: Option<CacheRow>)
      modifies this`connected
      ensures connected
      ensures (gameId, moveNumber) in cache ==> row == Some(cache[(gameId, moveNumber)])
      ensures (gameId, moveNumber) !in cache ==> row == None
    {
      connected := true;
      row := if (gameId, moveNumber) in cache then Some(cache[(gameId, moveNumber)]) else None;
    }

    /** `close`: drop the connection if there is one; the stored tables stay as they are. */
    method Close()
      modifies this`connected
      ensures !connected
    {
      if connected {
        connected := false;
      }
    }
  }

  /**
   * What the stored row and the cache promise a caller: a game inserted and
   * then looked up by its id is found; an analysis cached and then read back
   * gives the evaluation and best move stored; closing twice is harmless.
   */
  method StoreThenRead(db: ChessDatabase, data: GameData, moveNumber: int, evaluation: real, bestMove: string)
    returns (found: Option<GameRow>, cached: Option<CacheRow>)
    requires db.Valid()
    modifies db
    ensures found == Some(InsertRow(data))
    ensures cached.Some? && cached.value.evaluation == evaluation && cached.value.bestMove == bestMove
    ensures !db.connected
  {
    db.InsertGame(data);
    found := db.GetGameById(InsertRow(data).gameId);
    db.CacheAnalysis(InsertRow(data).gameId, moveNumber, "", evaluation, bestMove);
    cached := db.GetCachedAnalysis(InsertRow(data).gameId, moveNumber);
    db.Close();
    db.Close();
  }
}
