/** The per-game loop: for each game of the day's schedule, in order, skip it
    when either probable pitcher is unknown, otherwise score both pitchers
    and both rosters and append one row with the predicted margin and total. */
module Driver {
  import opened Wrappers
  import opened Rounding
  import opened Scoring
  import opened Prediction
  import opened RosterCache

  type GameId = int

  /** One game of the schedule. */
  datatype Game = Game(gameId: GameId, away: string, home: string, homeId: TeamId, awayId: TeamId)

  /** The probable-pitcher ids of a game; None when the game feed has none. */
  datatype ProbablePitchers = ProbablePitchers(home: Option<PlayerId>, away: Option<PlayerId>)

  /** What the remote services answer during one run. */
  datatype Feeds = Feeds(
    probablePitchers: GameId -> ProbablePitchers,
    pitchingStats: PlayerId -> StatMap,
    hittingStats: PlayerId -> StatMap,
    roster: TeamId -> seq<PlayerId>)

  /** One row of `results`. */
  datatype Row = Row(
    matchup: string,
    homePitcherScore: real,
    awayPitcherScore: real,
    homeHitterScore: real,
    awayHitterScore: real,
    predictedMargin: real,
    predictedTotal: real)

  /** Python truthiness of a player id: None and 0 are false, every other
      id is true. */
  predicate Truthy(id: Option<PlayerId>): (b: bool)
    ensures id == None ==> !b
    ensures id == Some(0) ==> !b
    ensures id.Some? && id.value != 0 ==> b
  {
    id.Some? && id.value != 0
  }

  /** A game is kept unless `not pitchers['home'] or not pitchers['away']`;
      a kept game has both ids to look up. */
  predicate Eligible(g: Game, feeds: Feeds): (b: bool)
    ensures !b <==> !Truthy(feeds.probablePitchers(g.gameId).home) || !Truthy(feeds.probablePitchers(g.gameId).away)
    ensures b ==> feeds.probablePitchers(g.gameId).home.Some? && feeds.probablePitchers(g.gameId).away.Some?
  {
    Truthy(feeds.probablePitchers(g.gameId).home) && Truthy(feeds.probablePitchers(g.gameId).away)
  }

  /** The hitting records of the players of a roster, in roster order. */
  function HittingRecords(ids: seq<PlayerId>, feeds: Feeds): (r: seq<StatMap>)
    ensures |r| == |ids|
    ensures forall i :: 0 <= i < |ids| ==> r[i] == feeds.hittingStats(ids[i])
  {
    seq(|ids|, i requires 0 <= i < |ids| => feeds.hittingStats(ids[i]))
  }

  function Matchup(g: Game): string
  {
    g.away + " @ " + g.home
  }

  lemma Round2KeepsScore(s: real)
    requires IsScore(s)
    ensures IsScore(Round2(s))
  {
    Round2Monotone(0.0, s);
    Round2Monotone(s, 100.0);
    Round2Exact(0);
    Round2Exact(10000);
  }

  /** The row an eligible game yields: its four displayed scores lie in
      [0, 100], its margin in [-100, 100] and its total in [-7.5, 28.5]. */
  function RowFor(g: Game, feeds: Feeds): (row: Row)
    requires Eligible(g, feeds)
    ensures row.matchup == g.away + " @ " + g.home
    ensures IsScore(row.homePitcherScore) && IsScore(row.awayPitcherScore)
    ensures IsScore(row.homeHitterScore) && IsScore(row.awayHitterScore)
    ensures -100.0 <= row.predictedMargin <= 100.0
    ensures -7.5 <= row.predictedTotal <= 28.5
  {
    var pitchers := feeds.probablePitchers(g.gameId);
    var homeP := PitcherScore(feeds.pitchingStats(pitchers.home.value));
    var awayP := PitcherScore(feeds.pitchingStats(pitchers.away.value));
    var homeH := HitterScoreOf(HittingRecords(feeds.roster(g.homeId), feeds));
    var awayH := HitterScoreOf(HittingRecords(feeds.roster(g.awayId), feeds));
    Round2KeepsScore(homeP);
    Round2KeepsScore(awayP);
    Round2KeepsScore(homeH);
    Round2KeepsScore(awayH);
    MarginBounds(homeP, awayP, homeH, awayH);
    TotalBounds(homeP, awayP, homeH, awayH);
    Row(Matchup(g), Round2(homeP), Round2(awayP), Round2(homeH), Round2(awayH),
        PredictMargin(homeP, awayP, homeH, awayH), PredictTotal(homeP, awayP, homeH, awayH))
  }

  /** The rows of a schedule, built game by game: never more rows than
      games, and a row for every game when every game is kept. */
  function Report(games: seq<Game>, feeds: Feeds): (rows: seq<Row>)
    ensures |rows| <= |games|
    ensures (forall i :: 0 <= i < |games| ==> Eligible(games[i], feeds)) ==> |rows| == |games|
  {
    if games == [] then []
    else
      var last := games[|games| - 1];
      Report(games[..|games| - 1], feeds) + (if Eligible(last, feeds) then [RowFor(last, feeds)] else [])
  }

  /** The positions in the schedule of the games that yield a row: strictly
      increasing, and holding exactly the eligible positions. */
  function EligibleIndices(games: seq<Game>, feeds: Feeds): (idx: seq<nat>)
    ensures forall k :: 0 <= k < |idx| ==> idx[k] < |games| && Eligible(games[idx[k]], feeds)
    ensures forall k, l :: 0 <= k < l < |idx| ==> idx[k] < idx[l]
    ensures forall i :: 0 <= i < |games| && Eligible(games[i], feeds) ==> i in idx
  {
    if games == [] then []
    else
      var n := |games| - 1;
      var init := EligibleIndices(games[..n], feeds);
      assert forall i :: 0 <= i < n ==> games[..n][i] == games[i];
      if Eligible(games[n], feeds) then init + [n] else init
  }

  /** The teams whose rosters a run over the schedule looks up. */
  function EligibleTeams(games: seq<Game>, feeds: Feeds): set<TeamId>
  {
    if games == [] then {}
    else
      var last := games[|games| - 1];
      EligibleTeams(games[..|games| - 1], feeds) + (if Eligible(last, feeds) then {last.homeId, last.awayId} else {})
  }

  /** Rows are the eligible games' rows, one each, in schedule order; so a
      game yields a row exactly when both probable-pitcher ids are truthy,
      and there are never more rows than games. */
  lemma {:induction false} ReportFollowsSchedule(games: seq<Game>, feeds: Feeds)
    ensures |Report(games, feeds)| == |EligibleIndices(games, feeds)| <= |games|
    ensures forall k :: 0 <= k < |Report(games, feeds)| ==>
              Report(games, feeds)[k] == RowFor(games[EligibleIndices(games, feeds)[k]], feeds)
  {
    if games != [] {
      var n := |games| - 1;
      ReportFollowsSchedule(games[..n], feeds);
      var idx, init := EligibleIndices(games[..n], feeds), Report(games[..n], feeds);
      forall k | 0 <= k < |init|
        ensures init[k] == RowFor(games[idx[k]], feeds)
      {
        assert games[..n][idx[k]] == games[idx[k]];
      }
    }
  }

  /** The end-to-end case of two games where the second lacks its away
      pitcher: exactly one row, that of the first game. */
  lemma OneCompleteGameOneRow(g1: Game, g2: Game, feeds: Feeds)
    requires Eligible(g1, feeds)
    requires feeds.probablePitchers(g2.gameId).away == None
    ensures Report([g1, g2], feeds) == [RowFor(g1, feeds)]
  {
    assert !Eligible(g2, feeds);
    assert [g1, g2][..1] == [g1];
    assert [g1][..0] == [];
    assert Report([g1], feeds) == [RowFor(g1, feeds)];
  }

  /** One more game of the schedule adds its row and its two teams when it
      is kept, and nothing otherwise. */
  lemma ReportStep(games: seq<Game>, i: nat, feeds: Feeds)
    requires i < |games|
    ensures Report(games[..i + 1], feeds)
         == Report(games[..i], feeds) + (if Eligible(games[i], feeds) then [RowFor(games[i], feeds)] else [])
    ensures EligibleTeams(games[..i + 1], feeds)
         == EligibleTeams(games[..i], feeds) + (if Eligible(games[i], feeds) then {games[i].homeId, games[i].awayId} else {})
  {
    assert games[..i + 1][..i] == games[..i];
    assert games[..i + 1][i] == games[i];
  }

  /** The body of the loop for a game that is not skipped: score the two
      probable pitchers and the two rosters (looked up through the cache) and
      build the row. */
  method PredictGame(game: Game, feeds: Feeds, cache: Cache) returns (row: Row)
    requires Eligible(game, feeds)
    requires cache.Valid() && cache.fetch == feeds.roster
    modifies cache
    ensures cache.Valid()
    ensures cache.rosters.Keys == old(cache.rosters.Keys) + {game.homeId, game.awayId}
    ensures row == RowFor(game, feeds)
  {
    var pitchers := feeds.probablePitchers(game.gameId);
    var homePScore := PitcherScore(feeds.pitchingStats(pitchers.home.value));
    var awayPScore := PitcherScore(feeds.pitchingStats(pitchers.away.value));
    var homeRoster := cache.GetCachedRoster(game.homeId);
    var awayRoster := cache.GetCachedRoster(game.awayId);
    var homeHScore := HitterScore(HittingRecords(homeRoster, feeds));
    var awayHScore := HitterScore(HittingRecords(awayRoster, feeds));
    var predictedMargin := PredictMargin(homePScore, awayPScore, homeHScore, awayHScore);
    var predictedTotal := PredictTotal(homePScore, awayPScore, homeHScore, awayHScore);
    row := Row(Matchup(game), Round2(homePScore), Round2(awayPScore),
               Round2(homeHScore), Round2(awayHScore), predictedMargin, predictedTotal);
  }

  /** The driver loop, with `team_rosters` created empty for the run.  The
      rows it appends are exactly `Report(games, feeds)`: the cache changes
      how often rosters are fetched, never what a row holds.  Each roster is
      fetched at most once, and only for teams of games that yield a row. */
  method RunPredictions(games: seq<Game>, feeds: Feeds) returns (results: seq<Row>, ghost fetched: seq<TeamId>)
    ensures results == Report(games, feeds)
    ensures (set t | t in fetched) == EligibleTeams(games, feeds)
    ensures forall i, j :: 0 <= i < j < |fetched| ==> fetched[i] != fetched[j]
  {
    var cache := new Cache(feeds.roster);
    results := [];
    var i := 0;
    while i < |games|
      invariant 0 <= i <= |games|
      invariant cache.Valid() && cache.fetch == feeds.roster
      invariant results == Report(games[..i], feeds)
      invariant cache.rosters.Keys == EligibleTeams(games[..i], feeds)
    {
      var game := games[i];
      ReportStep(games, i, feeds);
      var pitchers := feeds.probablePitchers(game.gameId);
      if Truthy(pitchers.home) && Truthy(pitchers.away) {
        var row := PredictGame(game, feeds, cache);
        results := results + [row];
      }
      i := i + 1;
    }
    assert games[..i] == games;
    fetched := cache.fetchLog;
  }
}
