/**
 * Client code: what a caller can conclude about concrete play from the
 * contracts alone. A draw of 0.5 rolls a 4, 0.2 a 2 and 0.7 a 5.
 */
module Scenarios {
  import opened Wrappers
  import opened Text
  import opened Scoring
  import opened BestScore
  import opened Dice
  import opened Leaderboard

  /** Choosing 4 and rolling three 4s scores 1000 in the first round, and the best score is stored. */
  method FourOfAKind() {
    var store := new BestScoreStore(true, true, map[]);
    var g := new DiceGame(store);
    g.ChooseNumber(4);
    g.RollOnce();
    assert g.pending;
    g.Resolve([0.5, 0.5, 0.5]);
    assert g.gameState.rolls == [4, 4, 4];
    assert g.gameState.hits == 3;
    assert g.gameState.lastRoundScore == 1000 && g.gameState.score == 1000;
    assert g.gameState.playCount == 1 && g.gameState.bestScore == 1000;
    assert store.Current() == 1000;

    // A new session starts from zero but keeps the stored best score.
    g.InitializeGame();
    assert g.gameState.score == 0 && g.gameState.bestScore == 1000;
  }

  /** When writes fail but reads work, the best score runs ahead of the store and a New Game lowers it. */
  method WritesFail() {
    var store := new BestScoreStore(true, false, map[BestKey := 300]);
    var g := new DiceGame(store);
    assert g.gameState.bestScore == 300;
    g.ChooseNumber(4);
    g.RollOnce();
    g.Resolve([0.5, 0.5, 0.5]);
    assert g.gameState.rolls == [4, 4, 4];
    assert multiset(g.gameState.rolls)[4] == 3;
    assert g.gameState.bestScore == 1000 && store.Current() == 300;
    g.InitializeGame();
    assert g.gameState.bestScore == 300;
  }

  /** Choosing the same face twice leaves the same state as choosing it once. */
  method ChooseIsIdempotent() {
    var store := new BestScoreStore(true, true, map[]);
    var g := new DiceGame(store);
    g.ChooseNumber(3);
    var once := g.gameState;
    g.ChooseNumber(3);
    assert g.gameState == once && !g.isRolling;
  }

  /** A New Game does not cancel the timer: choosing a face before it fires lets the old roll count. */
  method StaleRollAfterNewGame() {
    var store := new BestScoreStore(true, true, map[]);
    var g := new DiceGame(store);
    g.ChooseNumber(4);
    g.RollOnce();
    g.InitializeGame();
    assert g.pending && g.gameState.playCount == 0;
    g.ChooseNumber(2);
    assert g.pending && g.gameState.chosen == Some(2) && g.gameState.playCount == 0;
    assert FaceOf(0.2) == 2 && FaceOf(0.5) == 4;
    g.Resolve([0.2, 0.5, 0.2]);
    assert g.gameState.rolls == [2, 4, 2];
    assert multiset(g.gameState.rolls)[2] == 2;
    assert g.gameState.hits == 2;
    assert g.gameState.playCount == 1 && g.gameState.score == 300;
  }

  /** Without a face chosen after the New Game, the stale roll is a no-op. */
  method StaleRollWithoutChoice() {
    var store := new BestScoreStore(true, true, map[]);
    var g := new DiceGame(store);
    g.ChooseNumber(4);
    g.RollOnce();
    g.InitializeGame();
    g.Resolve([0.5, 0.5, 0.5]);
    assert g.gameState.playCount == 0 && g.gameState.score == 0 && !g.pending;
  }

  /** A key press mid-roll clears the flag, and a second request replaces the timer: still one pending roll. */
  method KeyPressMidRoll() {
    var store := new BestScoreStore(true, true, map[]);
    var g := new DiceGame(store);
    g.ChooseNumber(4);
    g.RollOnce();
    g.RollOnce();
    assert g.isRolling && g.gameState.playCount == 0;
    g.ChooseNumber(5);
    assert !g.isRolling && g.pending;
    g.RollOnce();
    assert g.isRolling && g.pending && g.gameState.playCount == 0;
  }

  /** The round scores the face held when the timer fires, not the face held at the request. */
  method ScoresFaceAtResolution() {
    var store := new BestScoreStore(true, true, map[]);
    var g := new DiceGame(store);
    g.ChooseNumber(4);
    g.RollOnce();
    g.ChooseNumber(5);
    assert g.pending && g.gameState.chosen == Some(5) && g.gameState.playCount == 0;
    assert FaceOf(0.7) == 5 && FaceOf(0.5) == 4;
    g.Resolve([0.7, 0.5, 0.7]);
    assert g.gameState.rolls == [5, 4, 5];
    assert multiset(g.gameState.rolls)[5] == 2;
    assert g.gameState.hits == 2 && g.gameState.score == 300 && g.gameState.playCount == 1;
  }

  /** After ten rounds an eleventh request is ignored. */
  method TenRoundsThenNoMore() {
    var store := new BestScoreStore(false, false, map[]);
    var g := new DiceGame(store);
    g.ChooseNumber(6);
    while g.gameState.playCount < MaxRounds
      invariant g.Valid() && g.store == store
      invariant g.gameState.chosen == Some(6) && !g.isRolling
      decreases MaxRounds - g.gameState.playCount
    {
      g.RollOnce();
      g.Resolve([0.0, 0.0, 0.0]);
    }
    assert g.gameState.playCount == 10;
    g.RollOnce();
    assert !g.isRolling && !g.pending && g.gameState.playCount == 10;
  }

  /** A confirmed save blocks the same score. */
  method SaveOnce() {
    var store := new BestScoreStore(true, true, map[]);
    var g := new DiceGame(store);
    var player := Some("0x1234567890abcdef");
    assert Truthy(player);
    var d := g.BeginSave(player);
    assert d == NoPoints;
    g.ChooseNumber(1);
    g.RollOnce();
    g.Resolve([0.0, 0.5, 0.5]);
    assert g.gameState.rolls == [1, 4, 4];
    assert multiset(g.gameState.rolls)[1] == 1;
    assert g.gameState.hits == 1;
    assert g.gameState.score == 100;
    d := g.BeginSave(player);
    assert d == Submit(100);
    var saved := g.FinishSave(100, Reply(true, Some("0xfeedbeef")));
    assert saved && g.lastSavedScore == 100;
    d := g.BeginSave(player);
    assert d == AlreadySaved;
  }

  /** Without a player address nothing is submitted; a reply without a transaction hash records nothing. */
  method SaveRefused(g: DiceGame)
    requires g.Valid()
    modifies g
  {
    var d := g.BeginSave(None);
    assert d == NotLoggedIn;
    var before := g.lastSavedScore;
    var saved := g.FinishSave(g.gameState.score, Reply(true, None));
    assert !saved && g.lastSavedScore == before;
    saved := g.FinishSave(g.gameState.score, RequestFailed);
    assert !saved && g.lastSavedScore == before;
  }

  /**
   * Two clicks while the first request is outstanding both submit the same
   * score: the last saved score moves only when a reply comes back.
   */
  method DoubleSubmit(g: DiceGame)
    requires g.Valid() && g.gameState.score > g.lastSavedScore
    modifies g
  {
    var player := Some("0x1234567890abcdef");
    assert Truthy(player);
    var first := g.BeginSave(player);
    var second := g.BeginSave(player);
    assert first == second == Submit(g.gameState.score);
    var amount := g.gameState.score;
    var saved := g.FinishSave(amount, Reply(true, Some("0xfeedbeef")));
    saved := g.FinishSave(amount, Reply(true, Some("0xbeefcafe")));
    assert saved && g.lastSavedScore == amount;
  }

  /** A score of 250 with nothing saved may be submitted; once recorded, only a higher score may. */
  method SaveGateScores() {
    var player := Some("0x1234567890abcdef");
    assert SaveDecisionFor(player, 250, 0) == Submit(250);
    assert SaveDecisionFor(player, 250, 250) == AlreadySaved;
    assert SaveDecisionFor(player, 260, 250) == Submit(260);
  }

  /** A body that is not an array loads an empty board without an error; a `null` element fails the load. */
  method LeaderboardLoads() {
    var v := new LeaderboardView();
    v.LoadLeaderboard(Response(true, Parsed(JOther)));
    assert v.leaderboard == [] && v.error == "" && !v.isLoading;

    var raw := RawEntry(Some(2), None, Some("0xabc"), None);
    NormalizedSpec([Record(raw)]);
    assert NormalizeEntry(raw) == Entry(2, "Unknown", "0xabc", 0);
    v.LoadLeaderboard(Response(true, Parsed(JArray([Record(raw)]))));
    assert v.leaderboard == [Entry(2, "Unknown", "0xabc", 0)] && v.error == "";

    v.LoadLeaderboard(Response(true, Parsed(JArray([Record(raw), NullElement]))));
    assert v.leaderboard == [] && v.error == LoadError;

    v.LoadLeaderboard(Response(false, Parsed(JOther)));
    assert v.leaderboard == [] && v.error == LoadError;
  }
}
