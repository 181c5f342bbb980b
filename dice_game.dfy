/**
 * The `DiceGame` component's session engine: the game record it keeps in
 * React state, the rolling flag, the pending roll timer, the best-score
 * store and the save-score gate.
 */
module Dice {
  import opened Wrappers
  import opened Text
  import opened Scoring
  import opened BestScore

  /** `GameState`, the record the component replaces on every update. */
  datatype GameState = GameState(
    chosen: Option<Die>,
    rolls: seq<Die>,
    hits: nat,
    score: nat,
    bestScore: nat,
    lastRoundScore: nat,
    playCount: nat)

  /** The record `initializeGame` installs, with the best score just loaded. */
  function FreshGame(best: nat): GameState {
    GameState(None, [], 0, 0, best, 0, 0)
  }

  function Max(a: int, b: int): int { if a >= b then a else b }

  /** The sum of the round awards of a session, in order. */
  function Sum(awards: seq<nat>): nat
    decreases |awards|
  {
    if awards == [] then 0 else Sum(awards[..|awards| - 1]) + awards[|awards| - 1]
  }

  /** A session of `n` rounds scores at most `n` times the largest award. */
  lemma {:induction false} SumBound(awards: seq<nat>, cap: nat)
    requires forall k :: 0 <= k < |awards| ==> awards[k] <= cap
    ensures Sum(awards) <= cap * |awards|
    decreases |awards|
  {
    if awards != [] {
      SumBound(awards[..|awards| - 1], cap);
      assert cap * |awards| == cap * (|awards| - 1) + cap;
    }
  }

  /** The roll request is accepted: not rolling, a face chosen, rolls left (the Roll button's enabled state). */
  predicate RollEnabled(isRolling: bool, chosen: Option<Die>, playCount: nat) {
    !isRolling && chosen.Some? && playCount < MaxRounds
  }

  /**
   * The state updater run when the roll timer fires, given the faces
   * `rollDice(3)` produced. It scores against the face chosen at this
   * moment, and does nothing when no face is chosen or no rolls are left.
   */
  function Advance(current: GameState, rolls: seq<Die>): (next: GameState)
    ensures current.chosen.None? || current.playCount >= MaxRounds ==> next == current
    ensures current.chosen.Some? && current.playCount < MaxRounds ==>
              && next.chosen == current.chosen
              && next.rolls == rolls
              && next.hits == multiset(rolls)[current.chosen.value]
              && next.lastRoundScore == Award(next.hits)
              && next.score == current.score + next.lastRoundScore
              && next.playCount == current.playCount + 1 <= MaxRounds
              && next.bestScore >= current.bestScore
              && next.bestScore >= next.score
              && (next.bestScore == current.bestScore || next.bestScore == next.score)
  {
    if current.chosen.None? || current.playCount >= MaxRounds then current
    else
      var hits := CountHits(current.chosen, rolls);
      var gained := Award(hits);
      var newScore := current.score + gained;
      var best := Max(current.bestScore, newScore);
      current.(rolls := rolls, hits := hits, score := newScore, bestScore := best,
               lastRoundScore := gained, playCount := current.playCount + 1)
  }

  /** A round of three dice adds one of the table's awards, and never more than 1000. */
  lemma AdvanceGain(current: GameState, rolls: seq<Die>)
    requires current.chosen.Some? && current.playCount < MaxRounds && |rolls| == DicePerRound
    ensures var next := Advance(current, rolls);
            && next.hits <= DicePerRound
            && next.score - current.score in {0, 100, 300, 1000}
  {
  }

  /** The Save Score button is enabled (the negation of its `disabled` expression). */
  predicate SaveEnabled(playerAddress: Option<string>, score: nat, lastSaved: nat) {
    Truthy(playerAddress) && score != 0 && score > lastSaved
  }

  /** What a click on Save Score does before any network request. */
  datatype SaveDecision = NotLoggedIn | NoPoints | AlreadySaved | Submit(amount: nat)

  /** The click handler's three checks, in order. */
  function SaveDecisionFor(playerAddress: Option<string>, score: nat, lastSaved: nat): (d: SaveDecision)
    ensures d.Submit? <==> SaveEnabled(playerAddress, score, lastSaved)
    ensures d.Submit? ==> d.amount == score && 0 < d.amount && lastSaved < d.amount
    ensures !Truthy(playerAddress) ==> d == NotLoggedIn
  {
    if !Truthy(playerAddress) then NotLoggedIn
    else if score == 0 then NoPoints
    else if score <= lastSaved then AlreadySaved
    else Submit(score)
  }

  /** Once a score is recorded the same score cannot be saved again, and any higher one can. */
  lemma SaveGateAfterRecord(playerAddress: Option<string>, s: nat)
    requires Truthy(playerAddress)
    ensures SaveDecisionFor(playerAddress, s, s) != Submit(s)
    ensures SaveDecisionFor(playerAddress, s + 1, s) == Submit(s + 1)
  {
  }

  /** The parsed response of `/api/save-score`, or a request that threw (network failure, unreadable JSON). */
  datatype SaveReply = RequestFailed | Reply(success: bool, transactionHash: Option<string>)

  /**
   * The handler records the score only when the reply says success and
   * carries a transaction hash: the success alert slices the hash before
   * the score is recorded, so a missing hash throws into the failure path.
   */
  predicate Confirmed(reply: SaveReply) {
    reply.Reply? && reply.success && reply.transactionHash.Some?
  }

  /** `shortAddr`: the greeting's player label. */
  function ShortAddr(playerAddress: Option<string>): (r: string)
    ensures Truthy(playerAddress) && |playerAddress.value| > 10 && playerAddress.value[..2] == "0x" ==>
              var a := playerAddress.value;
              |r| == 11 && r[..6] == a[..6] && r[6] == '\U{2026}' && r[7..] == a[|a| - 4..]
    ensures !(Truthy(playerAddress) && |playerAddress.value| > 10 && playerAddress.value[..2] == "0x") ==>
              r == if Truthy(playerAddress) then playerAddress.value else "Guest"
  {
    if Truthy(playerAddress) && |playerAddress.value| > 10 && playerAddress.value[..2] == "0x" then
      SliceHead(playerAddress.value, 6) + "\U{2026}" + SliceTail(playerAddress.value, 4)
    else if Truthy(playerAddress) then playerAddress.value
    else "Guest"
  }

  /**
   * The record agrees with the session's history: the awards of the rounds
   * played, in order, and the face the last round was scored against. At
   * most ten rounds, the score is the sum of the awards, each a table
   * value, the shown hits and round score belong to the shown roll, and the
   * score never exceeds the best score.
   */
  ghost predicate History(g: GameState, awards: seq<nat>, scoredFace: Option<Die>) {
    && g.playCount <= MaxRounds
    && |awards| == g.playCount
    && g.score == Sum(awards)
    && (forall k :: 0 <= k < |awards| ==> awards[k] in {0, 100, 300, 1000})
    && (g.playCount == 0 ==> g.rolls == [] && g.hits == 0 && g.lastRoundScore == 0)
    && (g.playCount > 0 ==>
          && |g.rolls| == DicePerRound
          && scoredFace.Some?
          && g.hits == CountHits(scoredFace, g.rolls)
          && g.lastRoundScore == Award(g.hits) == awards[|awards| - 1])
    && g.score <= g.bestScore
  }

  /** A round applied by the timer extends the history by its award and the face it scored. */
  lemma AdvanceKeepsHistory(g: GameState, awards: seq<nat>, scoredFace: Option<Die>, rolls: seq<Die>)
    requires History(g, awards, scoredFace)
    requires g.chosen.Some? && g.playCount < MaxRounds && |rolls| == DicePerRound
    ensures var next := Advance(g, rolls);
            History(next, awards + [next.lastRoundScore], g.chosen)
  {
    var next := Advance(g, rolls);
    var awards' := awards + [next.lastRoundScore];
    assert awards'[..|awards|] == awards;
  }

  /** The component's session state. */
  class DiceGame {
    /** `gameState`. */
    var gameState: GameState
    /** `isRolling`. */
    var isRolling: bool
    /** `timeoutRef.current != null`: a roll resolution is scheduled. */
    var pending: bool
    /** `lastSavedScore`. */
    var lastSavedScore: nat
    /** The awards of the rounds resolved this session, in order. */
    ghost var awards: seq<nat>
    /** The face the last resolved round was scored against. */
    ghost var scoredFace: Option<Die>
    /** `localStorage`. */
    const store: BestScoreStore

    /** The stored best score never exceeds the session's, and equals it when storage reads and writes. */
    ghost predicate StoreKeeps(best: nat)
      reads this, store
    {
      store.Current() <= best && (store.readable && store.writable ==> store.Current() == best)
    }

    ghost predicate Valid()
      reads this, store
    {
      && History(gameState, awards, scoredFace)
      && StoreKeeps(gameState.bestScore)
      && (isRolling ==> pending)
      && (pending ==> gameState.playCount < MaxRounds)
    }

    /** Mounting: the initial record, then the mount effect loads the best score. */
    constructor (store: BestScoreStore)
      ensures Valid() && this.store == store
      ensures gameState == FreshGame(store.Current())
      ensures !isRolling && !pending && lastSavedScore == 0
    {
      var best := store.Load();
      this.store := store;
      gameState := FreshGame(best);
      isRolling := false;
      pending := false;
      lastSavedScore := 0;
      awards := [];
      scoredFace := None;
    }

    /** The session never plays more than ten rounds and never scores more than ten times the top award. */
    lemma SessionBounds()
      requires Valid()
      ensures gameState.playCount <= MaxRounds
      ensures gameState.score <= 1000 * gameState.playCount <= 10000
    {
      SumBound(awards, 1000);
    }

    /** `initializeGame`: a fresh session; the pending timer, if any, is left scheduled. */
    method InitializeGame()
      requires Valid()
      modifies this
      ensures Valid()
      ensures gameState == FreshGame(store.Current())
      ensures gameState.bestScore <= old(gameState.bestScore)
      ensures store.readable && store.writable ==> gameState.bestScore == old(gameState.bestScore)
      ensures lastSavedScore == 0 && !isRolling && pending == old(pending)
    {
      var best := store.Load();
      gameState := FreshGame(best);
      lastSavedScore := 0;
      isRolling := false;
      awards := [];
      scoredFace := None;
    }

    /** `chooseNumber`: sets the face and clears the rolling flag, whatever the state. */
    method ChooseNumber(n: Die)
      requires Valid()
      modifies this
      ensures Valid()
      ensures gameState == old(gameState).(chosen := Some(n))
      ensures !isRolling && pending == old(pending) && lastSavedScore == old(lastSavedScore)
      ensures awards == old(awards) && scoredFace == old(scoredFace)
    {
      gameState := gameState.(chosen := Some(n));
      isRolling := false;
    }

    /**
     * `rollOnce`, up to scheduling the timer: accepted only when not
     * rolling, a face is chosen and rolls are left; an accepted request
     * cancels any earlier timer and schedules its own.
     */
    method RollOnce()
      requires Valid()
      modifies this
      ensures Valid()
      ensures RollEnabled(old(isRolling), old(gameState.chosen), old(gameState.playCount)) ==>
                && isRolling && pending
                && gameState == old(gameState) && lastSavedScore == old(lastSavedScore)
                && awards == old(awards) && scoredFace == old(scoredFace)
      ensures !RollEnabled(old(isRolling), old(gameState.chosen), old(gameState.playCount)) ==>
                unchanged(this)
    {
      if isRolling {
        return;
      }
      if gameState.chosen.None? || gameState.playCount >= MaxRounds {
        return;
      }
      isRolling := true;
      pending := true;
    }

    /**
     * The timer body: rolls the dice from the given draws, applies the
     * round against the face chosen now, saves a strictly higher best
     * score, and ends the roll.
     */
    method Resolve(draws: seq<real>)
      requires Valid() && pending
      requires |draws| == DicePerRound
      requires forall i :: 0 <= i < |draws| ==> IsDraw(draws[i])
      modifies this, store
      ensures Valid()
      ensures !isRolling && !pending && lastSavedScore == old(lastSavedScore)
      ensures old(gameState).chosen.None? ==>
                && gameState == old(gameState) && store.items == old(store.items)
                && awards == old(awards) && scoredFace == old(scoredFace)
      ensures old(gameState).chosen.Some? ==>
                && |gameState.rolls| == DicePerRound
                && (forall i :: 0 <= i < DicePerRound ==> gameState.rolls[i] == FaceOf(draws[i]))
                && gameState == Advance(old(gameState), gameState.rolls)
                && awards == old(awards) + [gameState.lastRoundScore]
      ensures store.items ==
                if store.writable && gameState.bestScore > old(gameState.bestScore)
                then old(store.items)[BestKey := gameState.bestScore]
                else old(store.items)
    {
      if gameState.chosen.Some? && gameState.playCount < MaxRounds {
        var rolls := RollDice(DicePerRound, draws);
        var next := Advance(gameState, rolls);
        AdvanceKeepsHistory(gameState, awards, scoredFace, rolls);
        if next.bestScore > gameState.bestScore {
          store.Save(next.bestScore);
        }
        assert StoreKeeps(next.bestScore);
        awards := awards + [next.lastRoundScore];
        scoredFace := gameState.chosen;
        gameState := next;
      }
      isRolling := false;
      pending := false;
    }

    /** The Save Score click handler, up to the network request. */
    method BeginSave(playerAddress: Option<string>) returns (d: SaveDecision)
      ensures d == SaveDecisionFor(playerAddress, gameState.score, lastSavedScore)
      ensures d.Submit? ==> d.amount == gameState.score > lastSavedScore
    {
      d := SaveDecisionFor(playerAddress, gameState.score, lastSavedScore);
    }

    /**
     * The handler after the request for `amount` (the score at click time)
     * returns: the amount is recorded only on a confirmed success.
     */
    method FinishSave(amount: nat, reply: SaveReply) returns (saved: bool)
      requires Valid()
      modifies this
      ensures Valid()
      ensures saved == Confirmed(reply)
      ensures lastSavedScore == if saved then amount else old(lastSavedScore)
      ensures gameState == old(gameState) && isRolling == old(isRolling) && pending == old(pending)
      ensures awards == old(awards) && scoredFace == old(scoredFace)
    {
      saved := Confirmed(reply);
      if saved {
        lastSavedScore := amount;
      }
    }
  }
}
