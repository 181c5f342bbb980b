# Monad dice game: session engine and leaderboard helpers in Dafny

This project models the logic of a casual dice game. A player picks a die face,
rolls three dice up to ten times per session and scores by the number of dice
that show the chosen face. The best score is kept in browser storage, and the
session score can be submitted to an external leaderboard. The button stays
enabled until a submitted score is confirmed, so it can submit the same score
more than once.
Two React components hold that logic:

- `DiceGame` (`app/components/dice.tsx`). It holds the scoring table, hit
  counting and dice rolling. It also holds the session state machine: choosing a
  face, requesting a roll, the timer body that resolves it, starting a new game,
  the best-score store and the save-score gate.
- `Leaderboard` (`app/components/Leaderboard.tsx`). It turns the fetched JSON
  into entries and keeps the load's outcome in component state. It also formats
  addresses, rank icons, the current-player match and score colours.

## Layout

- `wrappers.dfy`: module `Wrappers`, with `Option` for JavaScript's
  `null`/`undefined` and `GetOr` for `??`.
- `text.dfy`: module `Text`. It models JavaScript truthiness of a string,
  `slice(0, k)` and `slice(-k)`, ASCII `toLowerCase`, and the decimal rendering
  of an integer in a template literal. A parser and a round-trip proof come with
  the rendering.
- `scoring.dfy`: module `Scoring`. It models the `Die` type, `SCORE_TABLE`,
  `countHits`, and `rollDice` as a loop over the `Math.random()` draws passed in.
- `best_score_store.dfy`: module `BestScore`. `localStorage` becomes a class
  with a key-value map and two flags: whether reading works and whether
  writing works (the source catches each failure on its own).
- `dice_game.dfy`: module `Dice`. It holds the `GameState` record, the timer's
  state updater `Advance`, the save gate, `shortAddr`, and the class `DiceGame`
  with its fields `gameState`, `isRolling`, `pending` (the timer is scheduled)
  and `lastSavedScore`.
- `leaderboard.dfy`: module `Leaderboard`. It holds entry normalisation, the
  load outcome, the row helpers, and the class `LeaderboardView` with the
  state `loadLeaderboard` writes.
- `scenarios.dfy`: client methods. Each plays concrete sessions against the
  contracts: three 4s scoring 1000, ten rounds then a refused eleventh, the
  stale roll after New Game, the mid-roll key press, failed storage writes,
  saving once, a double submission, and leaderboard loads.

`DiceGame.Valid()` is the engine's invariant. It keeps a ghost history of the
awards of the rounds resolved this session, which only `Resolve` extends and
`InitializeGame` empties. It says these things:

- at most ten rounds are played;
- the score is the sum of this session's round awards, each one a table value;
- the displayed hits and round score match the displayed roll, for the face that
  roll was scored against;
- the score never exceeds the best score; the stored value never exceeds the
  best score, and equals it when storage both reads and writes;
- the rolling flag implies a scheduled timer, and a scheduled timer implies that
  rolls are left.

`SessionBounds` derives a score of at most 1000 per round played.

### Behaviour worth knowing

- The timer body scores against the face chosen when the timer fires, not the
  face chosen at the request (`dice.tsx:206`). `Resolve` does the same.
- `chooseNumber` clears `isRolling` (`dice.tsx:177`). Only the on-screen buttons
  are disabled during a roll; the keyboard shortcut is not. So a key press can
  change the face mid-roll and let a second `rollOnce` through. That second
  request cancels the first timer and schedules its own, so at most one
  resolution is ever pending. `ChooseNumber`, `RollOnce` and the
  `KeyPressMidRoll` scenario show this.
- `initializeGame` does not cancel the timer. A pending roll is neutralised only
  because `chosen` becomes null and the timer body then does nothing. If a face
  is chosen before the timer fires, the stale roll counts in the new session.
  `InitializeGame` leaves `pending` unchanged, and the scenarios
  `StaleRollAfterNewGame` and `StaleRollWithoutChoice` show both outcomes.
- A hit count outside the table scores 0 (`SCORE_TABLE[hits] ?? 0`). It is not
  an error.
- The save handler records the score read when the button was clicked, and only
  after the request returns. Modelled as `BeginSave` then `FinishSave(amount, …)`,
  a New Game during the request still ends with `lastSavedScore` at the old
  session's score. A reply with `success` but no `transactionHash` counts as a
  failure: the success alert slices the hash before the score is recorded, and
  the resulting exception lands in the `catch`.
- The Save button and its handler test `lastSavedScore`, which changes only
  after the request returns (`dice.tsx:449`). A second click while the first
  request is outstanding submits the same score again. `BeginSave` changes
  nothing, so two calls in a row give the same `Submit`, and the `DoubleSubmit`
  scenario shows it.
- A `null` element in the leaderboard array makes `entry.rank` throw, so the
  whole load fails with the error message. Any other non-object element yields
  an entry of defaults.

## Model

| member | source | states |
|---|---|---|
| Scoring.Award | app/components/dice.tsx:207 | the award is one of 0, 100, 300, 1000, and a hit count missing from the table scores 0 |
| Scoring.AwardValues | app/components/dice.tsx:12-17 | the table maps 0, 1, 2, 3 hits to 0, 100, 300, 1000 |
| Scoring.AwardMonotone | app/components/dice.tsx:12-17 | over 0..3 hits, more hits never earn fewer points |
| Scoring.CountHits | app/components/dice.tsx:49-52 | no chosen face counts 0; otherwise the count is the multiplicity of the face in the roll, hence at most the roll's length |
| Scoring.HitsIsMultiplicity | app/components/dice.tsx:51 | the left fold adding one per matching die equals the face's multiplicity in the roll |
| Scoring.FaceOfInterval | app/components/dice.tsx:44 | `floor(6r)+1` gives face k exactly for draws in [(k-1)/6, k/6), so each face gets an equal sixth of [0, 1) |
| Scoring.RollDice | app/components/dice.tsx:41-47 | returns n faces, the i-th being the face of the i-th draw, in order |
| BestScore.BestScoreStore.Load | app/components/dice.tsx:99-105 | yields 0 when reading throws or the key is absent, else the stored value |
| BestScore.BestScoreStore.Save | app/components/dice.tsx:107-111 | writes only the best-score key when writing works (reading it back gives the score when reading works too), and changes nothing when writing throws |
| Dice.Advance | app/components/dice.tsx:199-221 | no face chosen or no rolls left: the state is returned unchanged; otherwise the chosen face is kept, the roll replaced, the hits are the face's multiplicity, the award is added to the score and is the round score, the play count rises by exactly one up to at most 10, and the best score becomes the larger of the old best and the new score |
| Dice.AdvanceKeepsHistory | app/components/dice.tsx:205-220 | a resolved round keeps the record consistent with the session history extended by its award: at most ten rounds, the score the sum of the awards, the shown hits and round score those of the shown roll for the face scored, the score within the best score |
| Dice.AdvanceGain | app/components/dice.tsx:205-208 | a round of three dice has at most 3 hits and adds exactly one of 0, 100, 300, 1000 to the score |
| Dice.SumBound | app/components/dice.tsx:208 | a sum of awards each at most `cap` is at most `cap` times the number of rounds |
| Dice.DiceGame.SessionBounds | app/components/dice.tsx:201-219 | under the invariant the play count is at most 10 and the score at most 1000 per round played |
| Dice.SaveDecisionFor | app/components/dice.tsx:413-426 | the handler submits exactly when the button is enabled (a truthy address, a non-zero score above the last saved one), and the submitted amount is the score; with no address it reports not logged in |
| Dice.SaveGateAfterRecord | app/components/dice.tsx:462-466 | once score s is recorded, s can no longer be submitted and s+1 can |
| Dice.ShortAddr | app/components/dice.tsx:256-259 | a truthy `0x` address longer than 10 shows its first 6 characters, an ellipsis and its last 4 (11 characters); otherwise the address itself, or "Guest" when there is none |
| Dice.DiceGame.constructor | app/components/dice.tsx:113-121 | a fresh record with the stored best score loaded, not rolling, no timer, nothing saved, and the invariant holds |
| Dice.DiceGame.InitializeGame | app/components/dice.tsx:156-169 | the record is reset with the best score reloaded from the store: never higher than before, and unchanged when storage reads and writes; nothing is saved, rolling is cleared, and the timer is left as it was |
| Dice.DiceGame.ChooseNumber | app/components/dice.tsx:172-178 | only the chosen face changes in the record; rolling is cleared; the timer, the saved score and the session's award history are kept |
| Dice.DiceGame.RollOnce | app/components/dice.tsx:181-197 | when not rolling, a face is chosen and rolls are left, the request sets rolling and a single scheduled timer and changes nothing else (record, saved score and award history kept); otherwise nothing changes |
| Dice.DiceGame.Resolve | app/components/dice.tsx:198-226 | with no face chosen the record, store and award history are untouched; otherwise the roll is the faces of the draws, the record is the updater's result on the old record and one award is appended to the session's history; the store is written exactly when the best score strictly rises and writing works; rolling and the timer are cleared either way, and the invariant holds |
| Dice.DiceGame.BeginSave | app/components/dice.tsx:412-426 | the click's decision is the gate applied to the current score and the last saved score; a submission carries the current score, which exceeds the last saved one |
| Dice.DiceGame.FinishSave | app/components/dice.tsx:428-460 | the amount becomes the last saved score exactly when the reply is a success carrying a transaction hash; otherwise the last saved score is unchanged; the game state and award history are untouched |
| Leaderboard.NormalizeEntry | app/components/Leaderboard.tsx:44-49 | each absent field takes its default: rank 1, player "Unknown", wallet "Unknown", score 0; present fields are kept |
| Leaderboard.NormalizedSpec | app/components/Leaderboard.tsx:42-51 | normalising fails exactly when some element is null; otherwise it gives one entry per element, in order |
| Leaderboard.NormalizeEntries | app/components/Leaderboard.tsx:40-51 | the push loop yields the normalised entries, and a non-array body yields an empty list |
| Leaderboard.NonArrayLoadsEmpty | app/components/Leaderboard.tsx:39-53 | an OK response whose body is not an array loads an empty board, not an error |
| Leaderboard.FormatAddress | app/components/Leaderboard.tsx:67-70 | the result is "Unknown" exactly for an empty or "Unknown" address; otherwise it is the first 6 characters, "...", then the last 4 (13 characters for an address of 10 or more) |
| Leaderboard.RankIcon | app/components/Leaderboard.tsx:72-83 | ranks 1, 2, 3 get the gold, silver and bronze medals; any other rank gets "#" followed by its decimal digits |
| Leaderboard.RankIconInjective | app/components/Leaderboard.tsx:72-83 | distinct ranks get distinct icons |
| Leaderboard.IsCurrentPlayer | app/components/Leaderboard.tsx:85-88 | false with no player address; otherwise true exactly when the two addresses agree after lower-casing |
| Leaderboard.IsCurrentPlayerSymmetric | app/components/Leaderboard.tsx:85-88 | the match between two addresses is symmetric |
| Leaderboard.IsCurrentPlayerIgnoresCase | app/components/Leaderboard.tsx:87 | lower-casing the row's address does not change the match |
| Leaderboard.ScoreColor | app/components/Leaderboard.tsx:90-95 | yellow exactly for scores of 500 or more, blue for 300-499, green for 100-299, gray below 100 |
| Leaderboard.ScoreColorMonotone | app/components/Leaderboard.tsx:90-95 | a higher score never falls in a lower colour band |
| Leaderboard.LeaderboardView.constructor | app/components/Leaderboard.tsx:21-23 | no entries, not loading, no error |
| Leaderboard.LeaderboardView.StartLoad | app/components/Leaderboard.tsx:26-27 | loading is set and the error cleared; the old entries stay shown |
| Leaderboard.LeaderboardView.FinishLoad | app/components/Leaderboard.tsx:35-59 | a failed request, a non-OK status, an unreadable body or a null element empties the list and sets "Unable to load leaderboard"; otherwise the list is the normalised entries and the error is untouched; loading is cleared either way |
| Leaderboard.LeaderboardView.LoadLeaderboard | app/components/Leaderboard.tsx:25-60 | the whole load ends not loading, with the normalised entries and no error, or with an empty list and the error message |
| Text.IntToDecimalInjective | app/components/Leaderboard.tsx:81 | the rank's decimal rendering determines the rank (it parses back to it) |

## Left out

- Rendering: JSX, `DiceIcon`, the skeleton view, the leaderboard popup, CSS class composition and `toLocaleString`. These are presentation only.
- Randomness: `Math.random()` is not modelled. Its draws are parameters, each a real in [0, 1). The rolling-faces animation interval (`dice.tsx:141-153`) only shows random faces and is left out.
- Timers: the 2500 ms delay is not modelled. The scheduled timer is the `pending` flag, and its firing is a call to `Resolve`. The unmount cleanup that clears the timer (`dice.tsx:130-138`) is left out.
- React state timing: `rollOnce` reads the values from the last render. The model reads the current state, so it assumes a re-render between events.
- Network and UI side effects are not modelled: the `fetch` calls, `alert`, `console.error` and the `onScoreChange` emission (`dice.tsx:252-254`). The save reply and the leaderboard response are parameters.
- JavaScript strings are sequences of UTF-16 code units, and the model's strings are sequences of Unicode scalar values. For an address containing a character outside the Basic Multilingual Plane, the source's `length > 10`, `slice(0, 6)` and `slice(-4)` (in `shortAddr` and `formatAddress`) count and cut code units, and can split a surrogate pair. Dice.ShortAddr and Leaderboard.FormatAddress count characters instead. The two agree on ASCII addresses, which wallet addresses are.
- Stored best-score values are naturals. A corrupt, negative or non-numeric stored string (which `Number` turns into NaN or a negative number) is not modelled. Other tabs writing the same key are not modelled either.
- Leaderboard value coercion: fields arrive already typed. `Number(...)`/`String(...)` on other JSON kinds are not modelled, and a non-object array element reads as a record without fields.
- Leaderboard.IsCurrentPlayer: lower-cases ASCII letters only, where `toLowerCase` folds all of Unicode; wallet addresses are hexadecimal, so ASCII covers them.
- Leaderboard.RankIcon: ranks are integers; a non-integer or NaN rank from the service is not modelled. Ranks of magnitude 10^21 or more, which JavaScript writes in exponent form (`#1e+21`), are rendered with all their decimal digits, and integers above 2^53, which a JavaScript Number cannot hold exactly, are not modelled.
- The effect that reloads the leaderboard when the player address changes (`Leaderboard.tsx:62-65`) and the keyboard listener wiring (`dice.tsx:230-242`) are event plumbing. Their effect appears as calls to `LoadLeaderboard`, `ChooseNumber` and `RollOnce`.
- `WalletConnect.tsx`, `PrivyProvider.tsx`, `AppConfigProvider.tsx`, `LeaderboardPopup.tsx`, `page.tsx`, `api/env/route.ts`, `api/leaderboard/route.ts` and `lib/game-config.ts` are not part of this model. They are authentication wrappers, configuration plumbing, layout, an HTTP proxy, and constants for a different game.
