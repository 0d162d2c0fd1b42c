# Who Wants to Be a Millionaire — game progression and scoring, in Dafny

This project models the game engine of a single-player quiz game. A player answers up to 15
questions of rising value. They may cash out at any point. A wrong answer or a timeout drops
them back to the last "fireproof" checkpoint they reached. The model covers:

- the prize table, the checkpoints and the checkpoint payout rule;
- how answering, cashing out and the lazy timeout check change a game;
- the single finishing step, which records the prize and credits it to the owner's balance;
- the once-per-game rule for the three help kinds;
- how a game is classified as in progress, failed, timed out, won or cashed out;
- how a new game is set up with one shuffled question per level.

Modules:

- `Prizes` (`prizes.dfy`): `PRIZES`, `FIREPROOF_LEVELS = [4, 9, 14]`, `TIME_LIMIT` (35 minutes,
  in seconds), and `FireProofPrize`, written as the source writes it: select the checkpoints up
  to a level and take the last one. Lemmas give it closed form, monotonicity and range.
- `GameQuestions` (`game_question.dfy`): a game question shows the four option slots 1..4 under
  the letters a..d. It records the slot of the right answer and the help kinds added to it.
  `CorrectAnswerKey` is the inverse lookup of the right slot. `FromShuffle` deals a shuffled
  `[1, 2, 3, 4]` the way `answers.pop` does: `a` gets the last element and `d` the first.
- `GameRules` (`game_rules.dfy`): the value of a game, `State` (its fields plus the owner's
  balance), with `PreviousLevel`, `Finished` and `GameStatus`. The moves are pure functions
  on it: `TimeOut`, `AnswerCurrentQuestion`, `TakeMoney`, `UseHelp`, `FinishGame`.
  `Wellformed` is the invariant every reachable game satisfies.
- `GameProperties` (`game_properties.dfy`): lemmas about those functions. They cover each move
  on a live game, the guards, the invariant, the help rule and the re-finishing after the time
  limit.
- `Games` (`game.dfy`): the `Game` class, whose fields the moves update in place, and the
  `User` class, whose `balance` `FinishGame` credits. Each move (`FinishGame`, `TimeOut`,
  `AnswerCurrentQuestion`, `TakeMoney`, `UseHelp`) is proved to end in the state given by the
  matching `GameRules` function, with the invariant kept. The constructor and `AddQuestion`
  build a game step by step and are valid only once `CreateGameForUser` has attached one
  question per level. `AddHelpToCurrentQuestion` is the help step inside `UseHelp`; it matches
  `GameRules.AddHelp`, and the invariant is proved for the whole of `UseHelp`.

Inputs that the source takes from its environment are parameters of the model:

- The clock is an integer `now`, in seconds.
- The random question chosen for each level is the `chosen` sequence.
- The shuffle of `[1, 2, 3, 4]` for each level is the `shuffles` sequence. Each shuffle is
  required to be a permutation of `[1, 2, 3, 4]`.

`Question::QUESTION_LEVELS` is taken to be `0..14`, because the model test checks that the
questions of a new game have the levels `0..14`. The `Question` and `GameQuestion` sources are
not part of this model. The right answer is taken to be the bank question's option slot 1,
because the question test maps `a: 2, b: 1, c: 4, d: 3` and expects `b` to be correct.

Behaviours of the code that the model keeps as written:

- The checkpoints are levels 4, 9 and 14 (app/models/game.rb:4). Losing after clearing level 4
  therefore pays `PRIZES[4] = 1000`.
- `time_out!` has no finished-game check (app/models/game.rb:50-55), and it runs before the
  finished check of
  `answer_current_question!` and `take_money!`. So once the time is up, every further answer
  or cash-out finishes the game again, overwrites `finished_at`, and credits the checkpoint
  prize again (`RepeatedTimeoutCreditsAgain`). A won game touched after the time limit is
  credited the top prize a second time and becomes `Timeout` (`WonGameRefinishedAsTimeout`).
  Finishing is therefore not always a once-only credit, and `finished_at` can change after
  it is set.
- `use_help` has no finished-game check either (app/models/game.rb:95-118). On a game at level 15 there is no current
  question. There the used-flag is saved and adding the help then fails. The model returns
  `NoCurrentQuestion` for this case.

## Model

| member | source | states |
|---|---|---|
| Prizes.PrizeTableShape | app/models/game.rb:2-4 | 15 prizes, strictly increasing, the last one 1,000,000; checkpoints strictly increasing within levels 0..14 |
| Prizes.Select | app/models/game.rb:162 | the selection keeps exactly the checkpoints that are at most the bound |
| Prizes.SelectKeepsOrder | app/models/game.rb:162 | selecting from an increasing list gives an increasing list, so `.last` is the highest checkpoint selected |
| Prizes.FireProofPrize | app/models/game.rb:161-164 | the payout is 0 or a prize-table value; which one is stated by `FireProofPrizeBands` and `FireProofPrizeIsHighestCheckpoint` |
| Prizes.FireProofPrizeBands | app/models/game.rb:161-164 | the payout is 0 below level 4, 1000 for 4..8, 32000 for 9..13, 1,000,000 from 14 |
| Prizes.FireProofPrizeBelowFirstCheckpoint | app/models/game.rb:161-164 | with no checkpoint reached the payout is 0 |
| Prizes.FireProofPrizeIsHighestCheckpoint | app/models/game.rb:161-164 | otherwise the payout is the prize of the highest checkpoint at or below the level |
| Prizes.FireProofPrizeMonotone | app/models/game.rb:161-164 | the payout never decreases as the level rises |
| Prizes.FireProofPrizeInTable | app/models/game.rb:161-164 | the payout is 0 or a prize-table entry, at most 1,000,000 |
| Prizes.PrizeWithinBounds | app/models/game.rb:12-14 | every prize-table entry passes the prize validation (0..PRIZES.last) |
| GameQuestions.GameQuestion.CorrectAnswerKey | spec/models/game_question_spec.rb:4-36 | the key answers correctly, and it is the only letter that does |
| GameQuestions.GameQuestion.AnswerCorrect | spec/models/game_question_spec.rb:25-27 | a letter is right exactly when the slot it shows is the right answer's slot; `CorrectAnswerKey` proves exactly one letter is right |
| GameQuestions.SlotsAreBijection | app/models/game.rb:24-27 | in a valid game question every slot 1..4 sits under exactly one letter |
| GameQuestions.FromShuffle | app/models/game.rb:24-28 | pop order: `a`, `b`, `c`, `d` get the shuffled slots at positions 3, 2, 1, 0; the right answer is slot 1; no help is recorded |
| GameQuestions.ShuffleGivesValidQuestion | app/models/game.rb:24-28 | a permutation of [1,2,3,4] gives a valid letter-to-slot bijection |
| GameRules.State.GameStatus | app/models/game.rb:128-146 | in progress iff unfinished; failed: fail iff within the time limit, else timeout; not failed: won iff level above 14, else money |
| GameRules.State.PreviousLevel | app/models/game.rb:42-44 | the level of the last question answered, one below the current level; `WrongAnswerFails` and `TakeMoneyCashesOut` use it as `level - 1` |
| GameRules.State.Finished | app/models/game.rb:46-48 | a game is finished exactly when a finishing time is recorded; `GameStatus` is in progress iff it is not |
| GameRules.Detect | app/models/game.rb:38-40 | returns the first question with the level asked for, and none only when no question has it |
| GameRules.DetectProvisioned | app/models/game.rb:38-40 | in a provisioned game the current question of level l is the one at index l, and none exists outside 0..14 |
| GameRules.ProvisionIsProvisioned | app/models/game.rb:22-29 | one chosen question per level with shuffles gives 15 valid questions, the one at index i of level i |
| GameRules.Provision | app/models/game.rb:22-29 | one game question per chosen question, in order, for that question, with no help recorded |
| GameRules.NewGame | app/models/game.rb:20 | a new game is at level 0 with prize 0, unfinished, in progress, with no help used |
| GameRules.NewGameWellformed | app/models/game.rb:18-32 | a new game with provisioned questions satisfies the game invariant |
| GameRules.FinishGame | app/models/game.rb:150-159 | sets the prize, the finishing time and the failed flag, credits the amount to the balance, and changes nothing else |
| GameRules.TimeOut | app/models/game.rb:50-55 | reports a timeout iff more than 35 minutes have passed; then the game is finished as failed at the same level and the recorded prize is credited; otherwise it is unchanged (the payout itself: `AnswerAfterTimeLimit`, `TakeMoneyAfterTimeLimit`) |
| GameRules.AnswerCurrentQuestion | app/models/game.rb:71-88 | true iff the time is not up, the game is unfinished and the letter is right; then the level rises by 1; when false the game ends up finished at the same level |
| GameRules.AnswerLiveQuestion | app/models/game.rb:74-87 | the answer on a live game within the time; its branches (right, right on the last level, wrong) are stated by `CorrectAnswerAdvances` and `WrongAnswerFails` |
| GameRules.TakeMoney | app/models/game.rb:90-93 | a cash-out always leaves the game finished with level and questions kept; on a live game within the limit it is not failed and credits the recorded prize (also `TakeMoneyCashesOut`) |
| GameRules.AddHelp | app/models/game.rb:100 | adds the kind to the current question when there is one (`Used`), else `NoCurrentQuestion`; only the questions change, and their number stays |
| GameRules.UseHelp | app/models/game.rb:95-118 | refused iff the kind is unknown or already used, and then nothing changes; when granted its flag is set (also `UseHelpGrantsOnce`) |
| GameProperties.FinishWithFireProofPrizeWellformed | app/models/game.rb:52 | finishing with the checkpoint payout keeps the invariant |
| GameProperties.TimeOutKeeps | app/models/game.rb:50-55 | the check reports a timeout iff more than 35 minutes have passed; otherwise nothing changes; the invariant is kept |
| GameProperties.AnswerAfterTimeLimit | app/models/game.rb:72 | after the limit an answer finishes the game failed with the checkpoint payout, credits it, returns false, and status is timeout, even on a finished game |
| GameProperties.TakeMoneyAfterTimeLimit | app/models/game.rb:91 | after the limit a cash-out finishes the game failed with the checkpoint payout, credits it, and status is timeout |
| GameProperties.FinishedGameIgnoresMoves | app/models/game.rb:72 | within the limit, a finished game is unchanged by an answer (which returns false) or a cash-out |
| GameProperties.CorrectAnswerAdvances | app/models/game.rb:74-83 | a right answer raises the level by exactly 1 and returns true; below 14 nothing else changes and status stays in progress; at 14 the game is won with 1,000,000 credited |
| GameProperties.CorrectKeyAdvances | spec/models/game_spec.rb:28-38 | answering with the correct key moves to the next level |
| GameProperties.WrongAnswerFails | app/models/game.rb:84-87 | a wrong answer finishes failed with the checkpoint payout of the last cleared level, credits it, keeps the level, returns false, status fail |
| GameProperties.WrongAnswerPayout | app/models/game.rb:85 | a wrong answer at levels 0..4 pays 0; from level 5 it pays at least 1000 |
| GameProperties.TakeMoneyCashesOut | app/models/game.rb:90-93 | cashing out finishes not failed with PRIZES[level-1] (0 at level 0), credits it, status money; at level 2 the prize is 200 |
| GameProperties.AnswerKeeps | app/models/game.rb:71-88 | an answer keeps the invariant, never lowers the level, keeps a finished game finished, and credits exactly the recorded prize when it finishes |
| GameProperties.TakeMoneyKeeps | app/models/game.rb:90-93 | a cash-out keeps the invariant, the level and the questions, and credits exactly the recorded prize when it finishes |
| GameProperties.FinishedPrizeFromTable | app/models/game.rb:12-14 | every finished well-formed game recorded 0 or a prize-table value, at most 1,000,000 |
| GameProperties.UseHelpGrantsOnce | app/models/game.rb:95-118 | a known kind is granted iff its flag was false: that flag is set and the kind added to the current question; otherwise nothing changes; other flags and all game fields stay |
| GameProperties.UseHelpKeeps | app/models/game.rb:95-118 | a help request keeps the invariant |
| GameProperties.SecondHelpRefused | app/models/game.rb:95-118 | asking again for the same kind returns false and changes nothing |
| GameProperties.RepeatedTimeoutCreditsAgain | app/models/game.rb:50-55 | after the limit, a cash-out and then an answer each finish the game, so the checkpoint payout is credited twice |
| GameProperties.WonGameRefinishedAsTimeout | app/models/game.rb:50-55 | touching a won game after the limit credits 1,000,000 again and turns its status into timeout |
| Games.Game.constructor | app/models/game.rb:20 | a new game record of the user: level 0, prize 0, unfinished, no help used, no questions yet |
| Games.Game.AddQuestion | app/models/game.rb:25-28 | appends one game question and changes nothing else |
| Games.Game.CreateGameForUser | app/models/game.rb:18-32 | the new game holds one dealt question per level 0..14, is well formed and in progress |
| Games.Game.FinishGame | app/models/game.rb:150-159 | the fields and the user's balance become GameRules.FinishGame of the old state |
| Games.Game.TimeOut | app/models/game.rb:50-55 | state and result are GameRules.TimeOut of the old state; the invariant is kept |
| Games.Game.AnswerCurrentQuestion | app/models/game.rb:71-88 | state and result are GameRules.AnswerCurrentQuestion of the old state; the invariant is kept |
| Games.Game.AnswerLiveQuestion | app/models/game.rb:74-87 | on a live game, state and result are GameRules.AnswerLiveQuestion of the old state |
| Games.Game.TakeMoney | app/models/game.rb:90-93 | the state is GameRules.TakeMoney of the old state; the invariant is kept |
| Games.Game.AddHelpToCurrentQuestion | app/models/game.rb:100 | the help kind is added to the question whose level is the current one, if there is one |
| Games.Game.UseHelp | app/models/game.rb:95-118 | state and outcome are GameRules.UseHelp of the old state; the invariant is kept |
| Games.PlayOneLevelAndCashOut | spec/models/game_spec.rb:40-51 | one right answer then a cash-out pays 100 to the user and ends as money |

## Left out

- Persistence: ActiveRecord saving, validations as a failure path, `toggle!`, and transactions. Each method is one atomic state update. The rollback on a failed save is not modelled.
- Games.Game.FinishGame: requires a prize-table amount or 0, which every caller passes. The source only validates 0..1,000,000; a refused save is not modelled.
- Games.Game.CreateGameForUser: requires one question per level. The source aborts the transaction when the bank has no question for a level; that failure is not modelled.
- Randomness: `order('RANDOM()')` and `shuffle` are replaced by the `chosen` and `shuffles` parameters.
- Wall clock: `Time.now` is the integer parameter `now`, and `35.minutes` is 2100 seconds. Fractional seconds are not modelled.
- Help payloads: `add_fifty_fifty`, `add_audience_help` and `add_friend_call` are random or generate text, and their source is not part of this model. A game question only records which help kinds were added. The payload shapes (two letters including the right one; audience votes keyed a..d) are not stated.
- Letters: an answer is one of the letters a..d. `answer_correct?` for other strings is not modelled, since the GameQuestion source is not part of this model.
- `previous_game_question` (app/models/game.rb:34-36) and the `in_progress` scope (app/models/game.rb:16): the engine's moves do not use them.
- Integer widths: levels, prizes and balances are unbounded integers. Database column limits are not modelled.
- Controllers, views, factories, authentication, and the one-unfinished-game-per-user check: these are outside the engine.
- Storing and reloading a question's help hash from the database.
