/**
 * What the rules of module GameRules guarantee: the effect of each move on a
 * live game, the guards that run before every move, the invariant every move
 * keeps, the once-per-game help rule, and the re-finishing of a game whose
 * time is up.
 */
module GameProperties {
  import opened Prizes
  import opened GameQuestions
  import opened GameRules

  /**
   * A step that either finished the game at `now`, crediting exactly the prize
   * it recorded, or left the prize, the finishing time and the balance alone.
   */
  predicate CreditsOnlyOnFinish(s: State, t: State, now: int) {
    (t.finishedAt == Some(now) && t.balance == s.balance + t.prize) ||
    (t.finishedAt == s.finishedAt && t.prize == s.prize && t.balance == s.balance)
  }

  /** What every move keeps: the invariant, a level that never goes down, a game that stays finished. */
  predicate StepKeeps(s: State, t: State, now: int) {
    Wellformed(t) &&
    t.createdAt == s.createdAt && t.questions == s.questions &&
    s.currentLevel <= t.currentLevel && (s.Finished() ==> t.Finished()) &&
    CreditsOnlyOnFinish(s, t, now)
  }

  /** The checkpoint payout of any level is a prize a game may record. */
  lemma FinishWithFireProofPrizeWellformed(s: State, now: int)
    requires Wellformed(s)
    ensures Wellformed(FinishGame(s, FireProofPrize(s.PreviousLevel()), true, now))
  {
    FireProofPrizeInTable(s.PreviousLevel());
  }

  // ---------------------------------------------------------------------------
  // The guard that runs first in every move

  lemma TimeOutKeeps(s: State, now: int)
    requires Wellformed(s)
    ensures StepKeeps(s, TimeOut(s, now).0, now)
    ensures TimeOut(s, now).1 <==> TimeIsUp(s, now)
    ensures !TimeIsUp(s, now) ==> TimeOut(s, now).0 == s
  {
    if TimeIsUp(s, now) {
      FinishWithFireProofPrizeWellformed(s, now);
    }
  }

  /**
   * Once the time is up, answering finishes the game as lost with the
   * checkpoint prize of the last level cleared, credits that prize and
   * returns false, even if the game was already finished.
   */
  lemma AnswerAfterTimeLimit(s: State, letter: Letter, now: int)
    requires Wellformed(s) && TimeIsUp(s, now)
    ensures var (t, correct) := AnswerCurrentQuestion(s, letter, now);
      !correct && t == FinishGame(s, FireProofPrize(s.PreviousLevel()), true, now) &&
      t.isFailed && t.prize == FireProofPrize(s.PreviousLevel()) &&
      t.balance == s.balance + FireProofPrize(s.PreviousLevel()) &&
      t.currentLevel == s.currentLevel && t.GameStatus() == Timeout
  {
  }

  /** Once the time is up, cashing out does the same as a timeout. */
  lemma TakeMoneyAfterTimeLimit(s: State, now: int)
    requires Wellformed(s) && TimeIsUp(s, now)
    ensures var t := TakeMoney(s, now);
      t == FinishGame(s, FireProofPrize(s.PreviousLevel()), true, now) &&
      t.balance == s.balance + FireProofPrize(s.PreviousLevel()) && t.GameStatus() == Timeout
  {
  }

  /** Within the time limit, a finished game ignores answers and cash-outs. */
  lemma FinishedGameIgnoresMoves(s: State, letter: Letter, now: int)
    requires Wellformed(s) && s.Finished() && !TimeIsUp(s, now)
    ensures AnswerCurrentQuestion(s, letter, now) == (s, false)
    ensures TakeMoney(s, now) == s
  {
  }

  // ---------------------------------------------------------------------------
  // Moves on a live game within the time limit

  /**
   * A right answer raises the level by exactly one and returns true.  Below
   * the last level nothing else changes and the game goes on; on the last
   * level the game is won with the top prize, which is credited.
   */
  lemma CorrectAnswerAdvances(s: State, letter: Letter, now: int)
    requires Wellformed(s) && !s.Finished() && !TimeIsUp(s, now)
    requires s.questions[s.currentLevel].AnswerCorrect(letter)
    ensures var (t, correct) := AnswerCurrentQuestion(s, letter, now);
      correct && t.currentLevel == s.currentLevel + 1 &&
      (s.currentLevel < MAX_LEVEL ==>
         t == s.(currentLevel := s.currentLevel + 1) && !t.Finished() && t.GameStatus() == InProgress) &&
      (s.currentLevel == MAX_LEVEL ==>
         t == FinishGame(s.(currentLevel := MAX_LEVEL + 1), TOP_PRIZE, false, now) &&
         t.prize == 1_000_000 && !t.isFailed && t.balance == s.balance + 1_000_000 &&
         t.GameStatus() == Won)
  {
    DetectProvisioned(s.questions, s.currentLevel);
  }

  /** Answering with the key of the right answer is a right answer. */
  lemma CorrectKeyAdvances(s: State, now: int)
    requires Wellformed(s) && !s.Finished() && !TimeIsUp(s, now)
    ensures s.questions[s.currentLevel].Valid()
    ensures var (t, correct) := AnswerCurrentQuestion(s, s.questions[s.currentLevel].CorrectAnswerKey(), now);
      correct && t.currentLevel == s.currentLevel + 1
  {
    CorrectAnswerAdvances(s, s.questions[s.currentLevel].CorrectAnswerKey(), now);
  }

  /**
   * A wrong answer ends the game as failed with the checkpoint prize of the
   * last level cleared, credits that prize, keeps the level and returns false.
   */
  lemma WrongAnswerFails(s: State, letter: Letter, now: int)
    requires Wellformed(s) && !s.Finished() && !TimeIsUp(s, now)
    requires !s.questions[s.currentLevel].AnswerCorrect(letter)
    ensures var (t, correct) := AnswerCurrentQuestion(s, letter, now);
      !correct && t == FinishGame(s, FireProofPrize(s.currentLevel - 1), true, now) &&
      t.isFailed && t.prize == FireProofPrize(s.currentLevel - 1) &&
      t.currentLevel == s.currentLevel && t.balance == s.balance + t.prize &&
      t.GameStatus() == Fail
  {
    DetectProvisioned(s.questions, s.currentLevel);
  }

  /** A wrong answer before the first checkpoint pays nothing; from level 5 on it pays at least 1000. */
  lemma WrongAnswerPayout(s: State, letter: Letter, now: int)
    requires Wellformed(s) && !s.Finished() && !TimeIsUp(s, now)
    requires !s.questions[s.currentLevel].AnswerCorrect(letter)
    ensures s.currentLevel <= 4 ==> AnswerCurrentQuestion(s, letter, now).0.prize == 0
    ensures s.currentLevel >= 5 ==> AnswerCurrentQuestion(s, letter, now).0.prize >= 1_000
  {
    WrongAnswerFails(s, letter, now);
    FireProofPrizeBands(s.currentLevel - 1);
  }

  /**
   * Cashing out ends the game as not failed with the prize of the last level
   * cleared (0 before any), credits it, and leaves the status `Money`.
   */
  lemma TakeMoneyCashesOut(s: State, now: int)
    requires Wellformed(s) && !s.Finished() && !TimeIsUp(s, now)
    ensures var t := TakeMoney(s, now);
      var amount := if s.currentLevel == 0 then 0 else PRIZES[s.currentLevel - 1];
      t == FinishGame(s, amount, false, now) && !t.isFailed && t.prize == amount &&
      t.balance == s.balance + amount && t.currentLevel == s.currentLevel &&
      t.GameStatus() == Money
    ensures s.currentLevel == 2 ==> TakeMoney(s, now).prize == 200
  {
  }

  // ---------------------------------------------------------------------------
  // The invariant every move keeps

  lemma AnswerKeeps(s: State, letter: Letter, now: int)
    requires Wellformed(s)
    ensures StepKeeps(s, AnswerCurrentQuestion(s, letter, now).0, now)
  {
    TimeOutKeeps(s, now);
    if !TimeIsUp(s, now) && !s.Finished() {
      DetectProvisioned(s.questions, s.currentLevel);
      if s.questions[s.currentLevel].AnswerCorrect(letter) {
        PrizeWithinBounds(MAX_LEVEL);
      } else {
        FinishWithFireProofPrizeWellformed(s, now);
      }
    }
  }

  lemma TakeMoneyKeeps(s: State, now: int)
    requires Wellformed(s)
    ensures StepKeeps(s, TakeMoney(s, now), now)
    ensures TakeMoney(s, now).currentLevel == s.currentLevel
  {
    TimeOutKeeps(s, now);
    if !TimeIsUp(s, now) && !s.Finished() && s.currentLevel > 0 {
      PrizeWithinBounds(s.currentLevel - 1);
    }
  }

  /** Every finished game recorded a prize of 0 or from the prize table, at most the top prize. */
  lemma FinishedPrizeFromTable(s: State)
    requires Wellformed(s) && s.Finished()
    ensures s.prize == 0 || s.prize in PRIZES
    ensures 0 <= s.prize <= 1_000_000
  {
  }

  // ---------------------------------------------------------------------------
  // Help requests

  /** Two games that differ at most in the help flags and the help recorded on the question at `level`. */
  predicate SameExceptHelp(s: State, t: State, level: int) {
    t.currentLevel == s.currentLevel && t.prize == s.prize && t.createdAt == s.createdAt &&
    t.finishedAt == s.finishedAt && t.isFailed == s.isFailed && t.balance == s.balance &&
    |t.questions| == |s.questions| &&
    forall i :: 0 <= i < |s.questions| && i != level ==> t.questions[i] == s.questions[i]
  }

  /**
   * A known help kind is granted exactly when it has not been used before:
   * its flag is set and the kind is added to the current question (when the
   * game still has one).  Otherwise nothing changes.  Other flags never change.
   */
  lemma UseHelpGrantsOnce(s: State, help: HelpType)
    requires Wellformed(s)
    ensures var (t, outcome) := UseHelp(s, help);
      (outcome != NotUsed <==> !help.Other? && !HelpUsed(s, help)) &&
      (outcome == NotUsed ==> t == s) &&
      (outcome != NotUsed ==> HelpUsed(t, help)) &&
      (forall k :: k != help ==> HelpUsed(t, k) == HelpUsed(s, k)) &&
      (outcome == Used <==> outcome != NotUsed && s.currentLevel <= MAX_LEVEL) &&
      (outcome == NoCurrentQuestion ==> t.questions == s.questions) &&
      SameExceptHelp(s, t, s.currentLevel) &&
      (outcome == Used ==>
         t.questions[s.currentLevel] ==
           s.questions[s.currentLevel].(help := s.questions[s.currentLevel].help + {help}))
  {
    DetectProvisioned(s.questions, s.currentLevel);
  }

  /** A help request keeps the invariant. */
  lemma UseHelpKeeps(s: State, help: HelpType)
    requires Wellformed(s)
    ensures Wellformed(UseHelp(s, help).0)
  {
    DetectProvisioned(s.questions, s.currentLevel);
    var t := UseHelp(s, help).0;
    forall i | 0 <= i < |t.questions|
      ensures t.questions[i].Level() == i && t.questions[i].Valid()
    {
      assert t.questions[i].question == s.questions[i].question;
    }
  }

  /** Asking twice for the same kind: the second request is refused and changes nothing. */
  lemma SecondHelpRefused(s: State, help: HelpType)
    requires Wellformed(s)
    ensures var t := UseHelp(s, help).0;
      UseHelp(t, help) == (t, NotUsed)
  {
    UseHelpGrantsOnce(s, help);
    UseHelpKeeps(s, help);
    var t := UseHelp(s, help).0;
    UseHelpGrantsOnce(t, help);
  }

  // ---------------------------------------------------------------------------
  // Re-finishing after the time limit

  /**
   * The timeout guard has no finished-game check, so once the time is up each
   * further move finishes the game again and credits the checkpoint prize
   * again: a cash-out followed by an answer credits it twice.
   */
  lemma RepeatedTimeoutCreditsAgain(s: State, letter: Letter, now1: int, now2: int)
    requires Wellformed(s) && TimeIsUp(s, now1) && now1 <= now2
    ensures var s1 := TakeMoney(s, now1);
      Wellformed(s1) && s1.Finished() &&
      var (s2, correct) := AnswerCurrentQuestion(s1, letter, now2);
      !correct && s2.finishedAt == Some(now2) &&
      s2.balance == s.balance + 2 * FireProofPrize(s.PreviousLevel())
  {
    var s1 := TakeMoney(s, now1);
    TakeMoneyAfterTimeLimit(s, now1);
    FinishWithFireProofPrizeWellformed(s, now1);
    assert s1.PreviousLevel() == s.PreviousLevel() && TimeIsUp(s1, now2);
    AnswerAfterTimeLimit(s1, letter, now2);
  }

  /**
   * A won game that is touched again after the time limit is finished once
   * more as a timeout: the top prize is credited a second time and its
   * status turns from `Won` to `Timeout`.
   */
  lemma WonGameRefinishedAsTimeout(s: State, letter: Letter, now: int)
    requires Wellformed(s) && s.GameStatus() == Won && TimeIsUp(s, now)
    ensures var (t, correct) := AnswerCurrentQuestion(s, letter, now);
      !correct && t.balance == s.balance + 1_000_000 && t.prize == 1_000_000 &&
      t.GameStatus() == Timeout
  {
    AnswerAfterTimeLimit(s, letter, now);
    FireProofPrizeBands(s.PreviousLevel());
  }
}
