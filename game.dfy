/**
 * A game as an object whose fields the moves update in place, and the user
 * whose balance the game credits when it finishes.  Each move (finishing,
 * the timeout check, answering, cashing out, asking for help) is proved to
 * leave the game in the state the matching function of module GameRules
 * gives, so every property of module GameProperties holds of these objects.
 */
module Games {
  import opened Prizes
  import opened GameQuestions
  import opened GameRules
  import GameProperties

  class User {
    var balance: int

    constructor (balance: int)
      ensures this.balance == balance
    {
      this.balance := balance;
    }
  }

  class Game {
    const user: User
    const createdAt: int
    var questions: seq<GameQuestion>
    var currentLevel: int
    var prize: int
    var finishedAt: Option<int>
    var isFailed: bool
    var fiftyFiftyUsed: bool
    var audienceHelpUsed: bool
    var friendCallUsed: bool

    /** The value of this game, with its user's balance. */
    function Snapshot(): State
      reads this, user
    {
      State(questions, currentLevel, prize, createdAt, finishedAt, isFailed,
            fiftyFiftyUsed, audienceHelpUsed, friendCallUsed, user.balance)
    }

    ghost predicate Valid()
      reads this, user
    {
      Wellformed(Snapshot())
    }

    /**
     * A new game record of `user` created at `now`, before its questions are
     * added.  It has no questions yet, so it satisfies `Valid()` only once
     * `CreateGameForUser` has attached one question per level.
     */
    constructor (user: User, now: int)
      ensures this.user == user && createdAt == now && questions == []
      ensures currentLevel == 0 && prize == 0 && finishedAt == None && !isFailed
      ensures !fiftyFiftyUsed && !audienceHelpUsed && !friendCallUsed
    {
      this.user := user;
      createdAt := now;
      questions := [];
      currentLevel, prize, finishedAt, isFailed := 0, 0, None, false;
      fiftyFiftyUsed, audienceHelpUsed, friendCallUsed := false, false, false;
    }

    /** Attaches one more question to the game. */
    method AddQuestion(q: GameQuestion)
      modifies this
      ensures questions == old(questions) + [q]
      ensures currentLevel == old(currentLevel) && prize == old(prize) && finishedAt == old(finishedAt)
      ensures isFailed == old(isFailed) && fiftyFiftyUsed == old(fiftyFiftyUsed)
      ensures audienceHelpUsed == old(audienceHelpUsed) && friendCallUsed == old(friendCallUsed)
    {
      questions := questions + [q];
    }

    /**
     * Creates a game for `user` at `now` and attaches to it, level by level,
     * the chosen question of that level with its letters dealt from the
     * shuffle of that level.
     */
    static method CreateGameForUser(user: User, chosen: seq<Question>, shuffles: seq<seq<int>>, now: int)
      returns (game: Game)
      requires |chosen| == MAX_LEVEL + 1 && forall i :: 0 <= i < |chosen| ==> chosen[i].level == i
      requires |shuffles| == |chosen| && forall i :: 0 <= i < |shuffles| ==> IsShuffle(shuffles[i])
      ensures fresh(game) && game.user == user && game.Valid()
      ensures game.Snapshot() == NewGame(Provision(chosen, shuffles), now, user.balance)
      ensures game.Snapshot().GameStatus() == InProgress
    {
      game := new Game(user, now);
      var level := 0;
      while level <= MAX_LEVEL
        invariant 0 <= level <= MAX_LEVEL + 1
        invariant game.questions == Provision(chosen[..level], shuffles[..level])
        invariant game.Snapshot() == NewGame(game.questions, now, user.balance)
      {
        game.AddQuestion(FromShuffle(chosen[level], shuffles[level]));
        level := level + 1;
        assert game.questions == Provision(chosen[..level], shuffles[..level]);
      }
      assert chosen[..level] == chosen && shuffles[..level] == shuffles;
      ProvisionIsProvisioned(chosen, shuffles);
      NewGameWellformed(game.questions, now, user.balance);
    }

    /**
     * Ends the game with `amount` (as lost when `failed`) at `now` and credits
     * `amount` to the user.  The amount is required to be 0 or a prize-table
     * entry, which every caller passes; saving the game itself only checks
     * that the prize lies in 0..TOP_PRIZE.
     */
    method FinishGame(amount: int, failed: bool, now: int)
      requires QuestionsProvisioned(questions) && 0 <= currentLevel <= MAX_LEVEL + 1
      requires FromPrizeTable(amount) && 0 <= amount <= TOP_PRIZE
      modifies this, user
      ensures Valid()
      ensures Snapshot() == GameRules.FinishGame(old(Snapshot()), amount, failed, now)
    {
      prize := amount;
      finishedAt := Some(now);
      isFailed := failed;
      user.balance := user.balance + amount;
    }

    /** The timeout check: true, after finishing the game as lost, when the time is up. */
    method TimeOut(now: int) returns (timedOut: bool)
      requires Valid()
      modifies this, user
      ensures Valid()
      ensures (Snapshot(), timedOut) == GameRules.TimeOut(old(Snapshot()), now)
    {
      ghost var s := Snapshot();
      timedOut := false;
      if now - createdAt > TIME_LIMIT {
        FireProofPrizeInTable(currentLevel - 1);
        FinishGame(FireProofPrize(currentLevel - 1), true, now);
        timedOut := true;
        assert GameRules.TimeOut(s, now) == (GameRules.FinishGame(s, FireProofPrize(s.PreviousLevel()), true, now), true);
      }
    }

    /** Answers the current question with `letter`; true when the answer was right. */
    method AnswerCurrentQuestion(letter: Letter, now: int) returns (correct: bool)
      requires Valid()
      modifies this, user
      ensures Valid()
      ensures (Snapshot(), correct) == GameRules.AnswerCurrentQuestion(old(Snapshot()), letter, now)
    {
      var timedOut := TimeOut(now);
      if timedOut || finishedAt.Some? {
        return false;
      }
      correct := AnswerLiveQuestion(letter, now);
    }

    /** The part of an answer that runs once the game is known to be live. */
    method AnswerLiveQuestion(letter: Letter, now: int) returns (correct: bool)
      requires Valid() && finishedAt.None?
      modifies this, user
      ensures Valid()
      ensures (Snapshot(), correct) == GameRules.AnswerLiveQuestion(old(Snapshot()), letter, now)
    {
      DetectProvisioned(questions, currentLevel);
      var q := questions[Detect(questions, currentLevel).value];
      if q.AnswerCorrect(letter) {
        if currentLevel == MAX_LEVEL {
          currentLevel := currentLevel + 1;
          PrizeWithinBounds(MAX_LEVEL);
          FinishGame(PRIZES[MAX_LEVEL], false, now);
        } else {
          currentLevel := currentLevel + 1;
        }
        correct := true;
      } else {
        FireProofPrizeInTable(currentLevel - 1);
        FinishGame(FireProofPrize(currentLevel - 1), true, now);
        correct := false;
      }
    }

    /** Cashes out the prize of the last level cleared. */
    method TakeMoney(now: int)
      requires Valid()
      modifies this, user
      ensures Valid()
      ensures Snapshot() == GameRules.TakeMoney(old(Snapshot()), now)
    {
      var timedOut := TimeOut(now);
      if timedOut || finishedAt.Some? {
        return;
      }
      if currentLevel - 1 > -1 {
        PrizeWithinBounds(currentLevel - 1);
        FinishGame(PRIZES[currentLevel - 1], false, now);
      } else {
        FinishGame(0, false, now);
      }
    }

    /** Adds help kind `help` to the question of the current level, if there is one. */
    method AddHelpToCurrentQuestion(help: HelpType) returns (outcome: HelpOutcome)
      requires QuestionsProvisioned(questions)
      modifies this
      ensures (Snapshot(), outcome) == GameRules.AddHelp(old(Snapshot()), help)
    {
      var i := Detect(questions, currentLevel);
      if i.None? {
        return NoCurrentQuestion;
      }
      var q := questions[i.value];
      questions := questions[i.value := q.(help := q.help + {help})];
      outcome := Used;
    }

    /** Grants help kind `help` once per game; any other name is refused. */
    method UseHelp(help: HelpType) returns (outcome: HelpOutcome)
      requires Valid()
      modifies this
      ensures Valid()
      ensures (Snapshot(), outcome) == GameRules.UseHelp(old(Snapshot()), help)
    {
      GameProperties.UseHelpKeeps(Snapshot(), help);
      match help {
        case FiftyFifty =>
          if !fiftyFiftyUsed {
            fiftyFiftyUsed := true;
            outcome := AddHelpToCurrentQuestion(FiftyFifty);
            return;
          }
        case AudienceHelp =>
          if !audienceHelpUsed {
            audienceHelpUsed := true;
            outcome := AddHelpToCurrentQuestion(AudienceHelp);
            return;
          }
        case FriendCall =>
          if !friendCallUsed {
            friendCallUsed := true;
            outcome := AddHelpToCurrentQuestion(FriendCall);
            return;
          }
        case Other(_) =>
      }
      outcome := NotUsed;
    }
  }

  /**
   * A game played by a client: one right answer, then a cash-out within the
   * time limit, pays the prize of level 0 to the user and ends as `Money`.
   */
  method PlayOneLevelAndCashOut(user: User, chosen: seq<Question>, shuffles: seq<seq<int>>, now: int)
    returns (game: Game)
    requires |chosen| == MAX_LEVEL + 1 && forall i :: 0 <= i < |chosen| ==> chosen[i].level == i
    requires |shuffles| == |chosen| && forall i :: 0 <= i < |shuffles| ==> IsShuffle(shuffles[i])
    modifies user
    ensures game.user == user && user.balance == old(user.balance) + 100
    ensures game.prize == 100 && game.Snapshot().GameStatus() == Money
  {
    game := Game.CreateGameForUser(user, chosen, shuffles, now);
    var key := game.questions[0].CorrectAnswerKey();
    GameProperties.CorrectAnswerAdvances(game.Snapshot(), key, now);
    var correct := game.AnswerCurrentQuestion(key, now);
    assert correct && game.currentLevel == 1;
    GameProperties.TakeMoneyCashesOut(game.Snapshot(), now);
    game.TakeMoney(now);
  }
}
