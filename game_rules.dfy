/**
 * The rules of a game as functions on its value: how an answer, a cash-out,
 * a timeout and a help request change a game, how a game is finished and how
 * a finished game is classified.  The `Game` class in module Games carries
 * out the same steps on its fields and is proved to agree with these.
 */
module GameRules {
  import opened Prizes
  import opened GameQuestions

  datatype Option<T> = None | Some(value: T)

  /** The outcome of a game as its owner sees it. */
  datatype Status = InProgress | Fail | Timeout | Won | Money

  /**
   * The result of a help request: the help was added, it was refused, or the
   * used-flag was saved but there was no current question to add it to (a
   * game whose fifteen questions have all been answered).
   */
  datatype HelpOutcome = Used | NotUsed | NoCurrentQuestion

  /** The value of a game, including the balance of the user who owns it. */
  datatype State = State(
    questions: seq<GameQuestion>,
    currentLevel: int,
    prize: int,
    createdAt: int,
    finishedAt: Option<int>,
    isFailed: bool,
    fiftyFiftyUsed: bool,
    audienceHelpUsed: bool,
    friendCallUsed: bool,
    balance: int)
  {
    function PreviousLevel(): int { currentLevel - 1 }

    predicate Finished() { finishedAt.Some? }

    /** The outcome, recomputed from the flags and the times on every call. */
    function GameStatus(): (r: Status)
      ensures r == InProgress <==> !Finished()
      ensures Finished() && isFailed ==>
                (r == Fail <==> finishedAt.value - createdAt <= TIME_LIMIT) &&
                (r == Timeout <==> finishedAt.value - createdAt > TIME_LIMIT)
      ensures Finished() && !isFailed ==>
                (r == Won <==> currentLevel > MAX_LEVEL) && (r == Money <==> currentLevel <= MAX_LEVEL)
    {
      if !Finished() then InProgress
      else if isFailed then
        if finishedAt.value - createdAt <= TIME_LIMIT then Fail else Timeout
      else if currentLevel > MAX_LEVEL then Won
      else Money
    }
  }

  /** The index of the first question in `qs` that has level `level`, if there is one. */
  function Detect(qs: seq<GameQuestion>, level: int): (r: Option<nat>)
    ensures r.Some? ==> r.value < |qs| && qs[r.value].Level() == level
    ensures r.Some? ==> forall j :: 0 <= j < r.value ==> qs[j].Level() != level
    ensures r.None? <==> forall j :: 0 <= j < |qs| ==> qs[j].Level() != level
  {
    if qs == [] then None
    else if qs[0].Level() == level then Some(0)
    else match Detect(qs[1..], level)
      case None => None
      case Some(i) => Some(i + 1)
  }

  /** Fifteen valid questions, the one at index i having level i. */
  predicate QuestionsProvisioned(qs: seq<GameQuestion>) {
    |qs| == MAX_LEVEL + 1 && forall i :: 0 <= i < |qs| ==> qs[i].Level() == i && qs[i].Valid()
  }

  /**
   * The invariant of every game: its questions are provisioned, its level is
   * between 0 and 15 and below 15 while it is unfinished, and its prize is 0
   * or an entry of the prize table.
   */
  predicate Wellformed(s: State) {
    QuestionsProvisioned(s.questions) &&
    0 <= s.currentLevel <= MAX_LEVEL + 1 &&
    (!s.Finished() ==> s.currentLevel <= MAX_LEVEL) &&
    FromPrizeTable(s.prize) && 0 <= s.prize <= TOP_PRIZE
  }

  /** In a provisioned game the question of level l is the one at index l. */
  lemma DetectProvisioned(qs: seq<GameQuestion>, level: int)
    requires QuestionsProvisioned(qs)
    ensures 0 <= level <= MAX_LEVEL ==> Detect(qs, level) == Some(level)
    ensures (level < 0 || level > MAX_LEVEL) ==> Detect(qs, level) == None
  {
    var r := Detect(qs, level);
    if 0 <= level <= MAX_LEVEL {
      assert qs[level].Level() == level;
      if r.Some? {
        assert qs[r.value].Level() == r.value;
      }
    }
  }

  /** The questions of a new game: one per level, from the chosen question and its shuffle. */
  function Provision(chosen: seq<Question>, shuffles: seq<seq<int>>): (qs: seq<GameQuestion>)
    requires |chosen| == |shuffles| && forall i :: 0 <= i < |shuffles| ==> IsShuffle(shuffles[i])
    ensures |qs| == |chosen|
    ensures forall i :: 0 <= i < |qs| ==> qs[i].question == chosen[i] && qs[i].help == {}
  {
    seq(|chosen|, i requires 0 <= i < |chosen| => FromShuffle(chosen[i], shuffles[i]))
  }

  /** Questions chosen one per level 0..14, dealt with shuffles, give a provisioned game. */
  lemma ProvisionIsProvisioned(chosen: seq<Question>, shuffles: seq<seq<int>>)
    requires |chosen| == MAX_LEVEL + 1 && forall i :: 0 <= i < |chosen| ==> chosen[i].level == i
    requires |shuffles| == |chosen| && forall i :: 0 <= i < |shuffles| ==> IsShuffle(shuffles[i])
    ensures QuestionsProvisioned(Provision(chosen, shuffles))
  {
    var qs := Provision(chosen, shuffles);
    forall i | 0 <= i < |qs|
      ensures qs[i].Level() == i && qs[i].Valid()
    {
      ShuffleGivesValidQuestion(chosen[i], shuffles[i]);
    }
  }

  /** A new game of a user at time `now`: level 0, prize 0, unfinished, no help used. */
  function NewGame(questions: seq<GameQuestion>, now: int, balance: int): (s: State)
    ensures !s.Finished() && s.GameStatus() == InProgress
    ensures s.currentLevel == 0 && s.prize == 0 && s.createdAt == now && s.balance == balance
    ensures !s.fiftyFiftyUsed && !s.audienceHelpUsed && !s.friendCallUsed
  {
    State(questions, 0, 0, now, None, false, false, false, false, balance)
  }

  lemma NewGameWellformed(qs: seq<GameQuestion>, now: int, balance: int)
    requires QuestionsProvisioned(qs)
    ensures Wellformed(NewGame(qs, now, balance))
  {
    assert FromPrizeTable(0);
  }

  /**
   * The one way a game ends: it records the prize, the time and whether the
   * game was lost, and credits the prize to the user.  Nothing else changes.
   */
  function FinishGame(s: State, amount: int, failed: bool, now: int): (r: State)
    ensures r.prize == amount && r.finishedAt == Some(now) && r.isFailed == failed
    ensures r.balance == s.balance + amount
    ensures r.questions == s.questions && r.currentLevel == s.currentLevel && r.createdAt == s.createdAt
    ensures r.fiftyFiftyUsed == s.fiftyFiftyUsed && r.audienceHelpUsed == s.audienceHelpUsed
    ensures r.friendCallUsed == s.friendCallUsed
  {
    s.(prize := amount, finishedAt := Some(now), isFailed := failed, balance := s.balance + amount)
  }

  /** More than the time limit has passed since the game was created. */
  predicate TimeIsUp(s: State, now: int) {
    now - s.createdAt > TIME_LIMIT
  }

  /**
   * The lazy timeout check: once the time is up the game is finished as lost
   * with the checkpoint prize, whether or not it was finished before.
   */
  function TimeOut(s: State, now: int): (r: (State, bool))
    ensures r.1 <==> TimeIsUp(s, now)
    ensures !r.1 ==> r.0 == s
    ensures r.1 ==> r.0.Finished() && r.0.isFailed && r.0.balance == s.balance + r.0.prize &&
                    r.0.currentLevel == s.currentLevel
  {
    if TimeIsUp(s, now) then (FinishGame(s, FireProofPrize(s.PreviousLevel()), true, now), true)
    else (s, false)
  }

  /** Answering the current question with `letter`; the boolean says whether the answer was right. */
  function AnswerCurrentQuestion(s: State, letter: Letter, now: int): (r: (State, bool))
    requires Wellformed(s)
    ensures r.1 <==> !TimeIsUp(s, now) && !s.Finished() && s.questions[s.currentLevel].AnswerCorrect(letter)
    ensures r.1 ==> r.0.currentLevel == s.currentLevel + 1
    ensures !r.1 ==> r.0.Finished() && r.0.currentLevel == s.currentLevel
  {
    var checked := TimeOut(s, now);
    var t := checked.0;
    if checked.1 || t.Finished() then (t, false)
    else AnswerLiveQuestion(t, letter, now)
  }

  /**
   * The rest of an answer, on a game that is still live within its time: a
   * right answer moves to the next level (winning the top prize on the last
   * one), a wrong answer ends the game with the checkpoint prize.
   */
  function AnswerLiveQuestion(t: State, letter: Letter, now: int): (r: (State, bool))
    requires Wellformed(t) && !t.Finished()
  {
    DetectProvisioned(t.questions, t.currentLevel);
    var q := t.questions[Detect(t.questions, t.currentLevel).value];
    if q.AnswerCorrect(letter) then
      if t.currentLevel == MAX_LEVEL then
        (FinishGame(t.(currentLevel := t.currentLevel + 1), PRIZES[MAX_LEVEL], false, now), true)
      else
        (t.(currentLevel := t.currentLevel + 1), true)
    else
      (FinishGame(t, FireProofPrize(t.PreviousLevel()), true, now), false)
  }

  /** Cashing out: the prize of the last level cleared, or 0 before any. */
  function TakeMoney(s: State, now: int): (r: State)
    requires Wellformed(s)
    ensures r.Finished()
    ensures r.currentLevel == s.currentLevel && r.questions == s.questions
    ensures !TimeIsUp(s, now) && !s.Finished() ==> !r.isFailed && r.balance == s.balance + r.prize
  {
    var checked := TimeOut(s, now);
    var t := checked.0;
    if checked.1 || t.Finished() then t
    else FinishGame(t, if t.PreviousLevel() > -1 then PRIZES[t.PreviousLevel()] else 0, false, now)
  }

  /** Whether help kind `help` has been used in the game; false for a kind the game does not know. */
  predicate HelpUsed(s: State, help: HelpType) {
    match help
    case FiftyFifty => s.fiftyFiftyUsed
    case AudienceHelp => s.audienceHelpUsed
    case FriendCall => s.friendCallUsed
    case Other(_) => false
  }

  /** Adding help kind `help` to the current question, if there is one. */
  function AddHelp(s: State, help: HelpType): (r: (State, HelpOutcome))
    ensures r.1 != NotUsed
    ensures r.1 == Used <==> Detect(s.questions, s.currentLevel).Some?
    ensures r.0.(questions := s.questions) == s && |r.0.questions| == |s.questions|
  {
    match Detect(s.questions, s.currentLevel)
    case None => (s, NoCurrentQuestion)
    case Some(i) =>
      (s.(questions := s.questions[i := s.questions[i].(help := s.questions[i].help + {help})]), Used)
  }

  /** A help request: each known kind is granted once per game, any other name is refused. */
  function UseHelp(s: State, help: HelpType): (r: (State, HelpOutcome))
    ensures r.1 == NotUsed <==> help.Other? || HelpUsed(s, help)
    ensures r.1 == NotUsed ==> r.0 == s
    ensures r.1 != NotUsed ==> HelpUsed(r.0, help)
  {
    match help
    case FiftyFifty =>
      if !s.fiftyFiftyUsed then AddHelp(s.(fiftyFiftyUsed := true), FiftyFifty) else (s, NotUsed)
    case AudienceHelp =>
      if !s.audienceHelpUsed then AddHelp(s.(audienceHelpUsed := true), AudienceHelp) else (s, NotUsed)
    case FriendCall =>
      if !s.friendCallUsed then AddHelp(s.(friendCallUsed := true), FriendCall) else (s, NotUsed)
    case Other(_) => (s, NotUsed)
  }
}
