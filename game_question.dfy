/**
 * The questions of one game.  A question of the bank has four answer options
 * in slots 1..4; a game question shows them under the letters a..d in an
 * order fixed when the game is created, and records the help kinds used on it.
 */
module GameQuestions {

  /** The letters under which a game question shows its four options. */
  datatype Letter = A | B | C | D

  /** A help kind a player may ask for; `Other` is any name the game does not know. */
  datatype HelpType = FiftyFifty | AudienceHelp | FriendCall | Other(name: string)

  /** A question of the bank, as far as a game uses it: its identity and its level. */
  datatype Question = Question(id: nat, level: int)

  /** The bank stores the right answer of every question in option slot 1. */
  const CORRECT_SLOT: int := 1

  /**
   * A question bound to a game: the option slot shown under each letter, the
   * slot of the right answer and the help kinds already added to it.
   */
  datatype GameQuestion = GameQuestion(question: Question, a: int, b: int, c: int, d: int,
                                       correctSlot: int, help: set<HelpType>)
  {
    function Level(): int { question.level }

    /** The option slot shown under letter `l`. */
    function Slot(l: Letter): int {
      match l
      case A => a
      case B => b
      case C => c
      case D => d
    }

    /** The letters show the slots 1..4, each exactly once, and the right answer is one of them. */
    predicate Valid() {
      1 <= a <= 4 && 1 <= b <= 4 && 1 <= c <= 4 && 1 <= d <= 4 &&
      a != b && a != c && a != d && b != c && b != d && c != d &&
      1 <= correctSlot <= 4
    }

    predicate AnswerCorrect(l: Letter) {
      Slot(l) == correctSlot
    }

    /** The letter under which the right answer is shown: the only letter that answers correctly. */
    function CorrectAnswerKey(): (r: Letter)
      requires Valid()
      ensures AnswerCorrect(r)
      ensures forall l :: AnswerCorrect(l) <==> l == r
    {
      if a == correctSlot then A
      else if b == correctSlot then B
      else if c == correctSlot then C
      else D
    }
  }

  /** Every slot 1..4 is shown under exactly one letter of a valid game question. */
  lemma SlotsAreBijection(q: GameQuestion, k: int)
    requires q.Valid() && 1 <= k <= 4
    ensures exists l :: q.Slot(l) == k
    ensures forall l1, l2 :: q.Slot(l1) == k && q.Slot(l2) == k ==> l1 == l2
  {
    if k == q.a {
      assert q.Slot(A) == k;
    } else if k == q.b {
      assert q.Slot(B) == k;
    } else if k == q.c {
      assert q.Slot(C) == k;
    } else {
      assert q.Slot(D) == k;
    }
  }

  /** A result of shuffling the slots [1, 2, 3, 4]. */
  predicate IsShuffle(answers: seq<int>) {
    |answers| == 4 && multiset(answers) == multiset{1, 2, 3, 4}
  }

  /**
   * The game question created for `question` from the shuffled slots: popping
   * from the end of the shuffle fills a, b, c and d in turn, so `a` gets the
   * last slot and `d` the first.  No help has been used on it yet.
   */
  function FromShuffle(question: Question, answers: seq<int>): (q: GameQuestion)
    requires IsShuffle(answers)
    ensures q.question == question && q.help == {}
    ensures q.Slot(A) == answers[3] && q.Slot(B) == answers[2]
    ensures q.Slot(C) == answers[1] && q.Slot(D) == answers[0]
    ensures q.correctSlot == CORRECT_SLOT
  {
    GameQuestion(question, answers[3], answers[2], answers[1], answers[0], CORRECT_SLOT, {})
  }

  /** A shuffle of the four slots gives a valid game question. */
  lemma ShuffleGivesValidQuestion(question: Question, answers: seq<int>)
    requires IsShuffle(answers)
    ensures FromShuffle(question, answers).Valid()
  {
    var m := multiset(answers);
    assert answers == [answers[0], answers[1], answers[2], answers[3]];
    assert m == multiset{answers[0], answers[1], answers[2], answers[3]};
    forall i | 0 <= i < 4
      ensures 1 <= answers[i] <= 4
    {
      assert answers[i] in m;
    }
    forall i, j | 0 <= i < j < 4
      ensures answers[i] != answers[j]
    {
      if answers[i] == answers[j] {
        assert false;
      }
    }
  }
}
