/**
 * The quiz session: the module-level `playerName`, `currentQuestionIndex`
 * and `score`, the boxes of the game screen they drive (question, feedback,
 * supporter interstitial, result), and the rank tier chosen from the score.
 * The 20% interstitial draw is a boolean parameter.
 */
module Game {
  import JsText
  import Questions
  import Supporters

  /** Questions asked per session. */
  const QuestionsPerSession: nat := 5

  /** The name a player has until they enter one. */
  const DefaultPlayerName: string := "Ninja"

  /** The four result tiers, highest first. */
  datatype Tier = Grandmaster | EliteNinja | Novice | Thug

  /** Position of a tier in the ranking, lowest 0. */
  function Level(t: Tier): nat
  {
    match t
    case Thug => 0
    case Novice => 1
    case EliteNinja => 2
    case Grandmaster => 3
  }

  function RankLabel(t: Tier): string
  {
    match t
    case Grandmaster => "GRANDMASTER"
    case EliteNinja => "ELITE NINJA"
    case Novice => "NOVICE"
    case Thug => "THUG"
  }

  function TitleLabel(t: Tier): string
  {
    match t
    case Grandmaster => "Shadow Assassin"
    case EliteNinja => "Expert Infiltrator"
    case Novice => "Hidden Footstep"
    case Thug => "Unseen Failure"
  }

  /**
   * The tier `showResult` picks. The source compares the percentage
   * `score / questionsPerSession * 100` with 100 (exactly), 80 and 40; here
   * both sides are multiplied by `questionsPerSession`.
   */
  function ResultTier(score: int): (t: Tier)
    ensures t == Grandmaster <==> score == QuestionsPerSession
    ensures t == EliteNinja <==> score != QuestionsPerSession && score * 100 >= 80 * QuestionsPerSession
    ensures t == Novice <==> 40 * QuestionsPerSession <= score * 100 < 80 * QuestionsPerSession
    ensures t == Thug <==> score * 100 < 40 * QuestionsPerSession
  {
    if score * 100 == 100 * QuestionsPerSession then Grandmaster
    else if score * 100 >= 80 * QuestionsPerSession then EliteNinja
    else if score * 100 >= 40 * QuestionsPerSession then Novice
    else Thug
  }

  /** The tier for every score a session can end with. */
  lemma ResultTierTable()
    ensures ResultTier(5) == Grandmaster
    ensures ResultTier(4) == EliteNinja
    ensures ResultTier(3) == Novice && ResultTier(2) == Novice
    ensures ResultTier(1) == Thug && ResultTier(0) == Thug
  {
  }

  /**
   * A higher score never earns a lower tier, for the scores a session can
   * end with. Above `questionsPerSession` the exact comparison with 100%
   * would fail again and the tier drop to ELITE NINJA.
   */
  lemma ResultTierMonotone(a: int, b: int)
    requires 0 <= a <= b <= QuestionsPerSession
    ensures Level(ResultTier(a)) <= Level(ResultTier(b))
  {
  }

  /** The words around the player's name in each tier's result text. */
  function TextBefore(t: Tier): string
  {
    match t
    case Grandmaster => "Unbelievable, "
    case EliteNinja => "Well done, "
    case Novice => "You have passed the trial, "
    case Thug => "You have much to learn, "
  }

  function TextAfter(t: Tier): string
  {
    match t
    case Grandmaster => ". You are a true master of the Azuma Clan."
    case EliteNinja => ". Lord Gohda will be pleased with your progress."
    case Novice => ", but your blade lacks discipline."
    case Thug => ". Return to the shadows and train harder."
  }

  /** The result text of a tier; it always names the player. */
  function ResultText(t: Tier, name: string): (text: string)
    ensures JsText.Contains(text, name)
  {
    var pre := TextBefore(t);
    var text := pre + name + TextAfter(t);
    assert JsText.OccursAt(text, name, |pre|);
    text
  }

  /** The rank labels name the tiers apart. */
  lemma RankLabelsDistinct(t1: Tier, t2: Tier)
    ensures RankLabel(t1) == RankLabel(t2) ==> t1 == t2
    ensures TitleLabel(t1) == TitleLabel(t2) ==> t1 == t2
  {
  }

  /** Which box of the game screen is showing, with what it shows. */
  datatype Screen =
    | Menu
    | QuestionBox(index: nat, question: Questions.Question)
    | FeedbackBox(isCorrect: bool)
    | SupporterBox
    | ResultBox(tier: Tier, rank: string, title: string, text: string)

  /** The result box `showResult` fills in for a tier and a player name. */
  function ResultScreen(t: Tier, name: string): (screen: Screen)
    ensures screen.ResultBox? && screen.tier == t
    ensures JsText.Contains(screen.text, name)
  {
    ResultBox(t, RankLabel(t), TitleLabel(t), ResultText(t, name))
  }

  /** Number of correct outcomes. */
  function CountTrue(s: seq<bool>): (n: nat)
    ensures n <= |s|
  {
    if s == [] then 0 else (if s[0] then 1 else 0) + CountTrue(s[1..])
  }

  lemma {:induction false} CountTrueAppend(s: seq<bool>, b: bool)
    ensures CountTrue(s + [b]) == CountTrue(s) + (if b then 1 else 0)
  {
    if s != [] {
      assert (s + [b])[1..] == s[1..] + [b];
      CountTrueAppend(s[1..], b);
    }
  }

  /** The outcomes of answering `pool[k]` with `choices[k]`, for k < n. */
  function Marks(pool: seq<Questions.Question>, choices: seq<string>, n: nat): (m: seq<bool>)
    requires n <= |choices| && n <= |pool|
    ensures |m| == n
    ensures forall k :: 0 <= k < n ==> m[k] == (choices[k] == pool[k].answer)
  {
    if n == 0 then [] else Marks(pool, choices, n - 1) + [choices[n - 1] == pool[n - 1].answer]
  }

  /** The pool covers every index a session reads. */
  lemma PoolCoversSession()
    ensures QuestionsPerSession <= |Questions.Pool|
  {
    Questions.PoolSize();
  }

  /** The game's module-level session state. */
  class Quiz {
    /** The `questions` array the game reads. */
    var questions: seq<Questions.Question>
    var playerName: string
    var currentQuestionIndex: int
    var score: int
    var screen: Screen
    /** Whether each question answered in this session was answered correctly. */
    ghost var outcomes: seq<bool>

    /**
     * The name is never empty and carries no surrounding whitespace; the
     * score counts the correct outcomes; the question shown is the pool entry
     * at the current index, which stays below `questionsPerSession`; the
     * result is shown exactly when all questions are answered.
     */
    ghost predicate Valid()
      reads this
    {
      && |questions| >= QuestionsPerSession
      && playerName != [] && JsText.IsTrimmed(playerName)
      && score == CountTrue(outcomes)
      && match screen
         case Menu => currentQuestionIndex == 0 && outcomes == []
         case QuestionBox(i, q) =>
           && i == currentQuestionIndex < QuestionsPerSession
           && q == questions[i]
           && |outcomes| == i
         case FeedbackBox(isCorrect) =>
           && 0 <= currentQuestionIndex < QuestionsPerSession
           && |outcomes| == currentQuestionIndex + 1
           && outcomes[currentQuestionIndex] == isCorrect
         case SupporterBox =>
           && 0 <= currentQuestionIndex < QuestionsPerSession
           && |outcomes| == currentQuestionIndex + 1
         case ResultBox(t, _, _, _) =>
           && currentQuestionIndex == QuestionsPerSession
           && |outcomes| == QuestionsPerSession
           && t == ResultTier(score)
    }

    /** The state when the script loads. */
    constructor ()
      ensures Valid()
      ensures questions == Questions.Pool && playerName == DefaultPlayerName
      ensures currentQuestionIndex == 0 && score == 0 && screen == Menu && outcomes == []
    {
      PoolCoversSession();
      questions := Questions.Pool;
      playerName := DefaultPlayerName;
      currentQuestionIndex := 0;
      score := 0;
      screen := Menu;
      outcomes := [];
    }

    /**
     * `setPlayerName()`: the trimmed input becomes the name unless it is
     * empty, in which case the previous name stays; then a game starts.
     */
    method SetPlayerName(input: string)
      requires Valid()
      modifies this
      ensures Valid()
      ensures !JsText.AllWhitespace(input) ==> playerName == JsText.Trim(input)
      ensures JsText.AllWhitespace(input) ==> playerName == old(playerName)
      ensures currentQuestionIndex == 0 && score == 0 && outcomes == [] && questions == old(questions)
      ensures screen == QuestionBox(0, questions[0])
    {
      var nameInput := JsText.Trim(input);
      JsText.TrimResult(input);
      if nameInput != "" {
        playerName := nameInput;
      }
      assert JsText.AllWhitespace(input) ==> playerName == old(playerName);
      assert !JsText.AllWhitespace(input) ==> playerName == nameInput;
      StartGame();
    }

    /** `startGame()`: index and score back to 0, first question shown, name kept. */
    method StartGame()
      requires Valid()
      modifies this
      ensures Valid()
      ensures currentQuestionIndex == 0 && score == 0 && outcomes == [] && questions == old(questions)
      ensures playerName == old(playerName)
      ensures screen == QuestionBox(0, questions[0])
    {
      currentQuestionIndex := 0;
      score := 0;
      outcomes := [];
      ShowQuestion(0);
    }

    /** `showQuestion(index)`: reads `questions[index]`, which must exist. */
    method ShowQuestion(index: nat)
      requires index < QuestionsPerSession <= |questions|
      modifies this`screen
      ensures screen == QuestionBox(index, questions[index])
    {
      screen := QuestionBox(index, questions[index]);
    }

    /**
     * `selectAnswer(selected, correct)`, called by an option button of the
     * question box: the score goes up by one exactly when the two are equal.
     */
    method SelectAnswer(selected: string, correct: string)
      requires Valid() && screen.QuestionBox?
      modifies this
      ensures Valid()
      ensures score == old(score) + (if selected == correct then 1 else 0)
      ensures currentQuestionIndex == old(currentQuestionIndex) && playerName == old(playerName)
      ensures questions == old(questions)
      ensures outcomes == old(outcomes) + [selected == correct]
      ensures screen == FeedbackBox(selected == correct)
    {
      var isCorrect := selected == correct;
      CountTrueAppend(outcomes, isCorrect);
      outcomes := outcomes + [isCorrect];
      if isCorrect {
        score := score + 1;
      }
      screen := FeedbackBox(isCorrect);
    }

    /**
     * The screen after a step forward: the result for the current score and
     * name once all questions are answered, the question at the current
     * index otherwise.
     */
    ghost function ScreenAfterStep(): Screen
      reads this
      requires currentQuestionIndex < QuestionsPerSession ==> 0 <= currentQuestionIndex < |questions|
    {
      if currentQuestionIndex >= QuestionsPerSession then
        ResultScreen(ResultTier(score), playerName)
      else
        QuestionBox(currentQuestionIndex, questions[currentQuestionIndex])
    }

    /**
     * `nextQuestion()`, called from the feedback box: when the draw comes up
     * and the supporter list exists and is not empty, the interstitial is
     * shown and nothing advances; otherwise the game proceeds.
     */
    method NextQuestion(shoutoutDrawn: bool, allies: Supporters.SupporterList?)
      requires Valid() && screen.FeedbackBox?
      modifies this
      ensures Valid()
      ensures score == old(score) && playerName == old(playerName) && outcomes == old(outcomes)
      ensures questions == old(questions)
      ensures shoutoutDrawn && allies != null && |allies.supporters| > 0 ==>
        screen == SupporterBox && currentQuestionIndex == old(currentQuestionIndex)
      ensures !(shoutoutDrawn && allies != null && |allies.supporters| > 0) ==>
        currentQuestionIndex == old(currentQuestionIndex) + 1 && screen == ScreenAfterStep()
      ensures shoutoutDrawn && allies != null && allies.Valid() ==> screen == SupporterBox
    {
      if shoutoutDrawn && allies != null && |allies.supporters| > 0 {
        screen := SupporterBox;
        return;
      }
      Proceed();
    }

    /**
     * `proceed()`: one step forward; the result when all questions are
     * answered, the question at the new index otherwise.
     */
    method Proceed()
      requires Valid() && (screen.FeedbackBox? || screen.SupporterBox?)
      modifies this
      ensures Valid()
      ensures currentQuestionIndex == old(currentQuestionIndex) + 1
      ensures score == old(score) && playerName == old(playerName) && outcomes == old(outcomes)
      ensures questions == old(questions)
      ensures screen == ScreenAfterStep()
      ensures screen.ResultBox? <==> currentQuestionIndex >= QuestionsPerSession
      ensures screen.ResultBox? ==> currentQuestionIndex == QuestionsPerSession && 0 <= score <= QuestionsPerSession
    {
      currentQuestionIndex := currentQuestionIndex + 1;
      if currentQuestionIndex >= QuestionsPerSession {
        ShowResult();
      } else {
        ShowQuestion(currentQuestionIndex);
      }
    }

    /** `hideSupporterBox()`: dismisses the interstitial and proceeds. */
    method HideSupporterBox()
      requires Valid() && screen.SupporterBox?
      modifies this
      ensures Valid()
      ensures currentQuestionIndex == old(currentQuestionIndex) + 1
      ensures score == old(score) && playerName == old(playerName) && outcomes == old(outcomes)
      ensures questions == old(questions)
      ensures screen == ScreenAfterStep()
    {
      Proceed();
    }

    /** `showResult()`: the tier for the score and its text for the current name. */
    method ShowResult()
      modifies this`screen
      ensures screen == ResultScreen(ResultTier(score), playerName)
    {
      var tier := ResultTier(score);
      screen := ResultBox(tier, RankLabel(tier), TitleLabel(tier), ResultText(tier, playerName));
    }

    /**
     * A whole session as the player clicks through it: start, then for each
     * question pick `choices[k]`, press next, and dismiss the interstitial if
     * it appears. The result is reached with the index at
     * `questionsPerSession` and the score equal to the number of choices that
     * matched their question's answer.
     */
    method PlaySession(choices: seq<string>, shoutouts: seq<bool>, allies: Supporters.SupporterList?)
      requires Valid()
      requires |choices| == QuestionsPerSession && |shoutouts| == QuestionsPerSession
      modifies this
      ensures Valid()
      ensures playerName == old(playerName) && questions == old(questions)
      ensures currentQuestionIndex == QuestionsPerSession
      ensures score == CountTrue(Marks(questions, choices, QuestionsPerSession)) && 0 <= score <= QuestionsPerSession
      ensures screen == ResultScreen(ResultTier(score), playerName)
    {
      StartGame();
      var k := 0;
      while k < QuestionsPerSession
        invariant Valid() && 0 <= k <= QuestionsPerSession
        invariant playerName == old(playerName) && questions == old(questions)
        invariant currentQuestionIndex == k
        invariant outcomes == Marks(questions, choices, k)
        invariant k == 0 ==> screen == QuestionBox(0, questions[0])
        invariant k > 0 ==> screen == ScreenAfterStep()
      {
        SelectAnswer(choices[k], screen.question.answer);
        NextQuestion(shoutouts[k], allies);
        if screen.SupporterBox? {
          HideSupporterBox();
        }
        k := k + 1;
      }
    }
  }
}
