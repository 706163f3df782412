/**
 * The constant question pool of the quiz and the facts about it that the
 * quiz loop relies on: enough entries for a session, each answer among its
 * options, four distinct options, and a known question type.
 */
module Questions {

  /** One quiz entry: its type tag, the prompt, the options in display order and the correct option. */
  datatype Question = Question(kind: string, prompt: string, options: seq<string>, answer: string)

  /** The question types the pool uses. */
  const Kinds: set<string> := {"multiple", "situation", "morality", "quote"}

  /** The pool, in file order. */
  const Pool: seq<Question> := [
    // Multiple choice
    Question("multiple", "Who is the main Azuma ninja?",
      ["Rikimaru", "Ayame", "Tatsumaru", "Lord Gohda"], "Rikimaru"),
    Question("multiple", "Which tool is used for silent kills?",
      ["Smoke Bomb", "Shuriken", "Sword", "Grapple Hook"], "Shuriken"),
    Question("multiple", "Which stage is known for pagodas and lanterns?",
      ["Temple", "Castle", "Village", "Forest"], "Temple"),
    Question("multiple", "Who is Rikimaru\U{2019}s ally?",
      ["Ayame", "Lord Gohda", "Onikage", "Tatsumaru"], "Ayame"),
    // Situation
    Question("situation", "You see a guard patrolling near your target. What do you do?",
      ["Attack directly", "Hide and wait", "Distract", "Retreat"], "Hide and wait"),
    Question("situation", "Your mission is timed. Do you move quickly and risk detection?",
      ["Yes", "No", "Depends", "Ignore"], "Depends"),
    // Morality
    Question("morality", "Is it honorable to kill a sleeping enemy?",
      ["Yes", "No", "Depends", "Ignore"], "Depends"),
    Question("morality", "Should a ninja steal from a corrupt lord?",
      ["Yes", "No", "Depends", "Ignore"], "Depends"),
    // Quotes
    Question("quote", "Who said: 'Stealth is the soul of the ninja'?",
      ["Rikimaru", "Ayame", "Tatsumaru", "Lord Gohda"], "Rikimaru"),
    Question("quote", "Who said: 'Honor guides the shadow'?",
      ["Ayame", "Rikimaru", "Rin", "Tatsumaru"], "Ayame")
  ]

  /** Options pairwise distinct. */
  predicate DistinctOptions(options: seq<string>)
  {
    forall j, k :: 0 <= j < k < |options| ==> options[j] != options[k]
  }

  /** What the quiz loop needs of an entry. */
  predicate WellFormed(q: Question)
  {
    && q.kind in Kinds
    && |q.options| == 4
    && DistinctOptions(q.options)
    && q.answer in q.options
  }

  /** The pool holds ten entries. */
  lemma PoolSize()
    ensures |Pool| == 10
  {
  }

  /** Every entry of the pool is well formed. */
  lemma PoolWellFormed()
    ensures forall i :: 0 <= i < |Pool| ==> WellFormed(Pool[i])
  {
  }

  /** Option `j` of entry `i` is its answer. */
  predicate IsAnswerAt(i: nat, j: nat)
    requires i < |Pool|
  {
    j < |Pool[i].options| && Pool[i].options[j] == Pool[i].answer
  }

  /**
   * Exactly one option of every entry is the answer, so each option button
   * either scores (the answer) or does not, and some button scores.
   */
  lemma ExactlyOneCorrectOption(i: nat)
    requires i < |Pool|
    ensures exists j :: IsAnswerAt(i, j)
    ensures forall j, k :: IsAnswerAt(i, j) && IsAnswerAt(i, k) ==> j == k
  {
    PoolWellFormed();
    var q := Pool[i];
    var j :| 0 <= j < |q.options| && q.options[j] == q.answer;
    assert IsAnswerAt(i, j);
  }
}
