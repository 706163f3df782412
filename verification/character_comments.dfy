/**
 * The commentator table and its lookups: a flavour line for a character and
 * the outcome of an answer, the character's portrait and display name. Every
 * lookup falls back to fixed defaults for an unknown character. The random
 * pick `Math.floor(Math.random() * pool.length)` takes the draw in [0, 1) as
 * a parameter.
 */
module CharacterComments {
  import JsText

  /** A character's two comment pools. */
  datatype CommentPools = CommentPools(correct: seq<string>, incorrect: seq<string>)

  /** The character the lookups fall back to. */
  const DefaultCharacter: string := "rikimaru"

  /** Rikimaru's lines. */
  const RikimaruLines: CommentPools := CommentPools(
    [ "Correct. The Azuma way is subtle and sure.",
      "Well reasoned. A ninja must understand both blade and mind.",
      "Good judgment. True strength lies in restraint.",
      "Yes. The silent approach leaves no trace.",
      "Proper. We serve from darkness." ],
    [ "No. The scrolls teach otherwise.",
      "Incorrect. Study our ways more carefully.",
      "Wrong. A true ninja thinks before acting.",
      "That violates our code.",
      "Unwise. Consider the alternatives." ])

  /** Ayame's lines. */
  const AyameLines: CommentPools := CommentPools(
    [ "Excellent! Speed and grace win battles.",
      "Well done! A kunoichi's intuition is key.",
      "Perfect! The silent step prevails.",
      "Yes! Cleverness over brute force.",
      "Good! Adaptability is our strength." ],
    [ "No! Too direct. We work unseen.",
      "Incorrect! Patience would serve better.",
      "Wrong! A kunoichi must be subtle.",
      "No! Consider the consequences.",
      "Incorrect! That lacks elegance." ])

  /** Tatsumaru's lines. */
  const TatsumaruLines: CommentPools := CommentPools(
    [ "Hmph. You understand true power.",
      "Correct. Strength determines fate.",
      "Good. Power must be absolute.",
      "Yes. The strong make their own rules.",
      "Well chosen. Sentiment is weakness." ],
    [ "Weak. Such thinking leads to failure.",
      "No! Power is taken, not given.",
      "Wrong. Sentimentality is a luxury.",
      "Incorrect. Only strength matters.",
      "No! You think like a servant." ])

  /** The comment table, keyed by character identifier. */
  const Comments: map<string, CommentPools> := map[
    "rikimaru" := RikimaruLines, "ayame" := AyameLines, "tatsumaru" := TatsumaruLines]

  /** The portrait table inside `getCharacterPortrait`. */
  const Portraits: map<string, string> := map[
    "rikimaru" := "https://via.placeholder.com/100/8b0000/ffffff?text=R",
    "ayame" := "https://via.placeholder.com/100/8b0000/ffffff?text=A",
    "tatsumaru" := "https://via.placeholder.com/100/8b0000/ffffff?text=T"
  ]

  /** The display-name table inside `getCharacterDisplayName`. */
  const DisplayNames: map<string, string> := map[
    "rikimaru" := "Rikimaru",
    "ayame" := "Ayame",
    "tatsumaru" := "Tatsumaru"
  ]

  /** Every pool of the table holds five lines. */
  lemma PoolsHoldFive()
    ensures forall c :: c in Comments ==> |Comments[c].correct| == 5 && |Comments[c].incorrect| == 5
  {
  }

  /** The character whose pools `getCharacterComment` reads: the given one if the table has it, else the default. */
  function ResolveCharacter(character: string): (c: string)
    ensures c in Comments
    ensures character in Comments ==> c == character
    ensures character !in Comments ==> c == DefaultCharacter
  {
    if character in Comments then character else DefaultCharacter
  }

  /** `Math.floor(draw * n)` for a draw in [0, 1) lands on a valid index. */
  function PickIndex(draw: real, n: nat): (k: nat)
    requires 0.0 <= draw < 1.0 && n > 0
    ensures k < n
  {
    var x := draw * n as real;
    assert x < n as real by {
      assert (1.0 - draw) * n as real > 0.0;
    }
    x.Floor
  }

  /** The pool `getCharacterComment` draws from. */
  function PoolFor(character: string, isCorrect: bool): (pool: seq<string>)
  {
    var pools := Comments[ResolveCharacter(character)];
    if isCorrect then pools.correct else pools.incorrect
  }

  /**
   * `getCharacterComment(character, isCorrect)` with the random draw as a
   * parameter: a line of the resolved character's pool for the outcome.
   */
  function GetCharacterComment(character: string, isCorrect: bool, draw: real): (line: string)
    requires 0.0 <= draw < 1.0
    ensures isCorrect ==> line in Comments[ResolveCharacter(character)].correct
    ensures !isCorrect ==> line in Comments[ResolveCharacter(character)].incorrect
  {
    var pool := PoolFor(character, isCorrect);
    PoolsHoldFive();
    pool[PickIndex(draw, |pool|)]
  }

  /** An unknown character comments exactly as the default character does, for every draw. */
  lemma UnknownCharacterFallsBack(character: string, isCorrect: bool, draw: real)
    requires character !in Comments && 0.0 <= draw < 1.0
    ensures GetCharacterComment(character, isCorrect, draw) == GetCharacterComment(DefaultCharacter, isCorrect, draw)
  {
  }

  /** Every line of every `incorrect` pool. */
  const IncorrectLines: seq<string> := RikimaruLines.incorrect + AyameLines.incorrect + TatsumaruLines.incorrect

  /** None of `lines` is an incorrect line. */
  predicate NoneIncorrect(lines: seq<string>)
  {
    forall i, j :: 0 <= i < |lines| && 0 <= j < |IncorrectLines| ==> lines[i] != IncorrectLines[j]
  }

  lemma RikimaruPraiseIsNotBlame()
    ensures NoneIncorrect(RikimaruLines.correct)
  {
  }

  lemma AyamePraiseIsNotBlame()
    ensures NoneIncorrect(AyameLines.correct)
  {
  }

  lemma TatsumaruPraiseIsNotBlame()
    ensures NoneIncorrect(TatsumaruLines.correct)
  {
  }

  /**
   * No line of any character's `correct` pool appears in any `incorrect`
   * pool, so the line shown always tells the two outcomes apart.
   */
  lemma CommentRevealsOutcome(c1: string, c2: string, d1: real, d2: real)
    requires 0.0 <= d1 < 1.0 && 0.0 <= d2 < 1.0
    ensures GetCharacterComment(c1, true, d1) != GetCharacterComment(c2, false, d2)
  {
    var good := GetCharacterComment(c1, true, d1);
    var bad := GetCharacterComment(c2, false, d2);
    assert bad in IncorrectLines;
    var pools := Comments[ResolveCharacter(c1)];
    assert pools == RikimaruLines || pools == AyameLines || pools == TatsumaruLines;
    RikimaruPraiseIsNotBlame();
    AyamePraiseIsNotBlame();
    TatsumaruPraiseIsNotBlame();
    assert NoneIncorrect(pools.correct);
  }

  /** `getCharacterPortrait(character)`: the character's portrait, or the default character's. */
  function GetCharacterPortrait(character: string): (url: string)
    ensures character in Portraits ==> url == Portraits[character]
    ensures character !in Portraits ==> url == Portraits[DefaultCharacter]
  {
    if character in Portraits && Portraits[character] != "" then Portraits[character]
    else Portraits[DefaultCharacter]
  }

  /** The portrait and the comment pools fall back together: both follow the resolved character. */
  lemma PortraitFollowsComments(character: string)
    ensures GetCharacterPortrait(character) == Portraits[ResolveCharacter(character)]
  {
  }

  /** `getCharacterDisplayName(character)`: the capitalised identifier for a known character, else "Master". */
  function GetCharacterDisplayName(character: string): (name: string)
    ensures character in DisplayNames ==> name == JsText.CapitalizeFirst(character)
    ensures character !in DisplayNames ==> name == "Master"
  {
    if character in DisplayNames && DisplayNames[character] != "" then DisplayNames[character]
    else "Master"
  }
}
