/** The mascot's mood: which expression and speech bubble it shows for the
    current game phase and score, and its reaction to a click. */
module Mascot {
  import opened Types
  import ResultView

  datatype Expression = Happy | Determined | Shocked | Academic | Wink | Exhausted | Love

  const MenuComments: seq<string> := [
    "Warm up those phonemes! No tongue-cramps allowed!",
    "Ready for your verbal heavy lifting?",
    "Linguistic cardio starts now!",
    "Hydrate! Sibilance is thirsty work!",
    "Flex your vowels, athlete!",
    "The gymnasium of grammar awaits!"
  ]
  const LoadingComments: seq<string> := [
    "Polishing the plosives...",
    "Stretching the diphthongs...",
    "Calibrating the sibilance-ometer...",
    "Sorting syllables into heavy stacks..."
  ]
  const PlayingComments: seq<string> := [
    "Breathe from the diaphragm!",
    "Clean sets! No stuttering on the descent!",
    "Rhythm is 90% of the workout!",
    "Don't let the consonants trip you up!"
  ]
  const PerfectComments: seq<string> := [
    "Elite form! Olympic gold!",
    "Your tongue is made of titanium!",
    "Syllable-Sovereign status achieved!",
    "I'm weeping... such beautiful articulation."
  ]
  const GoodComments: seq<string> := [
    "Strong reps! Keep that intensity!",
    "Solid workout. I've seen worse!",
    "Good rhythm, watch those plosives!"
  ]
  const PoorComments: seq<string> := [
    "Oof, a bit of a tongue-snag there.",
    "Drop and give me twenty 'Red Lorries'!",
    "Don't skip tongue day!"
  ]
  const ClickedComments: seq<string> := [
    "Hey! Watch the fur, coach is busy!",
    "Teleporting for better acoustics!",
    "I'm as nimble as a well-placed adjective!",
    "Squeak! Watch the tail!"
  ]

  /** JavaScript truthiness of the optional score: absent and 0 are false. */
  function Truthy(score: Option<int>): bool
  {
    score.Some? && score.value != 0
  }

  /** The mood in RESULT: the expression and the list its message comes from. */
  function ResultMood(score: Option<int>): (Expression, seq<string>)
  {
    if Truthy(score) && score.value >= 90 then (Happy, PerfectComments)
    else if Truthy(score) && score.value >= 70 then (Wink, GoodComments)
    else (Exhausted, PoorComments)
  }

  /** The effect's choice for a game phase and score, given the draw `u` of
      Math.random(): phases without a case keep the academic look and an
      empty bubble. */
  function Mood(gameState: GameState, score: Option<int>, u: real): (m: (Expression, string))
    requires 0.0 <= u < 1.0
    ensures gameState == MENU ==> m.0 == Academic && m.1 in MenuComments
    ensures gameState == LOADING_TWISTER ==> m.0 == Determined && m.1 in LoadingComments
    ensures gameState == PLAYING ==> m.0 == Determined && m.1 in PlayingComments
    ensures gameState == RESULT ==> m.0 == ResultMood(score).0 && m.1 in ResultMood(score).1
    ensures gameState == GRADING || gameState == ERROR ==> m == (Academic, "")
  {
    match gameState
    case MENU => (Academic, RandomElement(MenuComments, u))
    case LOADING_TWISTER => (Determined, RandomElement(LoadingComments, u))
    case PLAYING => (Determined, RandomElement(PlayingComments, u))
    case RESULT =>
      var (mood, comments) := ResultMood(score);
      (mood, RandomElement(comments, u))
    case _ => (Academic, "")
  }

  /** The mascot agrees with the result screen: for any score it is happy
      exactly on a perfect score, winks exactly on a good one and is
      exhausted otherwise, including a score of 0; absent, it is exhausted. */
  lemma MoodAgreesWithResultView(score: int, u: real)
    requires 0.0 <= u < 1.0
    ensures Mood(RESULT, Some(score), u).0 == Happy <==> ResultView.IsPerfect(score)
    ensures Mood(RESULT, Some(score), u).0 == Wink <==> ResultView.IsGood(score)
    ensures Mood(RESULT, Some(score), u).0 == Exhausted <==> ResultView.Heading(score) == ResultView.NiceTry
    ensures Mood(RESULT, None, u).0 == Exhausted
  {
    ResultView.HeadingAndEmojiFollowTier(score, score);
  }

  /** A click: the loving look and one of the clicked messages. */
  function ClickReaction(u: real): (m: (Expression, string))
    requires 0.0 <= u < 1.0
    ensures m.0 == Love && m.1 in ClickedComments
  {
    (Love, RandomElement(ClickedComments, u))
  }
}
