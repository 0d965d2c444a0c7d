/** The game session controller: the phase of the game and what is bound to
    it, changed by the handlers the screens call. Each handler runs to its
    end at once; where the order of its steps matters (start a game, grade
    a recording) its two halves are also given as separate steps. */
module App {
  import opened Types
  import Catalog
  import GeminiService

  const GenerationErrorMessage: string := "Failed to generate a tongue twister. Check your connection or API key."
  const GradingErrorMessage: string := "Failed to grade the audio. Please try recording again."

  class App {
    /** Whether the service has a client (an API key was configured). */
    const ai: bool
    var gameState: GameState
    var difficulty: Difficulty
    var currentTwister: Option<Twister>
    var lastResult: Option<GradingResult>
    var errorMsg: Option<string>
    /** Number of three-second timers set by failed gradings, not yet fired. */
    var errorTimers: nat

    /** What every handler keeps: ERROR is never entered, the game and
        result screens always have a twister to show, the result screen has
        a result, and without a client no result ever exists. */
    ghost predicate Valid()
      reads this
    {
      && gameState != ERROR
      && (gameState == PLAYING || gameState == GRADING || gameState == RESULT ==> currentTwister.Some?)
      && (gameState == RESULT ==> lastResult.Some?)
      && (!ai ==> lastResult == None)
    }

    constructor (ai: bool)
      ensures this.ai == ai
      ensures gameState == MENU && difficulty == Easy
      ensures currentTwister == None && lastResult == None && errorMsg == None && errorTimers == 0
      ensures Valid()
    {
      this.ai := ai;
      gameState := MENU;
      difficulty := Easy;
      currentTwister := None;
      lastResult := None;
      errorMsg := None;
      errorTimers := 0;
    }

    /** The first half of startGame: record the difficulty, show the loading
        screen and clear the error, before generating. */
    method BeginStartGame(diff: Difficulty)
      requires Valid()
      modifies this
      ensures Valid()
      ensures difficulty == diff && gameState == LOADING_TWISTER && errorMsg == None
      ensures currentTwister == old(currentTwister) && lastResult == old(lastResult)
      ensures errorTimers == old(errorTimers)
    {
      difficulty := diff;
      gameState := LOADING_TWISTER;
      errorMsg := None;
    }

    /** The second half of startGame: bind the generated twister and play,
        or on a rejection go back to the menu with an error and the old
        twister. A generation that never settles leaves everything as is. */
    method FinishStartGame(p: Settled<Twister>)
      requires Valid()
      modifies this
      ensures Valid()
      ensures p.Resolved? ==> currentTwister == Some(p.value) && gameState == PLAYING && errorMsg == old(errorMsg)
      ensures p.Rejected? ==> currentTwister == old(currentTwister) && gameState == MENU && errorMsg == Some(GenerationErrorMessage)
      ensures p.Pending? ==> currentTwister == old(currentTwister) && gameState == old(gameState) && errorMsg == old(errorMsg)
      ensures difficulty == old(difficulty) && lastResult == old(lastResult) && errorTimers == old(errorTimers)
    {
      match p {
        case Resolved(twister) =>
          currentTwister := Some(twister);
          gameState := PLAYING;
        case Rejected(_) =>
          errorMsg := Some(GenerationErrorMessage);
          gameState := MENU;
        case Pending =>
      }
    }

    /** startGame: as generation never rejects, it always ends on the game
        screen with the new twister, the chosen difficulty and no error. */
    method StartGame(diff: Difficulty, reply: GeminiService.RemoteReply<Twister>, u: real)
      returns (request: Option<GeminiService.GenerationRequest>)
      requires Valid()
      requires 0.0 <= u < 1.0
      modifies this
      ensures Valid()
      ensures gameState == PLAYING && difficulty == diff && errorMsg == None
      ensures request == if ai then Some(GeminiService.GenerationRequest(diff)) else None
      ensures ai && reply.Parsed? ==> currentTwister == Some(reply.value)
      ensures !(ai && reply.Parsed?) ==> currentTwister == Some(GeminiService.GetFallbackTwister(diff, u))
      ensures lastResult == old(lastResult) && errorTimers == old(errorTimers)
    {
      BeginStartGame(diff);
      var p;
      request, p := GeminiService.GenerateTongueTwister(ai, diff, reply, u);
      FinishStartGame(p);
    }

    /** The first half of handleGrade, once a twister is bound: show the
        grading state. */
    method BeginGrading()
      requires Valid() && currentTwister.Some?
      modifies this
      ensures Valid()
      ensures gameState == GRADING
      ensures currentTwister == old(currentTwister) && lastResult == old(lastResult)
      ensures difficulty == old(difficulty) && errorMsg == old(errorMsg) && errorTimers == old(errorTimers)
    {
      gameState := GRADING;
    }

    /** The second half of handleGrade: show the result, or on a rejection
        go back to playing with an error and set a timer to clear it. Only a
        client can produce a verdict. */
    method FinishGrading(p: Settled<GradingResult>)
      requires Valid() && currentTwister.Some?
      requires !ai ==> !p.Resolved?
      modifies this
      ensures Valid()
      ensures p.Resolved? ==>
        lastResult == Some(p.value) && gameState == RESULT
        && errorMsg == old(errorMsg) && errorTimers == old(errorTimers)
      ensures p.Rejected? ==>
        lastResult == old(lastResult) && gameState == PLAYING
        && errorMsg == Some(GradingErrorMessage) && errorTimers == old(errorTimers) + 1
      ensures p.Pending? ==>
        lastResult == old(lastResult) && gameState == old(gameState)
        && errorMsg == old(errorMsg) && errorTimers == old(errorTimers)
      ensures currentTwister == old(currentTwister) && difficulty == old(difficulty)
    {
      match p {
        case Resolved(result) =>
          lastResult := Some(result);
          gameState := RESULT;
        case Rejected(_) =>
          errorMsg := Some(GradingErrorMessage);
          gameState := PLAYING;
          errorTimers := errorTimers + 1;
        case Pending =>
      }
    }

    /** handleGrade: nothing happens without a twister; otherwise the
        recording is graded against the twister's text, a parsed verdict is
        shown and any failure returns to playing with an error, the twister
        kept. */
    method HandleGrade(audioBase64: string, mimeType: string, reply: GeminiService.RemoteReply<GradingResult>)
      returns (request: Option<GeminiService.GradingRequest>)
      requires Valid()
      modifies this
      ensures Valid()
      ensures currentTwister == old(currentTwister) && difficulty == old(difficulty)
      ensures old(currentTwister).None? ==>
        request == None && gameState == old(gameState) && lastResult == old(lastResult)
        && errorMsg == old(errorMsg) && errorTimers == old(errorTimers)
      ensures old(currentTwister).Some? ==>
        request == (if ai then Some(GeminiService.GradingRequest(old(currentTwister).value.text, audioBase64, mimeType)) else None)
      ensures old(currentTwister).Some? && ai && reply.Parsed? ==>
        gameState == RESULT && lastResult == Some(reply.value) && errorMsg == old(errorMsg) && errorTimers == old(errorTimers)
      ensures old(currentTwister).Some? && !(ai && reply.Parsed?) ==>
        gameState == PLAYING && lastResult == old(lastResult)
        && errorMsg == Some(GradingErrorMessage) && errorTimers == old(errorTimers) + 1
    {
      if currentTwister.None? {
        return None;
      }
      BeginGrading();
      var p;
      request, p := GeminiService.GradePronunciation(ai, currentTwister.value.text, audioBase64, mimeType, reply);
      FinishGrading(p);
    }

    /** One of the grading error timers fires: the error message is cleared,
        whatever message is showing by then. */
    method ErrorTimerFires()
      requires errorTimers > 0
      modifies this
      ensures errorMsg == None && errorTimers == old(errorTimers) - 1
      ensures gameState == old(gameState) && difficulty == old(difficulty)
      ensures currentTwister == old(currentTwister) && lastResult == old(lastResult)
    {
      errorMsg := None;
      errorTimers := errorTimers - 1;
    }

    /** handleNext: a new twister of the stored difficulty. */
    method HandleNext(reply: GeminiService.RemoteReply<Twister>, u: real)
      returns (request: Option<GeminiService.GenerationRequest>)
      requires Valid()
      requires 0.0 <= u < 1.0
      modifies this
      ensures Valid()
      ensures gameState == PLAYING && difficulty == old(difficulty) && errorMsg == None
      ensures request == if ai then Some(GeminiService.GenerationRequest(old(difficulty))) else None
      ensures ai && reply.Parsed? ==> currentTwister == Some(reply.value)
      ensures !(ai && reply.Parsed?) ==>
        && currentTwister == Some(GeminiService.GetFallbackTwister(old(difficulty), u))
        && currentTwister.value in Catalog.FallbackTwisters
        && currentTwister.value.difficulty == old(difficulty)
      ensures lastResult == old(lastResult) && errorTimers == old(errorTimers)
    {
      request := StartGame(difficulty, reply, u);
    }

    /** handleRetry, from the result screen: play the same twister again. */
    method HandleRetry()
      requires Valid() && gameState == RESULT
      modifies this
      ensures Valid()
      ensures gameState == PLAYING
      ensures currentTwister == old(currentTwister) && lastResult == old(lastResult)
      ensures difficulty == old(difficulty) && errorMsg == old(errorMsg) && errorTimers == old(errorTimers)
    {
      gameState := PLAYING;
    }

    /** The game screen's back button and the result screen's menu link,
        shown only on those screens. */
    method ReturnToMenu()
      requires Valid()
      requires gameState == PLAYING || gameState == GRADING || gameState == RESULT
      modifies this
      ensures Valid()
      ensures gameState == MENU
      ensures currentTwister == old(currentTwister) && lastResult == old(lastResult)
      ensures difficulty == old(difficulty) && errorMsg == old(errorMsg) && errorTimers == old(errorTimers)
    {
      gameState := MENU;
    }
  }

  /** An offline round from a fresh session: the game plays a catalog
      twister of the chosen difficulty, and grading goes back to playing
      with the grading error instead of showing a result. */
  method OfflineRound(d: Difficulty, reply: GeminiService.RemoteReply<Twister>, gradeReply: GeminiService.RemoteReply<GradingResult>, u: real)
    returns (state: GameState, error: Option<string>, twister: Option<Twister>)
    requires 0.0 <= u < 1.0
    ensures state == PLAYING && error == Some(GradingErrorMessage)
    ensures twister == Some(GeminiService.GetFallbackTwister(d, u))
    ensures twister.value in Catalog.FallbackTwisters && twister.value.difficulty == d
  {
    var app := new App(false);
    var _ := app.StartGame(d, reply, u);
    var _ := app.HandleGrade("", "audio/webm", gradeReply);
    state, error, twister := app.gameState, app.errorMsg, app.currentTwister;
  }
}
