/** The boundary to the remote generative service: generating a twister,
    grading a recording and speaking a text, each with its own answer when
    no client exists or the remote call fails. The client handle exists
    exactly when an API key was configured; it is the parameter `ai`. */
module GeminiService {
  import opened Types
  import opened Catalog
  import AudioUtils

  /** How a remote JSON request ends: the call throws, the response has no
      text, the text is not valid JSON, or it parses to a value. The parsed
      value is cast to the expected type without any check. */
  datatype RemoteReply<T> = CallFailed(reason: string) | EmptyText | Unparsable(reason: string) | Parsed(value: T)

  /** What is sent to the remote generator or scorer. */
  datatype GenerationRequest = GenerationRequest(difficulty: Difficulty)
  datatype GradingRequest = GradingRequest(twisterText: string, audioBase64: string, mimeType: string)
  datatype SpeechRequest = SpeechRequest(text: string)

  const MissingKeyReason: string := "AI features are unavailable (Missing API Key). Cannot grade pronunciation."
  const NoGradingTextReason: string := "No grading response from Gemini"

  // ---------------------------------------------------------------------
  // Offline fallback

  /** The entries of a catalog with the given difficulty, in catalog order. */
  function Candidates(catalog: seq<Twister>, d: Difficulty): (c: seq<Twister>)
    ensures |c| <= |catalog|
    ensures forall t :: t in c <==> t in catalog && t.difficulty == d
  {
    if catalog == [] then []
    else
      var rest := Candidates(catalog[..|catalog| - 1], d);
      var last := catalog[|catalog| - 1];
      assert catalog == catalog[..|catalog| - 1] + [last];
      if last.difficulty == d then rest + [last] else rest
  }

  lemma {:induction false} CandidatesOfConcat(a: seq<Twister>, b: seq<Twister>, d: Difficulty)
    ensures Candidates(a + b, d) == Candidates(a, d) + Candidates(b, d)
  {
    if b != [] {
      var b' := b[..|b| - 1];
      assert (a + b)[..|a + b| - 1] == a + b';
      assert (a + b)[|a + b| - 1] == b[|b| - 1];
      CandidatesOfConcat(a, b', d);
    } else {
      assert a + b == a;
    }
  }

  /** Filtering a list whose entries all have difficulty `d` keeps it whole;
      filtering one with no such entry leaves nothing. */
  lemma {:induction false} CandidatesOfGroup(a: seq<Twister>, d: Difficulty, e: Difficulty)
    requires forall t :: t in a ==> t.difficulty == e
    ensures d == e ==> Candidates(a, d) == a
    ensures d != e ==> Candidates(a, d) == []
  {
    if a != [] {
      var a' := a[..|a| - 1];
      assert forall t :: t in a' ==> t in a;
      CandidatesOfGroup(a', d, e);
      assert a' + [a[|a| - 1]] == a;
    }
  }

  /** The filtered catalog for each difficulty is exactly that difficulty's
      group: 13 Easy, 18 Medium and 13 Hard entries. */
  lemma CandidatesOfGrouped(e: seq<Twister>, m: seq<Twister>, h: seq<Twister>, d: Difficulty)
    requires forall t :: t in e ==> t.difficulty == Easy
    requires forall t :: t in m ==> t.difficulty == Medium
    requires forall t :: t in h ==> t.difficulty == Hard
    ensures Candidates(e + m + h, d) == match d
      case Easy => e
      case Medium => m
      case Hard => h
  {
    CandidatesOfConcat(e + m, h, d);
    CandidatesOfConcat(e, m, d);
    CandidatesOfGroup(e, d, Easy);
    CandidatesOfGroup(m, d, Medium);
    CandidatesOfGroup(h, d, Hard);
    match d {
      case Easy => assert e + [] + [] == e;
      case Medium => assert [] + m + [] == m;
      case Hard => assert [] + [] + h == h;
    }
  }

  lemma CatalogCandidates(d: Difficulty)
    ensures Candidates(FallbackTwisters, d) == GroupOf(d)
    ensures |Candidates(FallbackTwisters, d)| == match d
      case Easy => 13
      case Medium => 18
      case Hard => 13
  {
    GroupsAreUniform();
    CandidatesOfGrouped(EasyTwisters, MediumTwisters, HardTwisters, d);
  }

  /** getFallbackTwister over a given catalog: a random entry of the wanted
      difficulty, or the first entry when there is none. */
  function PickFallback(catalog: seq<Twister>, d: Difficulty, u: real): (t: Twister)
    requires |catalog| > 0
    requires 0.0 <= u < 1.0
    ensures t in catalog
    ensures (exists x :: x in catalog && x.difficulty == d) ==> t.difficulty == d
    ensures (forall x :: x in catalog ==> x.difficulty != d) ==> t == catalog[0]
  {
    var candidates := Candidates(catalog, d);
    if |candidates| == 0 then catalog[0]
    else
      var k := RandomIndex(u, |candidates|);
      assert candidates[k] in candidates;
      candidates[k]
  }

  /** getFallbackTwister: a random catalog entry of the wanted difficulty;
      the catalog holds every difficulty, so the first-entry case is never
      taken. */
  function GetFallbackTwister(d: Difficulty, u: real): (t: Twister)
    requires 0.0 <= u < 1.0
    ensures t in FallbackTwisters && t.difficulty == d
    ensures t.repetitionCount == None
  {
    EveryDifficultyPresent();
    EntriesAreWellFormed();
    var first := match d case Easy => 0 case Medium => 13 case Hard => 31;
    assert FallbackTwisters[first] in FallbackTwisters;
    PickFallback(FallbackTwisters, d, u)
  }

  /** Every catalog entry of a difficulty is a possible fallback for it: the
      pick ranges over all of them. */
  lemma FallbackReachesEveryCandidate(d: Difficulty, t: Twister)
    requires t in FallbackTwisters && t.difficulty == d
    ensures exists u: real :: 0.0 <= u < 1.0 && GetFallbackTwister(d, u) == t
  {
    var candidates := Candidates(FallbackTwisters, d);
    var k :| 0 <= k < |candidates| && candidates[k] == t;
    RandomElementReachesAll(candidates, k);
    var u: real :| 0.0 <= u < 1.0 && RandomElement(candidates, u) == candidates[k];
    assert GetFallbackTwister(d, u) == t;
  }

  /** When the catalog lacks the difficulty, the pick is entry 0 whatever
      the draw. */
  lemma NoMatchGivesFirstEntry(catalog: seq<Twister>, d: Difficulty, u: real, v: real)
    requires |catalog| > 0 && 0.0 <= u < 1.0 && 0.0 <= v < 1.0
    requires forall x :: x in catalog ==> x.difficulty != d
    ensures PickFallback(catalog, d, u) == PickFallback(catalog, d, v) == catalog[0]
  {
  }

  // ---------------------------------------------------------------------
  // The three operations

  /** generateTongueTwister: never rejects. Without a client no request is
      made and the catalog answers; with one, a parsed reply is returned
      as it is, and every failure falls back to the catalog. */
  method GenerateTongueTwister(ai: bool, d: Difficulty, reply: RemoteReply<Twister>, u: real)
    returns (request: Option<GenerationRequest>, p: Settled<Twister>)
    requires 0.0 <= u < 1.0
    ensures request == if ai then Some(GenerationRequest(d)) else None
    ensures p.Resolved?
    ensures ai && reply.Parsed? ==> p.value == reply.value
    ensures !(ai && reply.Parsed?) ==>
      p.value == GetFallbackTwister(d, u) && p.value in FallbackTwisters && p.value.difficulty == d
  {
    if !ai {
      return None, Resolved(GetFallbackTwister(d, u));
    }
    request := Some(GenerationRequest(d));
    match reply {
      case Parsed(twister) =>
        p := Resolved(twister);
      case _ =>
        // The call threw, the text was empty or JSON.parse threw: caught.
        p := Resolved(GetFallbackTwister(d, u));
    }
  }

  /** gradePronunciation: rejects without a client; with one, sends the
      twister text and the audio as given, rejects on an empty or failed
      reply and otherwise returns the parsed result unchanged. */
  method GradePronunciation(ai: bool, twisterText: string, audioBase64: string, mimeType: string,
                            reply: RemoteReply<GradingResult>)
    returns (request: Option<GradingRequest>, p: Settled<GradingResult>)
    ensures request == if ai then Some(GradingRequest(twisterText, audioBase64, mimeType)) else None
    ensures !ai ==> p == Rejected(MissingKeyReason)
    ensures ai ==> p == match reply
      case CallFailed(reason) => Rejected(reason)
      case EmptyText => Rejected(NoGradingTextReason)
      case Unparsable(reason) => Rejected(reason)
      case Parsed(result) => Resolved(result)
  {
    if !ai {
      return None, Rejected(MissingKeyReason);
    }
    request := Some(GradingRequest(twisterText, audioBase64, mimeType));
    match reply {
      case CallFailed(reason) => p := Rejected(reason);
      case EmptyText => p := Rejected(NoGradingTextReason);
      case Unparsable(reason) => p := Rejected(reason);
      case Parsed(result) => p := Resolved(result);
    }
  }

  /** Grading resolves exactly when a client exists and the reply parsed,
      and then the remote verdict is kept as it is: `isCorrect` is not
      recomputed from the score and no `xpEarned` is filled in. */
  lemma GradingResolvesOnlyOnParsedReply(ai: bool, reply: RemoteReply<GradingResult>, p: Settled<GradingResult>)
    requires !ai ==> p == Rejected(MissingKeyReason)
    requires ai ==> p == match reply
      case CallFailed(reason) => Rejected(reason)
      case EmptyText => Rejected(NoGradingTextReason)
      case Unparsable(reason) => Rejected(reason)
      case Parsed(result) => Resolved(result)
    ensures p.Resolved? <==> ai && reply.Parsed?
    ensures p.Resolved? ==> p.value.isCorrect == reply.value.isCorrect && p.value.xpEarned == reply.value.xpEarned
    ensures !p.Pending?
  {
  }

  /** How the speech call ends. `Audio` carries the binary string that
      `atob` makes of the returned base64 data, absent when `atob` throws. */
  datatype SpeechReply = SpeechFailed(reason: string) | NoAudio | Audio(binary: Option<string>)

  /** The platform synthesizer: missing, or the utterance ends, or it errors. */
  datatype Synthesizer = Unsupported | UtteranceEnds | UtteranceErrors

  datatype Utterance = Utterance(text: string, lang: string, rate: real)

  /** What was played or handed to the synthesizer: decoded remote audio,
      a platform utterance (even one that later errors), or nothing. */
  datatype Speech = PlayedPcm(buffer: AudioUtils.AudioBuffer) | Spoke(utterance: Utterance) | Silent

  const FallbackLang: string := "en-US"
  const FallbackRate: real := 0.9

  /** The answer of the platform fallback: silence without a synthesizer,
      otherwise an en-US utterance at rate 0.9, whether it ends or errors. */
  function BrowserFallback(text: string, synth: Synthesizer): (s: Speech)
  {
    if synth.Unsupported? then Silent else Spoke(Utterance(text, FallbackLang, FallbackRate))
  }

  /** speakText: the remote voice when a client exists, the reply carries
      audio and that audio decodes; the platform fallback otherwise. It
      resolves on every path. */
  method SpeakText(ai: bool, text: string, reply: SpeechReply, synth: Synthesizer)
    returns (request: Option<SpeechRequest>, p: Settled<Speech>)
    ensures request == if ai then Some(SpeechRequest(text)) else None
    ensures p.Resolved?
    ensures ai && reply.Audio? && reply.binary.Some? &&
            AudioUtils.Decoded(reply.binary.value, AudioUtils.SpeechSampleRate).Resolved? ==>
      p.value == PlayedPcm(AudioUtils.Decoded(reply.binary.value, AudioUtils.SpeechSampleRate).value)
    ensures !(ai && reply.Audio? && reply.binary.Some? &&
              AudioUtils.Decoded(reply.binary.value, AudioUtils.SpeechSampleRate).Resolved?) ==>
      p.value == BrowserFallback(text, synth)
  {
    request := None;
    var remote: Settled<Speech> := Rejected("API Key missing");
    if ai {
      request := Some(SpeechRequest(text));
      match reply {
        case SpeechFailed(reason) => remote := Rejected(reason);
        case NoAudio => remote := Rejected("No audio generated");
        case Audio(binary) =>
          if binary.None? {
            remote := Rejected("InvalidCharacterError");
          } else {
            var decoded := AudioUtils.DecodeAudioData(binary.value, AudioUtils.SpeechSampleRate);
            if decoded.Resolved? {
              // playAudioBuffer: playback starts and is not awaited.
              remote := Resolved(PlayedPcm(decoded.value));
            } else {
              remote := Rejected(decoded.reason);
            }
          }
      }
    }
    if remote.Resolved? {
      p := remote;
    } else {
      // The catch: the platform synthesizer, whose promise only resolves.
      p := Resolved(BrowserFallback(text, synth));
    }
  }

  /** The remote voice is a faithful rendering of the returned PCM: one
      sample per byte pair, in [-1, 1), at 24000 Hz. */
  lemma RemoteSpeechIsDecodedPcm(binary: string)
    requires |binary| % 2 == 0 && |binary| > 0
    ensures AudioUtils.Decoded(binary, AudioUtils.SpeechSampleRate).Resolved?
    ensures var b := AudioUtils.Decoded(binary, AudioUtils.SpeechSampleRate).value;
      b.sampleRate == 24000 && |b.channelData| == |binary| / 2 &&
      forall i :: 0 <= i < |b.channelData| ==> -1.0 <= b.channelData[i] < 1.0
  {
    AudioUtils.DecodedMeaning(binary, AudioUtils.SpeechSampleRate);
  }
}
