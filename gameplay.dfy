/** The game screen: a record button that starts and stops the microphone
    and hands the recording to grading, and a button that reads the twister
    aloud. Its state is two flags, around a recorder it owns. */
module Gameplay {
  import opened Types
  import Catalog
  import AudioUtils
  import GeminiService

  const MicAlertMessage: string := "Microphone access is required to play."
  const TtsAlertMessage: string := "Could not play audio. Please try again."

  /** The colour of the difficulty badge. */
  datatype BadgeColor = Green | Orange | Red

  function DifficultyColor(d: Difficulty): (c: BadgeColor)
  {
    match d
    case Easy => Green
    case Medium => Orange
    case Hard => Red
  }

  /** The badge colours tell the three difficulties apart. */
  lemma DifficultyColorIsInjective(d: Difficulty, e: Difficulty)
    ensures DifficultyColor(d) == DifficultyColor(e) <==> d == e
  {
  }

  /** The TTS button is disabled while audio plays, while grading and while
      recording. */
  function TtsDisabled(isPlayingAudio: bool, isGrading: bool, isRecording: bool): bool
  {
    isPlayingAudio || isGrading || isRecording
  }

  /** The record button is disabled while grading and while audio plays. */
  function RecordDisabled(isGrading: bool, isPlayingAudio: bool): bool
  {
    isGrading || isPlayingAudio
  }

  /** The "Repeat n times fast" hint: shown when the count is above one; an
      absent count compares as false. */
  function ShowsRepetitionHint(t: Twister): bool
  {
    t.repetitionCount.Some? && t.repetitionCount.value > 1
  }

  /** Only a remotely generated twister can show the hint: no catalog
      entry carries a count. */
  lemma RepetitionHintOnlyForRemoteTwisters(t: Twister)
    ensures ShowsRepetitionHint(t) ==> t !in Catalog.FallbackTwisters
  {
    Catalog.EntriesAreWellFormed();
  }

  /** The offline game never shows the hint, whatever the difficulty and
      the draw. */
  lemma OfflineGameShowsNoHint(d: Difficulty, u: real)
    requires 0.0 <= u < 1.0
    ensures !ShowsRepetitionHint(GeminiService.GetFallbackTwister(d, u))
  {
    RepetitionHintOnlyForRemoteTwisters(GeminiService.GetFallbackTwister(d, u));
  }

  datatype StatusLine = Analyzing | RecordingNow | TapToRecord

  /** The line under the record button; grading takes precedence over
      recording. */
  function Status(isGrading: bool, isRecording: bool): (s: StatusLine)
    ensures s == Analyzing <==> isGrading
    ensures s == RecordingNow <==> isRecording && !isGrading
    ensures s == TapToRecord <==> !isRecording && !isGrading
  {
    if isGrading then Analyzing else if isRecording then RecordingNow else TapToRecord
  }

  /** What a press of the record button led to. */
  datatype ToggleEffect = Graded(payload: AudioUtils.Payload) | StopFailed | RecordingStarted | MicAlert(message: string) | Ignored

  class Gameplay {
    const twister: Twister
    const recorder: AudioUtils.AudioRecorder
    var isRecording: bool
    var isPlayingAudio: bool

    /** The recording flag mirrors the recorder, and it is never set
        together with the `isPlayingAudio` flag. This holds with `start`
        taken as one step; while its permission prompt is pending both flags
        are false and the TTS button is enabled, and that interleaving is not
        modelled. Remote PCM can still be audible after the `isPlayingAudio`
        flag is cleared. */
    ghost predicate Valid()
      reads this, recorder
    {
      && (isRecording <==> recorder.mediaRecorder.Some? && recorder.mediaRecorder.value.phase == AudioUtils.Recording)
      && !(isRecording && isPlayingAudio)
    }

    constructor (twister: Twister)
      ensures this.twister == twister && fresh(recorder)
      ensures !isRecording && !isPlayingAudio
      ensures recorder.mediaRecorder == None && recorder.chunks == []
      ensures Valid()
    {
      this.twister := twister;
      recorder := new AudioUtils.AudioRecorder();
      isRecording := false;
      isPlayingAudio := false;
    }

    /** handleToggleRecord. While recording: clear the flag first, then stop;
        the payload goes to grading exactly when stop resolves. Otherwise:
        start, and set the flag only when start resolves; a refusal alerts. */
    method HandleToggleRecord(access: AudioUtils.DeviceAccess, final: AudioUtils.Blob, read: AudioUtils.ReadOutcome)
      returns (effect: ToggleEffect, stopped: Settled<AudioUtils.Payload>)
      requires Valid()
      modifies this, recorder
      ensures isPlayingAudio == old(isPlayingAudio)
      ensures old(isRecording) ==>
        && !isRecording
        && recorder.mediaRecorder == Some(AudioUtils.MediaRecorder(AudioUtils.Inactive, false))
        && recorder.chunks == (if |final.bytes| > 0 then old(recorder.chunks) + [final] else old(recorder.chunks))
        && !stopped.Pending?
        && (effect.Graded? <==> stopped.Resolved?)
        && (stopped.Resolved? ==> effect == Graded(stopped.value))
        && (stopped.Rejected? ==> effect == StopFailed)
        && (read.Loaded? <==> stopped.Resolved?)
        && stopped == match read
                      case Loaded(b64) =>
                        Resolved(AudioUtils.Payload(AudioUtils.PayloadOfDataUrl(AudioUtils.DataUrl(AudioUtils.BlobType, b64)), AudioUtils.BlobType))
                      case ReadFailed(reason) => Rejected(reason)
      ensures !old(isRecording) ==>
        && stopped == Pending
        && (access.Granted? ==>
              && isRecording && effect == RecordingStarted
              && recorder.mediaRecorder == Some(AudioUtils.MediaRecorder(AudioUtils.Recording, true))
              && recorder.chunks == [])
        && (access.Denied? ==>
              && !isRecording && effect == MicAlert(MicAlertMessage)
              && recorder.mediaRecorder == old(recorder.mediaRecorder) && recorder.chunks == old(recorder.chunks))
    {
      stopped := Pending;
      if isRecording {
        isRecording := false;
        var blob;
        stopped, blob := recorder.Stop(final, read);
        if stopped.Resolved? {
          effect := Graded(stopped.value);   // onGrade(base64, mimeType)
        } else {
          effect := StopFailed;              // logged
        }
      } else {
        var started := recorder.Start(access);
        if started.Resolved? {
          isRecording := true;
          effect := RecordingStarted;
        } else {
          effect := MicAlert(MicAlertMessage);
        }
      }
    }

    /** The first half of handlePlayTTS: a no-op while audio plays, else set
        the playing flag. The button is disabled while recording, so this is
        never reached then. */
    method BeginPlayTts() returns (started: bool)
      requires Valid() && !isRecording
      modifies this
      ensures Valid()
      ensures started == !old(isPlayingAudio)
      ensures isPlayingAudio && !isRecording
    {
      if isPlayingAudio {
        return false;
      }
      isPlayingAudio := true;
      started := true;
    }

    /** The second half, once speakText settles: alert on a rejection, and
        in every case (the `finally`) clear the playing flag. */
    method FinishPlayTts(p: Settled<GeminiService.Speech>) returns (alert: Option<string>)
      requires Valid()
      requires !p.Pending?
      modifies this
      ensures Valid()
      ensures !isPlayingAudio
      ensures alert == if p.Rejected? then Some(TtsAlertMessage) else None
      ensures isRecording == old(isRecording)
    {
      alert := if p.Rejected? then Some(TtsAlertMessage) else None;
      isPlayingAudio := false;
    }

    /** handlePlayTTS: ignored while audio plays; otherwise speaks the
        twister's text and ends with the flag cleared and no alert, as
        speakText always resolves. */
    method HandlePlayTts(ai: bool, reply: GeminiService.SpeechReply, synth: GeminiService.Synthesizer)
      returns (request: Option<GeminiService.SpeechRequest>, alert: Option<string>, spoken: Option<GeminiService.Speech>)
      requires Valid() && !isRecording
      modifies this
      ensures Valid() && !isRecording
      ensures old(isPlayingAudio) ==> isPlayingAudio && request == None && alert == None && spoken == None
      ensures !old(isPlayingAudio) ==>
        && !isPlayingAudio && alert == None
        && request == (if ai then Some(GeminiService.SpeechRequest(twister.text)) else None)
      ensures !old(isPlayingAudio) && ai && reply.Audio? && reply.binary.Some? &&
              AudioUtils.Decoded(reply.binary.value, AudioUtils.SpeechSampleRate).Resolved? ==>
        spoken == Some(GeminiService.PlayedPcm(AudioUtils.Decoded(reply.binary.value, AudioUtils.SpeechSampleRate).value))
      ensures !old(isPlayingAudio) && !(ai && reply.Audio? && reply.binary.Some? &&
              AudioUtils.Decoded(reply.binary.value, AudioUtils.SpeechSampleRate).Resolved?) ==>
        spoken == Some(GeminiService.BrowserFallback(twister.text, synth))
    {
      request, alert, spoken := None, None, None;
      var started := BeginPlayTts();
      if !started {
        return;
      }
      var p;
      request, p := GeminiService.SpeakText(ai, twister.text, reply, synth);
      spoken := Some(p.value);
      alert := FinishPlayTts(p);
    }

    /** A click on the record button, which does nothing while disabled. */
    method ClickRecord(isGrading: bool, access: AudioUtils.DeviceAccess, final: AudioUtils.Blob, read: AudioUtils.ReadOutcome)
      returns (effect: ToggleEffect)
      requires Valid()
      modifies this, recorder
      ensures Valid()
      ensures isPlayingAudio == old(isPlayingAudio)
      ensures RecordDisabled(isGrading, old(isPlayingAudio)) ==>
        && effect == Ignored && isRecording == old(isRecording)
        && recorder.mediaRecorder == old(recorder.mediaRecorder) && recorder.chunks == old(recorder.chunks)
      ensures !RecordDisabled(isGrading, old(isPlayingAudio)) && old(isRecording) ==>
        && !isRecording
        && recorder.mediaRecorder == Some(AudioUtils.MediaRecorder(AudioUtils.Inactive, false))
        && recorder.chunks == (if |final.bytes| > 0 then old(recorder.chunks) + [final] else old(recorder.chunks))
        && effect == match read
                     case Loaded(b64) =>
                       Graded(AudioUtils.Payload(AudioUtils.PayloadOfDataUrl(AudioUtils.DataUrl(AudioUtils.BlobType, b64)), AudioUtils.BlobType))
                     case ReadFailed(_) => StopFailed
      ensures !RecordDisabled(isGrading, old(isPlayingAudio)) && !old(isRecording) ==>
        && (isRecording <==> access.Granted?)
        && (effect == if access.Granted? then RecordingStarted else MicAlert(MicAlertMessage))
      ensures !RecordDisabled(isGrading, old(isPlayingAudio)) && !old(isRecording) && access.Granted? ==>
        recorder.mediaRecorder == Some(AudioUtils.MediaRecorder(AudioUtils.Recording, true)) && recorder.chunks == []
      ensures effect.Graded? ==> old(isRecording) && !isGrading && read.Loaded?
    {
      if RecordDisabled(isGrading, isPlayingAudio) {
        return Ignored;
      }
      var stopped;
      effect, stopped := HandleToggleRecord(access, final, read);
    }

    /** A click on the TTS button, which does nothing while disabled; when
        enabled, the `isPlayingAudio` flag is set until speakText settles
        (FinishPlayTts), a span during which both buttons stay disabled. */
    method ClickTts(isGrading: bool) returns (started: bool)
      requires Valid()
      modifies this
      ensures Valid()
      ensures started <==> !TtsDisabled(old(isPlayingAudio), isGrading, old(isRecording))
      ensures started ==> isPlayingAudio && RecordDisabled(isGrading, isPlayingAudio)
      ensures !started ==> isPlayingAudio == old(isPlayingAudio)
      ensures isRecording == old(isRecording)
    {
      if TtsDisabled(isPlayingAudio, isGrading, isRecording) {
        return false;
      }
      started := BeginPlayTts();
    }
  }

  /** In any valid state a recording can always be stopped unless grading,
      and the TTS button is disabled during it. */
  lemma RecordingCanStop(isRecording: bool, isPlayingAudio: bool, isGrading: bool)
    requires !(isRecording && isPlayingAudio)
    requires isRecording
    ensures !isGrading ==> !RecordDisabled(isGrading, isPlayingAudio)
    ensures TtsDisabled(isPlayingAudio, isGrading, isRecording)
  {
  }
}
