/**
 * The streaming speech recognizer and the view model that publishes its transcription.
 * The audio engine and the platform recognizer are reduced to what the app observes of
 * them: whether a task and a request exist, whether audio runs, and the order in which
 * they are created, cancelled and stopped.
 */
module Recognizer {

  /** The observable steps of the recognizer session, in the order they happen. */
  datatype EngineEvent = CancelTask | NewRequest | NewTask | StartAudio | StopAudio | EndAudio

  /** `StreamingSpeechRecognizer` */
  class SpeechEngine {
    /** `recognitionTask != nil` */
    var hasTask: bool
    /** `recognitionRequest != nil` */
    var hasRequest: bool
    /** The audio engine is running with its input tap installed. */
    var audioRunning: bool
    var log: seq<EngineEvent>

    constructor()
      ensures !hasTask && !hasRequest && !audioRunning && log == []
    {
      hasTask, hasRequest, audioRunning, log := false, false, false, [];
    }

    /**
     * `startRecognition`: cancel and clear the old task, create a fresh request, start a task
     * on it (only when the platform recognizer exists for the locale) and start the audio
     * engine, which may throw. `ok` is false exactly when it throws.
     */
    method StartRecognition(recognizerExists: bool, audioStarts: bool) returns (ok: bool)
      modifies this
      ensures ok == audioStarts
      ensures hasRequest && hasTask == recognizerExists && audioRunning == audioStarts
      ensures log == old(log) + (if old(hasTask) then [CancelTask] else []) + [NewRequest] +
        (if recognizerExists then [NewTask] else []) + (if audioStarts then [StartAudio] else [])
      ensures old(hasTask) ==> log[|old(log)|] == CancelTask && log[|old(log)| + 1] == NewRequest
      ensures CancelTask !in log[|old(log)|..][(if old(hasTask) then 1 else 0)..]
    {
      if hasTask {
        log := log + [CancelTask];
      }
      hasTask := false;
      hasRequest := true;
      log := log + [NewRequest];
      if recognizerExists {
        hasTask := true;
        log := log + [NewTask];
      }
      if audioStarts {
        audioRunning := true;
        log := log + [StartAudio];
        ok := true;
      } else {
        audioRunning := false;
        ok := false;
      }
    }

    /** `stopRecognition`: stop audio, end the request's audio, cancel and clear the task. The request is kept. */
    method StopRecognition()
      modifies this
      ensures !audioRunning && !hasTask && hasRequest == old(hasRequest)
      ensures log == old(log) + [StopAudio] + (if old(hasRequest) then [EndAudio] else []) +
        (if old(hasTask) then [CancelTask] else [])
    {
      audioRunning := false;
      log := log + [StopAudio];
      if hasRequest {
        log := log + [EndAudio];
      }
      if hasTask {
        log := log + [CancelTask];
      }
      hasTask := false;
    }
  }

  /** `StreamingSpeechRecognizerViewModel` */
  class RecognizerViewModel {
    var transcription: string
    var isListening: bool
    const engine: SpeechEngine

    constructor()
      ensures transcription == "" && !isListening && fresh(engine)
      ensures !engine.hasTask && !engine.audioRunning
    {
      transcription := "";
      isListening := false;
      engine := new SpeechEngine();
    }

    /**
     * `toggleRecognition`. Listening: stop and mark not listening, keeping the transcription.
     * Idle: start; on success mark listening and clear the transcription; if the start throws,
     * stay not listening and keep the old transcription.
     */
    method ToggleRecognition(recognizerExists: bool, audioStarts: bool)
      modifies this, engine
      ensures old(isListening) ==> !isListening && transcription == old(transcription) && !engine.audioRunning && !engine.hasTask
      ensures !old(isListening) ==> isListening == audioStarts
      ensures !old(isListening) ==> transcription == (if audioStarts then "" else old(transcription))
      ensures !old(isListening) ==> engine.hasRequest && engine.hasTask == recognizerExists
    {
      if isListening {
        engine.StopRecognition();
        isListening := false;
      } else {
        var ok := engine.StartRecognition(recognizerExists, audioStarts);
        if ok {
          isListening := true;
          transcription := "";
        } else {
          isListening := false;
        }
      }
    }

    /** `onResult`: a partial result replaces the transcription. */
    method OnResult(partial: string)
      modifies this
      ensures transcription == partial && isListening == old(isListening)
    {
      transcription := partial;
    }

    /** `onFinalResult`: the final result replaces the transcription too. */
    method OnFinalResult(final: string)
      modifies this
      ensures transcription == final && isListening == old(isListening)
    {
      transcription := final;
    }

    /**
     * A recognition error: the task callback reports it and stops the recognizer, and then the
     * view model's `onError` handler, dispatched to the main queue, stops listening and stops the
     * recognizer a second time. The transcription stays.
     */
    method OnError()
      modifies this, engine
      ensures !isListening && transcription == old(transcription)
      ensures !engine.audioRunning && !engine.hasTask && engine.hasRequest == old(engine.hasRequest)
      ensures engine.log == old(engine.log) +
        [StopAudio] + (if old(engine.hasRequest) then [EndAudio] else []) + (if old(engine.hasTask) then [CancelTask] else []) +
        [StopAudio] + (if old(engine.hasRequest) then [EndAudio] else [])
    {
      engine.StopRecognition();
      isListening := false;
      engine.StopRecognition();
    }

    /** `stopRecognition` of the view model: stops the recognizer but leaves `isListening` as it was. */
    method StopRecognition()
      modifies engine
      ensures !engine.audioRunning && !engine.hasTask
    {
      engine.StopRecognition();
    }
  }
}
