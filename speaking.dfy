/**
 * The pronunciation exercise: a grid of speaking cards, one of which owns the microphone at a
 * time. A card whose spoken answer matches its text is marked completed and hands the
 * microphone to the next card; when every card is completed the lesson is finished.
 */
module Speaking {
  import opened Wrappers
  import opened Lessons
  import Similarity
  import Recognizer

  /** `firstIndex(where: { $0.id == id })` */
  function FirstIndexOf(models: seq<SpeakingCard>, id: string): (r: Option<nat>)
    ensures r.Some? ==> r.value < |models| && models[r.value].id == id
    ensures r.Some? ==> forall j :: 0 <= j < r.value ==> models[j].id != id
    ensures r.None? ==> forall j :: 0 <= j < |models| ==> models[j].id != id
  {
    if models == [] then None
    else if models[0].id == id then Some(0)
    else
      match FirstIndexOf(models[1..], id)
      case None => None
      case Some(k) => Some(k + 1)
  }

  predicate AllCompleted(models: seq<SpeakingCard>) {
    forall i :: 0 <= i < |models| ==> models[i].completed
  }

  /** The card list after `markCardCompleted(id)`. */
  function MarkCompleted(models: seq<SpeakingCard>, id: string): seq<SpeakingCard> {
    match FirstIndexOf(models, id)
    case None => models
    case Some(i) => models[i := models[i].(completed := true)]
  }

  /** How many `onFinished` calls `markCardCompleted(id)` schedules: one when a known id leaves every card completed. */
  function FinishCount(models: seq<SpeakingCard>, id: string): nat {
    if FirstIndexOf(models, id).Some? && AllCompleted(MarkCompleted(models, id)) then 1 else 0
  }

  /**
   * Marking sets `completed` on the first card with that id and on no other; length, order and
   * every other field of every card stay as they were. An unknown id changes nothing.
   */
  lemma MarkCompletedFrame(models: seq<SpeakingCard>, id: string)
    ensures |MarkCompleted(models, id)| == |models|
    ensures forall j :: 0 <= j < |models| ==>
      MarkCompleted(models, id)[j] == (if Some(j) == FirstIndexOf(models, id) then models[j].(completed := true) else models[j])
    ensures FirstIndexOf(models, id).None? ==> MarkCompleted(models, id) == models
  {
  }

  /** Marking an already completed card leaves the array unchanged; marking twice is marking once. */
  lemma MarkCompletedIdempotent(models: seq<SpeakingCard>, id: string)
    ensures FirstIndexOf(models, id).Some? && models[FirstIndexOf(models, id).value].completed ==>
      MarkCompleted(models, id) == models
    ensures MarkCompleted(MarkCompleted(models, id), id) == MarkCompleted(models, id)
  {
    var m := MarkCompleted(models, id);
    FirstIndexStable(models, id);
  }

  /** Marking never changes ids, so the first index of an id is the same afterwards. */
  lemma FirstIndexStable(models: seq<SpeakingCard>, id: string)
    ensures FirstIndexOf(MarkCompleted(models, id), id) == FirstIndexOf(models, id)
  {
    var m := MarkCompleted(models, id);
    assert forall j :: 0 <= j < |m| ==> m[j].id == models[j].id;
    FirstIndexOfSameIds(m, models, id);
  }

  lemma {:induction false} FirstIndexOfSameIds(a: seq<SpeakingCard>, b: seq<SpeakingCard>, id: string)
    requires |a| == |b| && forall j :: 0 <= j < |a| ==> a[j].id == b[j].id
    ensures FirstIndexOf(a, id) == FirstIndexOf(b, id)
  {
    if a != [] && a[0].id != id {
      FirstIndexOfSameIds(a[1..], b[1..], id);
    }
  }

  /** Every card gets completed once each of their ids has been marked, whatever the order. */
  lemma CompletedStaysCompleted(models: seq<SpeakingCard>, id: string, j: nat)
    requires j < |models| && models[j].completed
    ensures MarkCompleted(models, id)[j].completed
  {
  }

  /** `GSpeakingViewModel` */
  class SpeakingViewModel {
    var models: seq<SpeakingCard>
    /** `onFinished` calls scheduled by the one-second `asyncAfter`, not yet run. */
    var pendingFinished: nat

    constructor()
      ensures models == [] && pendingFinished == 0
    {
      models := [];
      pendingFinished := 0;
    }

    /**
     * `markCardCompleted(id:)`: complete the first card with that id, and schedule `onFinished`
     * when every card is then completed. An unknown id does nothing and schedules nothing.
     */
    method MarkCardCompleted(id: string)
      modifies this
      ensures models == MarkCompleted(old(models), id)
      ensures FirstIndexOf(old(models), id).None? ==> pendingFinished == old(pendingFinished)
      ensures FirstIndexOf(old(models), id).Some? ==>
        pendingFinished == old(pendingFinished) + (if AllCompleted(models) then 1 else 0)
    {
      var index := FirstIndexOf(models, id);
      if index.Some? {
        models := models[index.value := models[index.value].(completed := true)];
        if forall i :: 0 <= i < |models| ==> models[i].completed {
          pendingFinished := pendingFinished + 1;
        }
      }
    }

    /** The scheduled `onFinished` callback runs. */
    method RunFinished()
      requires pendingFinished > 0
      modifies this
      ensures pendingFinished == old(pendingFinished) - 1 && models == old(models)
    {
      pendingFinished := pendingFinished - 1;
    }
  }

  /** With a single card left, completing it is what finishes the lesson. */
  lemma LastCardFinishes(models: seq<SpeakingCard>, i: nat)
    requires i < |models| && forall j :: 0 <= j < |models| && j != i ==> models[j].completed
    requires FirstIndexOf(models, models[i].id) == Some(i)
    ensures AllCompleted(MarkCompleted(models, models[i].id))
  {
  }

  /** While some other card is incomplete, marking does not finish the lesson. */
  lemma IncompleteCardBlocksFinish(models: seq<SpeakingCard>, id: string, j: nat)
    requires j < |models| && !models[j].completed && FirstIndexOf(models, id) != Some(j)
    ensures !AllCompleted(MarkCompleted(models, id))
  {
    assert !MarkCompleted(models, id)[j].completed;
  }

  /** `GSpeakingView`: the shared card list and the index of the card that owns the microphone. */
  class SpeakingScreen {
    var activeCardIndex: int
    const viewModel: SpeakingViewModel

    /** `onAppear`: load the lesson's cards and give the microphone to the first one. */
    constructor(lesson: seq<SpeakingCard>)
      ensures fresh(viewModel) && viewModel.models == lesson && viewModel.pendingFinished == 0
      ensures activeCardIndex == 0
    {
      viewModel := new SpeakingViewModel();
      activeCardIndex := 0;
      new;
      viewModel.models := lesson;
    }
  }

  /** `SCardView`: one card, its position in the grid, its recognizer and its feedback banners. */
  class SpeakingCardView {
    const screen: SpeakingScreen
    /** The card as it was handed to the view. */
    const model: SpeakingCard
    const index: int
    const recognizer: Recognizer.RecognizerViewModel
    var showSuccess: bool
    var showRetry: bool

    constructor(screen: SpeakingScreen, model: SpeakingCard, index: int)
      ensures this.screen == screen && this.model == model && this.index == index
      ensures fresh(recognizer) && fresh(recognizer.engine)
      ensures !showSuccess && !showRetry && !recognizer.isListening && recognizer.transcription == ""
    {
      this.screen := screen;
      this.model := model;
      this.index := index;
      recognizer := new Recognizer.RecognizerViewModel();
      showSuccess, showRetry := false, false;
    }

    /**
     * `validateSpeech`: lower-case and trim both the card text and the transcript, then compare
     * them. A match shows success, completes the card and moves the microphone on to the next
     * card; a mismatch only shows the retry banner.
     */
    method ValidateSpeech(ops: Similarity.TextOps) returns (matched: bool)
      modifies this, screen, screen.viewModel
      ensures matched == Accepts(ops, model.text, old(recognizer.transcription))
      ensures matched ==> showSuccess && showRetry == old(showRetry)
      ensures matched ==> screen.activeCardIndex == old(screen.activeCardIndex) + 1
      ensures matched ==> screen.viewModel.models == MarkCompleted(old(screen.viewModel.models), model.id)
      ensures matched ==> (screen.viewModel.pendingFinished ==
        old(screen.viewModel.pendingFinished) + FinishCount(old(screen.viewModel.models), model.id))
      ensures !matched ==> showRetry && showSuccess == old(showSuccess)
      ensures !matched ==> screen.activeCardIndex == old(screen.activeCardIndex)
      ensures !matched ==> screen.viewModel.models == old(screen.viewModel.models)
      ensures !matched ==> screen.viewModel.pendingFinished == old(screen.viewModel.pendingFinished)
    {
      matched := MatchTranscript(ops, model.text, recognizer.transcription);
      Respond(matched);
    }

    /** The two outcomes of `validateSpeech` once the verdict is known. */
    method Respond(matched: bool)
      modifies this, screen, screen.viewModel
      ensures matched ==> showSuccess && showRetry == old(showRetry)
      ensures matched ==> screen.activeCardIndex == old(screen.activeCardIndex) + 1
      ensures matched ==> screen.viewModel.models == MarkCompleted(old(screen.viewModel.models), model.id)
      ensures matched ==> (screen.viewModel.pendingFinished ==
        old(screen.viewModel.pendingFinished) + FinishCount(old(screen.viewModel.models), model.id))
      ensures !matched ==> showRetry && showSuccess == old(showSuccess)
      ensures !matched ==> screen.activeCardIndex == old(screen.activeCardIndex)
      ensures !matched ==> screen.viewModel.models == old(screen.viewModel.models)
      ensures !matched ==> screen.viewModel.pendingFinished == old(screen.viewModel.pendingFinished)
    {
      if matched {
        showSuccess := true;
        screen.viewModel.MarkCardCompleted(model.id);
        screen.activeCardIndex := screen.activeCardIndex + 1;
      } else {
        showRetry := true;
      }
    }

    /**
     * `toggleRecognition`: flip the recognizer, then validate only if it is now off. A toggle
     * that starts listening never validates; one that stops, or a start that throws, validates
     * the transcription as it stands. Only a validated match moves the microphone on, completes
     * the card and may finish the lesson.
     */
    method ToggleRecognition(ops: Similarity.TextOps, recognizerExists: bool, audioStarts: bool)
      returns (validated: bool, matched: bool)
      modifies this, recognizer, recognizer.engine, screen, screen.viewModel
      ensures validated <==> !recognizer.isListening
      ensures validated <==> old(recognizer.isListening) || !audioStarts
      ensures old(recognizer.isListening) ==> !recognizer.engine.audioRunning && !recognizer.engine.hasTask
      ensures !old(recognizer.isListening) ==>
        recognizer.engine.hasRequest && recognizer.engine.hasTask == recognizerExists
      ensures validated ==> recognizer.transcription == old(recognizer.transcription)
      ensures validated ==> matched == Accepts(ops, model.text, old(recognizer.transcription))
      ensures !validated ==> !matched && recognizer.transcription == ""
      ensures matched ==> showSuccess && showRetry == old(showRetry)
      ensures matched ==> screen.activeCardIndex == old(screen.activeCardIndex) + 1
      ensures matched ==> screen.viewModel.models == MarkCompleted(old(screen.viewModel.models), model.id)
      ensures matched ==> (screen.viewModel.pendingFinished ==
        old(screen.viewModel.pendingFinished) + FinishCount(old(screen.viewModel.models), model.id))
      ensures validated && !matched ==> showRetry && showSuccess == old(showSuccess)
      ensures !validated ==> showSuccess == old(showSuccess) && showRetry == old(showRetry)
      ensures !matched ==> screen.activeCardIndex == old(screen.activeCardIndex)
      ensures !matched ==> screen.viewModel.models == old(screen.viewModel.models)
      ensures !matched ==> screen.viewModel.pendingFinished == old(screen.viewModel.pendingFinished)
    {
      recognizer.ToggleRecognition(recognizerExists, audioStarts);
      if recognizer.isListening {
        validated, matched := false, false;
      } else {
        matched := ValidateSpeech(ops);
        validated := true;
      }
    }

    /**
     * `onChange(of: activeCardIndex)`: the card whose index became active toggles its recognizer,
     * with every effect of `toggleRecognition`; every other card is left exactly as it was.
     */
    method OnActiveIndexChanged(ops: Similarity.TextOps, newValue: int, recognizerExists: bool, audioStarts: bool)
      returns (toggled: bool, validated: bool, matched: bool)
      modifies this, recognizer, recognizer.engine, screen, screen.viewModel
      ensures toggled <==> newValue == index
      ensures !toggled ==> !validated && !matched
      ensures !toggled ==> unchanged(this, recognizer, recognizer.engine, screen, screen.viewModel)
      ensures toggled ==> (validated <==> !recognizer.isListening)
      ensures toggled ==> (validated <==> old(recognizer.isListening) || !audioStarts)
      ensures toggled && old(recognizer.isListening) ==> !recognizer.engine.audioRunning && !recognizer.engine.hasTask
      ensures toggled && !old(recognizer.isListening) ==>
        recognizer.engine.hasRequest && recognizer.engine.hasTask == recognizerExists
      ensures toggled && validated ==> recognizer.transcription == old(recognizer.transcription)
      ensures toggled && validated ==> matched == Accepts(ops, model.text, old(recognizer.transcription))
      ensures toggled && !validated ==> !matched && recognizer.transcription == ""
      ensures matched ==> showSuccess && showRetry == old(showRetry)
      ensures matched ==> screen.activeCardIndex == old(screen.activeCardIndex) + 1
      ensures matched ==> screen.viewModel.models == MarkCompleted(old(screen.viewModel.models), model.id)
      ensures matched ==> (screen.viewModel.pendingFinished ==
        old(screen.viewModel.pendingFinished) + FinishCount(old(screen.viewModel.models), model.id))
      ensures validated && !matched ==> showRetry && showSuccess == old(showSuccess)
      ensures !validated ==> showSuccess == old(showSuccess) && showRetry == old(showRetry)
      ensures !matched ==> screen.activeCardIndex == old(screen.activeCardIndex)
      ensures !matched ==> screen.viewModel.models == old(screen.viewModel.models)
      ensures !matched ==> screen.viewModel.pendingFinished == old(screen.viewModel.pendingFinished)
    {
      toggled := newValue == index;
      if toggled {
        validated, matched := ToggleRecognition(ops, recognizerExists, audioStarts);
      } else {
        validated, matched := false, false;
      }
    }
  }

  /** The comparison inside `validateSpeech`: normalise both sides alike, then ask `areStringsSimilar`. */
  method MatchTranscript(ops: Similarity.TextOps, text: string, transcript: string) returns (matched: bool)
    ensures matched == Accepts(ops, text, transcript)
    ensures matched ==> Similarity.Normalize(ops, transcript) != []
  {
    var trimmedText := Similarity.Normalize(ops, text);
    var trimmedTranscript := Similarity.Normalize(ops, transcript);
    matched := Similarity.AreStringsSimilar(trimmedText, trimmedTranscript);
  }

  /** The verdict `validateSpeech` reaches for a card text and a transcript. */
  predicate Accepts(ops: Similarity.TextOps, text: string, transcript: string) {
    Similarity.Similar(Similarity.Normalize(ops, text), Similarity.Normalize(ops, transcript))
  }

  /**
   * `validateSpeech`'s comparison as written: `None` stands for the trap of `areStringsSimilar`
   * when either normalised side is empty.
   */
  function ValidationAsWritten(ops: Similarity.TextOps, text: string, transcript: string): (r: Option<bool>)
    ensures r.None? <==> Similarity.Normalize(ops, text) == [] || Similarity.Normalize(ops, transcript) == []
  {
    Similarity.AreStringsSimilarAsWritten(Similarity.Normalize(ops, text), Similarity.Normalize(ops, transcript))
  }

  /** Where the written comparison does not trap, it reaches the verdict the card view acts on. */
  lemma ValidationAsWrittenAgrees(ops: Similarity.TextOps, text: string, transcript: string)
    requires ValidationAsWritten(ops, text, transcript).Some?
    ensures ValidationAsWritten(ops, text, transcript) == Some(Accepts(ops, text, transcript))
  {
    Similarity.CorrectedAgreesWithAsWritten(Similarity.Normalize(ops, text), Similarity.Normalize(ops, transcript));
  }

  /** A transcript that normalises to nothing is never accepted, whatever the card says. */
  lemma SilenceIsRejected(ops: Similarity.TextOps, text: string, transcript: string)
    requires Similarity.Normalize(ops, transcript) == []
    ensures !Accepts(ops, text, transcript)
  {
    Similarity.EmptyNeverSimilar(Similarity.Normalize(ops, text));
  }

  /** Saying exactly the card text, up to case and surrounding blanks and punctuation, is accepted. */
  lemma ExactAnswerAccepted(ops: Similarity.TextOps, text: string, transcript: string)
    requires Similarity.Normalize(ops, transcript) == Similarity.Normalize(ops, text) != []
    ensures Accepts(ops, text, transcript)
  {
    Similarity.SimilarReflexive(Similarity.Normalize(ops, text));
  }
}
