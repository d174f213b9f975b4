/**
 * The listening exercise: a title card announces a word, the learner taps the picture that
 * goes with it, and after a match the next title comes up until every fore card has had its turn.
 * The delayed callbacks (`asyncAfter`) are explicit pending events that the environment fires
 * one at a time, in any order.
 */
module Listening {
  import opened Wrappers
  import opened Lessons

  /** A callback scheduled on the main queue and not run yet. */
  datatype Pending =
    | AdvanceTitle   // two seconds after a match: `advanceToNextTitle()`
    | ClearTap       // one second after a mismatch: hide the cross again

  /**
   * How many times `onFinished` has run once the title index has climbed from 0 to `index`
   * over `count` fore cards: every advance that lands on an index at or past the end calls it.
   */
  function FinishedCalls(index: nat, count: nat): nat {
    var last := if count == 0 then 1 else count;
    if index < last then 0 else index - last + 1
  }

  /** The round ends on the advance past the last card, and every later advance ends it again. */
  lemma FinishedCallsSchedule(index: nat, count: nat)
    ensures index < count ==> FinishedCalls(index, count) == 0
    ensures count > 0 ==> FinishedCalls(count, count) == 1
    ensures index >= count && index > 0 ==> FinishedCalls(index + 1, count) == FinishedCalls(index, count) + 1
    ensures index > 0 ==> (FinishedCalls(index, count) > 0 <==> index >= count)
    ensures count > 0 && index > count ==> FinishedCalls(index, count) > 1
  {
  }

  /** `GListeningViewModel` */
  class ListeningViewModel {
    var backModels: seq<ListeningCard>
    var foreModels: seq<ListeningCard>
    var titleModel: Option<ListeningCard>
    var isCardMatched: Option<bool>
    var currentModelIndex: int
    var shouldTransition: bool
    var tappedCardId: Option<string>
    var pending: seq<Pending>
    /** Times `onFinished` has run. */
    var finishedCalls: nat
    /** Audio downloads started by `preloadPlayInitialAudio`, oldest first. */
    var audioFetches: seq<Url>

    /**
     * The round invariant: the title is the fore card at the current index while the index is
     * in range, and `onFinished` has run once per advance that went past the end.
     */
    predicate Valid()
      reads this
    {
      && currentModelIndex >= 0
      && (currentModelIndex < |foreModels| ==> titleModel == Some(foreModels[currentModelIndex]))
      && finishedCalls == FinishedCalls(currentModelIndex, |foreModels|)
      && (currentModelIndex > 0 ==> (shouldTransition <==> finishedCalls > 0))
      && (currentModelIndex == 0 ==> !shouldTransition)
    }

    /** Whether tapping `selected` now counts as a match: `selected.text == titleModel?.text`. */
    predicate Matches(selected: ListeningCard)
      reads this
    {
      titleModel.Some? && selected.text == titleModel.value.text
    }

    /** A fore card shows its caption once the round is over, or while it is the matched answer. */
    predicate ShowsCaption(card: ListeningCard)
      reads this
    {
      shouldTransition || (isCardMatched == Some(true) && Matches(card))
    }

    /** The badge over a fore card: none unless it was the tapped one; a tick if matched, else a cross. */
    function Badge(card: ListeningCard): Option<bool>
      reads this
    {
      if tappedCardId != Some(card.id) then None
      else Some(isCardMatched == Some(true) && Matches(card))
    }

    constructor()
      ensures Valid()
      ensures backModels == [] && foreModels == [] && titleModel.None? && isCardMatched.None?
      ensures currentModelIndex == 0 && !shouldTransition && tappedCardId.None?
      ensures pending == [] && finishedCalls == 0 && audioFetches == []
    {
      backModels, foreModels := [], [];
      titleModel, isCardMatched, tappedCardId := None, None, None;
      currentModelIndex, shouldTransition := 0, false;
      pending, finishedCalls, audioFetches := [], 0, [];
    }

    /** `preloadPlayInitialAudio`: fetch the title's audio, if there is a title and it has audio. */
    method PreloadTitleAudio()
      modifies this
      ensures audioFetches == old(audioFetches) +
        (if titleModel.Some? && titleModel.value.audioUrl.Some? then [titleModel.value.audioUrl.value] else [])
      ensures backModels == old(backModels) && foreModels == old(foreModels) && titleModel == old(titleModel)
      ensures isCardMatched == old(isCardMatched) && currentModelIndex == old(currentModelIndex)
      ensures shouldTransition == old(shouldTransition) && tappedCardId == old(tappedCardId)
      ensures pending == old(pending) && finishedCalls == old(finishedCalls)
    {
      if titleModel.Some? && titleModel.value.audioUrl.Some? {
        audioFetches := audioFetches + [titleModel.value.audioUrl.value];
      }
    }

    /**
     * The views' `onAppear`: install the lesson's cards and make the first fore card the title.
     * The four-picture variant installs no back cards (`back` is `None`). The index and the
     * feedback state are not reset.
     */
    method Appear(back: Option<seq<ListeningCard>>, fore: seq<ListeningCard>)
      modifies this
      ensures backModels == (if back.Some? then back.value else old(backModels))
      ensures foreModels == fore
      ensures titleModel == (if fore == [] then None else Some(fore[0]))
      ensures audioFetches == old(audioFetches) +
        (if fore != [] && fore[0].audioUrl.Some? then [fore[0].audioUrl.value] else [])
      ensures isCardMatched == old(isCardMatched) && currentModelIndex == old(currentModelIndex)
      ensures shouldTransition == old(shouldTransition) && tappedCardId == old(tappedCardId)
      ensures pending == old(pending) && finishedCalls == old(finishedCalls)
      ensures old(currentModelIndex) == 0 && old(finishedCalls) == 0 && !old(shouldTransition) ==> Valid()
    {
      if back.Some? {
        backModels := back.value;
      }
      foreModels := fore;
      titleModel := if fore == [] then None else Some(fore[0]);
      PreloadTitleAudio();
    }

    /**
     * `checkMatch(selectedModel:)`: remember the tapped card; on a match show the tick and
     * schedule exactly one advance, otherwise show the cross and schedule its clearing.
     * The title and the index never change here, and there is no guard against a second tap.
     */
    method CheckMatch(selected: ListeningCard)
      modifies this
      ensures tappedCardId == Some(selected.id)
      ensures isCardMatched == Some(old(Matches(selected)))
      ensures pending == old(pending) + [if old(Matches(selected)) then AdvanceTitle else ClearTap]
      ensures Badge(selected) == Some(old(Matches(selected)))
      ensures old(Matches(selected)) ==> ShowsCaption(selected)
      ensures backModels == old(backModels) && foreModels == old(foreModels) && titleModel == old(titleModel)
      ensures currentModelIndex == old(currentModelIndex) && shouldTransition == old(shouldTransition)
      ensures finishedCalls == old(finishedCalls) && audioFetches == old(audioFetches)
      ensures old(Valid()) ==> Valid()
    {
      tappedCardId := Some(selected.id);
      if titleModel.Some? && selected.text == titleModel.value.text {
        isCardMatched := Some(true);
        pending := pending + [AdvanceTitle];
      } else {
        isCardMatched := Some(false);
        pending := pending + [ClearTap];
      }
    }

    /**
     * `advanceToNextTitle`: step the index by exactly one. In range, the fore card there
     * becomes the title, its audio is fetched and the feedback resets; past the end the
     * round ends and `onFinished` runs.
     */
    method AdvanceToNextTitle()
      modifies this
      ensures currentModelIndex == old(currentModelIndex) + 1
      ensures 0 <= currentModelIndex < |foreModels| ==>
        (titleModel == Some(foreModels[currentModelIndex]) && isCardMatched == Some(false) &&
          tappedCardId.None? && shouldTransition == old(shouldTransition) && finishedCalls == old(finishedCalls) &&
          audioFetches == old(audioFetches) +
            (if foreModels[currentModelIndex].audioUrl.Some? then [foreModels[currentModelIndex].audioUrl.value] else []))
      ensures !(0 <= currentModelIndex < |foreModels|) ==>
        (titleModel == old(titleModel) && isCardMatched.None? && tappedCardId.None? && shouldTransition &&
          finishedCalls == old(finishedCalls) + 1 && audioFetches == old(audioFetches))
      ensures backModels == old(backModels) && foreModels == old(foreModels) && pending == old(pending)
      ensures old(Valid()) ==> Valid()
    {
      currentModelIndex := currentModelIndex + 1;
      if 0 <= currentModelIndex < |foreModels| {
        titleModel := Some(foreModels[currentModelIndex]);
        PreloadTitleAudio();
        isCardMatched := Some(false);
        tappedCardId := None;
      } else {
        isCardMatched := None;
        tappedCardId := None;
        shouldTransition := true;
        finishedCalls := finishedCalls + 1;
      }
    }

    /** The main queue runs the pending callback at position `k`. */
    method Fire(k: nat)
      requires k < |pending|
      modifies this
      ensures pending == old(pending[..k] + pending[k + 1..])
      ensures old(pending[k]) == ClearTap ==>
        (isCardMatched.None? && tappedCardId.None? && titleModel == old(titleModel) &&
          currentModelIndex == old(currentModelIndex) && finishedCalls == old(finishedCalls) &&
          shouldTransition == old(shouldTransition) && audioFetches == old(audioFetches))
      ensures old(pending[k]) == AdvanceTitle ==> currentModelIndex == old(currentModelIndex) + 1
      ensures old(pending[k]) == AdvanceTitle && 0 <= currentModelIndex < |foreModels| ==>
        (titleModel == Some(foreModels[currentModelIndex]) && isCardMatched == Some(false) &&
          tappedCardId.None? && shouldTransition == old(shouldTransition) && finishedCalls == old(finishedCalls) &&
          audioFetches == old(audioFetches) +
            (if foreModels[currentModelIndex].audioUrl.Some? then [foreModels[currentModelIndex].audioUrl.value] else []))
      ensures old(pending[k]) == AdvanceTitle && !(0 <= currentModelIndex < |foreModels|) ==>
        (titleModel == old(titleModel) && isCardMatched.None? && tappedCardId.None? && shouldTransition &&
          finishedCalls == old(finishedCalls) + 1 && audioFetches == old(audioFetches))
      ensures foreModels == old(foreModels) && backModels == old(backModels)
      ensures old(Valid()) ==> Valid()
    {
      var event := pending[k];
      pending := pending[..k] + pending[k + 1..];
      match event
      case ClearTap =>
        isCardMatched := None;
        tappedCardId := None;
      case AdvanceTitle =>
        AdvanceToNextTitle();
    }
  }
}
