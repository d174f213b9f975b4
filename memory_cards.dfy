/**
 * Memory cards: creating a template from the add form, the review schedule moved on by
 * "Done" and reset by "Restore", and the tag search of the feed and of the done list.
 * Dates are whole days; `now` is today. The user's tag list and tag scores are passed on
 * their own, because `UserModel` declares neither.
 */
module MemoryCards {
  import opened Wrappers
  import opened Users
  import Collections
  import Lessons

  // ---------------------------------------------------------------- tags

  /** `", -_".contains(c)` */
  predicate IsTagSeparator(c: char) {
    c == ',' || c == ' ' || c == '-' || c == '_'
  }

  predicate NoSeparator(s: string) {
    forall i :: 0 <= i < |s| ==> !IsTagSeparator(s[i])
  }

  /** Splitting with the piece read so far in `current`. */
  function SplitFrom(s: string, current: string): (r: seq<string>)
    requires NoSeparator(current)
    ensures forall i :: 0 <= i < |r| ==> r[i] != [] && NoSeparator(r[i])
    decreases |s|
  {
    if s == [] then (if current == [] then [] else [current])
    else if IsTagSeparator(s[0]) then (if current == [] then [] else [current]) + SplitFrom(s[1..], [])
    else SplitFrom(s[1..], current + [s[0]])
  }

  /**
   * `tags.split(whereSeparator: { ", -_".contains($0) })`: the maximal runs of
   * non-separators, in order; empty pieces are omitted.
   */
  function SplitTags(s: string): (r: seq<string>)
    ensures forall i :: 0 <= i < |r| ==> r[i] != [] && NoSeparator(r[i])
  {
    SplitFrom(s, [])
  }

  function Concat(pieces: seq<string>): string {
    if pieces == [] then [] else pieces[0] + Concat(pieces[1..])
  }

  /** `s` with every separator removed. */
  function WithoutSeparators(s: string): string {
    if s == [] then [] else (if IsTagSeparator(s[0]) then [] else [s[0]]) + WithoutSeparators(s[1..])
  }

  lemma {:induction false} ConcatAppend(a: seq<string>, b: seq<string>)
    ensures Concat(a + b) == Concat(a) + Concat(b)
  {
    if a != [] {
      assert (a + b)[1..] == a[1..] + b;
      ConcatAppend(a[1..], b);
    } else {
      assert a + b == b;
    }
  }

  lemma {:induction false} SplitFromKeepsText(s: string, current: string)
    requires NoSeparator(current)
    ensures Concat(SplitFrom(s, current)) == current + WithoutSeparators(s)
    decreases |s|
  {
    if s == [] {
      assert Concat([current]) == current + Concat([current][1..]);
    } else if IsTagSeparator(s[0]) {
      SplitFromKeepsText(s[1..], []);
      var head: seq<string> := if current == [] then [] else [current];
      ConcatAppend(head, SplitFrom(s[1..], []));
      if current != [] {
        assert Concat([current]) == current + Concat([current][1..]);
      }
    } else {
      SplitFromKeepsText(s[1..], current + [s[0]]);
    }
  }

  /** No character but the separators is lost or moved: the tags, run together, are the input without its separators. */
  lemma SplitTagsKeepsText(s: string)
    ensures Concat(SplitTags(s)) == WithoutSeparators(s)
  {
    SplitFromKeepsText(s, []);
  }

  /** Tags joined by commas. */
  function JoinTags(tags: seq<string>): string {
    if tags == [] then []
    else if |tags| == 1 then tags[0]
    else tags[0] + "," + JoinTags(tags[1..])
  }

  lemma {:induction false} SplitFromSkipsPiece(p: string, rest: string, current: string)
    requires NoSeparator(p) && NoSeparator(current)
    ensures NoSeparator(current + p)
    ensures SplitFrom(p + rest, current) == SplitFrom(rest, current + p)
    decreases |p|
  {
    assert NoSeparator(current + p) by {
      forall i | 0 <= i < |current + p|
        ensures !IsTagSeparator((current + p)[i])
      {
        if i >= |current| {
          assert (current + p)[i] == p[i - |current|];
        }
      }
    }
    if p != [] {
      assert (p + rest)[0] == p[0];
      assert (p + rest)[1..] == p[1..] + rest;
      assert current + [p[0]] + p[1..] == current + p;
      SplitFromSkipsPiece(p[1..], rest, current + [p[0]]);
    } else {
      assert p + rest == rest;
      assert current + p == current;
    }
  }

  /** Tags that are non-empty and free of separators come back from their comma-joined text unchanged. */
  lemma {:induction false} SplitJoinedTags(tags: seq<string>)
    requires forall i :: 0 <= i < |tags| ==> tags[i] != [] && NoSeparator(tags[i])
    ensures SplitTags(JoinTags(tags)) == tags
  {
    if tags == [] {
    } else if |tags| == 1 {
      SplitFromSkipsPiece(tags[0], [], []);
      assert tags[0] + [] == tags[0];
      assert [] + tags[0] == tags[0];
    } else {
      var rest := JoinTags(tags[1..]);
      assert JoinTags(tags) == tags[0] + ("," + rest);
      SplitFromSkipsPiece(tags[0], "," + rest, []);
      assert [] + tags[0] == tags[0];
      assert ("," + rest)[0] == ',';
      assert ("," + rest)[1..] == rest;
      assert SplitFrom("," + rest, tags[0]) == [tags[0]] + SplitFrom(rest, []);
      SplitJoinedTags(tags[1..]);
      assert tags == [tags[0]] + tags[1..];
    }
  }

  /**
   * `Array(Set(tagsList + currentTags))`: every new and every existing tag once. The order is
   * that of a Swift set and unspecified; this model keeps first occurrences.
   */
  function MergeTags(newTags: seq<string>, currentTags: Option<seq<string>>): (r: seq<string>)
    ensures (set t | t in r) == (set t | t in newTags) + (set t | t in currentTags.GetOr([]))
    ensures forall i, j :: 0 <= i < j < |r| ==> r[i] != r[j]
  {
    var all := newTags + currentTags.GetOr([]);
    assert (set t | t in all) == (set t | t in newTags) + (set t | t in currentTags.GetOr([]));
    Collections.Dedup(all)
  }

  // ---------------------------------------------------------------- adding a template

  /** The schedule a new template starts with. It begins at one day, the restore schedule at two. */
  const NewTemplateIntervals: seq<int> := [1, 3, 7, 15, 30, 60, 120, 240, 480, 960]

  /** What the add form's conversions and remote calls answer. */
  datatype SaveAnswers = SaveAnswers(
    jpegFails: bool,                        // the picked picture has no JPEG data
    imageUpload: Option<Lessons.Url>,       // the uploaded picture's URL; `None` when the upload throws
    templateId: Option<string>,             // `addTemplate`'s document id; `None` when it throws
    addFailure: string,                     // the description when `addTemplate` throws
    updateTemplateFailure: Option<string>,  // `updateTemplate` throws with this description
    updateUserFailure: Option<string>)      // `updateUser` throws with this description

  /** The template the form builds, before Firestore gives it its document id. */
  function NewTemplate(
    id: string, tags: seq<string>, title: string, description: string, url: string,
    imageUrl: Option<Lessons.Url>, now: int, createdBy: string): (t: Template)
    ensures t.intervals == NewTemplateIntervals && t.nextDate == now - 1 && t.dateCreated == now
    ensures t.url.None? <==> url == ""
    ensures t.id == id && t.tags == tags && t.title == title && t.description == Some(description)
    ensures t.imageUrl == imageUrl && t.createdBy == createdBy
  {
    Template(id, tags, title, Some(description), if url == "" then None else Some(url), imageUrl,
      now - 1, NewTemplateIntervals, createdBy, now)
  }

  /** `AddTemplateViewModel`: the form fields, its error, and what it wrote. */
  class AddTemplateViewModel {
    const userId: string
    const userTags: Option<seq<string>>
    var title: string
    var description: string
    var tags: string
    var url: string
    var isShowingError: bool
    var errorMessage: Option<string>
    /** The picked picture, as its JPEG data. */
    var image: Option<Lessons.Data>
    /** Template documents written, oldest first. */
    var templateWrites: seq<Template>
    /** The tag lists sent in user updates, oldest first. */
    var tagWrites: seq<seq<string>>

    constructor(userId: string, userTags: Option<seq<string>>)
      ensures this.userId == userId && this.userTags == userTags
      ensures title == "" && description == "" && tags == "" && url == ""
      ensures !isShowingError && errorMessage.None? && image.None?
      ensures templateWrites == [] && tagWrites == []
    {
      this.userId, this.userTags := userId, userTags;
      title, description, tags, url := "", "", "", "";
      isShowingError, errorMessage, image := false, None, None;
      templateWrites, tagWrites := [], [];
    }

    /** `canAddTemplate`: the add button is enabled. */
    predicate CanAddTemplate()
      reads this
    {
      title != "" && tags != ""
    }

    /**
     * `validateAndAddTemplate()`. The title and tags are checked, then a non-empty URL; then
     * the template is built with today minus one as its first due day, written, rewritten
     * under its document id, and the user's tags are merged with the new ones.
     */
    method ValidateAndAddTemplate(now: int, id: string, isValidUrl: string -> bool, answers: SaveAnswers)
      returns (ok: bool)
      modifies this
      ensures title == old(title) && description == old(description) && tags == old(tags) && url == old(url)
      ensures image == old(image)
      ensures ok <==> (old(CanAddTemplate()) && (url == "" || isValidUrl(url)) &&
        !(image.Some? && answers.jpegFails) &&
        answers.templateId.Some? && answers.updateTemplateFailure.None? && answers.updateUserFailure.None?)
      ensures !old(CanAddTemplate()) ==>
        errorMessage == Some("Title and tags cannot be empty") && isShowingError &&
        templateWrites == old(templateWrites) && tagWrites == old(tagWrites)
      ensures old(CanAddTemplate()) && url != "" && !isValidUrl(url) ==>
        errorMessage == Some("Please enter a valid URL") && isShowingError &&
        templateWrites == old(templateWrites) && tagWrites == old(tagWrites)
      ensures ValidInput(old(CanAddTemplate()), isValidUrl) && image.Some? && answers.jpegFails ==>
        errorMessage == old(errorMessage) && isShowingError == old(isShowingError) &&
        templateWrites == old(templateWrites) && tagWrites == old(tagWrites)
      ensures ValidInput(old(CanAddTemplate()), isValidUrl) && !(image.Some? && answers.jpegFails) ==>
        var t := NewTemplate(id, SplitTags(tags), title, description, url,
          if image.Some? then answers.imageUpload else None, now, userId);
        (answers.templateId.None? ==>
          errorMessage == Some("Error saving template: " + answers.addFailure) && isShowingError &&
          templateWrites == old(templateWrites) && tagWrites == old(tagWrites)) &&
        (answers.templateId.Some? && answers.updateTemplateFailure.Some? ==>
          errorMessage == Some("Error saving template: " + answers.updateTemplateFailure.value) && isShowingError &&
          templateWrites == old(templateWrites) + [t] && tagWrites == old(tagWrites)) &&
        (answers.templateId.Some? && answers.updateTemplateFailure.None? ==>
          templateWrites == old(templateWrites) + [t, t.(id := answers.templateId.value)] &&
          tagWrites == old(tagWrites) + [MergeTags(SplitTags(tags), userTags)]) &&
        (answers.templateId.Some? && answers.updateTemplateFailure.None? && answers.updateUserFailure.Some? ==>
          errorMessage == Some("Error saving template: " + answers.updateUserFailure.value) && isShowingError) &&
        (ok ==> errorMessage == old(errorMessage) && isShowingError == old(isShowingError))
    {
      if title == "" || tags == "" {
        errorMessage := Some("Title and tags cannot be empty");
        isShowingError := true;
        return false;
      }
      if url != "" && !isValidUrl(url) {
        errorMessage := Some("Please enter a valid URL");
        isShowingError := true;
        return false;
      }
      var tagsList := SplitTags(tags);
      var imageUrl: Option<Lessons.Url> := None;
      if image.Some? {
        if answers.jpegFails {
          return false;
        }
        imageUrl := answers.imageUpload;
      }
      var newTemplate := NewTemplate(id, tagsList, title, description, url, imageUrl, now, userId);
      if answers.templateId.None? {
        errorMessage := Some("Error saving template: " + answers.addFailure);
        isShowingError := true;
        return false;
      }
      templateWrites := templateWrites + [newTemplate];
      if answers.updateTemplateFailure.Some? {
        errorMessage := Some("Error saving template: " + answers.updateTemplateFailure.value);
        isShowingError := true;
        return false;
      }
      templateWrites := templateWrites + [newTemplate.(id := answers.templateId.value)];
      tagWrites := tagWrites + [MergeTags(tagsList, userTags)];
      if answers.updateUserFailure.Some? {
        errorMessage := Some("Error saving template: " + answers.updateUserFailure.value);
        isShowingError := true;
        return false;
      }
      return true;
    }

    /** Both field checks pass. */
    predicate ValidInput(canAdd: bool, isValidUrl: string -> bool)
      reads this
    {
      canAdd && (url == "" || isValidUrl(url))
    }
  }

  // ---------------------------------------------------------------- review schedule

  /**
   * The template `onDone` writes: the first interval is dropped and the card is next due the
   * first remaining interval from today. Nothing is written when no interval remains.
   */
  function Rescheduled(t: Template, now: int): (r: Option<Template>)
    ensures r.Some? <==> |t.intervals| >= 2
    ensures r.Some? ==> r.value == t.(nextDate := now + t.intervals[1], intervals := t.intervals[1..])
  {
    if t.intervals == [] then None
    else
      var intervals := t.intervals[1..];
      if intervals == [] then None
      else Some(TemplateCopyWith(t, None, None, None, None, None, None, Some(now + intervals[0]), Some(intervals), None, None))
  }

  /**
   * Each "Done" shortens the schedule by one; a card with positive intervals moves into the
   * future; and after as many presses as it has intervals less one, it is never moved again.
   */
  lemma RescheduleShortens(t: Template, now: int)
    requires Rescheduled(t, now).Some?
    ensures |Rescheduled(t, now).value.intervals| == |t.intervals| - 1
    ensures t.intervals[1] > 0 ==> Rescheduled(t, now).value.nextDate > now
    ensures |t.intervals| == 2 ==> Rescheduled(Rescheduled(t, now).value, now).None?
  {
  }

  /** The score map written for one tag: `(score ?? [:])[tag] = (score[tag] ?? 0) + 1`. */
  function Bump(score: map<string, int>, tag: string): (r: map<string, int>)
    ensures r.Keys == score.Keys + {tag}
    ensures r[tag] == (if tag in score then score[tag] else 0) + 1
    ensures forall k :: k in score && k != tag ==> r[k] == score[k]
  {
    score[tag := (if tag in score then score[tag] else 0) + 1]
  }

  /**
   * The number of user writes `onDone` attempts for `tagCount` tags when the write of index
   * `failsAt` throws: the loop ends at the first throw.
   */
  function Attempted(tagCount: nat, failsAt: Option<nat>): (r: nat)
    ensures r <= tagCount
    ensures failsAt.None? ==> r == tagCount
  {
    if failsAt.Some? && failsAt.value < tagCount then failsAt.value + 1 else tagCount
  }

  /**
   * `onDone` as written: write the rescheduled template, then, for every tag, a user whose
   * scores are the original scores with that one tag raised. Each pass starts again from the
   * user passed in, so every write undoes the one before. A throwing template write ends it
   * before any user write; a throwing user write ends the loop.
   */
  method OnDone(t: Template, tagsScore: Option<map<string, int>>, now: int,
                templateWriteFails: bool, userWriteFailsAt: Option<nat>)
    returns (templateWrite: Option<Template>, scoreWrites: seq<map<string, int>>)
    ensures templateWrite == Rescheduled(t, now)
    ensures templateWrite.None? || templateWriteFails ==> scoreWrites == []
    ensures templateWrite.Some? && !templateWriteFails ==>
      |scoreWrites| == Attempted(|t.tags|, userWriteFailsAt) &&
      forall i :: 0 <= i < |scoreWrites| ==> scoreWrites[i] == Bump(tagsScore.GetOr(map[]), t.tags[i])
  {
    scoreWrites := [];
    templateWrite := Rescheduled(t, now);
    if templateWrite.None? || templateWriteFails {
      return;
    }
    var n := Attempted(|t.tags|, userWriteFailsAt);
    for i := 0 to n
      invariant |scoreWrites| == i
      invariant forall j :: 0 <= j < i ==> scoreWrites[j] == Bump(tagsScore.GetOr(map[]), t.tags[j])
    {
      var updatedTagsScore := tagsScore.GetOr(map[]);
      updatedTagsScore := Bump(updatedTagsScore, t.tags[i]);
      scoreWrites := scoreWrites + [updatedTagsScore];
    }
  }

  /** The scores with every tag of the card raised once per occurrence, tag after tag. */
  function BumpAll(score: map<string, int>, tags: seq<string>): map<string, int>
    decreases |tags|
  {
    if tags == [] then score else BumpAll(Bump(score, tags[0]), tags[1..])
  }

  function ScoreOf(score: map<string, int>, tag: string): int {
    if tag in score then score[tag] else 0
  }

  /** Raising the tags one after another adds each tag's number of occurrences to its score. */
  lemma {:induction false} BumpAllCounts(score: map<string, int>, tags: seq<string>, tag: string)
    ensures ScoreOf(BumpAll(score, tags), tag) == ScoreOf(score, tag) + multiset(tags)[tag]
    decreases |tags|
  {
    if tags != [] {
      BumpAllCounts(Bump(score, tags[0]), tags[1..], tag);
      assert tags == [tags[0]] + tags[1..];
    }
  }

  /**
   * `onDone` with the scores carried from one tag to the next: each write holds every tag
   * raised so far, and the last, when no write throws, every tag of the card.
   */
  method OnDoneCarryingScores(t: Template, tagsScore: Option<map<string, int>>, now: int,
                              templateWriteFails: bool, userWriteFailsAt: Option<nat>)
    returns (templateWrite: Option<Template>, scoreWrites: seq<map<string, int>>)
    ensures templateWrite == Rescheduled(t, now)
    ensures templateWrite.None? || templateWriteFails ==> scoreWrites == []
    ensures templateWrite.Some? && !templateWriteFails ==>
      |scoreWrites| == Attempted(|t.tags|, userWriteFailsAt) &&
      forall i :: 0 <= i < |scoreWrites| ==> scoreWrites[i] == BumpAll(tagsScore.GetOr(map[]), t.tags[..i + 1])
    ensures templateWrite.Some? && !templateWriteFails && userWriteFailsAt.None? && t.tags != [] ==>
      forall tag :: ScoreOf(scoreWrites[|scoreWrites| - 1], tag) ==
        ScoreOf(tagsScore.GetOr(map[]), tag) + multiset(t.tags)[tag]
  {
    scoreWrites := [];
    templateWrite := Rescheduled(t, now);
    if templateWrite.None? || templateWriteFails {
      return;
    }
    var n := Attempted(|t.tags|, userWriteFailsAt);
    var updatedTagsScore := tagsScore.GetOr(map[]);
    for i := 0 to n
      invariant |scoreWrites| == i
      invariant updatedTagsScore == BumpAll(tagsScore.GetOr(map[]), t.tags[..i])
      invariant forall j :: 0 <= j < i ==> scoreWrites[j] == BumpAll(tagsScore.GetOr(map[]), t.tags[..j + 1])
    {
      BumpAllSnoc(tagsScore.GetOr(map[]), t.tags[..i], t.tags[i]);
      assert t.tags[..i + 1] == t.tags[..i] + [t.tags[i]];
      updatedTagsScore := Bump(updatedTagsScore, t.tags[i]);
      scoreWrites := scoreWrites + [updatedTagsScore];
    }
    if userWriteFailsAt.None? && t.tags != [] {
      assert t.tags[..|t.tags|] == t.tags;
      forall tag
        ensures ScoreOf(scoreWrites[|scoreWrites| - 1], tag) == ScoreOf(tagsScore.GetOr(map[]), tag) + multiset(t.tags)[tag]
      {
        BumpAllCounts(tagsScore.GetOr(map[]), t.tags, tag);
      }
    }
  }

  lemma {:induction false} BumpAllSnoc(score: map<string, int>, tags: seq<string>, tag: string)
    ensures BumpAll(score, tags + [tag]) == Bump(BumpAll(score, tags), tag)
    decreases |tags|
  {
    if tags == [] {
      assert [] + [tag] == [tag];
    } else {
      assert (tags + [tag])[1..] == tags[1..] + [tag];
      BumpAllSnoc(Bump(score, tags[0]), tags[1..], tag);
    }
  }

  /**
   * On a card whose first and last tags differ, the last write of `OnDone` leaves the first
   * tag's score as it was, while carrying the scores raises it.
   */
  lemma AsWrittenLosesEarlierTags(score: map<string, int>, tags: seq<string>)
    requires |tags| >= 2 && tags[0] != tags[|tags| - 1]
    ensures ScoreOf(Bump(score, tags[|tags| - 1]), tags[0]) == ScoreOf(score, tags[0])
    ensures ScoreOf(BumpAll(score, tags), tags[0]) >= ScoreOf(score, tags[0]) + 1
  {
    BumpAllCounts(score, tags, tags[0]);
    assert tags == [tags[0]] + tags[1..];
    assert multiset(tags)[tags[0]] >= 1;
  }

  /** For "a", "b" on a user without scores, the as-written last write holds only "b"; carried, both. */
  lemma CarryingDiffersFromAsWritten()
    ensures BumpAll(map[], ["a", "b"]) == map["a" := 1, "b" := 1]
    ensures Bump(map[], "b") != BumpAll(map[], ["a", "b"])
  {
    assert ["a", "b"][1..] == ["b"];
    assert BumpAll(map[], ["a", "b"]) == BumpAll(map["a" := 1], ["b"]);
    assert ["b"][1..] == [];
    assert "a" !in Bump(map[], "b");
  }

  /** `onRestored`: the full default schedule again, due from yesterday; nothing else changes. */
  function Restored(t: Template, now: int): (r: Template)
    ensures r == t.(nextDate := now - 1, intervals := DefaultIntervals)
  {
    TemplateCopyWithSchedule(t, now - 1, DefaultIntervals);
    TemplateCopyWith(t, None, None, None, None, None, None, Some(now - 1), Some(DefaultIntervals), None, None)
  }

  /** Restoring twice is restoring once, and a restored card can be marked done again. */
  lemma RestoreIsIdempotent(t: Template, now: int)
    ensures Restored(Restored(t, now), now) == Restored(t, now)
    ensures Rescheduled(Restored(t, now), now).Some?
  {
  }

  // ---------------------------------------------------------------- search

  /** Some tag of the template contains the query; `contains` is `localizedCaseInsensitiveContains`. */
  predicate MatchesSearch(t: Template, query: string, contains: (string, string) -> bool) {
    exists i :: 0 <= i < |t.tags| && contains(t.tags[i], query)
  }

  function NewestFirstKey(t: Template): int {
    -t.dateCreated
  }

  /**
   * `filteredTemplates` of the feed and of the done list: all templates for an empty query,
   * otherwise those with a matching tag; newest first either way.
   */
  function FilteredTemplates(templates: seq<Template>, query: string, contains: (string, string) -> bool): (r: seq<Template>)
    ensures forall i, j :: 0 <= i < j < |r| ==> r[i].dateCreated >= r[j].dateCreated
    ensures multiset(r) <= multiset(templates)
    ensures query == "" ==> multiset(r) == multiset(templates)
    ensures query != "" ==> forall t :: t in r ==> MatchesSearch(t, query, contains)
    ensures query != "" ==> forall t :: t in templates && MatchesSearch(t, query, contains) ==> t in r
  {
    var kept := if query == "" then templates else Collections.Filter(templates, t => MatchesSearch(t, query, contains));
    var r := Collections.SortBy(kept, NewestFirstKey);
    assert forall i :: 0 <= i < |r| ==> NewestFirstKey(r[i]) == -r[i].dateCreated;
    assert forall t :: t in r <==> t in kept by {
      forall t ensures t in r <==> t in kept {
        assert t in r <==> t in multiset(r);
        assert t in kept <==> t in multiset(kept);
      }
    }
    r
  }
}
