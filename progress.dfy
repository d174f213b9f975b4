/**
 * Lesson progress inside a unit: which lessons a user has completed, where a unit session
 * starts, what finishing a lesson writes back, and how a unit is restarted. Progress is the
 * nested map language -> unit id -> lesson id -> flag, and a lesson counts as completed as soon
 * as its key is present, whatever the flag says.
 */
module Progress {
  import opened Wrappers
  import opened Lessons
  import opened Users

  /** The language whose progress is read and written: `learningLanguage ?? selectedLanguage`. */
  function LanguageKey(user: User, selectedLanguage: string): (r: string)
    ensures user.learningLanguage.Some? ==> r == user.learningLanguage.value
    ensures user.learningLanguage.None? ==> r == selectedLanguage
  {
    user.learningLanguage.GetOr(selectedLanguage)
  }

  /** `userModel.languageProgress?[language]` */
  function LanguageSlice(user: User, selectedLanguage: string): (r: Option<UnitMap>)
    ensures r.Some? <==>
      (user.languageProgress.Some? && LanguageKey(user, selectedLanguage) in user.languageProgress.value)
    ensures r.Some? ==> r.value == user.languageProgress.value[LanguageKey(user, selectedLanguage)]
  {
    match user.languageProgress
    case None => None
    case Some(progress) =>
      var key := LanguageKey(user, selectedLanguage);
      if key in progress then Some(progress[key]) else None
  }

  /**
   * The session's views force-unwrap the unit id as soon as the user has progress in the
   * language; a unit without an id is only safe for a user without such progress.
   */
  predicate UnitIdReadable(user: User, selectedLanguage: string, unit: Unit) {
    LanguageSlice(user, selectedLanguage).Some? ==> unit.id.Some?
  }

  /** `languageProgress[unit.id!]` inside the language slice, if both levels are there. */
  function UnitProgress(user: User, selectedLanguage: string, unit: Unit): (r: Option<LessonMap>)
    requires UnitIdReadable(user, selectedLanguage, unit)
    ensures r.Some? ==> (unit.id.Some? && LanguageSlice(user, selectedLanguage).Some? &&
      unit.id.value in LanguageSlice(user, selectedLanguage).value &&
      r.value == LanguageSlice(user, selectedLanguage).value[unit.id.value])
    ensures r.None? ==> (LanguageSlice(user, selectedLanguage).None? ||
      unit.id.value !in LanguageSlice(user, selectedLanguage).value)
  {
    match LanguageSlice(user, selectedLanguage)
    case None => None
    case Some(slice) => if unit.id.value in slice then Some(slice[unit.id.value]) else None
  }

  /** A lesson is completed when its id is a key of the unit's map. */
  predicate LessonDone(unitProgress: LessonMap, lesson: Lesson) {
    lesson.id in unitProgress
  }

  /** Every lesson of the unit is completed. */
  predicate AllDone(unitProgress: LessonMap, lessons: seq<Lesson>) {
    forall i :: 0 <= i < |lessons| ==> LessonDone(unitProgress, lessons[i])
  }

  /** The position of the first lesson that is not completed. */
  function FirstMissing(unitProgress: LessonMap, lessons: seq<Lesson>): (r: Option<nat>)
    ensures r.Some? ==> r.value < |lessons| && !LessonDone(unitProgress, lessons[r.value])
    ensures r.Some? ==> forall i :: 0 <= i < r.value ==> LessonDone(unitProgress, lessons[i])
  {
    if lessons == [] then None
    else if !LessonDone(unitProgress, lessons[0]) then Some(0)
    else
      match FirstMissing(unitProgress, lessons[1..])
      case None => None
      case Some(k) => Some(k + 1)
  }

  /** No lesson is missing exactly when all of them are done. */
  lemma {:induction false} FirstMissingNoneIffAllDone(unitProgress: LessonMap, lessons: seq<Lesson>)
    ensures FirstMissing(unitProgress, lessons).None? <==> AllDone(unitProgress, lessons)
  {
    if lessons != [] && LessonDone(unitProgress, lessons[0]) {
      FirstMissingNoneIffAllDone(unitProgress, lessons[1..]);
      assert forall i :: 1 <= i < |lessons| ==> lessons[i] == lessons[1..][i - 1];
    }
  }

  /** `isUnitComplete()`: false without progress for the unit, otherwise whether every lesson is done. */
  method IsUnitComplete(user: User, selectedLanguage: string, unit: Unit) returns (complete: bool)
    requires UnitIdReadable(user, selectedLanguage, unit)
    ensures complete <==>
      (UnitProgress(user, selectedLanguage, unit).Some? &&
       AllDone(UnitProgress(user, selectedLanguage, unit).value, unit.lessons))
  {
    var unitProgress := UnitProgress(user, selectedLanguage, unit);
    if unitProgress.None? {
      return false;
    }
    for lessonIndex := 0 to |unit.lessons|
      invariant forall i :: 0 <= i < lessonIndex ==> LessonDone(unitProgress.value, unit.lessons[i])
    {
      if unit.lessons[lessonIndex].id !in unitProgress.value {
        return false;
      }
    }
    return true;
  }

  /**
   * `findFirstIncompleteLessonIndex()`: nil without progress for the unit or when every lesson
   * is done, otherwise the first lesson whose key is absent.
   */
  method FindFirstIncompleteLessonIndex(user: User, selectedLanguage: string, unit: Unit)
    returns (index: Option<nat>)
    requires UnitIdReadable(user, selectedLanguage, unit)
    ensures UnitProgress(user, selectedLanguage, unit).None? ==> index.None?
    ensures UnitProgress(user, selectedLanguage, unit).Some? ==>
      index == FirstMissing(UnitProgress(user, selectedLanguage, unit).value, unit.lessons)
  {
    var unitProgress := UnitProgress(user, selectedLanguage, unit);
    if unitProgress.None? {
      return None;
    }
    for lessonIndex := 0 to |unit.lessons|
      invariant FirstMissing(unitProgress.value, unit.lessons) ==
        (match FirstMissing(unitProgress.value, unit.lessons[lessonIndex..])
         case None => None
         case Some(k) => Some(k + lessonIndex))
    {
      if unit.lessons[lessonIndex].id !in unitProgress.value {
        FirstMissingAt(unitProgress.value, unit.lessons, lessonIndex);
        return Some(lessonIndex);
      }
      assert unit.lessons[lessonIndex..][1..] == unit.lessons[lessonIndex + 1..];
    }
    return None;
  }

  /** The first missing lesson of a suffix whose head is missing is that head. */
  lemma FirstMissingAt(unitProgress: LessonMap, lessons: seq<Lesson>, i: nat)
    requires i < |lessons| && !LessonDone(unitProgress, lessons[i])
    ensures FirstMissing(unitProgress, lessons[i..]) == Some(0)
  {
    assert lessons[i..][0] == lessons[i];
  }

  /** A stored `false` still counts: completion looks only at which keys are present. */
  lemma FalseFlagCountsAsDone(unitProgress: LessonMap, lessons: seq<Lesson>)
    requires forall i :: 0 <= i < |lessons| ==> lessons[i].id in unitProgress && !unitProgress[lessons[i].id]
    ensures AllDone(unitProgress, lessons)
    ensures FirstMissing(unitProgress, lessons).None?
  {
    FirstMissingNoneIffAllDone(unitProgress, lessons);
  }

  /**
   * `updateLanguageProgress(completedLessonIndex:)` once the user has been fetched again:
   * set the lesson's flag to true under the fetched user's language and the unit, creating
   * the missing levels, and keep every other entry.
   */
  function MarkLessonCompleted(fetched: User, selectedLanguage: string, unitId: string, lessonId: string): (r: User)
    ensures r == fetched.(languageProgress := r.languageProgress)
    ensures r.languageProgress.Some?
    ensures var key := LanguageKey(fetched, selectedLanguage);
      var p := r.languageProgress.value;
      key in p && unitId in p[key] && lessonId in p[key][unitId] && p[key][unitId][lessonId]
    ensures var key := LanguageKey(fetched, selectedLanguage);
      var before := fetched.languageProgress.GetOr(map[]);
      var p := r.languageProgress.value;
      p.Keys == before.Keys + {key} &&
      (forall k :: k in before && k != key ==> p[k] == before[k])
    ensures var key := LanguageKey(fetched, selectedLanguage);
      var before := LanguageSlice(fetched, selectedLanguage).GetOr(map[]);
      var p := r.languageProgress.value;
      p[key].Keys == before.Keys + {unitId} &&
      (forall u :: u in before && u != unitId ==> p[key][u] == before[u])
    ensures var key := LanguageKey(fetched, selectedLanguage);
      var slice := LanguageSlice(fetched, selectedLanguage).GetOr(map[]);
      var before := if unitId in slice then slice[unitId] else map[];
      var p := r.languageProgress.value;
      p[key][unitId] == before[lessonId := true]
  {
    var key := LanguageKey(fetched, selectedLanguage);
    var languageData := LanguageSlice(fetched, selectedLanguage).GetOr(map[]);
    var unitData := if unitId in languageData then languageData[unitId] else map[];
    var languageProgress := fetched.languageProgress.GetOr(map[]);
    var newProgress := languageProgress[key := languageData[unitId := unitData[lessonId := true]]];
    Users.CopyWith(fetched, None, None, None, None, None, Some(newProgress), None, None, None)
  }

  /** After the write the lesson counts as done for the fetched user, and so does every lesson that already did. */
  lemma MarkedLessonIsDone(fetched: User, selectedLanguage: string, unit: Unit, lesson: Lesson, other: Lesson)
    requires unit.id.Some?
    requires UnitIdReadable(fetched, selectedLanguage, unit)
    ensures var r := MarkLessonCompleted(fetched, selectedLanguage, unit.id.value, lesson.id);
      UnitProgress(r, selectedLanguage, unit).Some? && LessonDone(UnitProgress(r, selectedLanguage, unit).value, lesson)
    ensures var r := MarkLessonCompleted(fetched, selectedLanguage, unit.id.value, lesson.id);
      UnitProgress(fetched, selectedLanguage, unit).Some? && LessonDone(UnitProgress(fetched, selectedLanguage, unit).value, other) ==>
        LessonDone(UnitProgress(r, selectedLanguage, unit).value, other)
  {
    var r := MarkLessonCompleted(fetched, selectedLanguage, unit.id.value, lesson.id);
    assert LanguageKey(r, selectedLanguage) == LanguageKey(fetched, selectedLanguage);
  }

  /** The ids of the unit's lessons. */
  function LessonIds(lessons: seq<Lesson>): (r: set<string>)
    ensures forall i :: 0 <= i < |lessons| ==> lessons[i].id in r
    ensures forall id :: id in r ==> exists i :: 0 <= i < |lessons| && lessons[i].id == id
  {
    if lessons == [] then {} else {lessons[0].id} + LessonIds(lessons[1..])
  }

  /**
   * `resetUnitProgress`: nothing is written without progress in the language; otherwise the
   * unit's lesson keys are removed one by one and the user, otherwise unchanged, is written back.
   * Keys of lessons no longer in the unit stay.
   */
  method ResetUnitProgress(user: User, selectedLanguage: string, unit: Unit) returns (written: Option<User>)
    requires UnitIdReadable(user, selectedLanguage, unit)
    ensures written.Some? <==> LanguageSlice(user, selectedLanguage).Some?
    ensures written.Some? ==> written.value == user.(languageProgress := written.value.languageProgress)
    ensures written.Some? ==>
      var key := LanguageKey(user, selectedLanguage);
      var slice := LanguageSlice(user, selectedLanguage).value;
      var before := if unit.id.value in slice then slice[unit.id.value] else map[];
      written.value.languageProgress ==
        Some(user.languageProgress.value[key := slice[unit.id.value := before - LessonIds(unit.lessons)]])
  {
    var languageData := LanguageSlice(user, selectedLanguage);
    if languageData.None? {
      return None;
    }
    var unitId := unit.id.value;
    var original: LessonMap := if unitId in languageData.value then languageData.value[unitId] else map[];
    var unitData := original;
    for lessonIndex := 0 to |unit.lessons|
      invariant unitData == original - LessonIds(unit.lessons[..lessonIndex])
    {
      RemoveOneMore(original, unit.lessons, lessonIndex);
      unitData := unitData - {unit.lessons[lessonIndex].id};
    }
    assert unit.lessons[..|unit.lessons|] == unit.lessons;
    var key := LanguageKey(user, selectedLanguage);
    var languageProgress := user.languageProgress.value[key := languageData.value[unitId := unitData]];
    return Some(Users.CopyWith(user, None, None, None, None, None, Some(languageProgress), None, None, None));
  }

  /** One more iteration of the reset loop removes one more lesson key. */
  lemma RemoveOneMore(original: LessonMap, lessons: seq<Lesson>, i: nat)
    requires i < |lessons|
    ensures original - LessonIds(lessons[..i + 1]) == (original - LessonIds(lessons[..i])) - {lessons[i].id}
  {
    LessonIdsSnoc(lessons[..i + 1]);
    assert lessons[..i + 1][..i] == lessons[..i];
  }

  lemma {:induction false} LessonIdsSnoc(lessons: seq<Lesson>)
    requires lessons != []
    ensures LessonIds(lessons) == LessonIds(lessons[..|lessons| - 1]) + {lessons[|lessons| - 1].id}
  {
    if |lessons| > 1 {
      LessonIdsSnoc(lessons[1..]);
      assert lessons[1..][..|lessons| - 2] == lessons[..|lessons| - 1][1..];
    }
  }

  /** After a restart no lesson of the unit counts as done, so a unit with lessons is not complete. */
  lemma ResetClearsEveryLesson(before: LessonMap, lessons: seq<Lesson>)
    ensures forall i :: 0 <= i < |lessons| ==> !LessonDone(before - LessonIds(lessons), lessons[i])
    ensures lessons != [] ==> !AllDone(before - LessonIds(lessons), lessons)
    ensures FirstMissing(before - LessonIds(lessons), lessons) == (if lessons == [] then None else Some(0))
  {
    if lessons != [] {
      assert !LessonDone(before - LessonIds(lessons), lessons[0]);
    }
  }

  /** `getLanguageCode(selectedLanguage:)`: the recognizer locale of a course language; English otherwise. */
  function LanguageCode(selectedLanguage: string): (r: string)
    ensures selectedLanguage == "German" <==> r == "de-DE"
    ensures selectedLanguage == "French" <==> r == "fr-FR"
    ensures selectedLanguage == "Spanish" <==> r == "es-ES"
    ensures r in {"de-DE", "en-US", "fr-FR", "es-ES"}
  {
    match selectedLanguage
    case "German" => "de-DE"
    case "English" => "en-US"
    case "French" => "fr-FR"
    case "Spanish" => "es-ES"
    case _ => "en-US"
  }

  /**
   * `LessonView`: one pass through a unit. `userModel` is the user as the view received it and
   * is never refreshed; `written` collects the users sent to the database, oldest first.
   */
  class LessonSession {
    const unit: Unit
    const userModel: User
    const selectedLanguage: string
    var currentLesson: int
    var isCompleted: bool
    var written: seq<User>

    predicate Valid()
      reads this
    {
      && UnitIdReadable(userModel, selectedLanguage, unit)
      && 0 <= currentLesson
      && (unit.lessons != [] ==> currentLesson < |unit.lessons|)
    }

    /** The initialiser starts at the first incomplete lesson, or at the first lesson when none is found. */
    constructor(unit: Unit, userModel: User, selectedLanguage: string)
      requires UnitIdReadable(userModel, selectedLanguage, unit)
      ensures Valid()
      ensures this.unit == unit && this.userModel == userModel && this.selectedLanguage == selectedLanguage
      ensures !isCompleted && written == []
      ensures var p := UnitProgress(userModel, selectedLanguage, unit);
        currentLesson == (if p.Some? && FirstMissing(p.value, unit.lessons).Some? then FirstMissing(p.value, unit.lessons).value else 0)
    {
      this.unit := unit;
      this.userModel := userModel;
      this.selectedLanguage := selectedLanguage;
      isCompleted := false;
      written := [];
      var first := FindFirstIncompleteLessonIndex(userModel, selectedLanguage, unit);
      currentLesson := if first.Some? then first.value else 0;
    }

    /** Tapping a lesson button jumps to that lesson. */
    method SelectLesson(lessonIndex: nat)
      requires Valid() && lessonIndex < |unit.lessons|
      modifies this
      ensures Valid() && currentLesson == lessonIndex
      ensures isCompleted == old(isCompleted) && written == old(written)
    {
      currentLesson := lessonIndex;
    }

    /**
     * `nextView`, the exercises' `onFinished`: go on to the next lesson unless this is the last,
     * record the lesson just finished for the freshly fetched user (nothing when the fetch found
     * nobody), and mark the session completed if the unit is complete for the stale `userModel`.
     */
    method NextView(fetched: Option<User>)
      requires Valid() && unit.lessons != []
      requires fetched.Some? ==> unit.id.Some?
      modifies this
      ensures Valid()
      ensures currentLesson == (if old(currentLesson) < |unit.lessons| - 1 then old(currentLesson) + 1 else old(currentLesson))
      ensures written == old(written) +
        (if fetched.Some? then [MarkLessonCompleted(fetched.value, selectedLanguage, unit.id.value, unit.lessons[old(currentLesson)].id)] else [])
      ensures isCompleted == (old(isCompleted) ||
        (UnitProgress(userModel, selectedLanguage, unit).Some? && AllDone(UnitProgress(userModel, selectedLanguage, unit).value, unit.lessons)))
    {
      var completedLessonIndex;
      if currentLesson < |unit.lessons| - 1 {
        currentLesson := currentLesson + 1;
        completedLessonIndex := currentLesson - 1;
      } else {
        completedLessonIndex := currentLesson;
      }
      if fetched.Some? {
        written := written + [MarkLessonCompleted(fetched.value, selectedLanguage, unit.id.value, unit.lessons[completedLessonIndex].id)];
      }
      var complete := IsUnitComplete(userModel, selectedLanguage, unit);
      if complete {
        isCompleted := true;
      }
    }

    /** The completion screen appears when the session or the unit is complete, and rewinds to the first lesson. */
    method ShowCompletion() returns (shown: bool)
      requires Valid()
      modifies this
      ensures Valid()
      ensures shown == (old(isCompleted) ||
        (UnitProgress(userModel, selectedLanguage, unit).Some? && AllDone(UnitProgress(userModel, selectedLanguage, unit).value, unit.lessons)))
      ensures currentLesson == (if shown then 0 else old(currentLesson))
      ensures isCompleted == old(isCompleted) && written == old(written)
    {
      var complete := IsUnitComplete(userModel, selectedLanguage, unit);
      shown := isCompleted || complete;
      if shown {
        currentLesson := 0;
      }
    }
  }

  /** A session opened on a unit whose lessons are all done starts at the first lesson. */
  lemma CompletedUnitStartsAtFirstLesson(unitProgress: LessonMap, lessons: seq<Lesson>)
    requires AllDone(unitProgress, lessons)
    ensures FirstMissing(unitProgress, lessons).None?
  {
    FirstMissingNoneIffAllDone(unitProgress, lessons);
  }
}
