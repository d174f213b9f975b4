/**
 * The authoring screens: the lesson creator, with its unit picker, its three lesson forms and
 * the small card forms that feed them, and the unit creator. Firestore and Storage are
 * reduced to the values they hand back: a fetched document, a download URL per storage path,
 * or an error with its description.
 */
module Authoring {
  import opened Wrappers
  import opened Json
  import opened Lessons
  import Collections
  import Utils

  /** The outcome of a remote call: its value, or the `localizedDescription` of the error it throws. */
  datatype Remote<T> = Ok(value: T) | Thrown(description: string)

  // ---------------------------------------------------------------- unit picker order

  /** `languagesOrder.firstIndex(of:)` over English, German, French, Spanish. */
  function LanguageRank(language: string): (r: Option<nat>)
    ensures r.Some? <==> language in {"English", "German", "French", "Spanish"}
    ensures r.Some? ==> r.value < 4
  {
    if language == "English" then Some(0)
    else if language == "German" then Some(1)
    else if language == "French" then Some(2)
    else if language == "Spanish" then Some(3)
    else None
  }

  /**
   * The picker's `sorted` comparator: false when either language has no rank; within one
   * language the lower unit number first; otherwise the lower language rank first.
   */
  predicate UnitPrecedes(u1: Unit, u2: Unit) {
    match (LanguageRank(u1.language), LanguageRank(u2.language))
    case (Some(i1), Some(i2)) => if i1 == i2 then u1.unitNumber < u2.unitNumber else i1 < i2
    case _ => false
  }

  /** A unit in an unranked language is comparable to nothing. */
  lemma UnrankedUnitsNeverPrecede(u1: Unit, u2: Unit)
    requires LanguageRank(u1.language).None? || LanguageRank(u2.language).None?
    ensures !UnitPrecedes(u1, u2) && !UnitPrecedes(u2, u1)
  {
  }

  /** On ranked units the comparator is the lexicographic order on (language rank, unit number). */
  lemma RankedOrderIsLexicographic(u1: Unit, u2: Unit)
    requires LanguageRank(u1.language).Some? && LanguageRank(u2.language).Some?
    ensures var r1, r2 := LanguageRank(u1.language).value, LanguageRank(u2.language).value;
      UnitPrecedes(u1, u2) <==> (r1 < r2 || (r1 == r2 && u1.unitNumber < u2.unitNumber))
  {
  }

  /** The comparator is a strict order: irreflexive, asymmetric and transitive. */
  lemma UnitPrecedesIsStrictOrder(u1: Unit, u2: Unit, u3: Unit)
    ensures !UnitPrecedes(u1, u1)
    ensures UnitPrecedes(u1, u2) ==> !UnitPrecedes(u2, u1)
    ensures UnitPrecedes(u1, u2) && UnitPrecedes(u2, u3) ==> UnitPrecedes(u1, u3)
  {
  }

  /** Neither unit precedes the other. */
  predicate Incomparable(u1: Unit, u2: Unit) {
    !UnitPrecedes(u1, u2) && !UnitPrecedes(u2, u1)
  }

  /**
   * Among ranked units, being incomparable is transitive (it means: same language, same
   * number), so on the four course languages the comparator is a strict weak ordering, as
   * `sorted(by:)` requires.
   */
  lemma RankedIncomparabilityIsTransitive(u1: Unit, u2: Unit, u3: Unit)
    requires LanguageRank(u1.language).Some? && LanguageRank(u2.language).Some? && LanguageRank(u3.language).Some?
    ensures Incomparable(u1, u2) <==> (u1.language == u2.language && u1.unitNumber == u2.unitNumber)
    ensures Incomparable(u1, u2) && Incomparable(u2, u3) ==> Incomparable(u1, u3)
  {
    RankedOrderIsLexicographic(u1, u2);
    RankedOrderIsLexicographic(u2, u1);
  }

  /**
   * With a unit in a language outside the four, incomparability stops being transitive: an
   * Italian unit ties with an English and a German one that are themselves ordered.
   */
  lemma UnrankedLanguageBreaksWeakOrder(u1: Unit, u2: Unit, u3: Unit)
    requires u1.language == "English" && u2.language == "Italian" && u3.language == "German"
    ensures Incomparable(u1, u2) && Incomparable(u2, u3) && UnitPrecedes(u1, u3)
  {
  }

  /** `units.first(where: { $0.unitNumber == 1 && $0.language == "English" })`, else the current selection. */
  function InitialUnit(units: seq<Unit>, current: Option<Unit>): (r: Option<Unit>)
    ensures (exists i :: 0 <= i < |units| && IsFirstEnglishUnit(units[i])) ==>
      (exists i :: 0 <= i < |units| && r == Some(units[i]) && IsFirstEnglishUnit(units[i]) &&
        forall j :: 0 <= j < i ==> !IsFirstEnglishUnit(units[j]))
    ensures (forall i :: 0 <= i < |units| ==> !IsFirstEnglishUnit(units[i])) ==> r == current
  {
    if units == [] then current
    else if IsFirstEnglishUnit(units[0]) then Some(units[0])
    else
      var r := InitialUnit(units[1..], current);
      assert forall i :: 0 < i < |units| ==> units[i] == units[1..][i - 1];
      r
  }

  predicate IsFirstEnglishUnit(u: Unit) {
    u.unitNumber == 1 && u.language == "English"
  }

  // ---------------------------------------------------------------- next lesson number

  /** `(lesson as? [String: Any])?["lessonNumber"] as? Int` */
  function LessonNumberOf(v: Value): Option<int> {
    if v.Obj? then GetInt(v.fields, "lessonNumber") else None
  }

  function MaxOf(xs: seq<int>): (m: int)
    requires xs != []
    ensures m in xs
    ensures forall i :: 0 <= i < |xs| ==> xs[i] <= m
  {
    if |xs| == 1 then xs[0]
    else
      var m := MaxOf(xs[1..]);
      assert forall i :: 1 <= i < |xs| ==> xs[i] == xs[1..][i - 1];
      if xs[0] >= m then xs[0] else m
  }

  /**
   * `fetchHighestLessonNumber(docId:)` on the unit's document data (`None` when the document is
   * missing): no number without a `lessons` array, 0 for an empty one, otherwise one more than
   * the largest integer `lessonNumber`, and no number when no entry carries one.
   */
  function NextLessonNumber(document: Option<Dict>): (r: Option<int>)
    ensures document.None? ==> r.None?
    ensures document.Some? && !("lessons" in document.value && document.value["lessons"].Arr?) ==> r.None?
    ensures document.Some? && "lessons" in document.value && document.value["lessons"] == Arr([]) ==> r == Some(0)
    ensures (document.Some? && "lessons" in document.value && document.value["lessons"].Arr? &&
             exists v :: v in document.value["lessons"].items && LessonNumberOf(v).Some?) ==> r.Some?
    ensures r.Some? && document.value["lessons"].items != [] ==>
      exists v :: v in document.value["lessons"].items && LessonNumberOf(v) == Some(r.value - 1)
    ensures r.Some? ==> forall v :: v in document.value["lessons"].items && LessonNumberOf(v).Some? ==> LessonNumberOf(v).value < r.value
  {
    match document
    case None => None
    case Some(d) =>
      if !("lessons" in d && d["lessons"].Arr?) then None
      else if d["lessons"].items == [] then Some(0)
      else
        var items := d["lessons"].items;
        var numbers := Collections.CompactMap(items, LessonNumberOf);
        CompactMapMembership(items, numbers);
        if numbers == [] then None
        else Some(MaxOf(numbers) + 1)
  }

  lemma CompactMapMembership(items: seq<Value>, numbers: seq<int>)
    requires numbers == Collections.CompactMap(items, LessonNumberOf)
    ensures forall v :: v in items && LessonNumberOf(v).Some? ==> LessonNumberOf(v).value in numbers
    ensures forall n :: n in numbers ==> exists v :: v in items && LessonNumberOf(v) == Some(n)
  {
    Collections.CompactMapKeeps(items, LessonNumberOf);
  }

  /** The number handed to a new lesson is taken by no stored lesson. */
  lemma NextLessonNumberIsFresh(document: Dict)
    requires NextLessonNumber(Some(document)).Some?
    ensures forall v :: v in document["lessons"].items ==> LessonNumberOf(v) != NextLessonNumber(Some(document))
  {
  }

  /** Entries without an integer `lessonNumber` are skipped; a lessons array of only such entries yields no number. */
  lemma UnnumberedLessonsGiveNoNumber(document: Dict, entries: seq<Value>)
    requires entries != [] && forall i :: 0 <= i < |entries| ==> LessonNumberOf(entries[i]).None?
    requires "lessons" in document && document["lessons"] == Arr(entries)
    ensures NextLessonNumber(Some(document)).None?
  {
    Collections.CompactMapAllAbsent(entries, LessonNumberOf);
  }

  // ---------------------------------------------------------------- card forms

  /** What "Add Model" hands to its lesson form: a fresh id, the text and the two blobs. */
  datatype Draft = Draft(id: string, text: string, imageData: Data, audioData: Data)

  /** The listening card built from a draft: no URLs yet, the blobs kept for the upload. */
  function ListeningDraftCard(d: Draft): (c: ListeningCard)
    ensures c.id == d.id && c.text == d.text && c.audioUrl.None? && c.imageUrl.None?
    ensures c.imageData == Some(d.imageData) && c.audioData == Some(d.audioData)
  {
    ListeningCard(d.id, d.text, None, None, Some(d.imageData), Some(d.audioData))
  }

  /** The speaking card built from a draft: no URLs yet, not completed, the blobs kept. */
  function SpeakingDraftCard(d: Draft): (c: SpeakingCard)
    ensures c.id == d.id && c.text == d.text && c.audioUrl.None? && c.imageUrl.None? && !c.completed
    ensures c.imageData == Some(d.imageData) && c.audioData == Some(d.audioData)
  {
    SpeakingCard(d.id, d.text, None, None, false, Some(d.imageData), Some(d.audioData))
  }

  /** The draft "Add Model" produces from the form's fields, if all three are filled in. */
  function Submitted(text: string, image: Option<Data>, audio: Option<Data>, id: string): (r: Option<Draft>)
    ensures r.Some? <==> text != "" && image.Some? && audio.Some?
    ensures r.Some? ==> r.value.id == id && r.value.text == text && r.value.imageData == image.value && r.value.audioData == audio.value
  {
    if text != "" && image.Some? && audio.Some? then Some(Draft(id, text, image.value, audio.value)) else None
  }

  /**
   * `MiniListeningForm` / `MiniSpeakingForm`: the text field, the dropped picture (as its JPEG
   * data) and the dropped recording, with the form's alert and banner.
   */
  class CardForm {
    var text: string
    var image: Option<Data>
    var audio: Option<Data>
    var errorMessage: string
    var showErrorAlert: bool
    var showSuccessMessage: bool

    constructor()
      ensures text == "" && image.None? && audio.None?
      ensures errorMessage == "" && !showErrorAlert && !showSuccessMessage
    {
      text, image, audio := "", None, None;
      errorMessage, showErrorAlert, showSuccessMessage := "", false, false;
    }

    /**
     * The "Add Model" button. The text is checked first, then the picture, then the
     * recording; on success the draft comes out and the form is cleared.
     */
    method Submit(newId: string) returns (draft: Option<Draft>)
      modifies this
      ensures draft == Submitted(old(text), old(image), old(audio), newId)
      ensures old(text) == "" ==>
        draft.None? && errorMessage == "Text cannot be empty" && showErrorAlert &&
        text == old(text) && image == old(image) && audio == old(audio) && showSuccessMessage == old(showSuccessMessage)
      ensures old(text) != "" && old(image).None? ==>
        draft.None? && errorMessage == "Failed to convert image to data" && showErrorAlert &&
        text == old(text) && image == old(image) && audio == old(audio) && showSuccessMessage == old(showSuccessMessage)
      ensures old(text) != "" && old(image).Some? && old(audio).None? ==>
        draft.None? && errorMessage == "Failed to load audio" && showErrorAlert &&
        text == old(text) && image == old(image) && audio == old(audio) && showSuccessMessage == old(showSuccessMessage)
      ensures old(text) != "" && old(image).Some? && old(audio).Some? ==>
        draft == Some(Draft(newId, old(text), old(image).value, old(audio).value)) &&
        text == "" && image.None? && audio.None? && showSuccessMessage &&
        errorMessage == old(errorMessage) && showErrorAlert == old(showErrorAlert)
    {
      if text == "" {
        errorMessage := "Text cannot be empty";
        showErrorAlert := true;
        return None;
      }
      if image.None? {
        errorMessage := "Failed to convert image to data";
        showErrorAlert := true;
        return None;
      }
      if audio.None? {
        errorMessage := "Failed to load audio";
        showErrorAlert := true;
        return None;
      }
      draft := Some(Draft(newId, text, image.value, audio.value));
      text, image, audio := "", None, None;
      showSuccessMessage := true;
    }
  }

  // ---------------------------------------------------------------- lesson forms

  /** Which of a lesson form's card lists a card form appends to. */
  datatype CardList = BackList | ForeList | SpeakingList

  /** The fewest cards each lesson kind accepts. */
  predicate MeetsMinimum(kind: Skill, back: nat, fore: nat, speaking: nat) {
    match kind
    case Listening => back >= 2 && fore >= 2
    case ListeningFour => fore >= 4
    case Speaking => speaking >= 4
  }

  function MinimumMessage(kind: Skill): string {
    match kind
    case Listening => "Please add at least two back and fore models."
    case ListeningFour => "Please add at least four fore models."
    case Speaking => "Please add at least four speaking models."
  }

  /** A listening card after its upload: both URLs are the download URLs of its two storage paths. */
  function UploadedListening(c: ListeningCard, unit: Unit, lessonNumber: int, upload: string -> Url): ListeningCard {
    c.(imageUrl := Some(upload(Utils.ImageFilePath(unit, lessonNumber, c.id))),
       audioUrl := Some(upload(Utils.AudioPath(unit, lessonNumber, c.id))))
  }

  function UploadedSpeaking(c: SpeakingCard, unit: Unit, lessonNumber: int, upload: string -> Url): SpeakingCard {
    c.(imageUrl := Some(upload(Utils.ImageFilePath(unit, lessonNumber, c.id))),
       audioUrl := Some(upload(Utils.AudioPath(unit, lessonNumber, c.id))))
  }

  function UploadedListeningCards(cards: seq<ListeningCard>, unit: Unit, lessonNumber: int, upload: string -> Url): seq<ListeningCard> {
    seq(|cards|, i requires 0 <= i < |cards| => UploadedListening(cards[i], unit, lessonNumber, upload))
  }

  function UploadedSpeakingCards(cards: seq<SpeakingCard>, unit: Unit, lessonNumber: int, upload: string -> Url): seq<SpeakingCard> {
    seq(|cards|, i requires 0 <= i < |cards| => UploadedSpeaking(cards[i], unit, lessonNumber, upload))
  }

  /**
   * Uploading keeps every card, in order, with its id, text and blobs, and gives it the download
   * URLs of its own picture and recording paths.
   */
  lemma UploadKeepsCards(cards: seq<ListeningCard>, speaking: seq<SpeakingCard>, unit: Unit, lessonNumber: int, upload: string -> Url)
    ensures var u := UploadedListeningCards(cards, unit, lessonNumber, upload);
      |u| == |cards| &&
      forall i :: 0 <= i < |cards| ==>
        u[i].id == cards[i].id && u[i].text == cards[i].text &&
        u[i].imageData == cards[i].imageData && u[i].audioData == cards[i].audioData &&
        u[i].imageUrl == Some(upload(Utils.ImageFilePath(unit, lessonNumber, cards[i].id))) &&
        u[i].audioUrl == Some(upload(Utils.AudioPath(unit, lessonNumber, cards[i].id)))
    ensures var v := UploadedSpeakingCards(speaking, unit, lessonNumber, upload);
      |v| == |speaking| &&
      forall i :: 0 <= i < |speaking| ==>
        v[i].id == speaking[i].id && v[i].text == speaking[i].text && v[i].completed == speaking[i].completed &&
        v[i].imageUrl == Some(upload(Utils.ImageFilePath(unit, lessonNumber, speaking[i].id))) &&
        v[i].audioUrl == Some(upload(Utils.AudioPath(unit, lessonNumber, speaking[i].id)))
  {
  }

  /** The asset loop of the listening forms, updating the lesson's cards one by one. */
  method UploadListeningCards(cards: seq<ListeningCard>, unit: Unit, lessonNumber: int, upload: string -> Url)
    returns (uploaded: seq<ListeningCard>)
    ensures uploaded == UploadedListeningCards(cards, unit, lessonNumber, upload)
  {
    uploaded := cards;
    for i := 0 to |cards|
      invariant |uploaded| == |cards|
      invariant forall j :: 0 <= j < i ==> uploaded[j] == UploadedListening(cards[j], unit, lessonNumber, upload)
      invariant forall j :: i <= j < |cards| ==> uploaded[j] == cards[j]
    {
      var model := uploaded[i];
      var imageUrl := upload(Utils.ImageFilePath(unit, lessonNumber, model.id));
      var audioUrl := upload(Utils.AudioPath(unit, lessonNumber, model.id));
      uploaded := uploaded[i := model.(imageUrl := Some(imageUrl), audioUrl := Some(audioUrl))];
    }
  }

  /** The asset loop of the speaking form. */
  method UploadSpeakingCards(cards: seq<SpeakingCard>, unit: Unit, lessonNumber: int, upload: string -> Url)
    returns (uploaded: seq<SpeakingCard>)
    ensures uploaded == UploadedSpeakingCards(cards, unit, lessonNumber, upload)
  {
    uploaded := cards;
    for i := 0 to |cards|
      invariant |uploaded| == |cards|
      invariant forall j :: 0 <= j < i ==> uploaded[j] == UploadedSpeaking(cards[j], unit, lessonNumber, upload)
      invariant forall j :: i <= j < |cards| ==> uploaded[j] == cards[j]
    {
      var model := uploaded[i];
      var imageUrl := upload(Utils.ImageFilePath(unit, lessonNumber, model.id));
      var audioUrl := upload(Utils.AudioPath(unit, lessonNumber, model.id));
      uploaded := uploaded[i := model.(imageUrl := Some(imageUrl), audioUrl := Some(audioUrl))];
    }
  }

  /** The lesson a form of `kind` builds: its constructor with the new id and number, and the uploaded cards. */
  function NewLesson(
    kind: Skill, id: string, lessonNumber: int,
    back: seq<ListeningCard>, fore: seq<ListeningCard>, speaking: seq<SpeakingCard>,
    unit: Unit, upload: string -> Url): (l: Lesson)
    ensures l.id == id && l.lessonNumber == lessonNumber && l.skill == kind && KindOf(l) == kind
  {
    match kind
    case Listening =>
      GListening(id, lessonNumber, Listening,
        UploadedListeningCards(back, unit, lessonNumber, upload), UploadedListeningCards(fore, unit, lessonNumber, upload))
    case ListeningFour =>
      GListeningFour(id, lessonNumber, ListeningFour, UploadedListeningCards(fore, unit, lessonNumber, upload))
    case Speaking =>
      GSpeaking(id, lessonNumber, Speaking, UploadedSpeakingCards(speaking, unit, lessonNumber, upload))
  }

  /** The lesson, built as `createLesson` builds it: the kind's constructor, then the asset loops. */
  method BuildLesson(
    kind: Skill, id: string, lessonNumber: int,
    back: seq<ListeningCard>, fore: seq<ListeningCard>, speaking: seq<SpeakingCard>,
    unit: Unit, upload: string -> Url)
    returns (l: Lesson)
    ensures l == NewLesson(kind, id, lessonNumber, back, fore, speaking, unit, upload)
  {
    match kind
    case Listening =>
      var uploadedBack := UploadListeningCards(back, unit, lessonNumber, upload);
      var uploadedFore := UploadListeningCards(fore, unit, lessonNumber, upload);
      l := GListening(id, lessonNumber, Listening, uploadedBack, uploadedFore);
    case ListeningFour =>
      var uploadedFore := UploadListeningCards(fore, unit, lessonNumber, upload);
      l := GListeningFour(id, lessonNumber, ListeningFour, uploadedFore);
    case Speaking =>
      var cards := UploadSpeakingCards(speaking, unit, lessonNumber, upload);
      l := GSpeaking(id, lessonNumber, Speaking, cards);
  }

  /** Cards that went through "Add Model" carry both blobs, as the uploads' force-unwraps demand. */
  predicate HasBlobs(c: ListeningCard) {
    c.imageData.Some? && c.audioData.Some?
  }

  predicate SpeakingHasBlobs(c: SpeakingCard) {
    c.imageData.Some? && c.audioData.Some?
  }

  predicate AllHaveBlobs(cards: seq<ListeningCard>) {
    forall i :: 0 <= i < |cards| ==> HasBlobs(cards[i])
  }

  predicate AllSpeakingHaveBlobs(cards: seq<SpeakingCard>) {
    forall i :: 0 <= i < |cards| ==> SpeakingHasBlobs(cards[i])
  }

  /** What Firestore answers while a lesson is being created. */
  datatype Backend = Backend(
    lessonDocument: Remote<Option<Dict>>,   // the selected unit's document data
    newId: string,                          // `UUID().uuidString` of the lesson
    upload: string -> Url,                  // the download URL of an uploaded storage path
    storedUnit: Remote<Unit>,               // `fetchUnitByDocId`
    updateFailure: Option<string>)          // the error of `updateUnitInFirestore`, if it throws

  /** How a press of the "Add ... Lesson" button ends. */
  datatype Outcome =
    | TooFewCards                      // the kind's minimum is not met
    | NoUnit                           // no unit is selected
    | Failed(description: string)      // a remote call threw, or there is no lesson number
    | Created(lesson: Lesson, unit: Unit)

  /** The outcome of `createLesson()` for the queued cards, the selected unit and the backend's answers. */
  function LessonOutcome(
    kind: Skill, back: seq<ListeningCard>, fore: seq<ListeningCard>, speaking: seq<SpeakingCard>,
    selectedUnit: Option<Unit>, backend: Backend): Outcome
  {
    if !MeetsMinimum(kind, |back|, |fore|, |speaking|) then TooFewCards
    else if selectedUnit.None? then NoUnit
    else if backend.lessonDocument.Thrown? then Failed(backend.lessonDocument.description)
    else if NextLessonNumber(backend.lessonDocument.value).None? then Failed("Failed to get Lesson Number")
    else if backend.storedUnit.Thrown? then Failed(backend.storedUnit.description)
    else if backend.updateFailure.Some? then Failed(backend.updateFailure.value)
    else
      var lesson := NewLesson(kind, backend.newId, NextLessonNumber(backend.lessonDocument.value).value,
        back, fore, speaking, selectedUnit.value, backend.upload);
      Created(lesson, backend.storedUnit.value.(lessons := backend.storedUnit.value.lessons + [lesson]))
  }

  /**
   * A lesson is created only with enough cards, a selected unit and a lesson number; it is
   * then the last lesson of the unit as fetched again, whose other fields and earlier lessons
   * stay as fetched, and it carries the next lesson number and the form's kind.
   */
  lemma CreatedLessonIsAppended(
    kind: Skill, back: seq<ListeningCard>, fore: seq<ListeningCard>, speaking: seq<SpeakingCard>,
    selectedUnit: Option<Unit>, backend: Backend)
    requires LessonOutcome(kind, back, fore, speaking, selectedUnit, backend).Created?
    ensures var o := LessonOutcome(kind, back, fore, speaking, selectedUnit, backend);
      && MeetsMinimum(kind, |back|, |fore|, |speaking|) && selectedUnit.Some?
      && backend.lessonDocument.Ok? && backend.storedUnit.Ok? && backend.updateFailure.None?
      && o.unit.lessons[..|o.unit.lessons| - 1] == backend.storedUnit.value.lessons
      && o.unit.lessons[|o.unit.lessons| - 1] == o.lesson
      && o.unit.(lessons := backend.storedUnit.value.lessons) == backend.storedUnit.value
      && Some(o.lesson.lessonNumber) == NextLessonNumber(backend.lessonDocument.value)
      && o.lesson.id == backend.newId && KindOf(o.lesson) == kind
  {
    var o := LessonOutcome(kind, back, fore, speaking, selectedUnit, backend);
    assert o.unit.lessons[..|o.unit.lessons| - 1] == backend.storedUnit.value.lessons;
  }

  /** Below the kind's minimum the outcome is the minimum error, whatever the backend would answer. */
  lemma TooFewCardsWhateverTheBackend(
    kind: Skill, back: seq<ListeningCard>, fore: seq<ListeningCard>, speaking: seq<SpeakingCard>,
    selectedUnit: Option<Unit>, backend: Backend, backend': Backend)
    ensures LessonOutcome(kind, back, fore, speaking, selectedUnit, backend).TooFewCards? <==>
      !MeetsMinimum(kind, |back|, |fore|, |speaking|)
    ensures LessonOutcome(kind, back, fore, speaking, selectedUnit, backend).TooFewCards? ==>
      LessonOutcome(kind, back, fore, speaking, selectedUnit, backend').TooFewCards?
  {
  }

  /** The minimums, count by count: a listening lesson of one back card is refused, one of two and two is not. */
  lemma MinimumsByKind(back: nat, fore: nat, speaking: nat)
    ensures MeetsMinimum(Listening, back, fore, speaking) <==> back >= 2 && fore >= 2
    ensures MeetsMinimum(ListeningFour, back, fore, speaking) <==> fore >= 4
    ensures MeetsMinimum(Speaking, back, fore, speaking) <==> speaking >= 4
  {
  }

  /**
   * `ListeningLessonForm`, `ListeningFourLessonForm` and `SpeakingLessonForm`, told apart by
   * `kind`: the card lists filled by the card forms, the unit bound from the lesson creator,
   * the alert and banner, and the units written back, oldest first.
   */
  class LessonForm {
    const kind: Skill
    var selectedUnit: Option<Unit>
    var backModels: seq<ListeningCard>
    var foreModels: seq<ListeningCard>
    var models: seq<SpeakingCard>
    var errorMessage: string
    var showErrorAlert: bool
    var showSuccessMessage: bool
    var written: seq<Unit>

    /** Every queued card can be uploaded, and the bound unit has a document id. */
    predicate Valid()
      reads this
    {
      && AllHaveBlobs(backModels) && AllHaveBlobs(foreModels) && AllSpeakingHaveBlobs(models)
      && (selectedUnit.Some? ==> selectedUnit.value.id.Some?)
    }

    constructor(kind: Skill, selectedUnit: Option<Unit>)
      requires selectedUnit.Some? ==> selectedUnit.value.id.Some?
      ensures Valid()
      ensures this.kind == kind && this.selectedUnit == selectedUnit
      ensures backModels == [] && foreModels == [] && models == [] && written == []
      ensures errorMessage == "" && !showErrorAlert && !showSuccessMessage
    {
      this.kind := kind;
      this.selectedUnit := selectedUnit;
      backModels, foreModels, models, written := [], [], [], [];
      errorMessage, showErrorAlert, showSuccessMessage := "", false, false;
    }

    /** A card form bound to one of the lists: what it submits is appended there, and only there. */
    method AddModel(form: CardForm, list: CardList, newId: string)
      requires Valid()
      modifies this, form
      ensures Valid()
      ensures var d := Submitted(old(form.text), old(form.image), old(form.audio), newId);
        backModels == old(backModels) + (if list == BackList && d.Some? then [ListeningDraftCard(d.value)] else []) &&
        foreModels == old(foreModels) + (if list == ForeList && d.Some? then [ListeningDraftCard(d.value)] else []) &&
        models == old(models) + (if list == SpeakingList && d.Some? then [SpeakingDraftCard(d.value)] else [])
      ensures selectedUnit == old(selectedUnit) && written == old(written)
      ensures errorMessage == old(errorMessage) && showErrorAlert == old(showErrorAlert)
      ensures showSuccessMessage == old(showSuccessMessage)
    {
      var draft := form.Submit(newId);
      if draft.Some? {
        match list
        case BackList => backModels := backModels + [ListeningDraftCard(draft.value)];
        case ForeList => foreModels := foreModels + [ListeningDraftCard(draft.value)];
        case SpeakingList => models := models + [SpeakingDraftCard(draft.value)];
      }
    }

    /**
     * `createLesson()`, against `LessonOutcome`: the minimum error; nothing at all without a
     * unit; the error alert when a call throws; and on success the unit written back, the
     * kind's card lists cleared and the banner shown. The lists and `written` change only then.
     */
    method CreateLesson(backend: Backend)
      requires Valid()
      modifies this
      ensures Valid()
      ensures selectedUnit == old(selectedUnit)
      ensures var o := LessonOutcome(kind, old(backModels), old(foreModels), old(models), old(selectedUnit), backend);
        && (o.TooFewCards? ==> errorMessage == MinimumMessage(kind) && showErrorAlert)
        && (o.NoUnit? ==> errorMessage == old(errorMessage) && showErrorAlert == old(showErrorAlert))
        && (o.Failed? ==> errorMessage == "Failed to create lesson: " + o.description && showErrorAlert)
        && (!o.Created? ==>
              written == old(written) && backModels == old(backModels) && foreModels == old(foreModels) &&
              models == old(models) && showSuccessMessage == old(showSuccessMessage))
        && (o.Created? ==>
              written == old(written) + [o.unit] && showSuccessMessage &&
              errorMessage == old(errorMessage) && showErrorAlert == old(showErrorAlert) &&
              models == (if kind == Speaking then [] else old(models)) &&
              foreModels == (if kind == Speaking then old(foreModels) else []) &&
              backModels == (if kind == Listening then [] else old(backModels)))
    {
      if !MeetsMinimum(kind, |backModels|, |foreModels|, |models|) {
        errorMessage := MinimumMessage(kind);
        showErrorAlert := true;
        return;
      }
      if selectedUnit.None? {
        return;
      }
      var unit := selectedUnit.value;
      if backend.lessonDocument.Thrown? {
        Fail(backend.lessonDocument.description);
        return;
      }
      var lessonNumber := NextLessonNumber(backend.lessonDocument.value);
      if lessonNumber.None? {
        Fail("Failed to get Lesson Number");
        return;
      }
      var lesson := BuildLesson(kind, backend.newId, lessonNumber.value, backModels, foreModels, models, unit, backend.upload);
      if backend.storedUnit.Thrown? {
        Fail(backend.storedUnit.description);
        return;
      }
      var updatedUnit := backend.storedUnit.value.(lessons := backend.storedUnit.value.lessons + [lesson]);
      if backend.updateFailure.Some? {
        Fail(backend.updateFailure.value);
        return;
      }
      Publish(updatedUnit);
    }

    method Fail(description: string)
      modifies this
      ensures errorMessage == "Failed to create lesson: " + description && showErrorAlert
      ensures selectedUnit == old(selectedUnit) && backModels == old(backModels) && foreModels == old(foreModels)
      ensures models == old(models) && showSuccessMessage == old(showSuccessMessage) && written == old(written)
    {
      errorMessage := "Failed to create lesson: " + description;
      showErrorAlert := true;
    }

    /** The unit is written; only then are the kind's card lists cleared and the banner shown. */
    method Publish(updatedUnit: Unit)
      requires Valid()
      modifies this
      ensures Valid()
      ensures written == old(written) + [updatedUnit] && showSuccessMessage
      ensures selectedUnit == old(selectedUnit) && errorMessage == old(errorMessage) && showErrorAlert == old(showErrorAlert)
      ensures models == (if kind == Speaking then [] else old(models))
      ensures foreModels == (if kind == Speaking then old(foreModels) else [])
      ensures backModels == (if kind == Listening then [] else old(backModels))
    {
      written := written + [updatedUnit];
      showSuccessMessage := true;
      match kind
      case Listening =>
        backModels := [];
        foreModels := [];
      case ListeningFour =>
        foreModels := [];
      case Speaking =>
        models := [];
    }
  }

  // ---------------------------------------------------------------- unit creation

  /** `Language`: the four course languages; `id` is the raw value. */
  datatype CourseLanguage = English | German | French | Spanish

  const AllLanguages: seq<CourseLanguage> := [English, German, French, Spanish]

  function LanguageRaw(l: CourseLanguage): string {
    match l
    case English => "English"
    case German => "German"
    case French => "French"
    case Spanish => "Spanish"
  }

  function LanguageId(l: CourseLanguage): string {
    LanguageRaw(l)
  }

  /** `rawValue.lowercased()` of each case. */
  function LanguageLowercased(l: CourseLanguage): string {
    match l
    case English => "english"
    case German => "german"
    case French => "french"
    case Spanish => "spanish"
  }

  function LanguageFromRaw(s: string): (r: Option<CourseLanguage>)
    ensures r.Some? ==> LanguageRaw(r.value) == s
  {
    if s == "English" then Some(English)
    else if s == "German" then Some(German)
    else if s == "French" then Some(French)
    else if s == "Spanish" then Some(Spanish)
    else None
  }

  /** The raw values are distinct, read back to their case, serve as ids, and are exactly the ranked languages. */
  lemma LanguageRawValues(l: CourseLanguage, m: CourseLanguage)
    ensures LanguageRaw(l) == LanguageRaw(m) ==> l == m
    ensures LanguageFromRaw(LanguageRaw(l)) == Some(l)
    ensures LanguageId(l) == LanguageRaw(l)
    ensures LanguageRank(LanguageRaw(l)).Some?
    ensures l in AllLanguages
  {
  }

  /** `fetchHighestUnitNumber` from the first document of its query: 0 with none, its integer `unitNumber`, else nothing. */
  function HighestUnitNumber(top: Option<Dict>): (r: Option<int>)
    ensures top.None? ==> r == Some(0)
    ensures top.Some? ==> r == GetInt(top.value, "unitNumber")
  {
    match top
    case None => Some(0)
    case Some(d) => GetInt(d, "unitNumber")
  }

  /** A document the query keeps: of the language, with an integer unit number. */
  predicate InQuery(d: Dict, language: string) {
    GetString(d, "language") == Some(language) && GetInt(d, "unitNumber").Some?
  }

  /**
   * The query `whereField("language") ... order(by: "unitNumber", descending: true).limit(to: 1)`
   * over documents whose unit numbers are integers: a kept document with the largest number.
   */
  function QueryTop(docs: seq<Dict>, language: string): (r: Option<Dict>)
    ensures r.None? <==> forall i :: 0 <= i < |docs| ==> !InQuery(docs[i], language)
    ensures r.Some? ==> r.value in docs && InQuery(r.value, language)
    ensures r.Some? ==> forall i :: 0 <= i < |docs| && InQuery(docs[i], language) ==>
      GetInt(docs[i], "unitNumber").value <= GetInt(r.value, "unitNumber").value
  {
    if docs == [] then None
    else
      var rest := QueryTop(docs[1..], language);
      assert forall i :: 1 <= i < |docs| ==> docs[i] == docs[1..][i - 1];
      if !InQuery(docs[0], language) then rest
      else if rest.None? || GetInt(docs[0], "unitNumber").value >= GetInt(rest.value, "unitNumber").value then Some(docs[0])
      else rest
  }

  /** The highest number is the largest unit number of the language, and 0 for a language without units. */
  lemma HighestIsLargestOfLanguage(docs: seq<Dict>, language: string)
    ensures var h := HighestUnitNumber(QueryTop(docs, language));
      h.Some? &&
      (forall i :: 0 <= i < |docs| && InQuery(docs[i], language) ==> GetInt(docs[i], "unitNumber").value <= h.value) &&
      ((exists i :: 0 <= i < |docs| && InQuery(docs[i], language) && GetInt(docs[i], "unitNumber") == h) ||
       (h == Some(0) && forall i :: 0 <= i < |docs| ==> !InQuery(docs[i], language)))
  {
    var top := QueryTop(docs, language);
    if top.Some? {
      var i :| 0 <= i < |docs| && docs[i] == top.value;
      assert InQuery(docs[i], language);
    }
  }

  /** `UnitCreationView`: the form fields, the two alerts, and what was uploaded and added. */
  class UnitCreationForm {
    var title: string
    var selectedLanguage: CourseLanguage
    /** The dropped picture, as its JPEG data. */
    var image: Option<Data>
    const lessons: seq<Lesson>
    var showSuccess: bool
    var showError: bool
    var errorDescription: Option<string>
    /** Storage paths uploaded to, oldest first. */
    var uploadedPaths: seq<string>
    /** Units added to the `units` collection, oldest first. */
    var created: seq<Unit>

    constructor()
      ensures title == "" && selectedLanguage == English && image.None? && lessons == []
      ensures !showSuccess && !showError && errorDescription.None? && uploadedPaths == [] && created == []
    {
      title, selectedLanguage, image, lessons := "", English, None, [];
      showSuccess, showError, errorDescription := false, false, None;
      uploadedPaths, created := [], [];
    }

    /**
     * `createUnit()`: with a title and a picture, number the unit one past the highest of its
     * language, upload the cover and add the unit. A number that is not an integer stops it
     * silently; a thrown error shows the error alert.
     */
    method CreateUnit(query: Remote<Option<Dict>>, newId: string, upload: string -> Url, uploadFailure: Option<string>)
      returns (unit: Option<Unit>)
      modifies this
      ensures title == old(title) && selectedLanguage == old(selectedLanguage) && image == old(image)
      ensures old(title) == "" || old(image).None? ==>
        unit.None? && created == old(created) && uploadedPaths == old(uploadedPaths) &&
        showSuccess == old(showSuccess) && showError == old(showError) && errorDescription == old(errorDescription)
      ensures query.Ok? && HighestUnitNumber(query.value).None? ==>
        unit.None? && created == old(created) && uploadedPaths == old(uploadedPaths) &&
        showSuccess == old(showSuccess) && showError == old(showError)
      ensures unit.None? ==> created == old(created)
      ensures unit.Some? ==>
        (old(title) != "" && old(image).Some? && query.Ok? && HighestUnitNumber(query.value).Some? &&
          uploadFailure.None? && created == old(created) + [unit.value] && showSuccess &&
          var n := HighestUnitNumber(query.value).value + 1;
          uploadedPaths == old(uploadedPaths) + [Utils.UnitImagePath(n, LanguageLowercased(selectedLanguage))] &&
          unit.value == Unit(Some(newId), "Unit " + Utils.IntToString(n), n, old(title),
            upload(Utils.UnitImagePath(n, LanguageLowercased(selectedLanguage))), lessons, LanguageRaw(selectedLanguage)))
      ensures (old(title) != "" && old(image).Some? && query.Ok? && HighestUnitNumber(query.value).Some? &&
        uploadFailure.None?) ==> unit.Some?
      ensures (old(title) != "" && old(image).Some? && (query.Thrown? || uploadFailure.Some?) &&
        !(query.Ok? && HighestUnitNumber(query.value).None?)) ==>
        unit.None? && showError && errorDescription == Some(if query.Thrown? then query.description else uploadFailure.value)
    {
      if title == "" || image.None? {
        return None;
      }
      if query.Thrown? {
        errorDescription := Some(query.description);
        showError := true;
        return None;
      }
      var highestUnitNumber := HighestUnitNumber(query.value);
      if highestUnitNumber.None? {
        return None;
      }
      var newUnitNumber := highestUnitNumber.value + 1;
      var path := Utils.UnitImagePath(newUnitNumber, LanguageLowercased(selectedLanguage));
      if uploadFailure.Some? {
        errorDescription := uploadFailure;
        showError := true;
        return None;
      }
      uploadedPaths := uploadedPaths + [path];
      var imageUrl := upload(path);
      var u := Unit(Some(newId), "Unit " + Utils.IntToString(newUnitNumber), newUnitNumber, title, imageUrl,
        lessons, LanguageRaw(selectedLanguage));
      created := created + [u];
      showSuccess := true;
      unit := Some(u);
    }
  }

  /** The created unit's name carries its number, which reads back from the name. */
  lemma UnitNameCarriesNumber(n: int)
    ensures var name := "Unit " + Utils.IntToString(n);
      name[..5] == "Unit " && Utils.ParseInt(name[5..]) == Some(n)
  {
    var name := "Unit " + Utils.IntToString(n);
    assert name[5..] == Utils.IntToString(n);
    Utils.IntToStringRoundTrip(n);
  }
}
