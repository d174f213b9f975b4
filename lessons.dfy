/**
 * The lesson content model: the skill enumeration, the listening and speaking cards, the
 * three lesson kinds and the unit that holds them, with the dictionary initialisers used on
 * Firestore documents and the key-by-key Codable encoders and decoders.
 */
module Lessons {
  import opened Wrappers
  import opened Json
  import opened Collections

  // ---------------------------------------------------------------- skills

  /** `GLanguageSkill`; the Writing and Interpreting cases are commented out in the source. */
  datatype Skill = Listening | ListeningFour | Speaking

  function Raw(s: Skill): string {
    match s
    case Listening => "Listening"
    case ListeningFour => "ListeningFour"
    case Speaking => "Speaking"
  }

  /** `GLanguageSkill(rawValue:)` */
  function SkillFromRaw(s: string): (r: Option<Skill>)
    ensures r.Some? <==> s in {"Listening", "ListeningFour", "Speaking"}
    ensures r.Some? ==> Raw(r.value) == s
  {
    if s == "Listening" then Some(Listening)
    else if s == "ListeningFour" then Some(ListeningFour)
    else if s == "Speaking" then Some(Speaking)
    else None
  }

  /** Every case survives the raw-value round trip, and the raw values are pairwise distinct. */
  lemma SkillRawRoundTrip(s: Skill, t: Skill)
    ensures SkillFromRaw(Raw(s)) == Some(s)
    ensures Raw(s) == Raw(t) ==> s == t
  {
  }

  /** The removed skills no longer decode. */
  lemma RemovedSkillsRejected()
    ensures SkillFromRaw("Writing").None? && SkillFromRaw("Interpreting").None?
  {
  }

  // ---------------------------------------------------------------- cards

  /** A URL, by its absolute string. Whether a string parses is the parameter `parsesAsUrl`. */
  type Url = string
  type Data = seq<bv8>

  /** `URL(string: d[key] as? String)` */
  function GetUrl(d: Dict, key: string, parsesAsUrl: string -> bool): (r: Option<Url>)
    ensures r.Some? <==> GetString(d, key).Some? && parsesAsUrl(GetString(d, key).value)
    ensures r.Some? ==> d[key] == Str(r.value)
  {
    match GetString(d, key)
    case Some(s) => if parsesAsUrl(s) then Some(s) else None
    case None => None
  }

  /** An optional URL as the keyed encoder writes it: its string, or null. */
  function UrlValue(u: Option<Url>): Value {
    match u
    case Some(s) => Str(s)
    case None => Null
  }

  /** `ListeningModel`. The two data blobs are upload scratch space and never persisted. */
  datatype ListeningCard = ListeningCard(
    id: string,
    text: string,
    audioUrl: Option<Url>,
    imageUrl: Option<Url>,
    imageData: Option<Data>,
    audioData: Option<Data>)

  /** What survives persistence: the card without its data blobs. */
  function Persisted(c: ListeningCard): ListeningCard {
    c.(imageData := None, audioData := None)
  }

  /** Both URLs are present and parse, so that the card can be decoded again. */
  predicate ListeningCardStorable(c: ListeningCard, parsesAsUrl: string -> bool) {
    c.audioUrl.Some? && parsesAsUrl(c.audioUrl.value) && c.imageUrl.Some? && parsesAsUrl(c.imageUrl.value)
  }

  /**
   * `ListeningModel.init?(from dict)`, and equally its Codable `init(from decoder)`, which
   * reads the same four keys with the same types. The blobs start nil.
   */
  function ListeningCardFromDict(d: Dict, parsesAsUrl: string -> bool): (r: Option<ListeningCard>)
    ensures r.Some? <==>
      GetString(d, "id").Some? && GetString(d, "text").Some? &&
      GetUrl(d, "audioUrl", parsesAsUrl).Some? && GetUrl(d, "imageUrl", parsesAsUrl).Some?
    ensures r.Some? ==> d["id"] == Str(r.value.id) && d["text"] == Str(r.value.text)
    ensures r.Some? ==> UrlValue(r.value.audioUrl) == d["audioUrl"] && UrlValue(r.value.imageUrl) == d["imageUrl"]
    ensures r.Some? ==> ListeningCardStorable(r.value, parsesAsUrl)
    ensures r.Some? ==> r.value.imageData.None? && r.value.audioData.None?
  {
    match (GetString(d, "id"), GetString(d, "text"), GetUrl(d, "audioUrl", parsesAsUrl), GetUrl(d, "imageUrl", parsesAsUrl))
    case (Some(id), Some(text), Some(audio), Some(image)) => Some(ListeningCard(id, text, Some(audio), Some(image), None, None))
    case _ => None
  }

  function ListeningCardDecoder(parsesAsUrl: string -> bool): Dict -> Option<ListeningCard> {
    d => ListeningCardFromDict(d, parsesAsUrl)
  }

  /** `ListeningModel.encode(to:)`: the four persisted keys only. */
  function EncodeListeningCard(c: ListeningCard): (d: Dict)
    ensures d.Keys == {"id", "text", "audioUrl", "imageUrl"}
  {
    map["id" := Str(c.id), "text" := Str(c.text), "audioUrl" := UrlValue(c.audioUrl), "imageUrl" := UrlValue(c.imageUrl)]
  }

  /** Encoding then decoding a storable card gives it back without its blobs. */
  lemma ListeningCardRoundTrip(c: ListeningCard, parsesAsUrl: string -> bool)
    requires ListeningCardStorable(c, parsesAsUrl)
    ensures ListeningCardFromDict(EncodeListeningCard(c), parsesAsUrl) == Some(Persisted(c))
  {
  }

  /** A card with a nil URL encodes a null, which the decoder refuses. */
  lemma ListeningCardNilUrlNotDecodable(c: ListeningCard, parsesAsUrl: string -> bool)
    requires c.audioUrl.None? || c.imageUrl.None?
    ensures ListeningCardFromDict(EncodeListeningCard(c), parsesAsUrl).None?
  {
  }

  /** `SpeakingModel`; `completed` is session state, never persisted. */
  datatype SpeakingCard = SpeakingCard(
    id: string,
    text: string,
    audioUrl: Option<Url>,
    imageUrl: Option<Url>,
    completed: bool,
    imageData: Option<Data>,
    audioData: Option<Data>)

  /** The memberwise initialiser with its defaults: not completed, no blobs. */
  function NewSpeakingCard(id: string, text: string, audioUrl: Option<Url>, imageUrl: Option<Url>): (c: SpeakingCard)
    ensures !c.completed && c.imageData.None? && c.audioData.None?
    ensures c.id == id && c.text == text && c.audioUrl == audioUrl && c.imageUrl == imageUrl
  {
    SpeakingCard(id, text, audioUrl, imageUrl, false, None, None)
  }

  function PersistedSpeaking(c: SpeakingCard): SpeakingCard {
    c.(completed := false, imageData := None, audioData := None)
  }

  predicate SpeakingCardStorable(c: SpeakingCard, parsesAsUrl: string -> bool) {
    c.audioUrl.Some? && parsesAsUrl(c.audioUrl.value) && c.imageUrl.Some? && parsesAsUrl(c.imageUrl.value)
  }

  /** `SpeakingModel.init?(from dict)`, and equally its Codable decoder. `completed` starts false. */
  function SpeakingCardFromDict(d: Dict, parsesAsUrl: string -> bool): (r: Option<SpeakingCard>)
    ensures r.Some? <==>
      GetString(d, "id").Some? && GetString(d, "text").Some? &&
      GetUrl(d, "audioUrl", parsesAsUrl).Some? && GetUrl(d, "imageUrl", parsesAsUrl).Some?
    ensures r.Some? ==> d["id"] == Str(r.value.id) && d["text"] == Str(r.value.text)
    ensures r.Some? ==> UrlValue(r.value.audioUrl) == d["audioUrl"] && UrlValue(r.value.imageUrl) == d["imageUrl"]
    ensures r.Some? ==> SpeakingCardStorable(r.value, parsesAsUrl)
    ensures r.Some? ==> !r.value.completed && r.value.imageData.None? && r.value.audioData.None?
  {
    match (GetString(d, "id"), GetString(d, "text"), GetUrl(d, "audioUrl", parsesAsUrl), GetUrl(d, "imageUrl", parsesAsUrl))
    case (Some(id), Some(text), Some(audio), Some(image)) => Some(NewSpeakingCard(id, text, Some(audio), Some(image)))
    case _ => None
  }

  function SpeakingCardDecoder(parsesAsUrl: string -> bool): Dict -> Option<SpeakingCard> {
    d => SpeakingCardFromDict(d, parsesAsUrl)
  }

  /** `SpeakingModel.encode(to:)`: `completed` is not among the keys. */
  function EncodeSpeakingCard(c: SpeakingCard): (d: Dict)
    ensures d.Keys == {"id", "text", "audioUrl", "imageUrl"}
  {
    map["id" := Str(c.id), "text" := Str(c.text), "audioUrl" := UrlValue(c.audioUrl), "imageUrl" := UrlValue(c.imageUrl)]
  }

  /** A round trip keeps id, text and URLs and resets `completed` to false. */
  lemma SpeakingCardRoundTrip(c: SpeakingCard, parsesAsUrl: string -> bool)
    requires SpeakingCardStorable(c, parsesAsUrl)
    ensures SpeakingCardFromDict(EncodeSpeakingCard(c), parsesAsUrl) == Some(PersistedSpeaking(c))
  {
  }

  // ---------------------------------------------------------------- lessons

  /** The `LessonModel` protocol's three conforming structs. */
  datatype Lesson =
    | GListening(id: string, lessonNumber: int, skill: Skill, backModels: seq<ListeningCard>, foreModels: seq<ListeningCard>)
    | GListeningFour(id: string, lessonNumber: int, skill: Skill, foreModels: seq<ListeningCard>)
    | GSpeaking(id: string, lessonNumber: int, skill: Skill, models: seq<SpeakingCard>)

  /** `==` and `hash(into:)` of every lesson kind look at `id` alone. */
  predicate SameLesson(a: Lesson, b: Lesson) {
    a.id == b.id
  }

  function LessonHashKey(l: Lesson): string {
    l.id
  }

  /** Equal lessons hash alike, whatever their cards, number or kind. */
  lemma LessonHashAgreesWithEquality(a: Lesson, b: Lesson)
    ensures SameLesson(a, b) <==> LessonHashKey(a) == LessonHashKey(b)
  {
  }

  /** The fields every lesson kind reads first: id, lessonNumber and type. */
  datatype Header = Header(id: string, lessonNumber: int, skill: Skill)

  /**
   * The first guard of every lesson initialiser. Any valid skill is accepted: the type is not
   * compared with the kind being built.
   */
  function LessonHeader(d: Dict): (r: Option<Header>)
    ensures r.Some? <==>
      GetString(d, "id").Some? && GetInt(d, "lessonNumber").Some? &&
      GetString(d, "type").Some? && SkillFromRaw(GetString(d, "type").value).Some?
    ensures r.Some? ==>
      d["id"] == Str(r.value.id) && d["lessonNumber"] == Int(r.value.lessonNumber) &&
      d["type"] == Str(Raw(r.value.skill))
  {
    match (GetString(d, "id"), GetInt(d, "lessonNumber"), GetString(d, "type"))
    case (Some(id), Some(n), Some(t)) =>
      (match SkillFromRaw(t)
       case Some(skill) => Some(Header(id, n, skill))
       case None => None)
    case _ => None
  }

  /** `GListeningModel.init?(from lessonDict)`: malformed cards are skipped, in order. */
  function GListeningFromDict(d: Dict, parsesAsUrl: string -> bool): (r: Option<Lesson>)
    ensures r.Some? <==>
      LessonHeader(d).Some? && GetDictArray(d, "backModels").Some? && GetDictArray(d, "foreModels").Some?
    ensures r.Some? ==> r.value.GListening?
    ensures r.Some? ==> Header(r.value.id, r.value.lessonNumber, r.value.skill) == LessonHeader(d).value
    ensures r.Some? ==>
      r.value.backModels == CompactMap(GetDictArray(d, "backModels").value, ListeningCardDecoder(parsesAsUrl)) &&
      r.value.foreModels == CompactMap(GetDictArray(d, "foreModels").value, ListeningCardDecoder(parsesAsUrl))
  {
    match (LessonHeader(d), GetDictArray(d, "backModels"), GetDictArray(d, "foreModels"))
    case (Some(h), Some(back), Some(fore)) =>
      Some(GListening(h.id, h.lessonNumber, h.skill,
        CompactMap(back, ListeningCardDecoder(parsesAsUrl)),
        CompactMap(fore, ListeningCardDecoder(parsesAsUrl))))
    case _ => None
  }

  /** `GListeningFourModel.init?(from lessonDict)` */
  function GListeningFourFromDict(d: Dict, parsesAsUrl: string -> bool): (r: Option<Lesson>)
    ensures r.Some? <==> LessonHeader(d).Some? && GetDictArray(d, "foreModels").Some?
    ensures r.Some? ==> r.value.GListeningFour?
    ensures r.Some? ==> Header(r.value.id, r.value.lessonNumber, r.value.skill) == LessonHeader(d).value
    ensures r.Some? ==>
      r.value.foreModels == CompactMap(GetDictArray(d, "foreModels").value, ListeningCardDecoder(parsesAsUrl))
  {
    match (LessonHeader(d), GetDictArray(d, "foreModels"))
    case (Some(h), Some(fore)) =>
      Some(GListeningFour(h.id, h.lessonNumber, h.skill, CompactMap(fore, ListeningCardDecoder(parsesAsUrl))))
    case _ => None
  }

  /** `GSpeakingModel.init?(from lessonDict)` */
  function GSpeakingFromDict(d: Dict, parsesAsUrl: string -> bool): (r: Option<Lesson>)
    ensures r.Some? <==> LessonHeader(d).Some? && GetDictArray(d, "models").Some?
    ensures r.Some? ==> r.value.GSpeaking?
    ensures r.Some? ==> Header(r.value.id, r.value.lessonNumber, r.value.skill) == LessonHeader(d).value
    ensures r.Some? ==>
      r.value.models == CompactMap(GetDictArray(d, "models").value, SpeakingCardDecoder(parsesAsUrl))
    ensures r.Some? ==> forall i :: 0 <= i < |r.value.models| ==> !r.value.models[i].completed
  {
    match (LessonHeader(d), GetDictArray(d, "models"))
    case (Some(h), Some(cards)) =>
      var models := CompactMap(cards, SpeakingCardDecoder(parsesAsUrl));
      assert forall i :: 0 <= i < |models| ==> !models[i].completed by {
        forall i | 0 <= i < |models| ensures !models[i].completed {
          assert models[i] in models;
        }
      }
      Some(GSpeaking(h.id, h.lessonNumber, h.skill, models))
    case _ => None
  }

  /** A card that decodes is kept; one that does not is skipped, and the others keep their order. */
  lemma SkippedCardsAreTheMalformedOnes(
    cards: seq<Dict>, bad: Dict, more: seq<Dict>, parsesAsUrl: string -> bool)
    requires ListeningCardFromDict(bad, parsesAsUrl).None?
    ensures CompactMap(cards + [bad] + more, ListeningCardDecoder(parsesAsUrl)) ==
      CompactMap(cards, ListeningCardDecoder(parsesAsUrl)) + CompactMap(more, ListeningCardDecoder(parsesAsUrl))
  {
    CompactMapSkips(cards, bad, more, ListeningCardDecoder(parsesAsUrl));
  }

  /** `UnitModel.createLesson`: dispatch on the "type" raw value. */
  function CreateLesson(d: Dict, parsesAsUrl: string -> bool): (r: Option<Lesson>)
    ensures r.Some? ==> LessonHeader(d).Some? && r.value.skill == LessonHeader(d).value.skill
    ensures r.Some? ==> (r.value.skill == Listening <==> r.value.GListening?)
    ensures r.Some? ==> (r.value.skill == ListeningFour <==> r.value.GListeningFour?)
    ensures r.Some? ==> (r.value.skill == Speaking <==> r.value.GSpeaking?)
    ensures LessonHeader(d).None? ==> r.None?
    ensures r.Some? <==>
      (LessonHeader(d).Some? &&
       match LessonHeader(d).value.skill
       case Listening => GetDictArray(d, "backModels").Some? && GetDictArray(d, "foreModels").Some?
       case ListeningFour => GetDictArray(d, "foreModels").Some?
       case Speaking => GetDictArray(d, "models").Some?)
    ensures r.Some? ==> Header(r.value.id, r.value.lessonNumber, r.value.skill) == LessonHeader(d).value
    ensures r.Some? && r.value.GListening? ==>
      r.value.backModels == CompactMap(GetDictArray(d, "backModels").value, ListeningCardDecoder(parsesAsUrl)) &&
      r.value.foreModels == CompactMap(GetDictArray(d, "foreModels").value, ListeningCardDecoder(parsesAsUrl))
    ensures r.Some? && r.value.GListeningFour? ==>
      r.value.foreModels == CompactMap(GetDictArray(d, "foreModels").value, ListeningCardDecoder(parsesAsUrl))
    ensures r.Some? && r.value.GSpeaking? ==>
      r.value.models == CompactMap(GetDictArray(d, "models").value, SpeakingCardDecoder(parsesAsUrl))
  {
    match GetString(d, "type")
    case None => None
    case Some(t) =>
      match SkillFromRaw(t)
      case None => None
      case Some(Listening) => GListeningFromDict(d, parsesAsUrl)
      case Some(ListeningFour) => GListeningFourFromDict(d, parsesAsUrl)
      case Some(Speaking) => GSpeakingFromDict(d, parsesAsUrl)
  }

  function LessonDecoder(parsesAsUrl: string -> bool): Dict -> Option<Lesson> {
    d => CreateLesson(d, parsesAsUrl)
  }

  // ---------------------------------------------------------------- lesson Codable

  function ListeningCardsValue(cs: seq<ListeningCard>): (v: Value)
    ensures v.Arr? && |v.items| == |cs| && AllObjects(v.items)
  {
    Arr(seq(|cs|, i requires 0 <= i < |cs| => Obj(EncodeListeningCard(cs[i]))))
  }

  function SpeakingCardsValue(cs: seq<SpeakingCard>): (v: Value)
    ensures v.Arr? && |v.items| == |cs| && AllObjects(v.items)
  {
    Arr(seq(|cs|, i requires 0 <= i < |cs| => Obj(EncodeSpeakingCard(cs[i]))))
  }

  /** `encode(to:)` of the three lesson structs; the key sets are their `CodingKeys`. */
  function EncodeLesson(l: Lesson): (d: Dict)
    ensures l.GListening? ==> d.Keys == {"id", "type", "backModels", "foreModels", "lessonNumber"}
    ensures l.GListeningFour? ==> d.Keys == {"id", "type", "foreModels", "lessonNumber"}
    ensures l.GSpeaking? ==> d.Keys == {"id", "type", "models", "lessonNumber"}
  {
    var common := map["id" := Str(l.id), "lessonNumber" := Int(l.lessonNumber), "type" := Str(Raw(l.skill))];
    match l
    case GListening(_, _, _, back, fore) =>
      common["backModels" := ListeningCardsValue(back)]["foreModels" := ListeningCardsValue(fore)]
    case GListeningFour(_, _, _, fore) => common["foreModels" := ListeningCardsValue(fore)]
    case GSpeaking(_, _, _, models) => common["models" := SpeakingCardsValue(models)]
  }

  /** `decode([ListeningModel].self, forKey:)`: every element must decode. */
  function DecodeListeningCards(d: Dict, key: string, parsesAsUrl: string -> bool): Option<seq<ListeningCard>> {
    match GetDictArray(d, key)
    case None => None
    case Some(ds) => MapAll(ds, ListeningCardDecoder(parsesAsUrl))
  }

  function DecodeSpeakingCards(d: Dict, key: string, parsesAsUrl: string -> bool): Option<seq<SpeakingCard>> {
    match GetDictArray(d, key)
    case None => None
    case Some(ds) => MapAll(ds, SpeakingCardDecoder(parsesAsUrl))
  }

  /** `GListeningModel.init(from decoder)` and its siblings, reading the Codable key sets. */
  function DecodeLesson(kind: Skill, d: Dict, parsesAsUrl: string -> bool): (r: Option<Lesson>)
    ensures r.Some? ==> LessonHeader(d) == Some(Header(r.value.id, r.value.lessonNumber, r.value.skill))
  {
    match LessonHeader(d)
    case None => None
    case Some(h) =>
      match kind
      case Listening =>
        (match (DecodeListeningCards(d, "backModels", parsesAsUrl), DecodeListeningCards(d, "foreModels", parsesAsUrl))
         case (Some(back), Some(fore)) => Some(GListening(h.id, h.lessonNumber, h.skill, back, fore))
         case _ => None)
      case ListeningFour =>
        (match DecodeListeningCards(d, "foreModels", parsesAsUrl)
         case Some(fore) => Some(GListeningFour(h.id, h.lessonNumber, h.skill, fore))
         case None => None)
      case Speaking =>
        (match DecodeSpeakingCards(d, "models", parsesAsUrl)
         case Some(models) => Some(GSpeaking(h.id, h.lessonNumber, h.skill, models))
         case None => None)
  }

  function KindOf(l: Lesson): Skill {
    match l
    case GListening(_, _, _, _, _) => Listening
    case GListeningFour(_, _, _, _) => ListeningFour
    case GSpeaking(_, _, _, _) => Speaking
  }

  /** What a lesson looks like after it has been stored and read back. */
  function PersistedLesson(l: Lesson): Lesson {
    match l
    case GListening(id, n, s, back, fore) =>
      GListening(id, n, s, seq(|back|, i requires 0 <= i < |back| => Persisted(back[i])),
        seq(|fore|, i requires 0 <= i < |fore| => Persisted(fore[i])))
    case GListeningFour(id, n, s, fore) =>
      GListeningFour(id, n, s, seq(|fore|, i requires 0 <= i < |fore| => Persisted(fore[i])))
    case GSpeaking(id, n, s, models) =>
      GSpeaking(id, n, s, seq(|models|, i requires 0 <= i < |models| => PersistedSpeaking(models[i])))
  }

  predicate LessonStorable(l: Lesson, parsesAsUrl: string -> bool) {
    match l
    case GListening(_, _, _, back, fore) =>
      (forall i :: 0 <= i < |back| ==> ListeningCardStorable(back[i], parsesAsUrl)) &&
      (forall i :: 0 <= i < |fore| ==> ListeningCardStorable(fore[i], parsesAsUrl))
    case GListeningFour(_, _, _, fore) => forall i :: 0 <= i < |fore| ==> ListeningCardStorable(fore[i], parsesAsUrl)
    case GSpeaking(_, _, _, models) => forall i :: 0 <= i < |models| ==> SpeakingCardStorable(models[i], parsesAsUrl)
  }

  lemma ListeningCardsRoundTrip(d: Dict, key: string, cs: seq<ListeningCard>, parsesAsUrl: string -> bool)
    requires key in d && d[key] == ListeningCardsValue(cs)
    requires forall i :: 0 <= i < |cs| ==> ListeningCardStorable(cs[i], parsesAsUrl)
    ensures DecodeListeningCards(d, key, parsesAsUrl) == Some(seq(|cs|, i requires 0 <= i < |cs| => Persisted(cs[i])))
  {
    var ds := GetDictArray(d, key).value;
    forall i | 0 <= i < |cs| ensures ListeningCardDecoder(parsesAsUrl)(ds[i]) == Some(Persisted(cs[i])) {
      assert ds[i] == EncodeListeningCard(cs[i]);
      ListeningCardRoundTrip(cs[i], parsesAsUrl);
    }
    var r := MapAll(ds, ListeningCardDecoder(parsesAsUrl));
    assert r.value == seq(|cs|, i requires 0 <= i < |cs| => Persisted(cs[i]));
  }

  lemma SpeakingCardsRoundTrip(d: Dict, key: string, cs: seq<SpeakingCard>, parsesAsUrl: string -> bool)
    requires key in d && d[key] == SpeakingCardsValue(cs)
    requires forall i :: 0 <= i < |cs| ==> SpeakingCardStorable(cs[i], parsesAsUrl)
    ensures DecodeSpeakingCards(d, key, parsesAsUrl) == Some(seq(|cs|, i requires 0 <= i < |cs| => PersistedSpeaking(cs[i])))
  {
    var ds := GetDictArray(d, key).value;
    forall i | 0 <= i < |cs| ensures SpeakingCardDecoder(parsesAsUrl)(ds[i]) == Some(PersistedSpeaking(cs[i])) {
      assert ds[i] == EncodeSpeakingCard(cs[i]);
      SpeakingCardRoundTrip(cs[i], parsesAsUrl);
    }
    var r := MapAll(ds, SpeakingCardDecoder(parsesAsUrl));
    assert r.value == seq(|cs|, i requires 0 <= i < |cs| => PersistedSpeaking(cs[i]));
  }

  /**
   * Encoding a lesson whose cards all carry parseable URLs and decoding it as the same kind
   * returns the lesson, minus the blobs and the `completed` flags.
   */
  lemma LessonRoundTrip(l: Lesson, parsesAsUrl: string -> bool)
    requires LessonStorable(l, parsesAsUrl)
    ensures DecodeLesson(KindOf(l), EncodeLesson(l), parsesAsUrl) == Some(PersistedLesson(l))
  {
    var d := EncodeLesson(l);
    assert LessonHeader(d) == Some(Header(l.id, l.lessonNumber, l.skill)) by {
      SkillRawRoundTrip(l.skill, l.skill);
    }
    match l
    case GListening(_, _, _, back, fore) =>
      ListeningCardsRoundTrip(d, "backModels", back, parsesAsUrl);
      ListeningCardsRoundTrip(d, "foreModels", fore, parsesAsUrl);
    case GListeningFour(_, _, _, fore) =>
      ListeningCardsRoundTrip(d, "foreModels", fore, parsesAsUrl);
    case GSpeaking(_, _, _, models) =>
      SpeakingCardsRoundTrip(d, "models", models, parsesAsUrl);
  }

  /**
   * For a listening lesson on which the Codable decoder succeeds, the dictionary initialiser
   * builds the same lesson.
   */
  lemma DictInitAgreesWithDecoder(d: Dict, parsesAsUrl: string -> bool)
    requires DecodeLesson(Listening, d, parsesAsUrl).Some?
    ensures GListeningFromDict(d, parsesAsUrl) == DecodeLesson(Listening, d, parsesAsUrl)
  {
    var f := ListeningCardDecoder(parsesAsUrl);
    CompactMapAgreesWithMapAll(GetDictArray(d, "backModels").value, f);
    CompactMapAgreesWithMapAll(GetDictArray(d, "foreModels").value, f);
  }

  // ---------------------------------------------------------------- units

  /** `UnitModel`. `id` is optional in the struct; the document initialiser always sets it. */
  datatype Unit = Unit(
    id: Option<string>,
    unitName: string,
    unitNumber: int,
    title: string,
    imageUrl: Url,
    lessons: seq<Lesson>,
    language: string)

  /** `UnitModel.init?(from document)`; `data` is `document.data()`, nil for a missing document. */
  function UnitFromDocument(documentId: string, data: Option<Dict>, parsesAsUrl: string -> bool): (r: Option<Unit>)
    ensures r.Some? <==> (data.Some? &&
      GetString(data.value, "unitName").Some? && GetInt(data.value, "unitNumber").Some? &&
      GetString(data.value, "title").Some? && GetUrl(data.value, "imageUrl", parsesAsUrl).Some? &&
      GetString(data.value, "language").Some? && GetDictArray(data.value, "lessons").Some?)
    ensures r.Some? ==> r.value.id == Some(documentId)
    ensures r.Some? ==>
      data.value["unitName"] == Str(r.value.unitName) && data.value["unitNumber"] == Int(r.value.unitNumber) &&
      data.value["title"] == Str(r.value.title) && data.value["imageUrl"] == Str(r.value.imageUrl) &&
      data.value["language"] == Str(r.value.language)
    ensures r.Some? ==> r.value.lessons == CompactMap(GetDictArray(data.value, "lessons").value, LessonDecoder(parsesAsUrl))
  {
    match data
    case None => None
    case Some(d) =>
      match (GetString(d, "unitName"), GetInt(d, "unitNumber"), GetString(d, "title"),
             GetUrl(d, "imageUrl", parsesAsUrl), GetString(d, "language"), GetDictArray(d, "lessons"))
      case (Some(name), Some(number), Some(title), Some(image), Some(language), Some(lessons)) =>
        Some(Unit(Some(documentId), name, number, title, image, CompactMap(lessons, LessonDecoder(parsesAsUrl)), language))
      case _ => None
  }

  /** A lesson of unknown type is dropped from the unit, the others keep their order. */
  lemma UnknownLessonTypeDropped(before: seq<Dict>, unknown: Dict, after: seq<Dict>, parsesAsUrl: string -> bool)
    requires GetString(unknown, "type").Some? && SkillFromRaw(GetString(unknown, "type").value).None?
    ensures CompactMap(before + [unknown] + after, LessonDecoder(parsesAsUrl)) ==
      CompactMap(before, LessonDecoder(parsesAsUrl)) + CompactMap(after, LessonDecoder(parsesAsUrl))
  {
    CompactMapSkips(before, unknown, after, LessonDecoder(parsesAsUrl));
  }

  /** `UnitModel.==` and `hash(into:)` compare `id` alone. */
  predicate SameUnit(a: Unit, b: Unit) {
    a.id == b.id
  }

  /**
   * `UnitModel.copyWith`: each supplied argument replaces its field. The fallback for `id`
   * force-unwraps `self.id`, so a unit without id needs an explicit one.
   */
  function CopyWith(
    u: Unit,
    id: Option<string>, unitName: Option<string>, unitNumber: Option<int>, title: Option<string>,
    imageUrl: Option<Url>, lessons: Option<seq<Lesson>>, language: Option<string>): (r: Unit)
    requires id.Some? || u.id.Some?
    ensures r.id.Some? && SameUnit(r, u) == (id.None? || u.id == id)
  {
    Unit(
      Some(OrElse(id, u.id).value),
      unitName.GetOr(u.unitName),
      unitNumber.GetOr(u.unitNumber),
      title.GetOr(u.title),
      imageUrl.GetOr(u.imageUrl),
      lessons.GetOr(u.lessons),
      language.GetOr(u.language))
  }

  /** `copyWith()` with no arguments reproduces the unit. */
  lemma CopyWithNothingIsIdentity(u: Unit)
    requires u.id.Some?
    ensures CopyWith(u, None, None, None, None, None, None, None) == u
  {
  }

  /** Replacing the lessons touches nothing else. */
  lemma CopyWithLessonsOnly(u: Unit, lessons: seq<Lesson>)
    requires u.id.Some?
    ensures CopyWith(u, None, None, None, None, None, Some(lessons), None) == u.(lessons := lessons)
  {
  }
}
