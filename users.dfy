/**
 * The user profile with its nested progress map, and the memory-card template, each with the
 * failable initialiser that reads it from a Firestore document and its `copyWith`.
 */
module Users {
  import opened Wrappers
  import opened Json
  import opened Collections
  import Lessons

  // ---------------------------------------------------------------- progress map

  /** Lesson id to completion flag. */
  type LessonMap = map<string, bool>
  /** Unit id to its lessons. */
  type UnitMap = map<string, LessonMap>
  /** Language name to its units: `[String: [String: [String: Bool]]]`. */
  type Progress = map<string, UnitMap>

  predicate IsLessonMap(v: Value) {
    v.Obj? && forall k :: k in v.fields ==> v.fields[k].Bool?
  }

  predicate IsUnitMap(v: Value) {
    v.Obj? && forall k :: k in v.fields ==> IsLessonMap(v.fields[k])
  }

  predicate IsProgress(v: Value) {
    v.Obj? && forall k :: k in v.fields ==> IsUnitMap(v.fields[k])
  }

  function LessonMapOf(v: Value): LessonMap
    requires IsLessonMap(v)
  {
    map k | k in v.fields :: v.fields[k].b
  }

  function UnitMapOf(v: Value): UnitMap
    requires IsUnitMap(v)
  {
    map k | k in v.fields :: LessonMapOf(v.fields[k])
  }

  /**
   * `value as? [String: [String: [String: Bool]]]`: the cast succeeds only when every level
   * has the right shape, and then keeps every key.
   */
  function AsProgress(v: Value): (r: Option<Progress>)
    ensures r.Some? <==> IsProgress(v)
    ensures r.Some? ==> r.value.Keys == v.fields.Keys
  {
    if IsProgress(v) then Some(map k | k in v.fields :: UnitMapOf(v.fields[k])) else None
  }

  function LessonMapValue(m: LessonMap): Value {
    Obj(map k | k in m :: Bool(m[k]))
  }

  function UnitMapValue(m: UnitMap): Value {
    Obj(map k | k in m :: LessonMapValue(m[k]))
  }

  /** The progress map as Firestore stores it. */
  function ProgressValue(p: Progress): Value {
    Obj(map k | k in p :: UnitMapValue(p[k]))
  }

  lemma LessonMapRoundTrip(m: LessonMap)
    ensures IsLessonMap(LessonMapValue(m)) && LessonMapOf(LessonMapValue(m)) == m
  {
    var v := LessonMapValue(m);
    assert LessonMapOf(v) == m by {
      forall k | k in m ensures LessonMapOf(v)[k] == m[k] { }
    }
  }

  lemma UnitMapRoundTrip(m: UnitMap)
    ensures IsUnitMap(UnitMapValue(m)) && UnitMapOf(UnitMapValue(m)) == m
  {
    var v := UnitMapValue(m);
    forall k | k in m ensures IsLessonMap(v.fields[k]) && LessonMapOf(v.fields[k]) == m[k] {
      LessonMapRoundTrip(m[k]);
    }
    assert UnitMapOf(v) == m;
  }

  /** Storing a progress map and casting it back gives the same map. */
  lemma ProgressRoundTrip(p: Progress)
    ensures AsProgress(ProgressValue(p)) == Some(p)
  {
    var v := ProgressValue(p);
    forall k | k in p ensures IsUnitMap(v.fields[k]) && UnitMapOf(v.fields[k]) == p[k] {
      UnitMapRoundTrip(p[k]);
    }
    assert AsProgress(v).value == p;
  }

  /** One ill-typed flag anywhere makes the whole cast nil. */
  lemma OneBadFlagSpoilsTheCast(language: string, unit: string, lesson: string)
    ensures AsProgress(Obj(map[language := Obj(map[unit := Obj(map[lesson := Int(1)])])])).None?
  {
    var inner := Obj(map[lesson := Int(1)]);
    assert !IsLessonMap(inner) by { assert lesson in inner.fields; }
    var mid := Obj(map[unit := inner]);
    assert !IsUnitMap(mid) by { assert unit in mid.fields; }
    var outer := Obj(map[language := mid]);
    assert !IsProgress(outer) by { assert language in outer.fields; }
  }

  // ---------------------------------------------------------------- users

  /** `UserModel` */
  datatype User = User(
    id: string,
    uid: string,
    username: string,
    email: string,
    avatarUrl: Option<string>,
    languageProgress: Option<Progress>,
    learningLanguage: Option<string>,
    role: string,
    hasLifetimeAccess: bool)

  /**
   * The designated initialiser. The stored property's "English" default is overridden by the
   * parameter, whose own default is nil.
   */
  function NewUser(
    id: string, uid: string, email: string, username: string, role: string, hasLifetimeAccess: bool,
    avatarUrl: Option<string> := None, languageProgress: Option<Progress> := None,
    learningLanguage: Option<string> := None): (u: User)
    ensures u.learningLanguage == learningLanguage && u.avatarUrl == avatarUrl && u.languageProgress == languageProgress
    ensures u.id == id && u.uid == uid && u.email == email && u.username == username
    ensures u.role == role && u.hasLifetimeAccess == hasLifetimeAccess
  {
    User(id, uid, username, email, avatarUrl, languageProgress, learningLanguage, role, hasLifetimeAccess)
  }

  /** Omitting `learningLanguage` leaves it nil, not "English". */
  lemma OmittedLearningLanguageIsNil(id: string, uid: string, email: string, username: string)
    ensures NewUser(id, uid, email, username, "user", false).learningLanguage.None?
  {
  }

  /** `d[key] as? [String: [String: [String: Bool]]]`, nil when absent or ill-typed. */
  function GetProgress(d: Dict, key: string): Option<Progress> {
    if key in d then AsProgress(d[key]) else None
  }

  /**
   * `UserModel.init?(from json, id)`. uid, username and email are required. avatarUrl,
   * languageProgress and learningLanguage fall back to nil. role defaults to "user" and
   * hasLifetimeAccess to false when absent, but a present value of the wrong type fails.
   */
  function UserFromJson(json: Dict, id: string): (r: Option<User>)
    ensures r.Some? <==>
      (GetString(json, "uid").Some? && GetString(json, "username").Some? && GetString(json, "email").Some? &&
       ("role" in json ==> json["role"].Str?) &&
       ("hasLifetimeAccess" in json ==> json["hasLifetimeAccess"].Bool?))
    ensures r.Some? ==> (r.value.id == id && json["uid"] == Str(r.value.uid) &&
      json["username"] == Str(r.value.username) && json["email"] == Str(r.value.email))
    ensures r.Some? ==> r.value.role == (if "role" in json then json["role"].s else "user")
    ensures r.Some? ==> r.value.hasLifetimeAccess == ("hasLifetimeAccess" in json && json["hasLifetimeAccess"].b)
    ensures r.Some? ==> (r.value.avatarUrl == GetString(json, "avatarUrl") &&
      r.value.learningLanguage == GetString(json, "learningLanguage") &&
      r.value.languageProgress == GetProgress(json, "languageProgress"))
  {
    var role := if "role" in json then GetString(json, "role") else Some("user");
    var lifetime := if "hasLifetimeAccess" !in json then Some(false)
      else if json["hasLifetimeAccess"].Bool? then Some(json["hasLifetimeAccess"].b) else None;
    match (GetString(json, "uid"), GetString(json, "username"), GetString(json, "email"), role, lifetime)
    case (Some(uid), Some(username), Some(email), Some(role), Some(lifetime)) =>
      Some(NewUser(id, uid, email, username, role, lifetime,
        GetString(json, "avatarUrl"), GetProgress(json, "languageProgress"), GetString(json, "learningLanguage")))
    case _ => None
  }

  /** `UserModel.init?(from document, id)`: the same reading of `document.data()`. */
  function UserFromDocument(data: Option<Dict>, id: string): (r: Option<User>)
    ensures data.None? ==> r.None?
    ensures data.Some? ==> r == UserFromJson(data.value, id)
  {
    match data
    case None => None
    case Some(d) => UserFromJson(d, id)
  }

  /** A profile with only the required fields gets the default role and no lifetime access. */
  lemma MinimalProfileDefaults(uid: string, username: string, email: string, id: string)
    ensures UserFromJson(map["uid" := Str(uid), "username" := Str(username), "email" := Str(email)], id) ==
      Some(User(id, uid, username, email, None, None, None, "user", false))
  {
  }

  /** An ill-typed optional field does not fail the initialiser; an ill-typed role does. */
  lemma IllTypedFieldsTolerance(base: Dict, id: string)
    requires UserFromJson(base, id).Some?
    ensures UserFromJson(base["avatarUrl" := Int(0)], id).Some?
    ensures UserFromJson(base["avatarUrl" := Int(0)], id).value.avatarUrl.None?
    ensures UserFromJson(base["role" := Bool(true)], id).None?
  {
    var d := base["avatarUrl" := Int(0)];
    assert GetString(d, "uid") == GetString(base, "uid");
    assert GetString(d, "username") == GetString(base, "username");
    assert GetString(d, "email") == GetString(base, "email");
  }

  /**
   * `UserModel.copyWith`: every argument is `??`-combined with the current field, so a
   * supplied value replaces it and nil keeps it; an optional field can never be cleared.
   */
  function CopyWith(
    u: User,
    id: Option<string>, uid: Option<string>, username: Option<string>, email: Option<string>,
    avatarUrl: Option<string>, languageProgress: Option<Progress>, learningLanguage: Option<string>,
    role: Option<string>, hasLifetimeAccess: Option<bool>): (r: User)
    ensures u.avatarUrl.Some? ==> r.avatarUrl.Some?
    ensures u.languageProgress.Some? ==> r.languageProgress.Some?
    ensures u.learningLanguage.Some? ==> r.learningLanguage.Some?
    ensures r.avatarUrl == (if avatarUrl.Some? then avatarUrl else u.avatarUrl)
    ensures r.languageProgress == (if languageProgress.Some? then languageProgress else u.languageProgress)
    ensures r.learningLanguage == (if learningLanguage.Some? then learningLanguage else u.learningLanguage)
  {
    NewUser(
      id.GetOr(u.id), uid.GetOr(u.uid), email.GetOr(u.email), username.GetOr(u.username),
      role.GetOr(u.role), hasLifetimeAccess.GetOr(u.hasLifetimeAccess),
      OrElse(avatarUrl, u.avatarUrl), OrElse(languageProgress, u.languageProgress),
      OrElse(learningLanguage, u.learningLanguage))
  }

  /** `copyWith()` with all-nil arguments reproduces the user. */
  lemma UserCopyWithNothingIsIdentity(u: User)
    ensures CopyWith(u, None, None, None, None, None, None, None, None, None) == u
  {
  }

  /** Replacing the progress map changes nothing else. */
  lemma UserCopyWithProgressOnly(u: User, p: Progress)
    ensures CopyWith(u, None, None, None, None, None, Some(p), None, None, None) == u.(languageProgress := Some(p))
  {
  }

  // ---------------------------------------------------------------- templates

  /** `TemplateModel`, a memory card. Timestamps are whole days. */
  datatype Template = Template(
    id: string,
    tags: seq<string>,
    title: string,
    description: Option<string>,
    url: Option<Lessons.Url>,
    imageUrl: Option<Lessons.Url>,
    nextDate: int,
    intervals: seq<int>,
    createdBy: string,
    dateCreated: int)

  /** The review schedule, in days, of a template read without one. */
  const DefaultIntervals: seq<int> := [2, 3, 7, 15, 30, 60, 120, 240, 480, 960]

  /** `URL(string:)` of an optional string; an unparseable string gives nil without failing. */
  function OptionalUrl(d: Dict, key: string, parsesAsUrl: string -> bool): (r: Option<Lessons.Url>)
    ensures r.Some? <==> GetString(d, key).Some? && parsesAsUrl(GetString(d, key).value)
    ensures r.Some? ==> r == GetString(d, key)
  {
    match GetString(d, key)
    case Some(s) => if parsesAsUrl(s) then Some(s) else None
    case None => None
  }

  /** `TemplateModel.init?(from document)` */
  function TemplateFromDocument(documentId: string, data: Option<Dict>, parsesAsUrl: string -> bool): (r: Option<Template>)
    ensures r.Some? <==> (data.Some? &&
      GetString(data.value, "title").Some? && GetTime(data.value, "nextDate").Some? &&
      GetTime(data.value, "dateCreated").Some? && GetString(data.value, "createdBy").Some? &&
      GetStringArray(data.value, "tags").Some?)
    ensures r.Some? ==> r.value.id == documentId
    ensures r.Some? ==> r.value.intervals == GetIntArray(data.value, "intervals").GetOr(DefaultIntervals)
    ensures r.Some? ==> r.value.description == GetString(data.value, "description")
    ensures r.Some? ==> r.value.url == OptionalUrl(data.value, "url", parsesAsUrl)
    ensures r.Some? ==> r.value.imageUrl == OptionalUrl(data.value, "imageUrl", parsesAsUrl)
    ensures r.Some? ==> (data.value["title"] == Str(r.value.title) && data.value["nextDate"] == Time(r.value.nextDate) &&
      data.value["dateCreated"] == Time(r.value.dateCreated) && data.value["createdBy"] == Str(r.value.createdBy) &&
      GetStringArray(data.value, "tags") == Some(r.value.tags))
  {
    match data
    case None => None
    case Some(d) =>
      match (GetString(d, "title"), GetTime(d, "nextDate"), GetTime(d, "dateCreated"),
             GetString(d, "createdBy"), GetStringArray(d, "tags"))
      case (Some(title), Some(nextDate), Some(dateCreated), Some(createdBy), Some(tags)) =>
        Some(Template(documentId, tags, title, GetString(d, "description"),
          OptionalUrl(d, "url", parsesAsUrl), OptionalUrl(d, "imageUrl", parsesAsUrl),
          nextDate, GetIntArray(d, "intervals").GetOr(DefaultIntervals), createdBy, dateCreated))
      case _ => None
  }

  /** Without an "intervals" entry the default schedule is used. */
  lemma MissingIntervalsDefault(documentId: string, d: Dict, parsesAsUrl: string -> bool)
    requires TemplateFromDocument(documentId, Some(d), parsesAsUrl).Some? && "intervals" !in d
    ensures TemplateFromDocument(documentId, Some(d), parsesAsUrl).value.intervals == [2, 3, 7, 15, 30, 60, 120, 240, 480, 960]
  {
  }

  /** `TemplateModel.copyWith`: only the supplied fields change. */
  function TemplateCopyWith(
    t: Template,
    id: Option<string>, tags: Option<seq<string>>, title: Option<string>, description: Option<string>,
    url: Option<Lessons.Url>, imageUrl: Option<Lessons.Url>, nextDate: Option<int>, intervals: Option<seq<int>>,
    createdBy: Option<string>, dateCreated: Option<int>): (r: Template)
    ensures t.description.Some? ==> r.description.Some?
    ensures t.url.Some? ==> r.url.Some?
    ensures t.imageUrl.Some? ==> r.imageUrl.Some?
  {
    Template(
      id.GetOr(t.id), tags.GetOr(t.tags), title.GetOr(t.title), OrElse(description, t.description),
      OrElse(url, t.url), OrElse(imageUrl, t.imageUrl), nextDate.GetOr(t.nextDate),
      intervals.GetOr(t.intervals), createdBy.GetOr(t.createdBy), dateCreated.GetOr(t.dateCreated))
  }

  lemma TemplateCopyWithNothingIsIdentity(t: Template)
    ensures TemplateCopyWith(t, None, None, None, None, None, None, None, None, None, None) == t
  {
  }

  /** Supplying only the schedule fields changes only those. */
  lemma TemplateCopyWithSchedule(t: Template, nextDate: int, intervals: seq<int>)
    ensures TemplateCopyWith(t, None, None, None, None, None, None, Some(nextDate), Some(intervals), None, None) ==
      t.(nextDate := nextDate, intervals := intervals)
  {
  }
}
