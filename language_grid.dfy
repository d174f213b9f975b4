/**
 * The unit grid of a course language: how many lessons of each unit show as completed, how the
 * units are laid out in rows, which of them a learner without the premium plan may open, and
 * the language picker above the grid.
 */
module LanguageGrid {
  import opened Wrappers
  import opened Lessons
  import opened Users
  import Collections
  import Progress

  /** The lesson keys of a unit whose flag is `true`. */
  function TrueKeys(lessons: LessonMap): set<string> {
    set k | k in lessons && lessons[k]
  }

  /** `lessons.filter { $1 == true }.count` */
  function CountTrue(lessons: LessonMap): (r: nat)
    ensures r <= |lessons.Keys|
  {
    assert TrueKeys(lessons) <= lessons.Keys;
    Collections.SubsetCardinality(TrueKeys(lessons), lessons.Keys);
    |TrueKeys(lessons)|
  }

  /**
   * `calculateUnitProgress(for:)`: for every unit of the language, the number of lessons stored
   * as `true`; an empty map when the user has no progress in that language.
   */
  method CalculateUnitProgress(user: User, language: string) returns (unitProgress: map<string, nat>)
    ensures (user.languageProgress.None? || language !in user.languageProgress.value) ==> unitProgress == map[]
    ensures user.languageProgress.Some? && language in user.languageProgress.value ==>
      (var languageData := user.languageProgress.value[language];
       unitProgress.Keys == languageData.Keys &&
       forall unitName :: unitName in languageData ==> unitProgress[unitName] == CountTrue(languageData[unitName]))
  {
    if user.languageProgress.None? || language !in user.languageProgress.value {
      return map[];
    }
    var languageData := user.languageProgress.value[language];
    unitProgress := map[];
    var remaining := languageData.Keys;
    while remaining != {}
      invariant remaining <= languageData.Keys
      invariant unitProgress.Keys == languageData.Keys - remaining
      invariant forall unitName :: unitName in unitProgress ==> unitProgress[unitName] == CountTrue(languageData[unitName])
      decreases |remaining|
    {
      var unitName :| unitName in remaining;
      unitProgress := unitProgress[unitName := CountTrue(languageData[unitName])];
      remaining := remaining - {unitName};
    }
  }

  /** Completing a lesson that was not yet `true` raises its unit's count by one; otherwise the count stays. */
  lemma CountAfterMark(lessons: LessonMap, lessonId: string)
    ensures CountTrue(lessons[lessonId := true]) ==
      CountTrue(lessons) + (if lessonId in lessons && lessons[lessonId] then 0 else 1)
  {
    var after := lessons[lessonId := true];
    if lessonId in lessons && lessons[lessonId] {
      assert TrueKeys(after) == TrueKeys(lessons);
    } else {
      assert TrueKeys(after) == TrueKeys(lessons) + {lessonId};
      assert lessonId !in TrueKeys(lessons);
    }
  }

  /**
   * The two readings of the progress map disagree on stored `false` flags: such a lesson makes
   * the unit complete for the lesson screen, yet adds nothing to the count on the grid.
   */
  lemma FalseFlagsCompleteButCountNothing(lessons: LessonMap, unitLessons: seq<Lesson>)
    requires forall i :: 0 <= i < |unitLessons| ==> unitLessons[i].id in lessons
    requires forall k :: k in lessons ==> !lessons[k]
    ensures Progress.AllDone(lessons, unitLessons)
    ensures CountTrue(lessons) == 0
  {
    assert TrueKeys(lessons) == {};
  }

  /** A concrete instance: one lesson stored as `false`. */
  lemma FalseFlagExample(lesson: Lesson)
    ensures var lessons := map[lesson.id := false];
      Progress.AllDone(lessons, [lesson]) && CountTrue(lessons) == 0
  {
    FalseFlagsCompleteButCountNothing(map[lesson.id := false], [lesson]);
  }

  /** Swift's `Int(_:)` on a quotient: truncation toward zero. */
  function TruncDiv(a: int, b: nat): (r: int)
    requires b > 0
    ensures a >= 0 ==> r * b <= a < (r + 1) * b
    ensures a < 0 ==> r <= 0 && -r * b <= -a < (-r + 1) * b
  {
    if a >= 0 then a / b else -((-a) / b)
  }

  /**
   * `optimalColumnCount`: the width left after 32 points of padding, divided by the 150-point
   * minimum card plus 10 points of spacing, truncated, and never below two.
   */
  function ColumnCount(width: int): (r: nat)
    ensures r >= 2
    ensures r > 2 ==> 160 * r <= width - 32 < 160 * (r + 1)
    ensures width - 32 < 3 * 160 ==> r == 2
    ensures width - 32 >= 3 * 160 ==> r > 2
  {
    var optimal := TruncDiv(width - 32, 150 + 10);
    if optimal < 2 then 2 else optimal
  }

  function Concat<T>(rows: seq<seq<T>>): seq<T> {
    if rows == [] then [] else Concat(rows[..|rows| - 1]) + rows[|rows| - 1]
  }

  /**
   * `rows(in:)`: cut the units, in order, into rows of the column count for the grid's width;
   * every row but the last is full, no row is empty, and reading the rows in order gives back
   * the units.
   */
  method Rows<T>(units: seq<T>, width: int) returns (result: seq<seq<T>>)
    ensures Concat(result) == units
    ensures forall i :: 0 <= i < |result| ==> 0 < |result[i]| <= ColumnCount(width)
    ensures forall i :: 0 <= i < |result| - 1 ==> |result[i]| == ColumnCount(width)
  {
    result := RowsOf(units, ColumnCount(width));
  }

  /** The loop of `rows(in:)` for a given column count. */
  method RowsOf<T>(units: seq<T>, columns: nat) returns (result: seq<seq<T>>)
    requires columns > 0
    ensures Concat(result) == units
    ensures forall i :: 0 <= i < |result| ==> 0 < |result[i]| <= columns
    ensures forall i :: 0 <= i < |result| - 1 ==> |result[i]| == columns
  {
    result := [];
    var currentRow: seq<T> := [];
    for k := 0 to |units|
      invariant Concat(result) + currentRow == units[..k]
      invariant |currentRow| < columns
      invariant forall i :: 0 <= i < |result| ==> |result[i]| == columns
    {
      currentRow := currentRow + [units[k]];
      if |currentRow| == columns {
        ConcatSnoc(result, currentRow);
        result := result + [currentRow];
        currentRow := [];
      }
      assert units[..k + 1] == units[..k] + [units[k]];
    }
    assert units[..|units|] == units;
    if currentRow != [] {
      ConcatSnoc(result, currentRow);
      result := result + [currentRow];
    }
  }

  lemma ConcatSnoc<T>(rows: seq<seq<T>>, row: seq<T>)
    ensures Concat(rows + [row]) == Concat(rows) + row
  {
    assert (rows + [row])[..|rows|] == rows;
  }

  /**
   * The premium rule of the grid: every unit is open on the premium plan; otherwise only the
   * units numbered within the first half of the count (`unitNumber - 1 < units.count / 2`).
   */
  predicate IsUnlocked(isPro: bool, unitNumber: int, unitCount: nat) {
    isPro || unitNumber - 1 < unitCount / 2
  }

  /** With units numbered 1..n, a free learner can open exactly the first n / 2. */
  lemma FreeUnitsAreTheFirstHalf(unitNumber: int, n: nat)
    requires 1 <= unitNumber <= n
    ensures IsUnlocked(false, unitNumber, n) <==> unitNumber <= n / 2
    ensures n >= 2 ==> IsUnlocked(false, 1, n)
    ensures !IsUnlocked(false, n, n)
  {
  }

  function UnitNumberOf(u: Unit): int {
    u.unitNumber
  }

  /** `units.sorted { $0.unitNumber < $1.unitNumber }`: ascending unit numbers, the same units. */
  function SortedUnits(units: seq<Unit>): (r: seq<Unit>)
    ensures forall i, j :: 0 <= i < j < |r| ==> r[i].unitNumber <= r[j].unitNumber
    ensures multiset(r) == multiset(units)
  {
    var r := Collections.SortBy(units, UnitNumberOf);
    assert forall i :: 0 <= i < |r| ==> UnitNumberOf(r[i]) == r[i].unitNumber;
    r
  }

  /** The course languages offered by the picker, in display order. */
  const Languages: seq<string> :=
    ["English", "German", "French", "Spanish", "Italian", "Chinese", "Portuguese", "Russian", "Japanese", "Korean"]

  /**
   * `LanguageView`: the selected language and the user as this screen holds it; `written`
   * collects the users sent to the database, oldest first.
   */
  class LanguageScreen {
    var selectedLanguage: string
    var user: User
    var written: seq<User>

    /** The `@State` default is English before the screen appears. */
    constructor(user: User)
      ensures selectedLanguage == "English" && this.user == user && written == []
    {
      selectedLanguage := "English";
      this.user := user;
      written := [];
    }

    /** `onAppear`: select the user's learning language, English when there is none. */
    method Appear()
      modifies this
      ensures selectedLanguage == user.learningLanguage.GetOr("English")
      ensures user == old(user) && written == old(written)
    {
      selectedLanguage := user.learningLanguage.GetOr("English");
    }

    /**
     * A language button: select it, make it the user's learning language and write the user.
     * The grid then reads the same language the lesson screen will use.
     */
    method ChooseLanguage(language: string)
      modifies this
      ensures selectedLanguage == language
      ensures user == old(user).(learningLanguage := Some(language))
      ensures written == old(written) + [user]
      ensures Progress.LanguageKey(user, selectedLanguage) == language
    {
      selectedLanguage := language;
      user := user.(learningLanguage := Some(language));
      written := written + [user];
    }

    /** The language button's highlight. */
    predicate IsSelected(language: string)
      reads this
    {
      language == selectedLanguage
    }
  }
}
