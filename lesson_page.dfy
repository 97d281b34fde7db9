/** The lesson page (src/pages/Lesson.tsx): the lesson looked up from the
    route id, the current letter index moved by "next" and "previous", the
    status and attempt count of the mock sign check, and the progress bar.
    The route id, the mock check's random outcome and navigation are
    parameters and a log of paths. */
module LessonPage {
  import opened Common

  datatype LessonInfo = LessonInfo(id: string, title: string, letters: seq<string>)

  /** `null`, `'correct'` and `'incorrect'`. */
  datatype Status = NoStatus | Correct | Incorrect

  const LessonsPath := "/lessons"

  /** The page's own table of lessons. */
  const LessonData: map<string, LessonInfo> := map[
    "alphabet-1" := LessonInfo("alphabet-1", "Letters A-D", ["A", "B", "C", "D"]),
    "alphabet-2" := LessonInfo("alphabet-2", "Letters E-H", ["E", "F", "G", "H"]),
    "alphabet-3" := LessonInfo("alphabet-3", "Letters I-L", ["I", "J", "K", "L"]),
    "alphabet-4" := LessonInfo("alphabet-4", "Letters M-P", ["M", "N", "O", "P"]),
    "alphabet-5" := LessonInfo("alphabet-5", "Letters Q-T", ["Q", "R", "S", "T"]),
    "alphabet-6" := LessonInfo("alphabet-6", "Letters U-Z", ["U", "V", "W", "X", "Y", "Z"]),
    "numbers-1" := LessonInfo("numbers-1", "Numbers 1-5", ["1", "2", "3", "4", "5"]),
    "numbers-2" := LessonInfo("numbers-2", "Numbers 6-10", ["6", "7", "8", "9", "10"])
  ]

  /** Every lesson in the table is stored under its own id and has letters,
      so a loaded lesson always has a current letter. */
  lemma LessonDataWellFormed()
    ensures forall k :: k in LessonData ==> LessonData[k].id == k && |LessonData[k].letters| >= 4
  {
  }

  /** The names every plain object inherits from `Object.prototype`; indexing
      the table with one of them yields a truthy value that is not a lesson. */
  const InheritedKeys: set<string> := {
    "constructor", "toString", "toLocaleString", "valueOf", "hasOwnProperty",
    "isPrototypeOf", "propertyIsEnumerable", "__proto__", "__defineGetter__",
    "__defineSetter__", "__lookupGetter__", "__lookupSetter__"
  }

  /** What `id && lessonData[id]` finds. */
  datatype Found = OwnLesson(info: LessonInfo) | NotALesson | Nothing

  /** The effect's test as written: any truthy property passes. */
  function LookupAsWritten(id: Option<string>): (r: Found)
    ensures r.OwnLesson? <==> id.Some? && id.value in LessonData
    ensures r.NotALesson? <==> id.Some? && id.value !in LessonData && id.value in InheritedKeys
  {
    if id.None? || id.value == "" then Nothing
    else if id.value in LessonData then OwnLesson(LessonData[id.value])
    else if id.value in InheritedKeys then NotALesson
    else Nothing
  }

  /** `/lesson/constructor` passes the test, so the page neither redirects
      nor gets a lesson with letters: rendering it reads `letters` of a
      function. */
  lemma InheritedIdPassesTest()
    ensures LookupAsWritten(Some("constructor")) == NotALesson
  {
    assert "constructor" !in LessonData;
  }

  /** The lookup as intended: the table's own entries only. */
  function Lookup(id: Option<string>): (r: Option<LessonInfo>)
    ensures r.Some? <==> id.Some? && id.value in LessonData
    ensures r.Some? ==> r.value == LessonData[id.value] && r.value.id == id.value && |r.value.letters| > 0
  {
    LessonDataWellFormed();
    if id.Some? && id.value in LessonData then Some(LessonData[id.value]) else None
  }

  /** The two lookups agree except on inherited names, where the intended
      one redirects. */
  lemma LookupsAgreeOnOwnKeys(id: Option<string>)
    ensures LookupAsWritten(id).NotALesson? || (Lookup(id).Some? <==> LookupAsWritten(id).OwnLesson?)
    ensures LookupAsWritten(id).OwnLesson? ==> Lookup(id) == Some(LookupAsWritten(id).info)
  {
  }

  /** `((currentLetterIndex + 1) / lesson.letters.length) * 100`. */
  function ProgressPercent(index: nat, count: nat): (r: real)
    requires index < count
    ensures 0.0 < r <= 100.0
    ensures r == 100.0 <==> index == count - 1
  {
    (index + 1) as real / count as real * 100.0
  }

  /** A later letter shows more progress. */
  lemma ProgressIncreases(i: nat, j: nat, count: nat)
    requires i < j < count
    ensures ProgressPercent(i, count) < ProgressPercent(j, count)
  {
    assert (i + 1) as real / count as real < (j + 1) as real / count as real;
  }

  class Page {
    var lesson: Option<LessonInfo>
    var index: nat
    var status: Status
    var attempts: nat
    var cameraEnabled: bool
    /** The paths passed to `navigate`, in order. */
    var navigations: seq<string>

    /** A loaded lesson has a letter at the current index. */
    ghost predicate Valid()
      reads this
    {
      lesson.Some? ==> index < |lesson.value.letters|
    }

    /** The initial state before the effect runs. */
    constructor()
      ensures lesson == None && index == 0 && status == NoStatus && attempts == 0
      ensures !cameraEnabled && navigations == []
      ensures Valid()
    {
      lesson := None;
      index := 0;
      status := NoStatus;
      attempts := 0;
      cameraEnabled := false;
      navigations := [];
    }

    /** The effect on the route id: set the lesson, or go back to the list.
        The index, status and attempts are not reset. */
    method Load(id: Option<string>)
      modifies this
      ensures Lookup(id).Some? ==> lesson == Lookup(id) && navigations == old(navigations)
      ensures Lookup(id).None? ==> lesson == old(lesson) && navigations == old(navigations) + [LessonsPath]
      ensures index == old(index) && status == old(status) && attempts == old(attempts)
      ensures cameraEnabled == old(cameraEnabled)
      ensures old(index) == 0 && old(Valid()) ==> Valid()
    {
      var found := Lookup(id);
      if found.Some? {
        lesson := found;
      } else {
        navigations := navigations + [LessonsPath];
      }
    }

    /** `handleNextLetter`: nothing without a lesson or on the last letter. */
    method NextLetter()
      requires Valid()
      modifies this
      ensures Valid()
      ensures var moved := old(lesson).Some? && old(index) < |old(lesson).value.letters| - 1;
              (moved ==> index == old(index) + 1 && status == NoStatus && attempts == 0)
              && (!moved ==> index == old(index) && status == old(status) && attempts == old(attempts))
      ensures lesson == old(lesson) && cameraEnabled == old(cameraEnabled) && navigations == old(navigations)
    {
      if lesson.None? {
        return;
      }
      if index < |lesson.value.letters| - 1 {
        index := index + 1;
        status := NoStatus;
        attempts := 0;
      }
    }

    /** `handlePreviousLetter`: nothing on the first letter. */
    method PreviousLetter()
      requires Valid()
      modifies this
      ensures Valid()
      ensures old(index) > 0 ==> index == old(index) - 1 && status == NoStatus && attempts == 0
      ensures old(index) == 0 ==> index == 0 && status == old(status) && attempts == old(attempts)
      ensures lesson == old(lesson) && cameraEnabled == old(cameraEnabled) && navigations == old(navigations)
    {
      if index > 0 {
        index := index - 1;
        status := NoStatus;
        attempts := 0;
      }
    }

    /** `handleSignDetection`; `isCorrect` is the mock's random draw. */
    method SignDetection(isCorrect: bool)
      requires Valid()
      modifies this
      ensures Valid()
      ensures attempts == old(attempts) + 1
      ensures status == (if isCorrect then Correct else Incorrect)
      ensures lesson == old(lesson) && index == old(index)
      ensures cameraEnabled == old(cameraEnabled) && navigations == old(navigations)
    {
      attempts := attempts + 1;
      status := if isCorrect then Correct else Incorrect;
    }

    /** `toggleCamera`. */
    method ToggleCamera()
      modifies this
      ensures cameraEnabled == !old(cameraEnabled)
      ensures lesson == old(lesson) && index == old(index) && status == old(status)
      ensures attempts == old(attempts) && navigations == old(navigations)
    {
      cameraEnabled := !cameraEnabled;
    }

    /** `handleFinishLesson`. */
    method FinishLesson()
      modifies this
      ensures navigations == old(navigations) + [LessonsPath]
      ensures lesson == old(lesson) && index == old(index) && status == old(status)
      ensures attempts == old(attempts) && cameraEnabled == old(cameraEnabled)
    {
      navigations := navigations + [LessonsPath];
    }

    /** The letter shown and the progress bar's value. */
    function CurrentLetter(): (r: string)
      requires Valid() && lesson.Some?
      reads this
      ensures r in lesson.value.letters
    {
      lesson.value.letters[index]
    }

    function Progress(): (r: real)
      requires Valid() && lesson.Some?
      reads this
      ensures 0.0 < r <= 100.0
      ensures r == 100.0 <==> index == |lesson.value.letters| - 1
    {
      ProgressPercent(index, |lesson.value.letters|)
    }
  }

  /** Walking a four-letter lesson: "next" three times reaches the last
      letter at 100%, a fourth "next" stays there, and "previous" goes back
      one letter with the status and attempts cleared. */
  method WalkFirstLesson() returns (last: nat, progress: real, back: nat, attemptsAfterBack: nat)
    ensures last == 3 && progress == 100.0 && back == 2 && attemptsAfterBack == 0
  {
    var p := new Page();
    p.Load(Some("alphabet-1"));
    assert p.lesson == Some(LessonData["alphabet-1"]);
    p.NextLetter();
    p.NextLetter();
    p.SignDetection(false);
    p.NextLetter();
    p.NextLetter();
    last := p.index;
    progress := p.Progress();
    p.SignDetection(true);
    p.PreviousLetter();
    back := p.index;
    attemptsAfterBack := p.attempts;
  }
}
