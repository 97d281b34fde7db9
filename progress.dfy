/** The learning-progress rules of the progress context
    (src/contexts/ProgressContext.tsx): lesson completion and locking, the
    weighted per-letter accuracy, the day streak and reset.

    Each rule is a function on a `UserProgress` value; `ProgressStore` is the
    context's `progress` state, replaced by each action exactly as the
    corresponding `setProgress` updater does. Days are whole day numbers:
    the source keeps them as "YYYY-MM-DD" strings, which two equal days
    print alike and whose difference in days is the difference of the
    numbers. */
module Progress {
  import opened Common
  import JsText

  type Day = int

  datatype UserProgress = UserProgress(
    completedLessons: map<string, bool>,
    xpEarned: int,
    daysStreak: int,
    lastActive: Option<Day>,
    letterAccuracy: map<string, int>)

  const InitialProgress := UserProgress(map[], 0, 0, None, map[])

  /** `!!completedLessons[id]`: a missing entry reads `undefined`, which
      counts as not completed, and an entry stored false counts as false. */
  predicate IsLessonCompleted(p: UserProgress, id: string): (done: bool)
    ensures id !in p.completedLessons ==> !done
    ensures id in p.completedLessons ==> (done <==> p.completedLessons[id])
  {
    id in p.completedLessons && p.completedLessons[id]
  }

  // ---------------------------------------------------------------------
  // Locking

  const FirstLesson := "alphabet-1"

  /** `isLessonLocked(id, prerequisite)`. A prerequisite counts only when it
      is a non-empty string. Otherwise the id is read as "category-number":
      number 1 is open, any other number (NaN included) needs the lesson
      "category-(number - 1)" to be completed. */
  function IsLessonLocked(p: UserProgress, id: string, prerequisite: Option<string>): (locked: bool)
    ensures id == FirstLesson ==> !locked
    ensures id != FirstLesson && prerequisite.Some? && prerequisite.value != "" ==>
              locked == !IsLessonCompleted(p, prerequisite.value)
  {
    if id == FirstLesson then false
    else if prerequisite.Some? && prerequisite.value != "" then !IsLessonCompleted(p, prerequisite.value)
    else
      var (category, lessonNum) := LessonNumber(id);
      if lessonNum == Some(1) then false
      else
        var previous := match lessonNum case None => None case Some(n) => Some(n - 1);
        !IsLessonCompleted(p, category + "-" + JsText.NumberToString(previous))
  }

  /** The category before the first '-' and the number parsed from the
      field after it (None for NaN or a missing field). */
  function LessonNumber(id: string): (string, Option<int>) {
    var (category, numStr) := JsText.FirstTwoFields(id, '-');
    (category, match numStr case None => None case Some(t) => JsText.ParseInt(t))
  }

  /** "category-n" reads back as the category and the number n. */
  lemma LessonNumberOfId(category: string, n: nat)
    requires '-' !in category
    ensures LessonNumber(category + "-" + JsText.IntToString(n)) == (category, Some(n))
  {
    var digits := JsText.IntToString(n);
    var id := category + "-" + digits;
    assert digits == JsText.NatToString(n);
    NoDashInNatToString(n);
    assert id == category + ['-'] + digits;
    JsText.FieldsOfJoined(category, '-', digits);
    JsText.ParseIntOfIntToString(n);
  }

  lemma NoDashInNatToString(n: nat)
    ensures '-' !in JsText.NatToString(n)
  {
    var s := JsText.NatToString(n);
    assert JsText.DigitValue('-', 10).None?;
    forall i | 0 <= i < |s|
      ensures s[i] != '-'
    {
      assert JsText.DigitValue(s[i], 10).Some?;
    }
  }

  /** Without a prerequisite, "category-n" (n written in decimal) is open
      for n = 1 and otherwise locked exactly when "category-(n-1)" is not
      completed. */
  lemma LockedByPredecessor(p: UserProgress, category: string, n: nat)
    requires '-' !in category
    ensures var id := category + "-" + JsText.IntToString(n);
      && (n == 1 ==> !IsLessonLocked(p, id, None))
      && (n != 1 && id != FirstLesson ==>
            IsLessonLocked(p, id, None) == !IsLessonCompleted(p, category + "-" + JsText.IntToString(n - 1)))
  {
    var id := category + "-" + JsText.IntToString(n);
    LessonNumberOfId(category, n);
    if id != FirstLesson {
      LockedByNumber(p, id, category, n);
    }
  }

  /** Without a prerequisite, an id whose number parses to k is open for
      k = 1 and otherwise waits for "category-(k-1)". */
  lemma LockedByNumber(p: UserProgress, id: string, category: string, k: int)
    requires id != FirstLesson && LessonNumber(id) == (category, Some(k))
    ensures IsLessonLocked(p, id, None) == (k != 1 && !IsLessonCompleted(p, category + "-" + JsText.IntToString(k - 1)))
  {
    if k != 1 {
      var previous := category + "-" + JsText.NumberToString(Some(k - 1));
      assert IsLessonLocked(p, id, None) == !IsLessonCompleted(p, previous);
      assert JsText.NumberToString(Some(k - 1)) == JsText.IntToString(k - 1);
    }
  }

  /** An id with no '-' has no number: its predecessor is "id-NaN". */
  lemma NumberlessIdWaitsForNaN(p: UserProgress, id: string)
    requires '-' !in id && id != FirstLesson
    ensures IsLessonLocked(p, id, None) == !IsLessonCompleted(p, id + "-NaN")
  {
    assert JsText.FirstTwoFields(id, '-') == (id, None);
    assert id + "-" + "NaN" == id + "-NaN";
  }

  // ---------------------------------------------------------------------
  // Letter accuracy

  /** `letterAccuracy[letter] || 0`. */
  function StoredAccuracy(p: UserProgress, letter: string): int {
    if letter in p.letterAccuracy then p.letterAccuracy[letter] else 0
  }

  /** The accuracy kept after a new result: a first result (stored 0) is
      taken as it is; otherwise 70% new and 30% old, rounded half up. */
  function WeightedAccuracy(current: int, accuracy: int): (r: int)
    ensures current == 0 ==> r == accuracy
    ensures current != 0 ==> 10 * r - 5 <= 7 * accuracy + 3 * current < 10 * r + 5
    ensures current != 0 && accuracy <= current ==> accuracy <= r <= current
    ensures current != 0 && current <= accuracy ==> current <= r <= accuracy
  {
    if current == 0 then accuracy else (7 * accuracy + 3 * current + 5) / 10
  }

  function WithLetterAccuracy(p: UserProgress, letter: string, accuracy: int): (q: UserProgress)
    ensures q.letterAccuracy.Keys == p.letterAccuracy.Keys + {letter}
    ensures q.letterAccuracy[letter] == WeightedAccuracy(StoredAccuracy(p, letter), accuracy)
    ensures forall l :: l in p.letterAccuracy && l != letter ==> q.letterAccuracy[l] == p.letterAccuracy[l]
    ensures q.completedLessons == p.completedLessons && q.xpEarned == p.xpEarned
    ensures q.daysStreak == p.daysStreak && q.lastActive == p.lastActive
  {
    p.(letterAccuracy := p.letterAccuracy[letter := WeightedAccuracy(StoredAccuracy(p, letter), accuracy)])
  }

  /** Submitting the accuracy already stored leaves it stored. */
  lemma SameAccuracyIsFixed(p: UserProgress, letter: string)
    requires letter in p.letterAccuracy
    ensures WithLetterAccuracy(p, letter, p.letterAccuracy[letter]) == p
  {
    assert WithLetterAccuracy(p, letter, p.letterAccuracy[letter]).letterAccuracy == p.letterAccuracy;
  }

  // ---------------------------------------------------------------------
  // Day streak

  /** `updateStreak()` for the day `today`: a first activity starts a streak
      of 1, the same day changes nothing, the next day extends the streak,
      a later day restarts it at 1; a day before the last one (a clock set
      back) changes nothing. */
  function StreakUpdate(p: UserProgress, today: Day): (q: UserProgress)
    ensures p.lastActive == None ==> q == p.(daysStreak := 1, lastActive := Some(today))
    ensures p.lastActive == Some(today) ==> q == p
    ensures p.lastActive.Some? && today - p.lastActive.value == 1 ==>
              q == p.(daysStreak := p.daysStreak + 1, lastActive := Some(today))
    ensures p.lastActive.Some? && today - p.lastActive.value > 1 ==>
              q == p.(daysStreak := 1, lastActive := Some(today))
    ensures p.lastActive.Some? && today < p.lastActive.value ==> q == p
    ensures q.lastActive != p.lastActive ==> q.lastActive == Some(today)
  {
    match p.lastActive
    case None => p.(daysStreak := 1, lastActive := Some(today))
    case Some(last) =>
      if last == today then p
      else
        var diffDays := today - last;
        if diffDays == 1 then p.(daysStreak := p.daysStreak + 1, lastActive := Some(today))
        else if diffDays > 1 then p.(daysStreak := 1, lastActive := Some(today))
        else p
  }

  /** A second activity on the same day changes nothing. */
  lemma StreakUpdateIdempotent(p: UserProgress, today: Day)
    ensures StreakUpdate(StreakUpdate(p, today), today) == StreakUpdate(p, today)
  {
  }

  /** A progress record whose streak is at least 1 whenever a day is
      recorded; the initial record is one, and every action keeps it. */
  predicate StreakConsistent(p: UserProgress) {
    p.lastActive.Some? ==> p.daysStreak >= 1
  }

  lemma StreakUpdateKeepsConsistent(p: UserProgress, today: Day)
    requires StreakConsistent(p)
    ensures StreakConsistent(StreakUpdate(p, today))
    ensures StreakUpdate(p, today).lastActive.Some?
  {
  }

  /** Being active on the `k + 1` consecutive days `first`, ..., `first + k`. */
  function ActiveDays(p: UserProgress, first: Day, k: nat): UserProgress
    decreases k
  {
    if k == 0 then StreakUpdate(p, first) else StreakUpdate(ActiveDays(p, first, k - 1), first + k)
  }

  /** Starting from no recorded day, `k + 1` consecutive active days make a
      streak of `k + 1` ending on the last of them. */
  lemma {:induction false} ConsecutiveDaysStreak(p: UserProgress, first: Day, k: nat)
    requires p.lastActive == None
    ensures ActiveDays(p, first, k).daysStreak == k + 1
    ensures ActiveDays(p, first, k).lastActive == Some(first + k)
    decreases k
  {
    if k > 0 {
      ConsecutiveDaysStreak(p, first, k - 1);
    }
  }

  /** A gap of two days or more after any run restarts the streak at 1. */
  lemma GapRestartsStreak(p: UserProgress, first: Day, k: nat, gap: int)
    requires p.lastActive == None && gap > 1
    ensures StreakUpdate(ActiveDays(p, first, k), first + k + gap).daysStreak == 1
  {
    ConsecutiveDaysStreak(p, first, k);
  }

  // ---------------------------------------------------------------------
  // Completion and reset

  /** The completion updater itself: the id marked and the xp added. */
  function MarkCompleted(p: UserProgress, id: string, xp: int): UserProgress {
    p.(completedLessons := p.completedLessons[id := true], xpEarned := p.xpEarned + xp)
  }

  /** `completeLesson(id, xp)` on `today`: the completion updater, then the
      streak updater it queues. */
  function WithLessonCompleted(p: UserProgress, id: string, xp: int, today: Day): (q: UserProgress)
    ensures IsLessonCompleted(q, id)
    ensures q.xpEarned == p.xpEarned + xp
    ensures q.completedLessons.Keys == p.completedLessons.Keys + {id}
    ensures forall other :: other != id ==> IsLessonCompleted(q, other) == IsLessonCompleted(p, other)
    ensures q.letterAccuracy == p.letterAccuracy
    ensures q.daysStreak == StreakUpdate(p, today).daysStreak && q.lastActive == StreakUpdate(p, today).lastActive
  {
    StreakUpdate(MarkCompleted(p, id, xp), today)
  }

  /** Completing a lesson twice on one day adds its xp twice but marks it
      once and touches the streak once. */
  lemma CompleteTwice(p: UserProgress, id: string, xp: int, today: Day)
    ensures var twice := WithLessonCompleted(WithLessonCompleted(p, id, xp, today), id, xp, today);
      && twice.xpEarned == p.xpEarned + 2 * xp
      && twice.completedLessons == WithLessonCompleted(p, id, xp, today).completedLessons
      && twice.daysStreak == WithLessonCompleted(p, id, xp, today).daysStreak
  {
    StreakUpdateIdempotent(MarkCompleted(p, id, xp), today);
  }

  /** A completed lesson stays completed through every action but a reset:
      completing any lesson, recording a letter's accuracy and updating the
      streak never clear it, and a reset clears it exactly when it takes
      effect. */
  lemma CompletionPersists(p: UserProgress, id: string, other: string, xp: int, today: Day,
                           letter: string, accuracy: int, hasUser: bool, remoteOk: bool)
    requires IsLessonCompleted(p, id)
    ensures IsLessonCompleted(WithLessonCompleted(p, other, xp, today), id)
    ensures IsLessonCompleted(WithLetterAccuracy(p, letter, accuracy), id)
    ensures IsLessonCompleted(StreakUpdate(p, today), id)
    ensures IsLessonCompleted(AfterReset(p, hasUser, remoteOk), id) <==> hasUser && !remoteOk
  {
    InitialProgressFacts(id, letter, today);
  }

  /** Completing "category-(n-1)" opens "category-n" (when it has no
      prerequisite of its own), and recording accuracy or a later day's
      streak keeps it open. */
  lemma CompletionOpensNext(p: UserProgress, category: string, n: nat, xp: int, today: Day,
                            letter: string, accuracy: int)
    requires '-' !in category && n >= 1
    ensures var q := WithLessonCompleted(p, category + "-" + JsText.IntToString(n - 1), xp, today);
      var id := category + "-" + JsText.IntToString(n);
      && !IsLessonLocked(q, id, None)
      && !IsLessonLocked(WithLetterAccuracy(q, letter, accuracy), id, None)
      && !IsLessonLocked(StreakUpdate(q, today + 1), id, None)
  {
    var previous := category + "-" + JsText.IntToString(n - 1);
    var q := WithLessonCompleted(p, previous, xp, today);
    CompletionPersists(q, previous, previous, xp, today, letter, accuracy, true, false);
    LockedByPredecessor(q, category, n);
    LockedByPredecessor(WithLetterAccuracy(q, letter, accuracy), category, n);
    LockedByPredecessor(StreakUpdate(q, today + 1), category, n);
  }

  /** `resetProgress()`: with a signed-in user the record is reset only when
      the remote update succeeds; without one it always is. */
  function AfterReset(p: UserProgress, hasUser: bool, remoteOk: bool): (q: UserProgress)
    ensures !hasUser || remoteOk ==> q == InitialProgress
    ensures hasUser && !remoteOk ==> q == p
    ensures q == InitialProgress || q == p
  {
    if hasUser && !remoteOk then p else InitialProgress
  }

  lemma InitialProgressFacts(id: string, letter: string, today: Day)
    ensures !IsLessonCompleted(InitialProgress, id)
    ensures StoredAccuracy(InitialProgress, letter) == 0
    ensures StreakConsistent(InitialProgress)
    ensures StreakUpdate(InitialProgress, today).daysStreak == 1
  {
  }

  /** The context's `progress` state. `saved` lists every record handed to
      the remote save, which happens only with a signed-in user. */
  class ProgressStore {
    const hasUser: bool
    var progress: UserProgress
    var saved: seq<UserProgress>

    constructor (hasUser: bool)
      ensures this.hasUser == hasUser
      ensures progress == InitialProgress && saved == []
    {
      this.hasUser := hasUser;
      progress := InitialProgress;
      saved := [];
    }

    function Save(q: UserProgress): seq<UserProgress>
      reads this
    {
      if hasUser then [q] else []
    }

    /** `updateStreak()`: only a changing case replaces and saves the record. */
    method UpdateStreak(today: Day)
      modifies this
      ensures progress == StreakUpdate(old(progress), today)
      ensures saved == old(saved) + (if progress.lastActive != old(progress).lastActive then Save(progress) else [])
    {
      var q := StreakUpdate(progress, today);
      if q.lastActive != progress.lastActive {
        progress := q;
        saved := saved + Save(q);
      }
    }

    /** `completeLesson(id, xp)`: the marked record is saved, then the streak
        updater runs on it and saves again if it changes anything. */
    method CompleteLesson(id: string, xp: int, today: Day)
      modifies this
      ensures progress == WithLessonCompleted(old(progress), id, xp, today)
      ensures saved == old(saved) + Save(MarkCompleted(old(progress), id, xp))
                       + (if progress.lastActive != old(progress).lastActive then Save(progress) else [])
    {
      var marked := MarkCompleted(progress, id, xp);
      progress := marked;
      saved := saved + Save(marked);
      UpdateStreak(today);
    }

    /** `updateLetterAccuracy(letter, accuracy)`. */
    method UpdateLetterAccuracy(letter: string, accuracy: int)
      modifies this
      ensures progress == WithLetterAccuracy(old(progress), letter, accuracy)
      ensures saved == old(saved) + Save(progress)
    {
      progress := WithLetterAccuracy(progress, letter, accuracy);
      saved := saved + Save(progress);
    }

    /** `resetProgress()`; `remoteOk` is whether the remote update succeeded. */
    method ResetProgress(remoteOk: bool)
      modifies this
      ensures progress == AfterReset(old(progress), hasUser, remoteOk)
      ensures saved == old(saved)
    {
      progress := AfterReset(progress, hasUser, remoteOk);
    }
  }
}
