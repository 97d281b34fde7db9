/** The community statistics card (src/components/community/CommunityStats.tsx):
    totals over the progress records, the count of users who mastered each
    letter (accuracy at least 80), the five most mastered letters, the
    capped weekly figure and the percentage shown beside each letter. The
    records and the profile count are the query results. */
module CommunityStats {
  import opened Common
  import opened Ranking
  import opened Leaderboards

  const MasteryThreshold := 80
  const WeeklyCap := 10000
  const SignsPerLesson := 15

  datatype LetterCount = LetterCount(letter: string, count: int)

  datatype Stats = Stats(
    totalUsers: int,
    totalXp: int,
    totalLessonsCompleted: int,
    mostMasteredLetters: seq<LetterCount>,
    weeklySignsPracticed: int)

  /** `sum + user.xp_earned`; a `null` column adds 0. */
  function TotalXp(rows: seq<ProgressRow>): int {
    if |rows| == 0 then 0 else OrZero(rows[0].xpEarned) + TotalXp(rows[1..])
  }

  function LessonCount(row: ProgressRow): (r: nat)
    ensures row.completedLessons.Some? ==> r == |row.completedLessons.value|
    ensures row.completedLessons.None? ==> r == 0
  {
    if row.completedLessons.Some? then |row.completedLessons.value| else 0
  }

  function TotalLessons(rows: seq<ProgressRow>): nat {
    if |rows| == 0 then 0 else LessonCount(rows[0]) + TotalLessons(rows[1..])
  }

  /** Both totals add up over a split of the records, so they do not depend
      on how the records are batched. */
  lemma {:induction false} TotalsAppend(a: seq<ProgressRow>, b: seq<ProgressRow>)
    ensures TotalXp(a + b) == TotalXp(a) + TotalXp(b)
    ensures TotalLessons(a + b) == TotalLessons(a) + TotalLessons(b)
  {
    if |a| > 0 {
      assert (a + b)[1..] == a[1..] + b;
      TotalsAppend(a[1..], b);
    } else {
      assert a + b == b;
    }
  }

  /** Every record's lessons are part of the total, and the card shows 0
      lessons exactly when no record has a completed lesson (a record with
      no map counting none). */
  lemma {:induction false} TotalLessonsCoversRecords(rows: seq<ProgressRow>)
    ensures forall i :: 0 <= i < |rows| ==> LessonCount(rows[i]) <= TotalLessons(rows)
    ensures TotalLessons(rows) == 0 <==> forall i :: 0 <= i < |rows| ==> LessonCount(rows[i]) == 0
  {
    if |rows| > 0 {
      TotalLessonsCoversRecords(rows[1..]);
      assert forall i :: 1 <= i < |rows| ==> rows[i] == rows[1..][i - 1];
    }
  }

  /** `letter_accuracy || {}` as entries. */
  function AccuracyEntries(row: ProgressRow): seq<(string, int)> {
    if row.letterAccuracy.Some? then row.letterAccuracy.value else []
  }

  /** `letterCounts[letter] = (letterCounts[letter] || 0) + 1` on the record
      kept as its entries in insertion order. */
  function Bump(c: seq<LetterCount>, l: string): (r: seq<LetterCount>)
    ensures |r| == |c| || r == c + [LetterCount(l, 1)]
  {
    if |c| == 0 then [LetterCount(l, 1)]
    else if c[0].letter == l then [LetterCount(l, c[0].count + 1)] + c[1..]
    else [c[0]] + Bump(c[1..], l)
  }

  /** One user's entries added to the counts. */
  function TallyEntries(c: seq<LetterCount>, es: seq<(string, int)>): seq<LetterCount> {
    if |es| == 0 then c
    else
      var before := TallyEntries(c, es[..|es| - 1]);
      var last := es[|es| - 1];
      if last.1 >= MasteryThreshold then Bump(before, last.0) else before
  }

  /** The counts after the records, in order. */
  function Tally(rows: seq<ProgressRow>): seq<LetterCount> {
    if |rows| == 0 then []
    else TallyEntries(Tally(rows[..|rows| - 1]), AccuracyEntries(rows[|rows| - 1]))
  }

  /** The nested `forEach` loops that fill `letterCounts`. */
  method MasteryCounts(rows: seq<ProgressRow>) returns (counts: seq<LetterCount>)
    ensures counts == Tally(rows)
  {
    counts := [];
    var i := 0;
    while i < |rows|
      invariant 0 <= i <= |rows|
      invariant counts == Tally(rows[..i])
    {
      var es := AccuracyEntries(rows[i]);
      var j := 0;
      while j < |es|
        invariant 0 <= j <= |es|
        invariant counts == TallyEntries(Tally(rows[..i]), es[..j])
      {
        assert es[..j + 1][..j] == es[..j];
        if es[j].1 >= MasteryThreshold {
          counts := Bump(counts, es[j].0);
        }
        j := j + 1;
      }
      assert es[..j] == es;
      assert rows[..i + 1][..i] == rows[..i];
      i := i + 1;
    }
    assert rows[..i] == rows;
  }

  /** The count recorded for a letter, 0 when it has none. */
  function CountOf(c: seq<LetterCount>, l: string): int {
    if |c| == 0 then 0 else if c[0].letter == l then c[0].count else CountOf(c[1..], l)
  }

  /** How many of one user's entries are for `l` with a mastered accuracy. */
  function MasteredIn(es: seq<(string, int)>, l: string): nat {
    if |es| == 0 then 0
    else MasteredIn(es[..|es| - 1], l) + (if es[|es| - 1].0 == l && es[|es| - 1].1 >= MasteryThreshold then 1 else 0)
  }

  function Masters(rows: seq<ProgressRow>, l: string): nat {
    if |rows| == 0 then 0
    else Masters(rows[..|rows| - 1], l) + MasteredIn(AccuracyEntries(rows[|rows| - 1]), l)
  }

  lemma {:induction false} BumpCount(c: seq<LetterCount>, l: string, m: string)
    ensures CountOf(Bump(c, l), m) == CountOf(c, m) + (if m == l then 1 else 0)
  {
    if |c| > 0 && c[0].letter != l {
      BumpCount(c[1..], l, m);
      assert Bump(c, l)[1..] == Bump(c[1..], l);
    }
  }

  lemma {:induction false} TallyEntriesCount(c: seq<LetterCount>, es: seq<(string, int)>, l: string)
    ensures CountOf(TallyEntries(c, es), l) == CountOf(c, l) + MasteredIn(es, l)
  {
    if |es| > 0 {
      TallyEntriesCount(c, es[..|es| - 1], l);
      var last := es[|es| - 1];
      if last.1 >= MasteryThreshold {
        BumpCount(TallyEntries(c, es[..|es| - 1]), last.0, l);
      }
    }
  }

  /** A letter's count is the number of mastered entries for it. */
  lemma {:induction false} TallyCounts(rows: seq<ProgressRow>, l: string)
    ensures CountOf(Tally(rows), l) == Masters(rows, l)
  {
    if |rows| > 0 {
      TallyCounts(rows[..|rows| - 1], l);
      TallyEntriesCount(Tally(rows[..|rows| - 1]), AccuracyEntries(rows[|rows| - 1]), l);
    }
  }

  /** A user's accuracy record has one entry per letter. */
  predicate DistinctLetters(es: seq<(string, int)>) {
    forall i, j :: 0 <= i < j < |es| ==> es[i].0 != es[j].0
  }

  predicate HasMastered(row: ProgressRow, l: string) {
    exists i :: 0 <= i < |AccuracyEntries(row)| && AccuracyEntries(row)[i].0 == l
                && AccuracyEntries(row)[i].1 >= MasteryThreshold
  }

  /** The number of users who mastered `l`. */
  function UsersMastering(rows: seq<ProgressRow>, l: string): nat {
    if |rows| == 0 then 0
    else UsersMastering(rows[..|rows| - 1], l) + (if HasMastered(rows[|rows| - 1], l) then 1 else 0)
  }

  lemma {:induction false} MasteredInOne(es: seq<(string, int)>, l: string)
    requires DistinctLetters(es)
    ensures MasteredIn(es, l) == if exists i :: 0 <= i < |es| && es[i].0 == l && es[i].1 >= MasteryThreshold then 1 else 0
  {
    if |es| > 0 {
      var init := es[..|es| - 1];
      assert DistinctLetters(init) by {
        assert forall i :: 0 <= i < |init| ==> init[i] == es[i];
      }
      MasteredInOne(init, l);
      assert forall i :: 0 <= i < |init| ==> init[i] == es[i];
      if es[|es| - 1].0 == l {
        assert forall i :: 0 <= i < |init| ==> init[i].0 != l;
      }
    }
  }

  /** With one entry per letter in every record, a letter's count is the
      number of users whose accuracy for it is at least 80. */
  lemma {:induction false} MasteryCountIsUsers(rows: seq<ProgressRow>, l: string)
    requires forall k :: 0 <= k < |rows| ==> DistinctLetters(AccuracyEntries(rows[k]))
    ensures CountOf(Tally(rows), l) == UsersMastering(rows, l)
  {
    TallyCounts(rows, l);
    MastersAreUsers(rows, l);
  }

  lemma {:induction false} MastersAreUsers(rows: seq<ProgressRow>, l: string)
    requires forall k :: 0 <= k < |rows| ==> DistinctLetters(AccuracyEntries(rows[k]))
    ensures Masters(rows, l) == UsersMastering(rows, l)
  {
    if |rows| > 0 {
      var init := rows[..|rows| - 1];
      assert forall k :: 0 <= k < |init| ==> init[k] == rows[k];
      MastersAreUsers(init, l);
      MasteredInOne(AccuracyEntries(rows[|rows| - 1]), l);
    }
  }

  /** The recorded letters are distinct and each count is at least 1. */
  predicate WellFormedCounts(c: seq<LetterCount>) {
    (forall i :: 0 <= i < |c| ==> c[i].count >= 1)
    && (forall i, j :: 0 <= i < j < |c| ==> c[i].letter != c[j].letter)
  }

  lemma {:induction false} BumpWellFormed(c: seq<LetterCount>, l: string)
    requires WellFormedCounts(c)
    ensures WellFormedCounts(Bump(c, l))
    ensures LettersOf(Bump(c, l)) <= LettersOf(c) + {l}
  {
    BumpLetters(c, l);
    if |c| > 0 && c[0].letter != l {
      var t := c[1..];
      assert forall i :: 0 <= i < |t| ==> t[i] == c[i + 1];
      BumpWellFormed(t, l);
      var r := Bump(c, l);
      assert r[1..] == Bump(t, l);
      assert c[0].letter !in LettersOf(t);
      forall j | 0 < j < |r| ensures r[0].letter != r[j].letter {
        assert r[j].letter in LettersOf(Bump(t, l)) by {
          assert r[j] == Bump(t, l)[j - 1];
        }
      }
    }
  }

  /** An increment adds no letter but the incremented one. */
  lemma {:induction false} BumpLetters(c: seq<LetterCount>, l: string)
    ensures LettersOf(Bump(c, l)) <= LettersOf(c) + {l}
  {
    var r := Bump(c, l);
    if |c| > 0 && c[0].letter != l {
      var t := c[1..];
      BumpLetters(t, l);
      forall k | 0 <= k < |r| ensures r[k].letter in LettersOf(c) + {l} {
        if k == 0 {
          assert r[0] == c[0];
        } else {
          assert r[k] == Bump(t, l)[k - 1];
          assert r[k].letter in LettersOf(Bump(t, l));
          assert r[k].letter in LettersOf(t) + {l};
          if r[k].letter in LettersOf(t) {
            var m :| 0 <= m < |t| && t[m].letter == r[k].letter;
            assert t[m] == c[m + 1];
          }
        }
      }
    } else if |c| > 0 {
      forall k | 0 < k < |r| ensures r[k].letter in LettersOf(c) {
        assert r[k] == c[k];
      }
    }
  }

  ghost function LettersOf(c: seq<LetterCount>): set<string> {
    set i | 0 <= i < |c| :: c[i].letter
  }

  lemma {:induction false} TallyWellFormed(rows: seq<ProgressRow>)
    ensures WellFormedCounts(Tally(rows))
  {
    if |rows| > 0 {
      TallyWellFormed(rows[..|rows| - 1]);
      TallyEntriesWellFormed(Tally(rows[..|rows| - 1]), AccuracyEntries(rows[|rows| - 1]));
    }
  }

  lemma {:induction false} TallyEntriesWellFormed(c: seq<LetterCount>, es: seq<(string, int)>)
    requires WellFormedCounts(c)
    ensures WellFormedCounts(TallyEntries(c, es))
  {
    if |es| > 0 {
      TallyEntriesWellFormed(c, es[..|es| - 1]);
      if es[|es| - 1].1 >= MasteryThreshold {
        BumpWellFormed(TallyEntries(c, es[..|es| - 1]), es[|es| - 1].0);
      }
    }
  }

  function CountKey(e: LetterCount): int {
    e.count
  }

  /** `Object.entries(letterCounts).sort(by count, descending).slice(0, 5)`. */
  function MostMastered(counts: seq<LetterCount>): (r: seq<LetterCount>)
    ensures |r| <= 5
    ensures |r| == if |counts| < 5 then |counts| else 5
  {
    Take(SortDesc(counts, CountKey), 5)
  }

  /** The top five are in non-increasing count order, each is one of the
      counts, and a count left out is no larger than any shown. */
  lemma MostMasteredFacts(counts: seq<LetterCount>, x: LetterCount)
    ensures var r := MostMastered(counts);
            forall i, j :: 0 <= i < j < |r| ==> r[i].count >= r[j].count
    ensures forall y :: y in MostMastered(counts) ==> y in counts
    ensures x in counts ==>
              x in MostMastered(counts) || (|MostMastered(counts)| == 5 && forall y :: y in MostMastered(counts) ==> y.count >= x.count)
  {
    var s := SortDesc(counts, CountKey);
    SortDescSorted(counts, CountKey);
    var r := MostMastered(counts);
    assert forall i :: 0 <= i < |r| ==> r[i] == s[i];
    forall y | y in r ensures y in counts {
      assert y in multiset(s);
    }
    if x in counts {
      TopCut(counts, CountKey, x, 5);
    }
  }

  /** `Math.min(10000, totalLessonsCompleted * 15)`. */
  function WeeklySigns(totalLessons: nat): (r: nat)
    ensures r <= WeeklyCap
    ensures r <= SignsPerLesson * totalLessons
    ensures r == WeeklyCap || r == SignsPerLesson * totalLessons
  {
    if totalLessons * SignsPerLesson < WeeklyCap then totalLessons * SignsPerLesson else WeeklyCap
  }

  /** The query function's result. `count` is the profile count (`null` gives 0). */
  function Compute(count: Option<nat>, rows: seq<ProgressRow>): (s: Stats)
    ensures s.totalUsers == if count.Some? then count.value else 0
    ensures s.weeklySignsPracticed <= WeeklyCap
    ensures |s.mostMasteredLetters| <= 5
  {
    var lessons := TotalLessons(rows);
    Stats(if count.Some? then count.value else 0, TotalXp(rows), lessons,
          MostMastered(Tally(rows)), WeeklySigns(lessons))
  }

  /** Each shown letter was mastered by at least one user, and no letter is
      shown twice. */
  lemma ShownLettersMastered(count: Option<nat>, rows: seq<ProgressRow>)
    ensures var m := Compute(count, rows).mostMasteredLetters;
            forall i :: 0 <= i < |m| ==> m[i].count >= 1 && m[i].count == CountOf(Tally(rows), m[i].letter)
  {
    var c := Tally(rows);
    TallyWellFormed(rows);
    var m := Compute(count, rows).mostMasteredLetters;
    forall i | 0 <= i < |m| ensures m[i].count >= 1 && m[i].count == CountOf(c, m[i].letter) {
      MostMasteredFacts(c, m[i]);
      assert m[i] in c;
      var k :| 0 <= k < |c| && c[k] == m[i];
      CountOfDistinct(c, k);
    }
  }

  lemma {:induction false} CountOfDistinct(c: seq<LetterCount>, k: nat)
    requires k < |c| && WellFormedCounts(c)
    ensures CountOf(c, c[k].letter) == c[k].count
  {
    if k > 0 {
      assert WellFormedCounts(c[1..]) by {
        assert forall i :: 0 <= i < |c[1..]| ==> c[1..][i] == c[i + 1];
      }
      CountOfDistinct(c[1..], k - 1);
    }
  }

  /** The columns the statistics query selects: `xp_earned` and
      `completed_lessons`; the other columns read back as absent. */
  function Selected(row: ProgressRow): ProgressRow {
    ProgressRow(row.userId, row.xpEarned, None, row.completedLessons, None)
  }

  function SelectedRows(rows: seq<ProgressRow>): (r: seq<ProgressRow>)
    ensures |r| == |rows|
    ensures forall k :: 0 <= k < |rows| ==> r[k] == Selected(rows[k])
  {
    if |rows| == 0 then [] else [Selected(rows[0])] + SelectedRows(rows[1..])
  }

  /** The card as the code computes it: from the selected columns only. */
  function ComputeAsWritten(count: Option<nat>, rows: seq<ProgressRow>): (s: Stats)
    ensures s.totalUsers == if count.Some? then count.value else 0
  {
    Compute(count, SelectedRows(rows))
  }

  lemma {:induction false} TallyWithoutAccuracy(rows: seq<ProgressRow>)
    requires forall k :: 0 <= k < |rows| ==> rows[k].letterAccuracy.None?
    ensures Tally(rows) == []
  {
    if |rows| > 0 {
      TallyWithoutAccuracy(rows[..|rows| - 1]);
    }
  }

  lemma {:induction false} TotalsOfSelected(rows: seq<ProgressRow>)
    ensures TotalXp(SelectedRows(rows)) == TotalXp(rows)
    ensures TotalLessons(SelectedRows(rows)) == TotalLessons(rows)
  {
    if |rows| > 0 {
      TotalsOfSelected(rows[1..]);
      assert SelectedRows(rows)[1..] == SelectedRows(rows[1..]);
    }
  }

  /** Because `letter_accuracy` is not selected, the most-mastered list is
      always empty, whatever the users' accuracies; the totals are not
      affected. */
  lemma AsWrittenNeverShowsMastery(count: Option<nat>, rows: seq<ProgressRow>)
    ensures ComputeAsWritten(count, rows).mostMasteredLetters == []
    ensures ComputeAsWritten(count, rows).totalXp == Compute(count, rows).totalXp
    ensures ComputeAsWritten(count, rows).totalLessonsCompleted == Compute(count, rows).totalLessonsCompleted
  {
    TallyWithoutAccuracy(SelectedRows(rows));
    TotalsOfSelected(rows);
  }

  /** The percentage beside a letter:
      `Math.min(100, Math.round((count / totalUsers) * 100)) || 0`. With no
      users the quotient is Infinity (100) for a positive count and NaN (0)
      for a zero count. */
  function Percentage(count: nat, totalUsers: nat): (r: int)
    ensures 0 <= r <= 100
    ensures totalUsers == 0 ==> r == (if count > 0 then 100 else 0)
    ensures totalUsers > 0 && count >= totalUsers ==> r == 100
    ensures totalUsers > 0 && r < 100 ==>
              2 * totalUsers * r - totalUsers <= 200 * count < 2 * totalUsers * r + totalUsers
  {
    if totalUsers == 0 then (if count > 0 then 100 else 0)
    else
      var rounded := (200 * count + totalUsers) / (2 * totalUsers);
      RoundedShare(count, totalUsers);
      if rounded < 100 then rounded else 100
  }

  /** `Math.round(count / total * 100)` on exact values: the nearest whole
      percentage, which is at least 100 once the count reaches the total. */
  lemma RoundedShare(count: nat, total: nat)
    requires total > 0
    ensures var q := (200 * count + total) / (2 * total);
            && q >= 0
            && 2 * total * q - total <= 200 * count < 2 * total * q + total
            && (count >= total ==> q >= 100)
  {
    QuotientBounds(200 * count + total, 2 * total);
    if count >= total {
      QuotientAtLeast(200 * count + total, 2 * total, 100);
    }
  }

  /** Euclidean division brackets its dividend. */
  lemma QuotientBounds(x: nat, d: int)
    requires d > 0
    ensures 0 <= x / d && d * (x / d) <= x < d * (x / d) + d
  {
  }

  lemma MulLe(d: nat, a: int, b: int)
    requires a <= b
    ensures d * a <= d * b
  {
    assert d * b - d * a == d * (b - a);
  }

  lemma QuotientAtLeast(x: nat, d: int, k: nat)
    requires d > 0 && x >= d * k
    ensures x / d >= k
  {
    var q := x / d;
    QuotientBounds(x, d);
    if q < k {
      MulLe(d, q + 1, k);
    }
  }
}
