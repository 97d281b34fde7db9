/** The community leaderboards (src/components/community/Leaderboards.tsx):
    one score per progress record for the selected board, a stable
    descending sort, 1-based ranks, the top ten, and the display name and
    initials of a user. The records and profiles are the query results. */
module Leaderboards {
  import opened Common
  import opened JsText
  import opened Ranking

  /** A `profiles` row; `null` columns are `None`. */
  datatype Profile = Profile(
    id: string,
    username: Option<string>,
    firstName: Option<string>,
    lastName: Option<string>,
    avatarUrl: Option<string>)

  /** A `user_progress` row. `completed_lessons` is represented by its key
      set and `letter_accuracy` by its entries in key order. */
  datatype ProgressRow = ProgressRow(
    userId: string,
    xpEarned: Option<int>,
    daysStreak: Option<int>,
    completedLessons: Option<set<string>>,
    letterAccuracy: Option<seq<(string, int)>>)

  datatype Board = Xp | Streaks | Lessons | Accuracy

  datatype ScoredRow = ScoredRow(userId: string, score: int)

  datatype Entry = Entry(userId: string, score: int, user: Profile, rank: nat)

  /** A string column is truthy when it is present and non-empty. */
  predicate Truthy(o: Option<string>) {
    o.Some? && o.value != ""
  }

  /** `x || 0` for a numeric column (`0` and `null` both give 0). */
  function OrZero(o: Option<int>): int {
    if o.Some? then o.value else 0
  }

  function Values(es: seq<(string, int)>): seq<int> {
    if |es| == 0 then [] else [es[0].1] + Values(es[1..])
  }

  function Sum(xs: seq<int>): int {
    if |xs| == 0 then 0 else xs[0] + Sum(xs[1..])
  }

  /** `Math.round(sum / n)`: the nearest integer, halves rounded up. */
  function RoundedMean(xs: seq<int>): (r: int)
    requires |xs| > 0
    ensures 2 * |xs| * r - |xs| <= 2 * Sum(xs) < 2 * |xs| * r + |xs|
  {
    (2 * Sum(xs) + |xs|) / (2 * |xs|)
  }

  /** The score of a record on a board. */
  function Score(row: ProgressRow, board: Board): (r: int)
    ensures board == Xp ==> r == OrZero(row.xpEarned)
    ensures board == Streaks ==> r == OrZero(row.daysStreak)
    ensures board == Lessons ==> r == if row.completedLessons.Some? then |row.completedLessons.value| else 0
    ensures board == Accuracy && row.letterAccuracy.Some? && |row.letterAccuracy.value| > 0 ==>
              var n := |row.letterAccuracy.value|;
              2 * n * r - n <= 2 * Sum(Values(row.letterAccuracy.value)) < 2 * n * r + n
    ensures board == Accuracy && (row.letterAccuracy.None? || |row.letterAccuracy.value| == 0) ==> r == 0
  {
    match board
    case Xp => OrZero(row.xpEarned)
    case Streaks => OrZero(row.daysStreak)
    case Lessons => if row.completedLessons.Some? then |row.completedLessons.value| else 0
    case Accuracy =>
      var vs := if row.letterAccuracy.Some? then Values(row.letterAccuracy.value) else [];
      ValuesLength(if row.letterAccuracy.Some? then row.letterAccuracy.value else []);
      if |vs| > 0 then RoundedMean(vs) else 0
  }

  lemma {:induction false} ValuesLength(es: seq<(string, int)>)
    ensures |Values(es)| == |es|
  {
    if |es| > 0 {
      ValuesLength(es[1..]);
    }
  }

  lemma {:induction false} SumBounds(xs: seq<int>, lo: int, hi: int)
    requires forall i :: 0 <= i < |xs| ==> lo <= xs[i] <= hi
    ensures |xs| * lo <= Sum(xs) <= |xs| * hi
  {
    if |xs| > 0 {
      SumBounds(xs[1..], lo, hi);
    }
  }

  /** `n * a <= n * b` with `n` positive gives `a <= b`. */
  lemma CancelPositive(n: int, a: int, b: int)
    requires n > 0 && n * a <= n * b
    ensures a <= b
  {
  }

  /** A mean of percentages is a percentage. */
  lemma {:induction false} AccuracyScoreIsPercentage(row: ProgressRow)
    requires row.letterAccuracy.Some?
    requires forall i :: 0 <= i < |row.letterAccuracy.value| ==> 0 <= row.letterAccuracy.value[i].1 <= 100
    ensures 0 <= Score(row, Accuracy) <= 100
  {
    var es := row.letterAccuracy.value;
    ValuesLength(es);
    if |es| > 0 {
      var vs := Values(es);
      assert forall i :: 0 <= i < |es| ==> vs[i] == es[i].1 by {
        ValuesAt(es);
      }
      RoundedMeanIsPercentage(vs);
      assert Score(row, Accuracy) == RoundedMean(vs);
    }
  }

  lemma RoundedMeanIsPercentage(vs: seq<int>)
    requires |vs| > 0
    requires forall i :: 0 <= i < |vs| ==> 0 <= vs[i] <= 100
    ensures 0 <= RoundedMean(vs) <= 100
  {
    SumBounds(vs, 0, 100);
    var n, r := |vs|, RoundedMean(vs);
    CancelPositive(n, 2 * r - 1, 200);
    assert n * (-1) < n * (2 * r + 1);
    CancelPositive(n, -1, 2 * r);
  }

  lemma {:induction false} ValuesAt(es: seq<(string, int)>)
    ensures |Values(es)| == |es|
    ensures forall i :: 0 <= i < |es| ==> Values(es)[i] == es[i].1
  {
    if |es| > 0 {
      ValuesAt(es[1..]);
    }
  }

  /** `progressData.map(...)` for the board. */
  function ScoreAll(rows: seq<ProgressRow>, board: Board): (r: seq<ScoredRow>)
    ensures |r| == |rows|
    ensures forall i :: 0 <= i < |rows| ==> r[i] == ScoredRow(rows[i].userId, Score(rows[i], board))
  {
    if |rows| == 0 then [] else [ScoredRow(rows[0].userId, Score(rows[0], board))] + ScoreAll(rows[1..], board)
  }

  function ScoreOf(s: ScoredRow): int {
    s.score
  }

  /** The lookup object filled by `forEach`: a later profile with the same
      id replaces an earlier one. */
  function UserMapOf(profiles: seq<Profile>): map<string, Profile> {
    if |profiles| == 0 then map[]
    else
      var last := profiles[|profiles| - 1];
      UserMapOf(profiles[..|profiles| - 1])[last.id := last]
  }

  /** The loop that fills the lookup object. */
  method BuildUserMap(profiles: seq<Profile>) returns (m: map<string, Profile>)
    ensures m == UserMapOf(profiles)
  {
    m := map[];
    var i := 0;
    while i < |profiles|
      invariant 0 <= i <= |profiles|
      invariant m == UserMapOf(profiles[..i])
    {
      assert profiles[..i + 1][..i] == profiles[..i];
      m := m[profiles[i].id := profiles[i]];
      i := i + 1;
    }
    assert profiles[..i] == profiles;
  }

  /** An id is in the lookup object exactly when some profile has it, and it
      maps to the last such profile. */
  lemma {:induction false} UserMapLastWins(profiles: seq<Profile>, id: string)
    ensures id in UserMapOf(profiles) <==> exists i :: 0 <= i < |profiles| && profiles[i].id == id
    ensures forall i :: 0 <= i < |profiles| && profiles[i].id == id
                        && (forall j :: i < j < |profiles| ==> profiles[j].id != id) ==>
                          id in UserMapOf(profiles) && UserMapOf(profiles)[id] == profiles[i]
  {
    if |profiles| > 0 {
      var init := profiles[..|profiles| - 1];
      UserMapLastWins(init, id);
      assert forall i :: 0 <= i < |init| ==> init[i] == profiles[i];
      if exists i :: 0 <= i < |profiles| && profiles[i].id == id {
        var i :| 0 <= i < |profiles| && profiles[i].id == id;
        if i < |init| {
          assert init[i].id == id;
        }
      }
    }
  }

  /** `{ id, username: null, first_name: null, last_name: null, avatar_url: null }`. */
  function Placeholder(userId: string): Profile {
    Profile(userId, None, None, None, None)
  }

  function LookupUser(users: map<string, Profile>, userId: string): (u: Profile)
    ensures userId !in users ==> u == Placeholder(userId)
    ensures userId in users ==> u == users[userId]
  {
    if userId in users then users[userId] else Placeholder(userId)
  }

  /** `.map((item, index) => ({ ...item, user, rank: index + 1 }))`, with
      `from` the index of `sorted[0]`. */
  function Ranked(sorted: seq<ScoredRow>, users: map<string, Profile>, from: nat): (r: seq<Entry>)
    ensures |r| == |sorted|
    ensures forall i :: 0 <= i < |r| ==>
              r[i] == Entry(sorted[i].userId, sorted[i].score, LookupUser(users, sorted[i].userId), from + i + 1)
  {
    if |sorted| == 0 then []
    else [Entry(sorted[0].userId, sorted[0].score, LookupUser(users, sorted[0].userId), from + 1)]
         + Ranked(sorted[1..], users, from + 1)
  }

  /** The query function's result for a board. */
  function Leaderboard(rows: seq<ProgressRow>, profiles: seq<Profile>, board: Board): (r: seq<Entry>)
    ensures |rows| == 0 ==> r == []
    ensures |r| == if |rows| < 10 then |rows| else 10
    ensures forall i :: 0 <= i < |r| ==> r[i].rank == i + 1
  {
    if |rows| == 0 then []
    else Take(Ranked(SortDesc(ScoreAll(rows, board), ScoreOf), UserMapOf(profiles), 0), 10)
  }

  /** Entry `i` of the board is entry `i` of the ranked, sorted scores. */
  lemma LeaderboardAt(rows: seq<ProgressRow>, profiles: seq<Profile>, board: Board, i: nat)
    requires i < |Leaderboard(rows, profiles, board)|
    ensures var sorted := SortDesc(ScoreAll(rows, board), ScoreOf);
            i < |sorted| &&
            Leaderboard(rows, profiles, board)[i] ==
              Entry(sorted[i].userId, sorted[i].score, LookupUser(UserMapOf(profiles), sorted[i].userId), i + 1)
  {
  }

  /** The board is ordered by non-increasing score. */
  lemma LeaderboardSorted(rows: seq<ProgressRow>, profiles: seq<Profile>, board: Board)
    ensures var r := Leaderboard(rows, profiles, board);
            forall i, j :: 0 <= i < j < |r| ==> r[i].score >= r[j].score
  {
    var r := Leaderboard(rows, profiles, board);
    SortDescSorted(ScoreAll(rows, board), ScoreOf);
    forall i, j | 0 <= i < j < |r| ensures r[i].score >= r[j].score {
      LeaderboardAt(rows, profiles, board, i);
      LeaderboardAt(rows, profiles, board, j);
    }
  }

  /** Every entry is the user id and score of some record. */
  lemma LeaderboardEntryFromRow(rows: seq<ProgressRow>, profiles: seq<Profile>, board: Board, i: nat)
    requires i < |Leaderboard(rows, profiles, board)|
    ensures var e := Leaderboard(rows, profiles, board)[i];
            exists k :: 0 <= k < |rows| && rows[k].userId == e.userId && Score(rows[k], board) == e.score
  {
    var scored := ScoreAll(rows, board);
    var sorted := SortDesc(scored, ScoreOf);
    LeaderboardAt(rows, profiles, board, i);
    assert sorted[i] in multiset(scored);
    var k :| 0 <= k < |scored| && scored[k] == sorted[i];
    assert rows[k].userId == sorted[i].userId;
  }

  /** An entry's user is the last profile with its id, or the placeholder
      when no profile has that id. */
  lemma LeaderboardEntryUser(rows: seq<ProgressRow>, profiles: seq<Profile>, board: Board, i: nat)
    requires i < |Leaderboard(rows, profiles, board)|
    ensures var e := Leaderboard(rows, profiles, board)[i];
            (forall k :: 0 <= k < |profiles| ==> profiles[k].id != e.userId) ==> e.user == Placeholder(e.userId)
    ensures var e := Leaderboard(rows, profiles, board)[i];
            forall k ::
              (0 <= k < |profiles| && profiles[k].id == e.userId &&
               forall j :: k < j < |profiles| ==> profiles[j].id != e.userId) ==> e.user == profiles[k]
  {
    var e := Leaderboard(rows, profiles, board)[i];
    LeaderboardAt(rows, profiles, board, i);
    UserMapLastWins(profiles, e.userId);
  }

  /** Nothing better is cut: a record missing from the board scores no more
      than every entry, and then the board is full. */
  lemma LeaderboardKeepsTopScores(rows: seq<ProgressRow>, profiles: seq<Profile>, board: Board, k: nat)
    requires k < |rows|
    ensures var r := Leaderboard(rows, profiles, board);
            (exists i :: 0 <= i < |r| && r[i].userId == rows[k].userId && r[i].score == Score(rows[k], board))
            || (|r| == 10 && forall i :: 0 <= i < |r| ==> r[i].score >= Score(rows[k], board))
  {
    var scored := ScoreAll(rows, board);
    var sorted := SortDesc(scored, ScoreOf);
    var x := scored[k];
    TopCut(scored, ScoreOf, x, 10);
    var r := Leaderboard(rows, profiles, board);
    var top := sorted[..if 10 <= |sorted| then 10 else |sorted|];
    if x in top {
      var i :| 0 <= i < |top| && top[i] == x;
      assert r[i].userId == rows[k].userId && r[i].score == Score(rows[k], board);
    }
  }

  /** `formatUserName`. */
  function FormatUserName(user: Option<Profile>): (r: string)
    ensures r != ""
    ensures user.None? ==> r == "Unknown User"
    ensures user.Some? && Truthy(user.value.username) ==> r == user.value.username.value
    ensures user.Some? && !Truthy(user.value.username) && Truthy(user.value.firstName) ==>
              user.value.firstName.value <= r &&
              r[|user.value.firstName.value|..] ==
                (if Truthy(user.value.lastName) then [' ', user.value.lastName.value[0], '.'] else "")
    ensures user.Some? && !Truthy(user.value.username) && !Truthy(user.value.firstName) ==> r == "Anonymous User"
  {
    if user.None? then "Unknown User"
    else
      var u := user.value;
      if Truthy(u.username) then u.username.value
      else if Truthy(u.firstName) then
        if Truthy(u.lastName) then u.firstName.value + " " + [u.lastName.value[0]] + "."
        else u.firstName.value
      else "Anonymous User"
  }

  /** `getUserInitials`; the first-name initials are not upper-cased. */
  function GetUserInitials(user: Option<Profile>): (r: string)
    ensures 1 <= |r| <= 2
    ensures user.None? || (!(Truthy(user.value.firstName) && Truthy(user.value.lastName)) && !Truthy(user.value.username)) ==>
              r == "?"
    ensures user.Some? && Truthy(user.value.firstName) && Truthy(user.value.lastName) ==>
              r == [user.value.firstName.value[0], user.value.lastName.value[0]]
    ensures user.Some? && !(Truthy(user.value.firstName) && Truthy(user.value.lastName)) && Truthy(user.value.username) ==>
              r == [UpperAscii(user.value.username.value[0])]
  {
    if user.None? then "?"
    else
      var u := user.value;
      if Truthy(u.firstName) && Truthy(u.lastName) then [u.firstName.value[0], u.lastName.value[0]]
      else if Truthy(u.username) then [UpperAscii(u.username.value[0])]
      else "?"
  }
}
