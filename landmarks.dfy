/** The geometric hand-shape rules shared by the two server scripts
    (server/secret_sauce/process_webcam.py and server/secret-sauce/main.py):
    each of the four fingers gets a state from its tip, dip and pip
    landmarks, and a first-match chain of tests on landmarks and finger
    states picks a letter.

    A landmark row is `[id, x, y]` in pixels; `x` is index 1 and `y` index 2
    of the row. Python raises IndexError on a missing landmark or finger
    entry; `None` stands for that exception throughout. */
module HandGeometry {
  import opened Common

  datatype Landmark = Landmark(id: int, x: int, y: int)

  /** The four finger states, written 0.25, 0, 1 and 0.5 in the source. */
  datatype FingerState = Quarter | Zero | One | Half

  /** `fingers.count(s)`. */
  function Count(f: seq<FingerState>, s: FingerState): (n: nat)
    ensures n <= |f|
    ensures n == |f| <==> forall k :: 0 <= k < |f| ==> f[k] == s
    ensures n == 0 <==> forall k :: 0 <= k < |f| ==> f[k] != s
  {
    if |f| == 0 then 0 else (if f[0] == s then 1 else 0) + Count(f[1..], s)
  }

  /** Landmark indices of finger `i` (0 index, 1 middle, 2 ring, 3 little). */
  function Tip(i: nat): nat { 8 + 4 * i }
  function Dip(i: nat): nat { 6 + 4 * i }
  function Pip(i: nat): nat { 7 + 4 * i }

  /** What one turn of a finger loop does. */
  datatype Step = Raise | Skip | Append(state: FingerState)

  /** The tests after the first one: down, up, sideways, or no state. */
  function LaterTests(lm: seq<Landmark>, i: nat): (s: Step)
    requires Tip(i) < |lm|
    ensures s != Raise
  {
    var tip, dip, pip := lm[Tip(i)], lm[Dip(i)], lm[Pip(i)];
    if tip.y > dip.y then Append(Zero)
    else if tip.y < pip.y then Append(One)
    else if tip.x > pip.x && tip.x > dip.x then Append(Half)
    else Skip
  }

  /** The first test: the tip well left of the dip, and then the ring tip
      above the little tip. The second half reads landmarks 16 and 20,
      whatever the finger, and so raises on a list of 20 or fewer. */
  function FirstTestThen(lm: seq<Landmark>, i: nat): (s: Step)
    requires Tip(i) < |lm|
    ensures s == Raise ==> |lm| <= 20
  {
    if lm[Tip(i)].x + 25 < lm[Dip(i)].x then
      if |lm| <= 20 then Raise
      else if lm[16].y < lm[20].y then Append(Quarter)
      else LaterTests(lm, i)
    else LaterTests(lm, i)
  }

  /** process_webcam.py: a finger whose tip is not in the list is skipped. */
  function GuardedStep(lm: seq<Landmark>, i: nat): (s: Step)
    ensures |lm| <= Tip(i) ==> s == Skip
    ensures s == Raise ==> Tip(i) < |lm| <= 20
  {
    if |lm| <= Tip(i) then Skip else FirstTestThen(lm, i)
  }

  /** main.py: no guard, so a missing tip raises. */
  function UnguardedStep(lm: seq<Landmark>, i: nat): (s: Step)
    ensures |lm| <= Tip(i) ==> s == Raise
    ensures Tip(i) < |lm| ==> s == FirstTestThen(lm, i)
  {
    if |lm| <= Tip(i) then Raise else FirstTestThen(lm, i)
  }

  function StepOf(guarded: bool, lm: seq<Landmark>, i: nat): Step {
    if guarded then GuardedStep(lm, i) else UnguardedStep(lm, i)
  }

  /** The finger list after the first `n` turns of the loop, or None once a
      turn raised. */
  function Scan(guarded: bool, lm: seq<Landmark>, n: nat): (r: Option<seq<FingerState>>)
    ensures r.Some? ==> |r.value| <= n
    ensures r.Some? && |r.value| == n ==> forall i :: 0 <= i < n ==> StepOf(guarded, lm, i).Append?
  {
    if n == 0 then Some([])
    else
      match Scan(guarded, lm, n - 1)
      case None => None
      case Some(f) =>
        match StepOf(guarded, lm, n - 1)
        case Raise => None
        case Skip => Some(f)
        case Append(s) => Some(f + [s])
  }

  lemma {:induction false} RaisedStaysRaised(guarded: bool, lm: seq<Landmark>, n: nat, m: nat)
    requires n <= m && Scan(guarded, lm, n).None?
    ensures Scan(guarded, lm, m).None?
    decreases m - n
  {
    if n < m {
      RaisedStaysRaised(guarded, lm, n + 1, m);
    }
  }

  /** The finger loop of either script: four turns, each appending at most
      one state, the first test that holds deciding it. */
  method FingerStates(guarded: bool, lm: seq<Landmark>) returns (raised: bool, fingers: seq<FingerState>)
    ensures raised <==> Scan(guarded, lm, 4).None?
    ensures !raised ==> fingers == Scan(guarded, lm, 4).value && |fingers| <= 4
  {
    fingers := [];
    raised := false;
    var i := 0;
    while i < 4
      invariant 0 <= i <= 4
      invariant Scan(guarded, lm, i) == Some(fingers)
    {
      var step := if guarded then GuardedStep(lm, i) else UnguardedStep(lm, i);
      match step {
        case Raise =>
          RaisedStaysRaised(guarded, lm, i + 1, 4);
          raised := true;
          return;
        case Skip =>
        case Append(s) =>
          fingers := fingers + [s];
      }
      i := i + 1;
    }
  }

  /** Four finger states can only come from a full list of 21 or more
      landmarks, in either script. */
  lemma FourStatesNeedAllLandmarks(guarded: bool, lm: seq<Landmark>)
    requires Scan(guarded, lm, 4).Some? && |Scan(guarded, lm, 4).value| == 4
    ensures |lm| > 20
  {
    assert StepOf(guarded, lm, 3).Append?;
  }

  /** In main.py a list too short for the first finger raises at once,
      and any list that survives all four turns has 21 landmarks. */
  lemma UnguardedScanNeedsAllLandmarks(lm: seq<Landmark>)
    ensures |lm| <= Tip(0) ==> Scan(false, lm, 4).None?
    ensures Scan(false, lm, 4).Some? ==> |lm| > 20
  {
    if Scan(false, lm, 4).Some? {
      assert Scan(false, lm, 3).Some?;
      assert UnguardedStep(lm, 3) != Raise;
    }
    if |lm| <= Tip(0) {
      assert Scan(false, lm, 1).None?;
      assert Scan(false, lm, 2).None?;
      assert Scan(false, lm, 3).None?;
    }
  }

  // ---------------------------------------------------------------------
  // The letter chain

  /** One `if`/`elif` arm: its test (None if evaluating it raises) and the
      letter it assigns when the test holds ("" for an arm whose inner check
      failed). */
  datatype Arm = Arm(test: Option<bool>, letter: string)

  /** Python's short-circuit `a and b`. */
  function And(a: Option<bool>, b: Option<bool>): (r: Option<bool>)
    ensures a == Some(false) ==> r == Some(false)
    ensures a == Some(true) ==> r == b
    ensures a == None ==> r == None
  {
    match a
    case None => None
    case Some(v) => if v then b else Some(false)
  }

  /** `fingers[k] == s`. */
  function FingerIs(f: seq<FingerState>, k: nat, s: FingerState): (r: Option<bool>)
    ensures r.None? <==> |f| <= k
  {
    if k < |f| then Some(f[k] == s) else None
  }

  /** `len(fingers) == 4 and fingers[3] == s`: never raises. */
  function FourthIs(f: seq<FingerState>, s: FingerState): bool {
    |f| == 4 && f[3] == s
  }

  /** The arm whose test decides the chain: the first test that is not
      false. */
  ghost predicate Decides(arms: seq<Arm>, i: int)
    requires 0 <= i < |arms|
  {
    arms[i].test != Some(false) && forall j :: 0 <= j < i ==> arms[j].test == Some(false)
  }

  function Outcome(a: Arm): Option<string> {
    if a.test.None? then None else Some(a.letter)
  }

  /** The `if`/`elif` chain: the first arm whose test holds assigns its
      letter and no later test is evaluated; a test that raises ends the
      chain with the exception; no arm leaves the letter "". */
  function FirstMatch(arms: seq<Arm>): (r: Option<string>)
    ensures (forall i :: 0 <= i < |arms| ==> arms[i].test == Some(false)) ==> r == Some("")
    ensures forall i :: 0 <= i < |arms| && Decides(arms, i) ==> r == Outcome(arms[i])
    ensures r.Some? && r.value != "" ==> exists i :: 0 <= i < |arms| && arms[i].letter == r.value
    ensures (forall i :: 0 <= i < |arms| ==> arms[i].test.Some?) ==> r.Some?
  {
    if |arms| == 0 then Some("")
    else
      var r := match arms[0].test
        case None => None
        case Some(true) => Some(arms[0].letter)
        case Some(false) => FirstMatch(arms[1..]);
      assert forall i :: 1 <= i < |arms| && Decides(arms, i) ==> Decides(arms[1..], i - 1);
      r
  }

  /** Arm `i` of the chain, in source order. */
  function ArmAt(lm: seq<Landmark>, f: seq<FingerState>, i: nat): (a: Arm)
    requires |lm| > 20 && i < 25
    ensures |f| == 4 ==> a.test.Some?
    ensures a.letter == "" || a.letter in Letters
  {
    var zeros, ones, halves := Count(f, Zero), Count(f, One), Count(f, Half);
    match i
    case 0 => Arm(Some(lm[3].y > lm[4].y && lm[3].x > lm[6].x && lm[4].y < lm[6].y && zeros == 4), "A")
    case 1 => Arm(Some(lm[3].x > lm[4].x && ones == 4), "B")
    case 2 => Arm(Some(lm[3].x > lm[6].x && halves >= 1 && lm[4].y > lm[8].y), "C")
    case 3 => Arm(And(FingerIs(f, 0, One), Some(zeros == 3 && lm[3].x > lm[4].x)), "D")
    case 4 => Arm(Some(lm[3].x < lm[6].x && zeros == 4 && lm[12].y < lm[4].y), "E")
    case 5 => Arm(And(Some(ones == 3), And(FingerIs(f, 0, Zero), Some(lm[3].y > lm[4].y))), "F")
    case 6 => Arm(And(FingerIs(f, 0, Quarter), Some(zeros == 3)), "G")
    case 7 => Arm(And(FingerIs(f, 0, Quarter), And(FingerIs(f, 1, Quarter), Some(zeros == 2))), "H")
    case 8 => Arm(Some(lm[4].x < lm[6].x && zeros == 3), if FourthIs(f, One) then "I" else "")
    case 9 => Arm(Some(lm[4].x < lm[6].x && lm[4].x > lm[10].x && ones == 2), "K")
    case 10 => Arm(And(FingerIs(f, 0, One), Some(zeros == 3 && lm[3].x < lm[4].x)), "L")
    case 11 => Arm(Some(lm[4].x < lm[16].x && zeros == 4), "M")
    case 12 => Arm(Some(lm[4].x < lm[12].x && zeros == 4), "N")
    case 13 => Arm(Some(lm[3].x > lm[6].x && lm[3].y < lm[6].y && halves >= 1), "O")
    case 14 => Arm(Some(lm[4].x > lm[12].x && lm[4].y < lm[6].y && zeros == 4), "T")
    case 15 => Arm(Some(lm[4].x > lm[12].x && lm[4].y < lm[12].y && zeros == 4), "S")
    case 16 => Arm(Some(lm[4].y < lm[8].y && lm[4].y < lm[12].y && lm[4].y < lm[16].y && lm[4].y < lm[20].y), "O")
    case 17 => Arm(And(FingerIs(f, 2, Zero), Some(lm[4].y < lm[12].y && lm[4].y > lm[6].y)), if FourthIs(f, Zero) then "P" else "")
    case 18 => Arm(And(FingerIs(f, 1, Zero), And(FingerIs(f, 2, Zero), And(FingerIs(f, 3, Zero), Some(lm[8].y > lm[5].y && lm[4].y < lm[1].y)))), "Q")
    case 19 => Arm(Some(lm[8].x < lm[12].x && ones == 2 && lm[9].x > lm[4].x), "R")
    case 20 => Arm(Some(lm[4].x < lm[6].x && lm[4].x < lm[10].x && ones == 2 && lm[3].y > lm[4].y && lm[8].x - lm[11].x <= 50), "U")
    case 21 => Arm(Some(lm[4].x < lm[6].x && lm[4].x < lm[10].x && ones == 2 && lm[3].y > lm[4].y), "V")
    case 22 => Arm(Some(lm[4].x < lm[6].x && lm[4].x < lm[10].x && ones == 3), "W")
    case 23 => Arm(And(FingerIs(f, 0, Half), Some(zeros == 3 && lm[4].x > lm[6].x)), "X")
    case _ => Arm(Some(zeros == 3 && lm[3].x < lm[4].x), if FourthIs(f, One) then "Y" else "")
  }

  /** The arms from `i` on. */
  function ArmsFrom(lm: seq<Landmark>, f: seq<FingerState>, i: nat): (arms: seq<Arm>)
    requires |lm| > 20 && i <= 25
    ensures |arms| == 25 - i
    ensures forall k :: 0 <= k < |arms| ==> arms[k] == ArmAt(lm, f, i + k)
    decreases 25 - i
  {
    if i == 25 then []
    else
      var rest := ArmsFrom(lm, f, i + 1);
      var arms := [ArmAt(lm, f, i)] + rest;
      assert forall k :: 0 < k < |arms| ==> arms[k] == rest[k - 1];
      arms
  }

  function Arms(lm: seq<Landmark>, f: seq<FingerState>): seq<Arm>
    requires |lm| > 20
  {
    ArmsFrom(lm, f, 0)
  }

  /** The letters the chain can assign: A to Y without J. */
  const Letters: set<string> :=
    {"A", "B", "C", "D", "E", "F", "G", "H", "I", "K", "L", "M", "N", "O", "P", "Q", "R",
     "S", "T", "U", "V", "W", "X", "Y"}

  /** The letter chain on a full landmark list and the finger states so far.
      None when a test reads a finger entry that is not there. */
  function ChainLetter(lm: seq<Landmark>, f: seq<FingerState>): (r: Option<string>)
    requires |lm| > 20
    ensures r.Some? ==> r.value == "" || r.value in Letters
    ensures |f| == 4 ==> r.Some?
  {
    var arms := Arms(lm, f);
    var r := FirstMatch(arms);
    assert r.Some? && r.value != "" ==> r.value in Letters by {
      if r.Some? && r.value != "" {
        var i :| 0 <= i < |arms| && arms[i].letter == r.value;
        assert arms[i] == ArmAt(lm, f, i);
      }
    }
    r
  }

  /** When the I test is the first to hold but the little finger is not
      up, the letter stays "" although later tests (K, L, ...) may hold. */
  lemma InnerCheckStopsChain(lm: seq<Landmark>, f: seq<FingerState>)
    requires |lm| > 20 && |f| == 4
    requires Decides(Arms(lm, f), 8) && f[3] != One
    ensures ChainLetter(lm, f) == Some("")
  {
  }
}
