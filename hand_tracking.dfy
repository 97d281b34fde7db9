/** The hand detector and the letter confirmation of the desktop script
    (server/secret-sauce/main.py): landmark extraction with its bounding
    box, `fingersUp`, the midpoint of `findDistance`, and the rule that
    fuses the model's best guess with the geometry letter.

    Hand tracking and the letter model are outside the model: the hands
    found in a frame (already in pixels) and the model's top-3 output are
    inputs. */
module HandTracking {
  import opened Common
  import opened HandGeometry

  /** `(xmin, ymin, xmax, ymax)`. */
  datatype BBox = BBox(xmin: int, ymin: int, xmax: int, ymax: int)

  /** `b` is the smallest box holding every landmark: each side touches one. */
  ghost predicate TightBox(lm: seq<Landmark>, b: BBox) {
    && (forall k :: 0 <= k < |lm| ==> b.xmin <= lm[k].x <= b.xmax)
    && (forall k :: 0 <= k < |lm| ==> b.ymin <= lm[k].y <= b.ymax)
    && (exists k :: 0 <= k < |lm| && lm[k].x == b.xmin)
    && (exists k :: 0 <= k < |lm| && lm[k].x == b.xmax)
    && (exists k :: 0 <= k < |lm| && lm[k].y == b.ymin)
    && (exists k :: 0 <= k < |lm| && lm[k].y == b.ymax)
  }

  /** The extremes of the coordinate lists make the tight box. */
  lemma BoxOfCoordinates(lm: seq<Landmark>, xs: seq<int>, ys: seq<int>)
    requires |lm| == |xs| == |ys| > 0
    requires forall j :: 0 <= j < |lm| ==> xs[j] == lm[j].x && ys[j] == lm[j].y
    ensures TightBox(lm, BBox(MinOf(xs), MinOf(ys), MaxOf(xs), MaxOf(ys)))
  {
  }

  /** One hand as tracked: the pixel position of each landmark in order. */
  type Hand = seq<(int, int)>

  function MinOf(s: seq<int>): (m: int)
    requires |s| > 0
    ensures forall k :: 0 <= k < |s| ==> m <= s[k]
    ensures exists k :: 0 <= k < |s| && m == s[k]
  {
    if |s| == 1 then s[0]
    else
      var rest := MinOf(s[1..]);
      assert forall k :: 1 <= k < |s| ==> s[k] == s[1..][k - 1];
      if s[0] <= rest then s[0] else rest
  }

  function MaxOf(s: seq<int>): (m: int)
    requires |s| > 0
    ensures forall k :: 0 <= k < |s| ==> s[k] <= m
    ensures exists k :: 0 <= k < |s| && m == s[k]
  {
    if |s| == 1 then s[0]
    else
      var rest := MaxOf(s[1..]);
      assert forall k :: 1 <= k < |s| ==> s[k] == s[1..][k - 1];
      if s[0] >= rest then s[0] else rest
  }

  /** `(x1 + x2) // 2`: Python's floor division. */
  function Midpoint(a: int, b: int): (c: int)
    ensures 2 * c <= a + b < 2 * c + 2
    ensures a <= b ==> a <= c <= b
    ensures b <= a ==> b <= c <= a
  {
    (a + b) / 2
  }

  /** A negative odd sum rounds down, not toward zero. */
  lemma MidpointFloors()
    ensures Midpoint(-3, 0) == -2
    ensures Midpoint(3, 0) == 1
  {
  }

  /** `custom_rules`: (model letter, geometry letter) to the confirmed
      letter. The source lists (H, S) three times and (N, M) three times,
      always with the same value, so the dictionary has these 21 keys. */
  const CustomRules: map<(string, string), string> := map[
    ("H", "S") := "A", ("C", "Y") := "C", ("R", "D") := "D", ("B", "F") := "F",
    ("U", "F") := "F", ("X", "I") := "I", ("X", "Y") := "I", ("M", "S") := "M",
    ("M", "X") := "M", ("N", "M") := "N", ("N", "G") := "N", ("S", "T") := "T",
    ("H", "T") := "T", ("U", "K") := "U", ("V", "K") := "V", ("H", "C") := "X",
    ("G", "C") := "X", ("P", "M") := "P", ("G", "S") := "P", ("G", "M") := "P",
    ("Q", "M") := "Q"]

  /** The confirmed letter from the model's best letter ("" when it has
      none), the geometry letter and the model's top-3 letters. */
  function Confirm(model: string, geometry: string, top3: seq<string>): (c: string)
    ensures geometry == "" && model != "" ==> c == model
    ensures geometry != "" && model == geometry ==> c == geometry
    ensures model != "" && geometry != "" && model != geometry && (model, geometry) in CustomRules ==>
              c == CustomRules[(model, geometry)]
    ensures model != "" && geometry != "" && model != geometry && (model, geometry) !in CustomRules ==>
              c == (if geometry in top3 then geometry else "")
    ensures model == "" ==> c == ""
    ensures c == "" || c == model || c == geometry || (model, geometry) in CustomRules
  {
    if geometry == "" && model != "" then model
    else if model == geometry && geometry != "" then geometry
    else if model != "" && geometry != "" then
      if (model, geometry) in CustomRules then CustomRules[(model, geometry)]
      else if geometry in top3 then geometry
      else ""
    else ""
  }

  /** A rule may confirm a letter neither side proposed. */
  lemma RuleOverridesBoth()
    ensures Confirm("H", "S", []) == "A"
    ensures Confirm("G", "S", ["S"]) == "P"
  {
  }

  /** The detector's state between frames. `useAsl` holds when a letter
      model was loaded. */
  class HandDetector {
    const useAsl: bool
    var lmList: seq<Landmark>
    var aslTop3: seq<(string, real)>
    var aslLetter: Option<string>
    var aslConfidence: real

    constructor (modelLoaded: bool)
      ensures useAsl == modelLoaded
      ensures lmList == [] && aslTop3 == [] && aslLetter == None && aslConfidence == 0.0
    {
      useAsl := modelLoaded;
      lmList, aslTop3, aslLetter, aslConfidence := [], [], None, 0.0;
    }

    /** The loop of `findPosition`: each landmark numbered by its place, and
        the lists of its x and y coordinates. */
    static method ReadLandmarks(hand: Hand) returns (lms: seq<Landmark>, xs: seq<int>, ys: seq<int>)
      ensures |lms| == |xs| == |ys| == |hand|
      ensures forall j :: 0 <= j < |hand| ==> lms[j] == Landmark(j, hand[j].0, hand[j].1)
      ensures forall j :: 0 <= j < |hand| ==> xs[j] == hand[j].0 && ys[j] == hand[j].1
    {
      lms, xs, ys := [], [], [];
      var k := 0;
      while k < |hand|
        invariant 0 <= k <= |hand|
        invariant |lms| == |xs| == |ys| == k
        invariant forall j :: 0 <= j < k ==> lms[j] == Landmark(j, hand[j].0, hand[j].1)
        invariant forall j :: 0 <= j < k ==> xs[j] == hand[j].0 && ys[j] == hand[j].1
      {
        xs := xs + [hand[k].0];
        ys := ys + [hand[k].1];
        lms := lms + [Landmark(k, hand[k].0, hand[k].1)];
        k := k + 1;
      }
    }

    /** `findPosition(img, handNo)`. `hands` is what tracking found (None or
        empty when no hand); `handNo` is a Python index into it, and one out
        of range leaves the list and box empty. `prediction` is the letter
        model's top-3 output, None when the model raised; an empty one makes
        the best-guess read raise after the top 3 were stored. */
    method FindPosition(hands: Option<seq<Hand>>, handNo: int, prediction: Option<seq<(string, real)>>)
      returns (lm: seq<Landmark>, bbox: Option<BBox>)
      requires hands.Some? ==> forall h :: h in hands.value ==> |h| > 0
      modifies this
      ensures lm == lmList
      ensures hands.None? || |hands.value| == 0 || PyIndex(|hands.value|, handNo).None? ==>
                lm == [] && bbox == None && aslTop3 == old(aslTop3) && aslLetter == old(aslLetter)
                && aslConfidence == old(aslConfidence)
      ensures hands.Some? && PyIndex(|hands.value|, handNo).Some? ==>
        var hand := hands.value[PyIndex(|hands.value|, handNo).value];
        && |lm| == |hand|
        && (forall k :: 0 <= k < |lm| ==> lm[k] == Landmark(k, hand[k].0, hand[k].1))
        && bbox.Some? && TightBox(lm, bbox.value)
        && (useAsl && prediction.Some? ==> aslTop3 == prediction.value)
        && (useAsl && prediction.Some? && |prediction.value| > 0 ==>
              aslLetter == Some(prediction.value[0].0) && aslConfidence == prediction.value[0].1)
        && (!useAsl || prediction.None? ==> aslTop3 == old(aslTop3))
        && (!useAsl || prediction.None? || |prediction.value| == 0 ==>
              aslLetter == old(aslLetter) && aslConfidence == old(aslConfidence))
    {
      lmList := [];
      lm, bbox := [], None;
      if hands.None? || |hands.value| == 0 {
        return;
      }
      var index := PyIndex(|hands.value|, handNo);
      if index.None? {
        return;
      }
      var hand := hands.value[index.value];
      assert hand in hands.value;
      var xs, ys;
      lmList, xs, ys := ReadLandmarks(hand);
      BoxOfCoordinates(lmList, xs, ys);
      bbox := Some(BBox(MinOf(xs), MinOf(ys), MaxOf(xs), MaxOf(ys)));
      lm := lmList;
      if useAsl {
        RecognizeGesture(prediction);
      }
    }

    /** `_recognize_asl_gesture_wireframe`: store the model's top 3, then its
        best guess. A model that raised (None) changes nothing; an empty
        top 3 is stored and the best-guess read raises, keeping the old
        guess. */
    method RecognizeGesture(prediction: Option<seq<(string, real)>>)
      modifies this
      ensures prediction.Some? ==> aslTop3 == prediction.value
      ensures prediction.Some? && |prediction.value| > 0 ==>
                aslLetter == Some(prediction.value[0].0) && aslConfidence == prediction.value[0].1
      ensures prediction.None? ==> aslTop3 == old(aslTop3)
      ensures prediction.None? || |prediction.value| == 0 ==>
                aslLetter == old(aslLetter) && aslConfidence == old(aslConfidence)
      ensures lmList == old(lmList)
    {
      if prediction.Some? {
        aslTop3 := prediction.value;
        if |aslTop3| > 0 {
          aslLetter := Some(aslTop3[0].0);
          aslConfidence := aslTop3[0].1;
        }
      }
    }

    /** `fingersUp()`: [] for no landmarks; otherwise thumb out (tip 4 right
        of joint 3) and each other finger up (tip above the joint two below
        it), 1 or 0 each. A non-empty list of 20 or fewer raises IndexError
        (None). */
    method FingersUp() returns (r: Option<seq<int>>)
      ensures |lmList| == 0 ==> r == Some([])
      ensures r.None? <==> 0 < |lmList| <= 20
      ensures |lmList| > 20 ==>
        && r.Some? && |r.value| == 5
        && (forall k :: 0 <= k < 5 ==> r.value[k] == 0 || r.value[k] == 1)
        && (r.value[0] == 1 <==> lmList[4].x > lmList[3].x)
        && (forall k :: 1 <= k < 5 ==> (r.value[k] == 1 <==> lmList[4 * k + 4].y < lmList[4 * k + 2].y))
    {
      if |lmList| == 0 {
        return Some([]);
      }
      var tipIds := [4, 8, 12, 16, 20];
      if |lmList| <= tipIds[0] {
        return None;
      }
      var fingers := [if lmList[tipIds[0]].x > lmList[tipIds[0] - 1].x then 1 else 0];
      var id := 1;
      while id < 5
        invariant 1 <= id <= 5
        invariant 4 * id < |lmList|
        invariant |fingers| == id
        invariant forall k :: 0 <= k < id ==> fingers[k] == 0 || fingers[k] == 1
        invariant fingers[0] == 1 <==> lmList[4].x > lmList[3].x
        invariant forall k :: 1 <= k < id ==> (fingers[k] == 1 <==> lmList[4 * k + 4].y < lmList[4 * k + 2].y)
      {
        if |lmList| <= tipIds[id] {
          return None;
        }
        fingers := fingers + [if lmList[tipIds[id]].y < lmList[tipIds[id] - 2].y then 1 else 0];
        id := id + 1;
      }
      return Some(fingers);
    }

    /** The midpoint of `findDistance(p1, p2)`; a Python index out of range
        raises (None). */
    function DistanceMidpoint(p1: int, p2: int): (r: Option<(int, int)>)
      reads this
      ensures r.Some? <==> PyIndex(|lmList|, p1).Some? && PyIndex(|lmList|, p2).Some?
      ensures r.Some? ==>
        var a, b := lmList[PyIndex(|lmList|, p1).value], lmList[PyIndex(|lmList|, p2).value];
        2 * r.value.0 <= a.x + b.x < 2 * r.value.0 + 2 && 2 * r.value.1 <= a.y + b.y < 2 * r.value.1 + 2
    {
      match (PyIndex(|lmList|, p1), PyIndex(|lmList|, p2))
      case (Some(i), Some(j)) => Some((Midpoint(lmList[i].x, lmList[j].x), Midpoint(lmList[i].y, lmList[j].y)))
      case _ => None
    }
  }

  /** What one frame of the main loop shows: the geometry letter and the
      confirmed letter, or the incomplete-hand warning when the landmark or
      finger reads raised IndexError. */
  datatype FrameResult = NoHand | Warned | Shown(geometry: string, confirmed: string)

  /** The per-frame block of the main loop on landmarks `lm`, with the
      detector's stored best guess and top 3. */
  method MainFrame(d: HandDetector, lm: seq<Landmark>) returns (res: FrameResult)
    ensures |lm| == 0 <==> res == NoHand
    ensures |lm| > 0 && Scan(false, lm, 4).None? ==> res == Warned
    ensures res.Shown? ==>
      && |lm| > 20 && Scan(false, lm, 4).Some?
      && Some(res.geometry) == ChainLetter(lm, Scan(false, lm, 4).value)
      && res.confirmed == Confirm(if d.aslLetter.Some? then d.aslLetter.value else "", res.geometry,
                                  seq(|d.aslTop3|, k requires 0 <= k < |d.aslTop3| reads d => d.aslTop3[k].0))
    ensures |lm| > 0 && Scan(false, lm, 4).Some? && |Scan(false, lm, 4).value| == 4 ==> res.Shown?
    ensures |lm| > 0 && Scan(false, lm, 4).Some? ==>
      && |lm| > 20
      && var geometry := ChainLetter(lm, Scan(false, lm, 4).value);
         && (geometry.None? ==> res == Warned)
         && (geometry.Some? ==> res.Shown? && res.geometry == geometry.value)
  {
    if |lm| == 0 {
      return NoHand;
    }
    var raised, fingers := FingerStates(false, lm);
    if raised {
      return Warned;
    }
    UnguardedScanNeedsAllLandmarks(lm);
    var geometry := ChainLetter(lm, fingers);
    if geometry.None? {
      return Warned;
    }
    var top3Letters := seq(|d.aslTop3|, k requires 0 <= k < |d.aslTop3| reads d => d.aslTop3[k].0);
    var model := if d.aslLetter.Some? then d.aslLetter.value else "";
    res := Shown(geometry.value, Confirm(model, geometry.value, top3Letters));
  }
}
