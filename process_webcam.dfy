/** Letter detection on one frame in the streaming processor
    (server/secret_sauce/process_webcam.py): the guarded finger loop, the
    letter chain when there are four finger states, and the fixed
    confidence. */
module ProcessWebcam {
  import opened Common
  import opened HandGeometry

  /** The letter and confidence reported for a frame ("" and 0 for none). */
  datatype Detection = Detection(letter: string, confidence: real)

  const NoDetection := Detection("", 0.0)
  const ChainConfidence := 0.95

  /** The detection block for a frame's landmark list. An exception in it
      is caught and leaves the initial "" and 0. The chain runs only with
      more than 6 landmarks and exactly four finger states, and then the
      confidence is 0.95 even when no arm assigned a letter. */
  method DetectLetter(lm: seq<Landmark>) returns (d: Detection)
    ensures d == NoDetection || d.confidence == ChainConfidence
    ensures d.letter == "" || d.letter in Letters
    ensures |lm| == 0 ==> d == NoDetection
    ensures Scan(true, lm, 4).None? ==> d == NoDetection
    ensures d.confidence == ChainConfidence <==> Scan(true, lm, 4).Some? && |Scan(true, lm, 4).value| == 4
    ensures |lm| > 20 && Scan(true, lm, 4).Some? && |Scan(true, lm, 4).value| == 4 ==>
              d == Detection(ChainLetter(lm, Scan(true, lm, 4).value).value, ChainConfidence)
  {
    d := NoDetection;
    if |lm| > 0 {
      var raised, fingers := FingerStates(true, lm);
      if raised {
        return;
      }
      if |lm| > 6 && |fingers| == 4 {
        FourStatesNeedAllLandmarks(true, lm);
        d := Detection(ChainLetter(lm, fingers).value, ChainConfidence);
      }
    } else {
      assert Scan(true, lm, 1) == Some([]) && Scan(true, lm, 2) == Some([]);
      assert Scan(true, lm, 3) == Some([]);
    }
  }

  /** Fewer than 21 landmarks never yield a letter: either a finger test
      raises or fewer than four fingers get a state. */
  lemma ShortListsDetectNothing(lm: seq<Landmark>)
    requires |lm| <= 20
    ensures Scan(true, lm, 4).None? || |Scan(true, lm, 4).value| < 4
  {
    if Scan(true, lm, 4).Some? && |Scan(true, lm, 4).value| == 4 {
      FourStatesNeedAllLandmarks(true, lm);
    }
  }
}
