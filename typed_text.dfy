/** The typewriter headline (src/components/TypedText.tsx): each timer tick
    types one more character of the current word, pauses on the full word,
    then deletes one character per tick and moves on to the next word,
    cyclically. The timers are modelled as calls of `Tick`; the delays
    only choose when the next tick comes. */
module TypedText {
  import opened JsText

  /** The four state variables. */
  datatype Typing = Typing(selectedIndex: nat, displayedText: string, isDeleting: bool, isPaused: bool)

  const Initial := Typing(0, "", false, false)

  /** The state a timer callback leaves; the callback reads the state it
      was scheduled with. */
  function Step(words: seq<string>, s: Typing): (r: Typing)
    requires s.selectedIndex < |words|
    ensures r.selectedIndex < |words|
  {
    var w := words[s.selectedIndex];
    var n := |s.displayedText|;
    if s.isDeleting then
      var shorter := Substring(w, 0, n - 1);
      if n == 1 then Typing((s.selectedIndex + 1) % |words|, shorter, false, s.isPaused)
      else s.(displayedText := shorter)
    else if s.isPaused then
      s.(isPaused := false, isDeleting := true)
    else
      var next := Substring(w, 0, n + 1);
      s.(displayedText := next, isPaused := if next == w then true else s.isPaused)
  }

  /** The shown text is a prefix of the current word, deleting and paused
      are never both set, and a paused state shows the whole word. */
  ghost predicate Inv(words: seq<string>, s: Typing) {
    s.selectedIndex < |words|
    && !(s.isDeleting && s.isPaused)
    && s.displayedText <= words[s.selectedIndex]
    && (s.isPaused ==> s.displayedText == words[s.selectedIndex])
  }

  lemma InitialInv(words: seq<string>)
    requires |words| > 0
    ensures Inv(words, Initial)
  {
  }

  /** What one tick does in each state. */
  lemma StepEffect(words: seq<string>, s: Typing)
    requires Inv(words, s)
    ensures var w, d, r := words[s.selectedIndex], s.displayedText, Step(words, s);
            Inv(words, r)
            && (!s.isDeleting && !s.isPaused && |d| < |w| ==>
                  r.displayedText == d + [w[|d|]] && r.selectedIndex == s.selectedIndex
                  && !r.isDeleting && (r.isPaused <==> |d| + 1 == |w|))
            && (s.isPaused ==> r == Typing(s.selectedIndex, w, true, false))
            && (s.isDeleting && |d| > 1 ==> r == s.(displayedText := d[..|d| - 1]))
            && (s.isDeleting && |d| == 1 ==> r == Typing((s.selectedIndex + 1) % |words|, "", false, false))
  {
    var w, d := words[s.selectedIndex], s.displayedText;
    if !s.isDeleting && !s.isPaused && |d| < |w| {
      assert w[..|d| + 1] == d + [w[|d|]];
    }
    if s.isDeleting && |d| >= 1 {
      assert w[..|d| - 1] == d[..|d| - 1];
    }
  }

  /** An empty word pauses at once and is then deleted forever: the length
      test for moving on never holds, so the index never advances. */
  lemma EmptyWordStalls(words: seq<string>, s: Typing)
    requires Inv(words, s) && words[s.selectedIndex] == ""
    ensures !s.isDeleting && !s.isPaused ==> Step(words, s) == s.(isPaused := true)
    ensures s.isDeleting ==> Step(words, s) == s
  {
  }

  /** `k` ticks. */
  function Steps(words: seq<string>, s: Typing, k: nat): (r: Typing)
    requires s.selectedIndex < |words|
    ensures r.selectedIndex < |words|
    decreases k
  {
    if k == 0 then s else Steps(words, Step(words, s), k - 1)
  }

  lemma {:induction false} StepsAdd(words: seq<string>, s: Typing, a: nat, b: nat)
    requires s.selectedIndex < |words|
    ensures Steps(words, s, a + b) == Steps(words, Steps(words, s, a), b)
    decreases a
  {
    if a > 0 {
      StepsAdd(words, Step(words, s), a - 1, b);
    }
  }

  /** Typing from `w[..j]` reaches the paused full word after `|w| - j` ticks. */
  lemma {:induction false} TypingPhase(words: seq<string>, i: nat, j: nat)
    requires i < |words| && j < |words[i]|
    ensures Steps(words, Typing(i, words[i][..j], false, false), |words[i]| - j) == Typing(i, words[i], false, true)
    decreases |words[i]| - j
  {
    var w := words[i];
    var s := Typing(i, w[..j], false, false);
    StepEffect(words, s);
    assert w[..j] + [w[j]] == w[..j + 1];
    if j + 1 == |w| {
      assert w[..j + 1] == w;
    } else {
      TypingPhase(words, i, j + 1);
    }
  }

  /** Deleting from `w[..j]` empties the text and moves to the next word
      after `j` ticks. */
  lemma {:induction false} DeletingPhase(words: seq<string>, i: nat, j: nat)
    requires i < |words| && 1 <= j <= |words[i]|
    ensures Steps(words, Typing(i, words[i][..j], true, false), j) == Typing((i + 1) % |words|, "", false, false)
  {
    var w := words[i];
    var s := Typing(i, w[..j], true, false);
    StepEffect(words, s);
    if j > 1 {
      assert w[..j][..j - 1] == w[..j - 1];
      DeletingPhase(words, i, j - 1);
    }
  }

  /** A non-empty word is typed, shown and deleted in `2 * |w| + 1` ticks,
      after which the next word starts from empty text. */
  lemma FullCycle(words: seq<string>, i: nat)
    requires i < |words| && |words[i]| > 0
    ensures Steps(words, Typing(i, "", false, false), 2 * |words[i]| + 1) == Typing((i + 1) % |words|, "", false, false)
  {
    var w := words[i];
    var start := Typing(i, "", false, false);
    assert w[..0] == "";
    TypingPhase(words, i, 0);
    StepsAdd(words, start, |w|, |w| + 1);
    var paused := Typing(i, w, false, true);
    StepEffect(words, paused);
    assert w[..|w|] == w;
    DeletingPhase(words, i, |w|);
  }

  class Typewriter {
    const words: seq<string>
    var selectedIndex: nat
    var displayedText: string
    var isDeleting: bool
    var isPaused: bool

    function State(): Typing
      reads this
    {
      Typing(selectedIndex, displayedText, isDeleting, isPaused)
    }

    constructor(words: seq<string>)
      ensures this.words == words && State() == Initial
    {
      this.words := words;
      selectedIndex := 0;
      displayedText := "";
      isDeleting := false;
      isPaused := false;
    }

    /** The callback of the timer the effect scheduled. `words[selectedIndex]`
        must exist: with an empty word list the callback throws. */
    method Tick()
      requires selectedIndex < |words|
      modifies this
      ensures State() == Step(words, old(State()))
      ensures old(Inv(words, State())) ==> Inv(words, State())
    {
      StepEffectAny(words, State());
      var currentWord := words[selectedIndex];
      var shown := |displayedText|;
      if isDeleting {
        displayedText := Substring(currentWord, 0, shown - 1);
        if shown == 1 {
          isDeleting := false;
          selectedIndex := (selectedIndex + 1) % |words|;
        }
      } else if isPaused {
        isPaused := false;
        isDeleting := true;
      } else {
        var nextText := Substring(currentWord, 0, shown + 1);
        displayedText := nextText;
        if nextText == currentWord {
          isPaused := true;
        }
      }
    }
  }

  lemma StepEffectAny(words: seq<string>, s: Typing)
    requires s.selectedIndex < |words|
    ensures Inv(words, s) ==> Inv(words, Step(words, s))
  {
    if Inv(words, s) {
      StepEffect(words, s);
    }
  }
}
