/** The sentence carousel: one card per sentence, swiped up for the next (wrapping round
    at the end) and down for the previous (stopping at the first), with an "i / n" counter. */
module Sentences {
  import opened Text
  import opened Arith

  datatype Sentence = Sentence(id: string, english: string, arabic: string, color: string)

  const DummySentences: seq<Sentence> := [
    Sentence("1", "Welcome! Swipe up to start learning", "مرحباً! اسحب لأعلى لبدء التعلم", "#70D7D0"),
    Sentence("2", "How are you today?", "كيف حالك اليوم؟", "#FF8E8E"),
    Sentence("3", "I love learning new languages", "أحب تعلم لغات جديدة", "#AEDFCF")
  ]

  /** A drag further than this many pixels up or down changes the card. */
  const SwipeThreshold: real := 100.0

  /** `nextSentence`: one on, or back to the first after the last. */
  function NextIndex(i: nat, n: nat): (r: nat)
    requires i < n
    ensures r < n
    ensures i == n - 1 ==> r == 0
    ensures i < n - 1 ==> r == i + 1
  {
    if i < n - 1 then i + 1 else 0
  }

  /** `prevSentence`: one back, and nothing at the first. */
  function PrevIndex(i: nat): (r: nat)
    ensures i == 0 ==> r == 0
    ensures i > 0 ==> r == i - 1
  {
    if i > 0 then i - 1 else i
  }

  /** `handleDragEnd`: a swipe up past the threshold goes on, a swipe down goes back,
      anything shorter keeps the card. */
  function DragTarget(i: nat, n: nat, offsetY: real): (r: nat)
    requires i < n
    ensures r < n
    ensures offsetY < -SwipeThreshold ==> r == NextIndex(i, n)
    ensures offsetY > SwipeThreshold ==> r == PrevIndex(i)
    ensures -SwipeThreshold <= offsetY <= SwipeThreshold ==> r == i
  {
    if offsetY < -SwipeThreshold then NextIndex(i, n)
    else if offsetY > SwipeThreshold then PrevIndex(i)
    else i
  }

  /** `k` swipes up in a row. */
  function NextTimes(i: nat, n: nat, k: nat): (r: nat)
    requires i < n
    ensures r < n
    decreases k
  {
    if k == 0 then i else NextIndex(NextTimes(i, n, k - 1), n)
  }

  /** Swiping up `k` times moves `k` cards on, counted round the deck. */
  lemma {:induction false} NextTimesWraps(i: nat, n: nat, k: nat)
    requires i < n
    ensures NextTimes(i, n, k) == (i + k) % n
    decreases k
  {
    if k > 0 {
      NextTimesWraps(i, n, k - 1);
      var j := (i + k - 1) % n;
      assert (i + k) % n == if j == n - 1 then 0 else j + 1 by {
        ModStep(i + k - 1, n);
      }
    }
  }

  lemma ModStep(a: nat, n: nat)
    requires n > 0
    ensures (a + 1) % n == if a % n == n - 1 then 0 else a % n + 1
  {
    var q := a / n;
    assert a == q * n + a % n;
    MulSucc(q, n);
    if a % n == n - 1 {
      DivModUnique(a + 1, n, q + 1, 0);
    } else {
      DivModUnique(a + 1, n, q, a % n + 1);
    }
  }

  /** After one swipe up per card the first card is back. */
  lemma FullRoundReturns(i: nat, n: nat)
    requires i < n
    ensures NextTimes(i, n, n) == i
  {
    NextTimesWraps(i, n, n);
    DivModUnique(i + n, n, 1, i);
  }

  /** The counter reads "i + 1 / n". */
  function Counter(i: nat, n: nat): string {
    NatToString(i + 1) + " / " + NatToString(n)
  }

  class Carousel {
    const sentences: seq<Sentence>
    var currentIndex: nat

    /** The index always names one of the sentences. */
    predicate Valid()
      reads this
    {
      currentIndex < |sentences|
    }

    constructor ()
      ensures sentences == DummySentences && currentIndex == 0 && Valid()
    {
      sentences := DummySentences;
      currentIndex := 0;
    }

    method NextSentence()
      requires Valid()
      modifies this
      ensures Valid() && currentIndex == NextIndex(old(currentIndex), |sentences|)
    {
      if currentIndex < |sentences| - 1 {
        currentIndex := currentIndex + 1;
      } else {
        currentIndex := 0;
      }
    }

    method PrevSentence()
      requires Valid()
      modifies this
      ensures Valid() && currentIndex == PrevIndex(old(currentIndex))
    {
      if currentIndex > 0 {
        currentIndex := currentIndex - 1;
      }
    }

    method HandleDragEnd(offsetY: real)
      requires Valid()
      modifies this
      ensures Valid() && currentIndex == DragTarget(old(currentIndex), |sentences|, offsetY)
    {
      if offsetY < -SwipeThreshold {
        NextSentence();
      } else if offsetY > SwipeThreshold {
        PrevSentence();
      }
    }

    /** The sentence on the card and the counter above it. */
    function Shown(): (Sentence, string)
      requires Valid()
      reads this
    {
      (sentences[currentIndex], Counter(currentIndex, |sentences|))
    }
  }
}
