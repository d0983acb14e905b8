/** The landing page's typewriter: it types a story out one character at a time, pauses,
    deletes it again, asks for a new story and starts over; a click on the scroll leaves an
    ink blot that disappears after two seconds. */
module SplitHero {
  import opened Lists

  const InitialPrompt: string := "Where legends are written... Unfold your imagination."

  /** The phrases a new story is picked from. */
  const Phrases: seq<string> := [
    "The old library whispered secrets only the brave could hear...",
    "In a kingdom made of glass, a single stone changed everything...",
    "The stars aligned to form a map that led to no known land...",
    "She opened the book, and the room filled with the smell of the sea..."
  ]

  datatype Typewriter = Typewriter(
    currentStory: string,
    displayedText: string,
    isDeleting: bool,
    isWaitingForAI: bool)

  const Initial: Typewriter := Typewriter(InitialPrompt, "", false, false)

  predicate IsPrefix(a: string, b: string) {
    |a| <= |b| && a == b[..|a|]
  }

  /** What the page keeps true: the text shown is the beginning of the current story, and
      while a story is being fetched nothing is shown and nothing is being deleted. */
  predicate Inv(t: Typewriter) {
    && IsPrefix(t.displayedText, t.currentStory)
    && (t.isWaitingForAI ==> t.displayedText == [] && !t.isDeleting)
  }

  /** What one run of the typewriter effect, and the timer it sets, does. */
  datatype Action = Paused | Typed | Deleted | StartDeleting | FetchStarted

  /** The effect: nothing while waiting; deleting drops the last character, or, once the
      text is empty, stops deleting and starts a fetch; typing shows one more character of
      the story, or, once it is all shown, turns to deleting. */
  function Step(t: Typewriter): (Typewriter, Action) {
    if t.isWaitingForAI then (t, Paused)
    else if t.isDeleting then
      if |t.displayedText| > 0
      then (t.(displayedText := t.displayedText[..|t.displayedText| - 1]), Deleted)
      else (t.(isDeleting := false, isWaitingForAI := true), FetchStarted)
    else if |t.displayedText| < |t.currentStory|
    then (t.(displayedText := t.currentStory[..|t.displayedText| + 1]), Typed)
    else (t.(isDeleting := true), StartDeleting)
  }

  /** The result of `fetchNewStory`, given which of the phrases was picked. */
  function Fetched(t: Typewriter, pick: nat): Typewriter
    requires pick < |Phrases|
  {
    t.(currentStory := Phrases[pick], isWaitingForAI := false)
  }

  lemma InitialIsValid()
    ensures Inv(Initial)
  {
  }

  /** Every step keeps the shown text a beginning of the current story. */
  lemma StepKeepsPrefix(t: Typewriter)
    requires Inv(t)
    ensures Inv(Step(t).0)
  {
  }

  /** A fetched story replaces the old one only while nothing is shown. */
  lemma FetchKeepsPrefix(t: Typewriter, pick: nat)
    requires Inv(t) && t.isWaitingForAI && pick < |Phrases|
    ensures Inv(Fetched(t, pick))
    ensures Fetched(t, pick).currentStory in Phrases && !Fetched(t, pick).isWaitingForAI
  {
  }

  /** A typing step shows exactly one more character, never beyond the story; a deleting
      step shows exactly one fewer. */
  lemma StepLengths(t: Typewriter)
    requires Inv(t)
    ensures var (u, a) := Step(t);
      && (a == Typed ==> |u.displayedText| == |t.displayedText| + 1 <= |u.currentStory|)
      && (a == Deleted ==> |u.displayedText| == |t.displayedText| - 1)
      && (a == Typed || a == Deleted ==> u.currentStory == t.currentStory)
  {
  }

  /** Once the story is fully shown the next step turns to deleting; once deleting has
      emptied the text the next step stops deleting and fetches a new story. */
  lemma StepTransitions(t: Typewriter)
    requires Inv(t) && !t.isWaitingForAI
    ensures !t.isDeleting && t.displayedText == t.currentStory ==>
      Step(t) == (t.(isDeleting := true), StartDeleting)
    ensures t.isDeleting && t.displayedText == [] ==>
      Step(t).1 == FetchStarted && !Step(t).0.isDeleting && Step(t).0.isWaitingForAI
  {
  }

  /** While a story is being fetched the effect changes nothing. */
  lemma WaitingChangesNothing(t: Typewriter)
    requires t.isWaitingForAI
    ensures Step(t) == (t, Paused)
  {
  }

  /** Typing from an empty text for `n` steps shows the first `n` characters. */
  lemma {:induction false} TypingShowsPrefix(t: Typewriter, n: nat)
    requires Inv(t) && !t.isWaitingForAI && !t.isDeleting && t.displayedText == []
    requires n <= |t.currentStory|
    ensures Steps(t, n).displayedText == t.currentStory[..n]
    ensures Steps(t, n).currentStory == t.currentStory && !Steps(t, n).isDeleting && !Steps(t, n).isWaitingForAI
    decreases n
  {
    if n > 0 {
      TypingShowsPrefix(t, n - 1);
      var u := Steps(t, n - 1);
      assert |u.displayedText| == n - 1 < |u.currentStory|;
      assert Steps(t, n) == Step(u).0;
    }
  }

  /** `n` steps of the effect. */
  function Steps(t: Typewriter, n: nat): Typewriter
    decreases n
  {
    if n == 0 then t else Step(Steps(t, n - 1)).0
  }

  datatype InkBlot = InkBlot(id: int, x: real, y: real)

  /** The hero section's mutable state. */
  class Hero {
    var currentStory: string
    var displayedText: string
    var isDeleting: bool
    var isWaitingForAI: bool
    var inkBlots: seq<InkBlot>

    function State(): Typewriter
      reads this
    {
      Typewriter(currentStory, displayedText, isDeleting, isWaitingForAI)
    }

    constructor ()
      ensures State() == Initial && inkBlots == []
    {
      currentStory := InitialPrompt;
      displayedText := "";
      isDeleting := false;
      isWaitingForAI := false;
      inkBlots := [];
    }

    /** One run of the typewriter effect followed by the timer it set. */
    method Tick() returns (action: Action)
      modifies this
      ensures (State(), action) == Step(old(State()))
      ensures inkBlots == old(inkBlots)
    {
      if isWaitingForAI {
        return Paused;
      }
      if isDeleting {
        if |displayedText| > 0 {
          displayedText := displayedText[..|displayedText| - 1];
          action := Deleted;
        } else {
          isDeleting := false;
          isWaitingForAI := true;
          action := FetchStarted;
        }
      } else if |displayedText| < |currentStory| {
        displayedText := currentStory[..|displayedText| + 1];
        action := Typed;
      } else {
        isDeleting := true;
        action := StartDeleting;
      }
    }

    /** `fetchNewStory` settling, with the phrase the random pick chose. */
    method FetchDone(pick: nat)
      requires pick < |Phrases|
      modifies this
      ensures State() == Fetched(old(State()), pick)
      ensures inkBlots == old(inkBlots)
    {
      currentStory := Phrases[pick];
      isWaitingForAI := false;
    }

    /** `handleScrollClick`: one more blot, at the end. */
    method AddInkBlot(id: int, x: real, y: real)
      modifies this
      ensures inkBlots == old(inkBlots) + [InkBlot(id, x, y)]
      ensures State() == old(State())
    {
      inkBlots := inkBlots + [InkBlot(id, x, y)];
    }

    /** The two-second timer of one click. */
    method RemoveInkBlot(id: int)
      modifies this
      ensures inkBlots == Filter(old(inkBlots), (b: InkBlot) => b.id != id)
      ensures State() == old(State())
    {
      inkBlots := Filter(inkBlots, (b: InkBlot) => b.id != id);
    }
  }

  /** A click's timer removes exactly the blot that click added when its id was new, and
      leaves the others in order. */
  lemma RemovingANewBlotRestores(blots: seq<InkBlot>, b: InkBlot)
    requires forall i :: 0 <= i < |blots| ==> blots[i].id != b.id
    ensures Filter(blots + [b], (c: InkBlot) => c.id != b.id) == blots
  {
    FilterDropsAppended(blots, b, (c: InkBlot) => c.id != b.id);
  }
}
