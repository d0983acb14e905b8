/** The branch panel between parts: it expands on a click, offers the unused choices and a
    free-text direction, and hands the chosen direction to the page before closing. */
module StoryBrancher {
  import opened Wrappers
  import opened Text

  datatype Brancher = Brancher(isExpanded: bool, instruction: string)

  const Closed: Brancher := Brancher(false, "")

  function Expand(b: Brancher): Brancher {
    b.(isExpanded := true)
  }

  /** `handleClose`: collapse and forget the typed direction. */
  function Close(b: Brancher): Brancher {
    Brancher(false, "")
  }

  /** `handleSubmit`: a blank direction is ignored; any other goes to `onBranch` untrimmed. */
  function Submit(b: Brancher): (Brancher, Option<string>) {
    if Trim(b.instruction) == [] then (b, None) else (Close(b), Some(b.instruction))
  }

  /** `handleChoiceClick`: the choice goes to `onBranch` and the panel closes. */
  function ClickChoice(b: Brancher, choice: string): (Brancher, string) {
    (Close(b), choice)
  }

  predicate BranchDisabled(b: Brancher) {
    Trim(b.instruction) == []
  }

  /** Expanding opens the panel and keeps the text; closing collapses and clears it. */
  lemma ExpandAndClose(b: Brancher)
    ensures Expand(b).isExpanded && Expand(b).instruction == b.instruction
    ensures !Close(b).isExpanded && Close(b).instruction == []
  {
  }

  /** A submission branches exactly when the Branch button is enabled, once, with the text
      as typed, and leaves the panel closed and empty; otherwise nothing changes. */
  lemma SubmitRule(b: Brancher)
    ensures Submit(b).1.Some? <==> !BranchDisabled(b)
    ensures Submit(b).1.Some? ==> Submit(b).1.value == b.instruction && Submit(b).0 == Closed
    ensures Submit(b).1.None? ==> Submit(b).0 == b
    ensures (forall i :: 0 <= i < |b.instruction| ==> IsSpace(b.instruction[i])) ==> Submit(b).1.None?
  {
    TrimEmptyIffBlank(b.instruction);
  }

  /** Clicking a choice always branches with that choice and closes the panel. */
  lemma ChoiceRule(b: Brancher, choice: string)
    ensures ClickChoice(b, choice) == (Closed, choice)
  {
  }

  class BranchPanel {
    const choices: seq<string>
    var isExpanded: bool
    var instruction: string

    function State(): Brancher
      reads this
    {
      Brancher(isExpanded, instruction)
    }

    /** `choices = []` when the caller leaves it out. */
    constructor (choices: Option<seq<string>>)
      ensures this.choices == choices.GetOr([]) && State() == Closed
    {
      this.choices := choices.GetOr([]);
      isExpanded := false;
      instruction := "";
    }

    method HandleExpand()
      modifies this
      ensures State() == Expand(old(State()))
    {
      isExpanded := true;
    }

    method HandleClose()
      modifies this
      ensures State() == Close(old(State()))
    {
      isExpanded := false;
      instruction := "";
    }

    method Type(text: string)
      modifies this
      ensures State() == old(State()).(instruction := text)
    {
      instruction := text;
    }

    method HandleSubmit() returns (branched: Option<string>)
      modifies this
      ensures (State(), branched) == Submit(old(State()))
    {
      if Trim(instruction) == [] {
        return None;
      }
      branched := Some(instruction);
      HandleClose();
    }

    method HandleChoiceClick(choice: string) returns (branched: string)
      modifies this
      ensures (State(), branched) == ClickChoice(old(State()), choice)
    {
      branched := choice;
      HandleClose();
    }

    /** The unused choices are listed only when there are some. */
    predicate ShowsChoices()
      reads this
    {
      isExpanded && |choices| > 0
    }
  }
}
