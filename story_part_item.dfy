/** One part of a story on the reading page: the tutor's correction, the text, a
    collapsible decision log for earlier parts, and the live choices under the last part. */
module StoryPartItem {
  import opened Wrappers
  import opened JsValue
  import StoryWorker

  type PartRow = StoryWorker.PartRow

  /** `.length` of the stored `suggested_choices` value (arrays and strings have one). */
  function ChoiceCount(v: Json): nat {
    match v
    case JArr(a) => |a|
    case JStr(s) => |s|
    case _ => 0
  }

  predicate HasChoices(part: PartRow) {
    Truthy(part.suggestedChoices) && ChoiceCount(part.suggestedChoices) > 0
  }

  /** `isSelected(choice)`: strict equality with the recorded choice or custom input. */
  predicate IsSelected(part: PartRow, choice: Json) {
    part.selectedChoice == choice || part.userCustomInput == choice
  }

  predicate ShowsTutorFeedback(part: PartRow) {
    Truthy(part.correction)
  }

  predicate ShowsDecisionLog(part: PartRow, isLast: bool) {
    !isLast && HasChoices(part)
  }

  predicate ShowsActiveChoices(part: PartRow, isLast: bool) {
    isLast && HasChoices(part)
  }

  /** A part with choices shows exactly one of the decision log and the live choices: the
      log for earlier parts, the live choices for the last part. */
  lemma LogOrActiveChoices(part: PartRow, isLast: bool)
    ensures !(ShowsDecisionLog(part, isLast) && ShowsActiveChoices(part, isLast))
    ensures HasChoices(part) <==> ShowsDecisionLog(part, isLast) || ShowsActiveChoices(part, isLast)
    ensures ShowsActiveChoices(part, isLast) ==> isLast
  {
  }

  /** What the closed log shows: the recorded choice, else the custom input, else a label. */
  function CollapsedLabel(part: PartRow): (r: Json)
    ensures Truthy(r)
  {
    if Truthy(part.selectedChoice) then part.selectedChoice
    else if Truthy(part.userCustomInput) then part.userCustomInput
    else JStr("Custom Input")
  }

  /** The label prefers the recorded choice over the custom input, and the custom input
      over the fixed text, skipping empty values. */
  lemma CollapsedLabelOrder(part: PartRow)
    ensures Truthy(part.selectedChoice) ==> CollapsedLabel(part) == part.selectedChoice
    ensures !Truthy(part.selectedChoice) && Truthy(part.userCustomInput) ==>
      CollapsedLabel(part) == part.userCustomInput
    ensures !Truthy(part.selectedChoice) && !Truthy(part.userCustomInput) ==>
      CollapsedLabel(part) == JStr("Custom Input")
  {
  }

  /** One row of the open log. */
  datatype LogRow = LogRow(choice: Json, active: bool)

  /** The open log over the stored choice array: one row per choice, marked when selected,
      and whether the extra "Custom:" row follows. */
  function OpenLog(part: PartRow, choices: seq<Json>): (seq<LogRow>, bool) {
    (seq(|choices|, i requires 0 <= i < |choices| => LogRow(choices[i], IsSelected(part, choices[i]))),
     part.selectedChoice !in choices && Truthy(part.selectedChoice))
  }

  /** When the "Custom:" row shows, the recorded choice is none of the suggestions, so a
      suggestion can only be marked because it equals the custom input. */
  lemma CustomRowMeansNoSuggestionWasPicked(part: PartRow, choices: seq<Json>)
    requires OpenLog(part, choices).1
    ensures forall r :: r in OpenLog(part, choices).0 && r.active ==> r.choice == part.userCustomInput
  {
    var rows := OpenLog(part, choices).0;
    forall r | r in rows && r.active
      ensures r.choice == part.userCustomInput
    {
      var i :| 0 <= i < |rows| && rows[i] == r;
      assert r.choice == choices[i];
    }
  }

  /** A part continued from a suggestion (recorded choice among the suggestions, no custom
      input) marks exactly the rows with that suggestion and shows no "Custom:" row. */
  lemma PickedSuggestionIsMarked(part: PartRow, choices: seq<Json>)
    requires part.selectedChoice in choices && part.userCustomInput == JNull
    requires JNull !in choices
    ensures !OpenLog(part, choices).1
    ensures forall i :: 0 <= i < |choices| ==>
      (OpenLog(part, choices).0[i].active <==> choices[i] == part.selectedChoice)
  {
  }

  /** The live choices are loading and disabled exactly while a part is being generated. */
  datatype ChoicesProps = ChoicesProps(isLoading: bool, disabled: bool)

  function ActiveChoicesProps(isGenerating: bool): (p: ChoicesProps)
    ensures p.isLoading == isGenerating && p.disabled == isGenerating
  {
    ChoicesProps(isGenerating, isGenerating)
  }

  /** The log's open/closed flag. */
  class PartItem {
    var isHistoryOpen: bool

    constructor ()
      ensures !isHistoryOpen
    {
      isHistoryOpen := false;
    }

    method ToggleHistory()
      modifies this
      ensures isHistoryOpen == !old(isHistoryOpen)
    {
      isHistoryOpen := !isHistoryOpen;
    }

    /** The collapsed label is shown only while the log is closed. */
    function ShownLabel(part: PartRow): (r: Option<Json>)
      reads this
      ensures r.Some? <==> !isHistoryOpen
    {
      if isHistoryOpen then None else Some(CollapsedLabel(part))
    }
  }
}
