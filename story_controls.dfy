/** The input bar at the foot of the reading page: a direction box, an End button and a
    Send button. */
module StoryControls {
  import opened Text

  function Placeholder(isGenerating: bool): string {
    if isGenerating then "AI is writing..." else "Describe what happens next..."
  }

  /** `e.key === 'Enter' && !isGenerating && input.trim() && onSend()` */
  predicate EnterSends(key: string, isGenerating: bool, input: string) {
    key == "Enter" && !isGenerating && Trim(input) != []
  }

  predicate SendDisabled(isGenerating: bool, input: string) {
    isGenerating || Trim(input) == []
  }

  predicate EndDisabled(isGenerating: bool) {
    isGenerating
  }

  /** Enter sends exactly when the Send button could be pressed; blank input (only white
      space) never sends; nothing can be sent or ended while a part is being written. */
  lemma SendingRules(key: string, isGenerating: bool, input: string)
    ensures EnterSends(key, isGenerating, input) <==> key == "Enter" && !SendDisabled(isGenerating, input)
    ensures (forall i :: 0 <= i < |input| ==> IsSpace(input[i])) ==> SendDisabled(isGenerating, input)
    ensures isGenerating ==> SendDisabled(isGenerating, input) && EndDisabled(isGenerating) && !EnterSends(key, isGenerating, input)
    ensures Placeholder(isGenerating) == "AI is writing..." <==> isGenerating
  {
    TrimEmptyIffBlank(input);
  }
}
