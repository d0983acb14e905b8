/** The "Director's Chair" under the last part: the suggested continuations as cards, and a
    free-text box, each handing the reader's pick to the page. */
module StoryChoices {
  import opened Wrappers
  import opened Text

  /** The component's props; `showInput` and `disabled` already carry their defaults. */
  datatype Props = Props(choices: seq<string>, isLoading: bool, showInput: bool, disabled: bool)

  /** `showInput = true, disabled = false` when the caller leaves them out. */
  function WithDefaults(choices: seq<string>, isLoading: bool, showInput: Option<bool>, disabled: Option<bool>): Props {
    Props(choices, isLoading, showInput.GetOr(true), disabled.GetOr(false))
  }

  datatype Panel = Panel(customInput: string, selectedChoiceIndex: Option<nat>, isOpen: bool)

  const InitialPanel: Panel := Panel("", None, false)

  /** The second argument of `onSelect`. */
  datatype Origin = Ai | Custom

  datatype Selection = Selection(text: string, origin: Origin)

  /** The auto-open effect: open for a live block with choices, closed otherwise. */
  function AutoOpened(p: Props, s: Panel): Panel {
    s.(isOpen := !p.disabled && |p.choices| > 0)
  }

  /** `handleChoiceClick(choice, index)` */
  function ClickChoice(p: Props, s: Panel, choice: string, index: nat): (Panel, Option<Selection>) {
    if p.isLoading || p.disabled then (s, None)
    else (s.(selectedChoiceIndex := Some(index)), Some(Selection(choice, Ai)))
  }

  /** `handleCustomSubmit` */
  function SubmitCustom(p: Props, s: Panel): (Panel, Option<Selection>) {
    if p.isLoading || p.disabled || Trim(s.customInput) == [] then (s, None)
    else (s, Some(Selection(s.customInput, Custom)))
  }

  /** The submit button's `disabled` attribute. */
  predicate SubmitDisabled(p: Props, s: Panel) {
    p.isLoading || Trim(s.customInput) == []
  }

  predicate InputShown(p: Props, s: Panel) {
    s.isOpen && p.showInput && !p.disabled
  }

  /** The spinner and highlight on a card: while loading, on the card last clicked. */
  predicate CardBusy(p: Props, s: Panel, index: nat) {
    p.isLoading && s.selectedChoiceIndex == Some(index)
  }

  datatype Theme = Red | Amber | Cyan

  const Themes: seq<Theme> := [Red, Amber, Cyan]

  /** The card colours run red, amber, cyan and repeat. */
  function CardTheme(index: nat): Theme {
    Themes[index % |Themes|]
  }

  lemma ThemesRepeat(index: nat)
    ensures CardTheme(index + 3) == CardTheme(index)
    ensures CardTheme(3 * index) == Red && CardTheme(3 * index + 1) == Amber && CardTheme(3 * index + 2) == Cyan
  {
    assert (index + 3) % 3 == index % 3;
    assert (3 * index) % 3 == 0 && (3 * index + 1) % 3 == 1 && (3 * index + 2) % 3 == 2;
  }

  /** The panel opens by itself exactly when it is live and has choices. */
  lemma AutoOpenRule(p: Props, s: Panel)
    ensures AutoOpened(p, s).isOpen <==> !p.disabled && |p.choices| > 0
    ensures AutoOpened(p, s).customInput == s.customInput
    ensures AutoOpened(p, s).selectedChoiceIndex == s.selectedChoiceIndex
  {
  }

  /** A click is ignored while loading or disabled; otherwise the card is remembered and
      the choice goes to the page as an AI choice. */
  lemma ClickRule(p: Props, s: Panel, choice: string, index: nat)
    ensures ClickChoice(p, s, choice, index).1.Some? <==> !p.isLoading && !p.disabled
    ensures ClickChoice(p, s, choice, index).1.None? ==> ClickChoice(p, s, choice, index).0 == s
    ensures ClickChoice(p, s, choice, index).1.Some? ==>
      && ClickChoice(p, s, choice, index).1.value == Selection(choice, Ai)
      && ClickChoice(p, s, choice, index).0.selectedChoiceIndex == Some(index)
  {
  }

  /** Once the page starts loading after a click, exactly the clicked card is busy. */
  lemma ClickedCardIsBusy(p: Props, s: Panel, choice: string, index: nat, other: nat)
    requires !p.isLoading && !p.disabled
    ensures var s' := ClickChoice(p, s, choice, index).0;
      CardBusy(p.(isLoading := true), s', index) && (other != index ==> !CardBusy(p.(isLoading := true), s', other))
  {
  }

  /** A submission reaches the page exactly when the button is enabled on a live panel,
      and carries the text as typed, untrimmed. */
  lemma SubmitRule(p: Props, s: Panel)
    ensures SubmitCustom(p, s).1.Some? <==> !SubmitDisabled(p, s) && !p.disabled
    ensures SubmitCustom(p, s).0 == s
    ensures SubmitCustom(p, s).1.Some? ==> SubmitCustom(p, s).1.value == Selection(s.customInput, Custom)
  {
  }

  /** The mounted component: its props as last rendered and its state. */
  class ChoicesPanel {
    var props: Props
    var customInput: string
    var selectedChoiceIndex: Option<nat>
    var isOpen: bool

    function State(): Panel
      reads this
    {
      Panel(customInput, selectedChoiceIndex, isOpen)
    }

    /** Mounting runs the auto-open effect once. */
    constructor (p: Props)
      ensures props == p && State() == AutoOpened(p, InitialPanel)
    {
      props := p;
      customInput := "";
      selectedChoiceIndex := None;
      isOpen := !p.disabled && |p.choices| > 0;
    }

    /** A re-render with new props; the effect runs again only when `disabled` or the
        number of choices changed. */
    method Rerender(p: Props)
      modifies this
      ensures props == p
      ensures State() == if p.disabled != old(props).disabled || |p.choices| != |old(props).choices|
        then AutoOpened(p, old(State())) else old(State())
    {
      var rerun := p.disabled != props.disabled || |p.choices| != |props.choices|;
      props := p;
      if rerun {
        isOpen := !p.disabled && |p.choices| > 0;
      }
    }

    method Toggle()
      modifies this
      ensures State() == old(State()).(isOpen := !old(isOpen)) && props == old(props)
    {
      isOpen := !isOpen;
    }

    method Type(text: string)
      modifies this
      ensures State() == old(State()).(customInput := text) && props == old(props)
    {
      customInput := text;
    }

    method HandleChoiceClick(choice: string, index: nat) returns (selected: Option<Selection>)
      modifies this
      ensures (State(), selected) == ClickChoice(old(props), old(State()), choice, index)
      ensures props == old(props)
    {
      if props.isLoading || props.disabled {
        return None;
      }
      selectedChoiceIndex := Some(index);
      selected := Some(Selection(choice, Ai));
    }

    method HandleCustomSubmit() returns (selected: Option<Selection>)
      modifies this
      ensures (State(), selected) == SubmitCustom(old(props), old(State()))
      ensures props == old(props)
    {
      if props.isLoading || props.disabled || Trim(customInput) == [] {
        return None;
      }
      selected := Some(Selection(customInput, Custom));
    }
  }
}
