/** The app-wide toast queue: `showToast` appends a toast and schedules its removal after
    three seconds; the close button removes it at once. */
module Toast {
  import opened Wrappers
  import opened Lists

  datatype ToastKind = Success | Error | Info

  datatype Toast = Toast(id: string, message: string, kind: ToastKind)

  /** The list after `removeToast(id)` or after a toast's own timer with that id. */
  function Without(toasts: seq<Toast>, id: string): (r: seq<Toast>)
    ensures IsSubsequence(r, toasts)
    ensures forall i :: 0 <= i < |r| ==> r[i].id != id
  {
    FilterIsSubsequence(toasts, (t: Toast) => t.id != id);
    Filter(toasts, (t: Toast) => t.id != id)
  }

  /** Removing an id nobody has changes nothing. */
  lemma RemovingAnAbsentIdChangesNothing(toasts: seq<Toast>, id: string)
    requires forall i :: 0 <= i < |toasts| ==> toasts[i].id != id
    ensures Without(toasts, id) == toasts
  {
    FilterKeepsAll(toasts, (t: Toast) => t.id != id);
  }

  /** Every toast with another id stays, as many times as before; none with this id does. */
  lemma RemovingKeepsOthers(toasts: seq<Toast>, id: string, t: Toast)
    ensures multiset(Without(toasts, id))[t] == if t.id != id then multiset(toasts)[t] else 0
  {
    FilterCounts(toasts, (u: Toast) => u.id != id, t);
  }

  /** A toast's own timer takes away exactly that toast, given that its id is new. */
  lemma TimerRemovesOnlyItsToast(toasts: seq<Toast>, t: Toast)
    requires forall i :: 0 <= i < |toasts| ==> toasts[i].id != t.id
    ensures Without(toasts + [t], t.id) == toasts
  {
    FilterDropsAppended(toasts, t, (u: Toast) => u.id != t.id);
  }

  class ToastProvider {
    var toasts: seq<Toast>

    constructor ()
      ensures toasts == []
    {
      toasts := [];
    }

    /** `showToast(message, type = 'info')`, with `id` the random id it draws. */
    method ShowToast(id: string, message: string, kind: Option<ToastKind>)
      modifies this
      ensures toasts == old(toasts) + [Toast(id, message, kind.GetOr(Info))]
    {
      toasts := toasts + [Toast(id, message, kind.GetOr(Info))];
    }

    /** `removeToast(id)`, and also the removal timer `showToast` sets. */
    method RemoveToast(id: string)
      modifies this
      ensures toasts == Without(old(toasts), id)
    {
      toasts := Without(toasts, id);
    }
  }

  /** The context a component sees: inside a provider or not. */
  datatype Context = NoProvider | Provided(provider: ToastProvider)

  const OutsideProviderMessage: string := "useToast must be used within a ToastProvider"

  /** `useToast`: the provider's context, or the error it throws outside one. */
  function UseToast(ctx: Context): (r: Result<ToastProvider, string>)
    ensures r.Failure? <==> ctx.NoProvider?
    ensures r.Failure? ==> r.error == OutsideProviderMessage
    ensures r.Success? ==> r.value == ctx.provider
  {
    if ctx.NoProvider? then Failure(OutsideProviderMessage) else Result.Success(ctx.provider)
  }
}
