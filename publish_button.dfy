/** The publish button of a story: it publishes the story to the open shelf, or, from the
    "Public" state via a confirmation dialog, takes it back, one store update at a time. */
module PublishButton {
  import opened Wrappers
  import Toast

  datatype Op = Publish | Unpublish

  /** `pending` is the update in flight between the click and the store's answer. */
  datatype Button = Button(isPublished: bool, loading: bool, showModal: bool, pending: Option<Op>)

  function Initial(initialIsPublished: bool): Button {
    Button(initialIsPublished, false, false, None)
  }

  /** `loading` is set exactly while an update is in flight. */
  predicate Inv(b: Button) {
    b.loading <==> b.pending.Some?
  }

  /** What the store answered. */
  datatype StoreReply = Updated | StoreError(message: string)

  /** What the page sees when an update settles: the `onStatusChange` call, if the callback
      was given and the update succeeded, and the toast shown. */
  datatype Settled = Settled(statusChange: Option<bool>, toast: string, kind: Toast.ToastKind)

  /** `handlePublish` / `handleUnpublish` up to the store call: nothing while loading. */
  function Click(b: Button, op: Op): Button {
    if b.loading then b else b.(loading := true, pending := Some(op))
  }

  /** The rest of the handler, once the store has answered. */
  function Finish(b: Button, reply: StoreReply, hasCallback: bool): (Button, Settled)
    requires b.pending.Some?
  {
    var op := b.pending.value;
    var done := b.(loading := false, pending := None);
    match reply
    case StoreError(_) =>
      (done, Settled(None, if op == Publish then "Failed to publish story." else "Failed to unpublish story.",
                     Toast.Error))
    case Updated =>
      if op == Publish then
        (done.(isPublished := true), Settled(if hasCallback then Some(true) else None,
                                              "Story published to Open Shelf!", Toast.Success))
      else
        (done.(isPublished := false, showModal := false),
         Settled(if hasCallback then Some(false) else None, "Story removed from public feed.", Toast.Info))
  }

  lemma InitialState(initialIsPublished: bool)
    ensures Initial(initialIsPublished).isPublished == initialIsPublished && Inv(Initial(initialIsPublished))
  {
  }

  /** A click while an update is in flight changes nothing; otherwise it starts that update. */
  lemma ClickWhileLoadingIsIgnored(b: Button, op: Op)
    requires Inv(b)
    ensures b.loading ==> Click(b, op) == b
    ensures !b.loading ==> Click(b, op).pending == Some(op) && Click(b, op).isPublished == b.isPublished
    ensures Inv(Click(b, op))
  {
  }

  /** A successful update sets the published flag to what was asked and reports it to the
      callback; an unpublish also closes the dialog. */
  lemma SuccessSetsTheFlag(b: Button, hasCallback: bool)
    requires b.pending.Some?
    ensures var (b', s) := Finish(b, Updated, hasCallback);
      && b'.isPublished == (b.pending.value == Publish)
      && (hasCallback <==> s.statusChange.Some?)
      && (s.statusChange.Some? ==> s.statusChange.value == b'.isPublished)
      && (b.pending.value == Unpublish ==> !b'.showModal)
      && (b.pending.value == Publish ==> b'.showModal == b.showModal)
  {
  }

  /** A store error leaves the flag and the dialog as they were and calls nothing. */
  lemma ErrorChangesNothing(b: Button, message: string, hasCallback: bool)
    requires b.pending.Some?
    ensures var (b', s) := Finish(b, StoreError(message), hasCallback);
      && b'.isPublished == b.isPublished && b'.showModal == b.showModal
      && s.statusChange.None? && s.kind == Toast.Error
  {
  }

  /** Every attempt ends with `loading` off and the invariant restored. */
  lemma FinishEndsLoading(b: Button, reply: StoreReply, hasCallback: bool)
    requires b.pending.Some?
    ensures var b' := Finish(b, reply, hasCallback).0; !b'.loading && b'.pending.None? && Inv(b')
  {
    if reply.Updated? {
      SuccessSetsTheFlag(b, hasCallback);
    } else {
      ErrorChangesNothing(b, reply.message, hasCallback);
    }
  }

  class PublishButton {
    const hasCallback: bool
    var isPublished: bool
    var loading: bool
    var showModal: bool
    var pending: Option<Op>

    function State(): Button
      reads this
    {
      Button(isPublished, loading, showModal, pending)
    }

    constructor (initialIsPublished: bool, hasCallback: bool)
      ensures State() == Initial(initialIsPublished) && this.hasCallback == hasCallback
    {
      this.hasCallback := hasCallback;
      isPublished := initialIsPublished;
      loading := false;
      showModal := false;
      pending := None;
    }

    /** The "Public" button opens the confirmation dialog; its cancel closes it. */
    method SetShowModal(show: bool)
      modifies this
      ensures State() == old(State()).(showModal := show)
    {
      showModal := show;
    }

    method HandleClick(op: Op)
      modifies this
      ensures State() == Click(old(State()), op)
    {
      if loading {
        return;
      }
      loading := true;
      pending := Some(op);
    }

    method StoreAnswered(reply: StoreReply) returns (settled: Settled)
      requires pending.Some?
      modifies this
      ensures (State(), settled) == Finish(old(State()), reply, hasCallback)
    {
      var op := pending.value;
      match reply {
        case StoreError(_) =>
          settled := Settled(None, if op == Publish then "Failed to publish story." else "Failed to unpublish story.",
                             Toast.Error);
        case Updated =>
          if op == Publish {
            isPublished := true;
            settled := Settled(if hasCallback then Some(true) else None, "Story published to Open Shelf!", Toast.Success);
          } else {
            isPublished := false;
            showModal := false;
            settled := Settled(if hasCallback then Some(false) else None, "Story removed from public feed.", Toast.Info);
          }
      }
      loading := false;
      pending := None;
    }
  }
}
