/** The client component that waits for a job: it reads the job's row once, then follows
    the row's updates, and when the job completes hands the result to its caller or opens
    the new story. */
module JobListener {
  import opened Wrappers
  import opened Text
  import opened JsValue

  /** What the single-row read returned. */
  datatype FetchOutcome = QueryError(message: string) | Row(data: Json)

  /** What observing a row makes the component do besides updating its own state. */
  datatype Effect = NoEffect | CallOnComplete(result: Json) | Navigate(path: string)

  /** The rendered view. */
  datatype View = ShowCompleted | ShowError(error: Json) | ShowWaiting(status: Json)

  /** `r?.key`: `undefined` when `r` is `null` or `undefined`. */
  function OptionalGet(r: Read, key: string): (out: Read)
    requires !r.TypeError?
    ensures !out.TypeError?
    ensures r.Undefined? || r == Value(JNull) ==> out == Undefined
    ensures r.Value? && r.v != JNull ==> out == Get(r.v, key)
  {
    if r.Value? && r.v != JNull then Get(r.v, key) else Undefined
  }

  /** `data.result?.story_id`. */
  function StoryIdOf(row: Json): (r: Read)
    requires row != JNull
    ensures !r.TypeError?
  {
    OptionalGet(Get(row, "result"), "story_id")
  }

  /** The change observing a job row makes: the new status (an absent status renders like
      `null`), the new error if the row says it failed, and the effect of a completed job. */
  datatype Observation = Observation(status: Json, error: Option<Json>, effect: Effect)

  function Observe(row: Json, hasOnComplete: bool): (o: Observation)
    requires row != JNull
    ensures o.status == Column(Get(row, "status"))
    ensures o.effect != NoEffect ==> Get(row, "status") == Value(JStr("completed"))
    ensures o.error.Some? <==> Get(row, "status") == Value(JStr("failed"))
    ensures o.error.Some? ==> o.error.value == OrElse(Get(row, "error"), JStr("Job failed"))
    ensures Get(row, "status") == Value(JStr("completed")) && hasOnComplete ==>
              o.effect == CallOnComplete(Column(Get(row, "result")))
    ensures Get(row, "status") == Value(JStr("completed")) && !hasOnComplete ==>
              (o.effect != NoEffect <==> TruthyRead(StoryIdOf(row)))
  {
    var status := Get(row, "status");
    if status == Value(JStr("completed")) then
      var result := Get(row, "result");
      var storyId := OptionalGet(result, "story_id");
      var effect :=
        if hasOnComplete then CallOnComplete(Column(result))
        else if TruthyRead(storyId) then Navigate("/stories/" + TemplateText(storyId))
        else NoEffect;
      Observation(Column(status), None, effect)
    else if status == Value(JStr("failed")) then
      Observation(Column(status), Some(OrElse(Get(row, "error"), JStr("Job failed"))), NoEffect)
    else Observation(Column(status), None, NoEffect)
  }

  function Render(status: Json, error: Json): (v: View)
    ensures v == ShowCompleted <==> status == JStr("completed")
    ensures v.ShowError? <==> status == JStr("failed")
    ensures v.ShowError? ==> v.error == error
  {
    if status == JStr("completed") then ShowCompleted
    else if status == JStr("failed") then ShowError(error)
    else ShowWaiting(status)
  }

  /** What the component has shown and done so far: its two state variables and the calls
      and navigations it has issued, oldest first. */
  datatype Snapshot = Snapshot(status: Json, error: Json, effects: seq<Effect>)

  /** An observation taking effect. The callback and the navigation run whether or not the
      component is still mounted; the state setters of an unmounted component change nothing. */
  function Absorb(s: Snapshot, o: Observation, mounted: bool): (t: Snapshot)
    ensures t.effects == s.effects + (if o.effect == NoEffect then [] else [o.effect])
    ensures mounted ==> t.status == o.status
    ensures mounted && o.error.Some? ==> t.error == o.error.value
    ensures !mounted || o.error.None? ==> t.error == s.error
    ensures !mounted ==> t.status == s.status
  {
    var effects := s.effects + (if o.effect == NoEffect then [] else [o.effect]);
    if mounted then Snapshot(o.status, if o.error.Some? then o.error.value else s.error, effects)
    else s.(effects := effects)
  }

  class Listener {
    const jobId: string
    const hasOnComplete: bool
    var status: Json
    var error: Json
    /** Whether the component is mounted with its realtime channel open. */
    var listening: bool
    /** The initial reads started by a mount whose answers have not arrived yet. */
    var pendingReads: nat
    /** The calls and navigations issued so far, oldest first. */
    var effects: seq<Effect>

    function State(): Snapshot
      reads this
    {
      Snapshot(status, error, effects)
    }

    constructor(jobId: string, hasOnComplete: bool)
      ensures this.jobId == jobId && this.hasOnComplete == hasOnComplete
      ensures State() == Snapshot(JStr("pending"), JNull, [])
      ensures !listening && pendingReads == 0
    {
      this.jobId := jobId;
      this.hasOnComplete := hasOnComplete;
      status := JStr("pending");
      error := JNull;
      listening := false;
      pendingReads := 0;
      effects := [];
    }

    /** Runs the effect: an empty job id starts neither the read nor the subscription. */
    method Mount()
      modifies this
      ensures listening == (jobId != "")
      ensures pendingReads == old(pendingReads) + (if jobId != "" then 1 else 0)
      ensures State() == old(State())
    {
      listening := jobId != "";
      if jobId != "" {
        pendingReads := pendingReads + 1;
      }
    }

    /** The effect's clean-up: the channel is removed; a read already started is not
        cancelled. */
    method Unmount()
      modifies this
      ensures !listening && pendingReads == old(pendingReads)
      ensures State() == old(State())
    {
      listening := false;
    }

    /** The observation an update or a successful read brings into the state. */
    method Apply(row: Json)
      requires row != JNull
      modifies this
      ensures State() == Absorb(old(State()), Observe(row, hasOnComplete), old(listening))
      ensures listening == old(listening) && pendingReads == old(pendingReads)
    {
      var o := Observe(row, hasOnComplete);
      if listening {
        status := o.status;
        if o.error.Some? {
          error := o.error.value;
        }
      }
      if o.effect != NoEffect {
        effects := effects + [o.effect];
      }
    }

    /** The answer to an initial read: a query error is shown as the error, a truthy row is
        observed, a falsy one is ignored. Without a read in flight nothing arrives. */
    method FetchArrived(outcome: FetchOutcome)
      modifies this
      ensures old(pendingReads) == 0 ==> State() == old(State()) && pendingReads == 0
      ensures old(pendingReads) > 0 ==> pendingReads == old(pendingReads) - 1
      ensures old(pendingReads) > 0 && outcome.QueryError? ==>
                State() == old(State()).(error := if old(listening) then JStr(outcome.message) else old(error))
      ensures old(pendingReads) > 0 && outcome.Row? && Truthy(outcome.data) ==>
                State() == Absorb(old(State()), Observe(outcome.data, hasOnComplete), old(listening))
      ensures old(pendingReads) > 0 && outcome.Row? && !Truthy(outcome.data) ==> State() == old(State())
      ensures listening == old(listening)
    {
      if pendingReads == 0 {
        return;
      }
      pendingReads := pendingReads - 1;
      match outcome
      case QueryError(message) =>
        if listening {
          error := JStr(message);
        }
      case Row(data) =>
        if Truthy(data) {
          Apply(data);
        }
    }

    /** An UPDATE of the job's row on the realtime channel, which delivers only while the
        channel is open; a `null` row makes the handler throw before it changes anything. */
    method UpdateArrived(newRow: Json)
      modifies this
      ensures old(listening) && newRow != JNull ==>
                State() == Absorb(old(State()), Observe(newRow, hasOnComplete), true)
      ensures !old(listening) || newRow == JNull ==> State() == old(State())
      ensures listening == old(listening) && pendingReads == old(pendingReads)
    {
      if listening && newRow != JNull {
        Apply(newRow);
      }
    }

    function View(): View
      reads this
    {
      Render(status, error)
    }
  }

  /** A completed row without a caller callback opens the story its result names. */
  lemma CompletedJobOpensStory(row: Json)
    requires Get(row, "status") == Value(JStr("completed"))
    requires row != JNull && TruthyRead(StoryIdOf(row))
    ensures Observe(row, false).effect == Navigate("/stories/" + TemplateText(StoryIdOf(row)))
    ensures Render(Observe(row, false).status, JNull) == ShowCompleted
  {
  }

  /** A completed row whose result names no story, without a callback, does nothing but
      show "Completed! Redirecting..." */
  lemma CompletedWithoutStoryStays(row: Json)
    requires Get(row, "status") == Value(JStr("completed"))
    requires row != JNull && !TruthyRead(StoryIdOf(row))
    ensures Observe(row, false).effect == NoEffect
    ensures Render(Observe(row, false).status, JNull) == ShowCompleted
  {
  }

  /** A failed row shows its error, or "Job failed" when it has none. */
  lemma FailedJobShowsError(row: Json)
    requires row.JObj? && "status" in row.fields && row.fields["status"] == JStr("failed")
    ensures var o := Observe(row, false);
      && Render(o.status, o.error.value) == ShowError(o.error.value)
      && ("error" !in row.fields || !Truthy(row.fields["error"]) ==> o.error.value == JStr("Job failed"))
      && ("error" in row.fields && Truthy(row.fields["error"]) ==> o.error.value == row.fields["error"])
  {
  }
}
