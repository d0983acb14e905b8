/** The worker and the listener together: the row the worker leaves for a started story is
    the row that makes the listener open that story. */
module JobHandoff {
  import opened Wrappers
  import opened Text
  import opened JsValue
  import opened StoryProvider
  import StoryWorker
  import JobListener

  /** The jobs row as the client reads it. */
  function RowJson(row: StoryWorker.JobRow): (r: Json)
    ensures r.JObj? && r.fields.Keys == {"status", "result", "error"}
  {
    JObj(map["status" := JStr(StoryWorker.StatusName(row.status)), "result" := row.result, "error" := row.error])
  }

  /** Once the worker has answered a start job with a new story, a listener on that job
      without a callback navigates to `/stories/<id>` of that very story. */
  lemma StartedStoryIsOpened(st: StoryWorker.StoreState, payload: Json, env: StoryWorker.Env,
                             lang: Option<string>, generated: Result<StoryResponse, string>,
                             faults: StoryWorker.InsertFaults)
    requires payload != JNull && StoryWorker.EnvPresent(env)
    requires StoryWorker.JobIdOf(StoryWorker.JobOf(payload)) != StoryWorker.Unknown
    requires StoryWorker.JobIdOf(StoryWorker.JobOf(payload)) in st.jobs
    requires StoryWorker.Handle(st, payload, env, lang, generated, faults).response.StartedStory?
    ensures var o := StoryWorker.Handle(st, payload, env, lang, generated, faults);
      var id := StoryWorker.JobIdOf(StoryWorker.JobOf(payload));
      && id in o.store.jobs
      && var row := RowJson(o.store.jobs[id]);
      && JobListener.Observe(row, false).effect == JobListener.Navigate("/stories/" + IntToString(|st.stories| + 1))
      && JobListener.Render(JobListener.Observe(row, false).status, JNull) == JobListener.ShowCompleted
  {
    StoryWorker.StartedJobRecordsStory(st, payload, env, lang, generated, faults);
    var o := StoryWorker.Handle(st, payload, env, lang, generated, faults);
    var row := RowJson(o.store.jobs[StoryWorker.JobIdOf(StoryWorker.JobOf(payload))]);
    JobListener.CompletedJobOpensStory(row);
  }

  /** A job the worker failed shows the worker's message in the listener. */
  lemma FailedJobShowsWorkerMessage(row: StoryWorker.JobRow, message: string)
    requires row.status == StoryWorker.Failed && row.error == JStr(message) && message != ""
    ensures var o := JobListener.Observe(RowJson(row), false);
      o.error == Some(JStr(message)) && JobListener.Render(o.status, o.error.value) == JobListener.ShowError(JStr(message))
  {
  }
}
