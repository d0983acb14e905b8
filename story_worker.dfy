/** The story-generation job worker: the `Deno.serve` handler that takes one job row from
    `pending` through `processing` to `completed` or `failed`, creating a story with its
    first part, or appending the next part to an existing story.

    The narrative store is a value (`StoreState`) with three tables: jobs keyed by their id,
    and stories and parts as rows in insertion order, a story's id being its position plus
    one. What the handler does is the function `Process`; the imperative `Serve` performs
    the same row writes one by one on a `Store` object and is proved to end in `Process`'s
    state. */
module StoryWorker {
  import opened Wrappers
  import opened Text
  import opened JsValue
  import opened StoryProvider

  datatype JobStatus = Pending | Processing | Completed | Failed

  /** The text the jobs table holds for a status. */
  function StatusName(s: JobStatus): string {
    match s
    case Pending => "pending"
    case Processing => "processing"
    case Completed => "completed"
    case Failed => "failed"
  }

  datatype JobRow = JobRow(status: JobStatus, result: Json, error: Json)

  datatype StoryRow = StoryRow(
    userId: Json, title: string, genre: Json, language: Json, goal: Json, lesson: Json,
    fullStory: Json, isPublished: bool, isCompleted: bool, userLevel: Json,
    narrativeContext: Json)

  datatype PartRow = PartRow(
    storyId: Json, partNumber: int, content: Json, suggestedChoices: Json,
    selectedChoice: Json, userCustomInput: Json, correction: Json,
    vocabularyHighlight: Json, isUserInput: bool, orderIndex: int)

  datatype StoreState = StoreState(jobs: map<Json, JobRow>, stories: seq<StoryRow>, parts: seq<PartRow>)

  /** One `update` of the jobs table, in the order the handler issues them. */
  datatype JobWrite =
    | MarkProcessing(id: Json)
    | MarkCompleted(id: Json, result: Json)
    | MarkFailed(id: Json, error: string)
  {
    function Status(): JobStatus {
      match this
      case MarkProcessing(_) => Processing
      case MarkCompleted(_, _) => Completed
      case MarkFailed(_, _) => Failed
    }
  }

  /** The request: its HTTP verb, and its body as `req.json()` gives it, or the message of the
      error it rejects with. */
  datatype Request = Request(verb: string, body: Result<Json, string>)

  datatype Env = Env(supabaseUrl: Option<string>, serviceRoleKey: Option<string>, geminiApiKey: Option<string>)

  /** What a `throw` raised: an `Error` (what the handler's own code and the model call throw)
      or another value (an insert error object the client library may hand back). */
  datatype Thrown = ErrorObject(message: string) | OtherValue(asText: string)

  /** The job's `error` column after a failure: the message, or `String(error)`. */
  function FailureText(t: Thrown): string {
    match t
    case ErrorObject(m) => m
    case OtherValue(text) => text
  }

  /** The `error` field of the 500 response: the message, or "Unknown error". */
  function ResponseText(t: Thrown): string {
    match t
    case ErrorObject(m) => m
    case OtherValue(_) => "Unknown error"
  }

  /** Errors the store reports for the two inserts the handler checks. */
  datatype InsertFaults = InsertFaults(storyInsert: Option<Thrown>, partInsert: Option<Thrown>)

  datatype Response =
    | Preflight                     // "ok" for OPTIONS
    | StartedStory(storyId: Json)   // { success: true, story_id }
    | ContinuedStory                // { success: true }
    | Ignored                       // { message: "Job type ignored" }
    | ServerError(message: string)  // status 500, { error }

  datatype Outcome = Outcome(store: StoreState, response: Response, writes: seq<JobWrite>, prompt: Option<Prompt>)

  const Unknown: Json := JStr("unknown")
  const MissingEnvMessage := "Missing Environment Variables"
  const NullReadMessage := "Cannot read properties of null"

  predicate EnvPresent(env: Env) {
    && env.supabaseUrl.Some? && env.supabaseUrl.value != ""
    && env.serviceRoleKey.Some? && env.serviceRoleKey.value != ""
    && env.geminiApiKey.Some? && env.geminiApiKey.value != ""
  }

  /** `payload.record || payload`. */
  function JobOf(payload: Json): Json
    requires payload != JNull
  {
    OrElse(Get(payload, "record"), payload)
  }

  /** `jobId`: the job's id when it is truthy, else "unknown". */
  function JobIdOf(job: Json): Json
    requires job != JNull
  {
    if TruthyRead(Get(job, "id")) then Get(job, "id").v else Unknown
  }

  /** The native language used in the prompts: the user's stored one when the job names a
      user and that user has one, else "English". `stored` is what the users query returned. */
  function NativeLanguage(job: Json, stored: Option<string>): string
    requires job != JNull
  {
    if TruthyRead(Get(job, "user_id")) && stored.Some? && stored.value != "" then stored.value else "English"
  }

  // ----- row-level writes --------------------------------------------------------------

  function ApplyJobWrite(jobs: map<Json, JobRow>, w: JobWrite): (r: map<Json, JobRow>)
    ensures r.Keys == jobs.Keys
    ensures forall k :: k in jobs && k != w.id ==> r[k] == jobs[k]
    ensures w.id in jobs ==> r[w.id].status == w.Status()
  {
    if w.id !in jobs then jobs
    else
      var row := jobs[w.id];
      match w
      case MarkProcessing(_) => jobs[w.id := row.(status := Processing)]
      case MarkCompleted(_, result) => jobs[w.id := row.(status := Completed, result := result)]
      case MarkFailed(_, error) => jobs[w.id := row.(status := Failed, error := JStr(error))]
  }

  function ApplyJobWrites(jobs: map<Json, JobRow>, ws: seq<JobWrite>): map<Json, JobRow>
    decreases |ws|
  {
    if ws == [] then jobs else ApplyJobWrites(ApplyJobWrite(jobs, ws[0]), ws[1..])
  }

  lemma SingleWrite(jobs: map<Json, JobRow>, w: JobWrite)
    ensures ApplyJobWrites(jobs, [w]) == ApplyJobWrite(jobs, w)
  {
    assert [w][1..] == [];
  }

  /** The integer key a filter value names: a number, or a string of digits the database
      casts to one. */
  function KeyOf(v: Json): Option<nat> {
    match v
    case JNum(n) => if n >= 0 then Some(n) else None
    case JStr(s) => ParseNat(s)
    case _ => None
  }

  predicate SameKey(a: Json, b: Json) {
    KeyOf(a).Some? && KeyOf(a) == KeyOf(b)
  }

  /** The position of the story row that `.eq("id", storyId)` selects. */
  function StoryIndex(stories: seq<StoryRow>, storyId: Json): (r: Option<nat>)
    ensures r.Some? ==> r.value < |stories| && KeyOf(storyId) == Some(r.value + 1)
  {
    match KeyOf(storyId)
    case Some(k) => if 1 <= k <= |stories| then Some(k - 1) else None
    case None => None
  }

  predicate HasPart(parts: seq<PartRow>, storyId: Json) {
    exists i :: 0 <= i < |parts| && SameKey(parts[i].storyId, storyId)
  }

  /** The row `order("part_number", desc).limit(1)` returns: a part of the story with the
      highest part number (among equal numbers, the latest row). */
  function LastPart(parts: seq<PartRow>, storyId: Json): (r: Option<nat>)
    ensures r.Some? ==> r.value < |parts| && SameKey(parts[r.value].storyId, storyId)
    ensures r.None? <==> !HasPart(parts, storyId)
    decreases |parts|
  {
    if parts == [] then None
    else
      var init := parts[..|parts| - 1];
      var rest := LastPart(init, storyId);
      var last := parts[|parts| - 1];
      assert HasPart(parts, storyId) <==> HasPart(init, storyId) || SameKey(last.storyId, storyId) by {
        if HasPart(init, storyId) {
          var i :| 0 <= i < |init| && SameKey(init[i].storyId, storyId);
          assert parts[i] == init[i];
        }
        if HasPart(parts, storyId) {
          var i :| 0 <= i < |parts| && SameKey(parts[i].storyId, storyId);
          if i < |init| { assert init[i] == parts[i]; }
        }
      }
      if SameKey(last.storyId, storyId) && (rest.None? || last.partNumber >= parts[rest.value].partNumber)
      then Some(|parts| - 1) else rest
  }

  /** The part that `LastPart` finds has the highest part number of the story. */
  lemma {:induction false} LastPartIsHighest(parts: seq<PartRow>, storyId: Json, j: nat)
    requires j < |parts| && SameKey(parts[j].storyId, storyId)
    ensures LastPart(parts, storyId).Some?
    ensures parts[j].partNumber <= parts[LastPart(parts, storyId).value].partNumber
    decreases |parts|
  {
    var init := parts[..|parts| - 1];
    if j < |parts| - 1 {
      assert init[j] == parts[j];
      LastPartIsHighest(init, storyId, j);
    }
  }

  /** The part number the next part gets: the highest existing one plus one, or 1. */
  function NextPartNumber(parts: seq<PartRow>, storyId: Json): int {
    match LastPart(parts, storyId)
    case None => 1
    case Some(i) => parts[i].partNumber + 1
  }

  lemma NextPartNumberExceedsAll(parts: seq<PartRow>, storyId: Json, j: nat)
    requires j < |parts| && SameKey(parts[j].storyId, storyId)
    ensures parts[j].partNumber < NextPartNumber(parts, storyId)
  {
    LastPartIsHighest(parts, storyId, j);
  }

  /** `update({ selected_choice: user_direction })` on the last part: an `undefined`
      direction is dropped from the request and changes nothing. */
  function RecordChoice(parts: seq<PartRow>, last: Option<nat>, direction: Read): (r: seq<PartRow>)
    requires last.Some? ==> last.value < |parts|
    requires !direction.TypeError?
    ensures |r| == |parts|
    ensures forall i :: 0 <= i < |parts| && Some(i) != last ==> r[i] == parts[i]
    ensures last.Some? && direction.Value? ==> r[last.value] == parts[last.value].(selectedChoice := direction.v)
  {
    if last.Some? && direction.Value? then parts[last.value := parts[last.value].(selectedChoice := direction.v)]
    else parts
  }

  /** `{ story_id }` as a JSON object: an `undefined` id is dropped. */
  function ResultObject(storyId: Read): Json
    requires !storyId.TypeError?
  {
    if storyId.Value? then JObj(map["story_id" := storyId.v]) else JObj(map[])
  }

  // ----- the two job kinds ---------------------------------------------------------------

  /** What a branch produced: the store after its writes, and either the job's result and
      response or what it threw. The branch is given the model's reply, `generated`. */
  datatype BranchResult = BranchResult(store: StoreState, outcome: Result<(Json, Response), Thrown>)

  function StartParams(params: Json, native: string): (p: GenerationParams)
    requires params != JNull
    ensures p.Wf()
  {
    GenerationParams(
      Get(params, "genre"),
      Value(WithDefault(Get(params, "language"), JStr("English"))),
      Get(params, "goal"), Get(params, "lesson"), Get(params, "level"), Get(params, "level_label"),
      native)
  }

  /** The story row the start branch inserts. */
  function NewStory(job: Json, p: GenerationParams, r: StoryResponse): StoryRow
    requires job != JNull && p.Wf()
  {
    StoryRow(Column(Get(job, "user_id")), "Your Story", Column(p.genre), Column(p.language),
             Column(p.goal), Column(p.lesson), r.content, false, false,
             Column(p.levelLabel), r.narrativeContext)
  }

  /** Part 1 of a new story. */
  function FirstPart(storyId: Json, r: StoryResponse): PartRow {
    PartRow(storyId, 1, r.content, r.options, JNull, JNull, JNull, r.vocabularyHighlight, false, 1)
  }

  /** CASE 1: create the story, then its first part. */
  function StartStory(st: StoreState, job: Json, p: GenerationParams,
                      generated: Result<StoryResponse, string>, faults: InsertFaults): BranchResult
    requires job != JNull && p.Wf()
  {
    match generated
    case Failure(m) => BranchResult(st, Failure(ErrorObject(m)))
    case Success(r) =>
      if faults.storyInsert.Some? then BranchResult(st, Failure(faults.storyInsert.value))
      else
        var storyId := JNum(|st.stories| + 1);
        var st1 := st.(stories := st.stories + [NewStory(job, p, r)]);
        if faults.partInsert.Some? then BranchResult(st1, Failure(faults.partInsert.value))
        else
          BranchResult(st1.(parts := st.parts + [FirstPart(storyId, r)]),
                       Success((JObj(map["story_id" := storyId]), StartedStory(storyId))))
  }

  function ContinueParams(params: Json, native: string): (p: ContinuationParams)
    requires params != JNull
    ensures p.Wf()
  {
    ContinuationParams(Get(params, "type"), Get(params, "user_direction"), Get(params, "context_summary"),
                       Get(params, "narrative_context"), native)
  }

  /** The part the continue branch inserts, numbered `next`. */
  function NextPart(storyId: Json, next: int, p: ContinuationParams, r: StoryResponse): PartRow
    requires p.Wf()
  {
    var custom := if p.turnType == Value(JStr("custom")) then Column(p.userDirection) else JNull;
    PartRow(storyId, next, r.content, r.options, JNull, custom, r.correction, r.vocabularyHighlight, false, next)
  }

  /** The new `full_story`: the old one (or "") and the new content, a blank line between. */
  function AppendedStory(stories: seq<StoryRow>, storyId: Json, content: Json): string {
    var prior := match StoryIndex(stories, storyId)
      case Some(i) => OrElse(Value(stories[i].fullStory), JStr(""))
      case None => JStr("");
    ToText(prior) + "\n\n" + ToText(content)
  }

  /** The story update after a new part: `full_story` appended, `narrative_context` replaced. */
  function UpdateStory(stories: seq<StoryRow>, storyId: Json, content: Json, context: Json): (r: seq<StoryRow>)
    ensures |r| == |stories|
  {
    match StoryIndex(stories, storyId)
    case None => stories
    case Some(i) =>
      stories[i := stories[i].(fullStory := JStr(AppendedStory(stories, storyId, content)), narrativeContext := context)]
  }

  /** CASE 2: record the choice on the last part, generate, insert the next part, update
      the story. */
  function ContinueStory(st: StoreState, storyIdRead: Read, p: ContinuationParams,
                         generated: Result<StoryResponse, string>, faults: InsertFaults): BranchResult
    requires !storyIdRead.TypeError? && p.Wf()
  {
    var storyId := Column(storyIdRead);
    var st1 := st.(parts := RecordChoice(st.parts, LastPart(st.parts, storyId), p.userDirection));
    match generated
    case Failure(m) => BranchResult(st1, Failure(ErrorObject(m)))
    case Success(r) =>
      if faults.partInsert.Some? then BranchResult(st1, Failure(faults.partInsert.value))
      else
        var part := NextPart(storyId, NextPartNumber(st.parts, storyId), p, r);
        var st2 := st1.(parts := st1.parts + [part]);
        BranchResult(st2.(stories := UpdateStory(st2.stories, storyId, r.content, r.narrativeContext)),
                     Success((ResultObject(storyIdRead), ContinuedStory)))
  }

  // ----- the handler --------------------------------------------------------------------

  /** The end of the `try`: the job marked completed with its result, or (in the `catch`)
      marked failed. Known ids only: `w0` is the write issued on entry. */
  function Finish(jobId: Json, w0: seq<JobWrite>, b: BranchResult, prompt: Prompt): Outcome {
    var known := jobId != Unknown;
    match b.outcome
    case Success((result, resp)) =>
      var w1 := if known then [MarkCompleted(jobId, result)] else [];
      Outcome(b.store.(jobs := ApplyJobWrites(b.store.jobs, w1)), resp, w0 + w1, Some(prompt))
    case Failure(t) =>
      var w1 := if known then [MarkFailed(jobId, FailureText(t))] else [];
      Outcome(b.store.(jobs := ApplyJobWrites(b.store.jobs, w1)), ServerError(ResponseText(t)), w0 + w1, Some(prompt))
  }

  predicate IsStart(job: Json) requires job != JNull { Get(job, "type") == Value(JStr("generate_start")) }
  predicate IsContinue(job: Json) requires job != JNull { Get(job, "type") == Value(JStr("continue_story")) }

  /** `job.params || {}`. */
  function ParamsOf(job: Json): (r: Json)
    requires job != JNull
    ensures r != JNull
  {
    OrElse(Get(job, "params"), EmptyObject)
  }

  /** The handler once the payload has been read and is not `null`; `generated` is what the
      model call returns, which only the two story branches wait for. */
  function Handle(st: StoreState, payload: Json, env: Env, storedLanguage: Option<string>,
                  generated: Result<StoryResponse, string>, faults: InsertFaults): Outcome
    requires payload != JNull
  {
    var job := JobOf(payload);
    var jobId := JobIdOf(job);
    if !EnvPresent(env) then Outcome(st, ServerError(MissingEnvMessage), [], None)
    else
      var w0 := if jobId != Unknown then [MarkProcessing(jobId)] else [];
      var st0 := st.(jobs := ApplyJobWrites(st.jobs, w0));
      var native := NativeLanguage(job, storedLanguage);
      if IsStart(job) then
        var p := StartParams(ParamsOf(job), native);
        Finish(jobId, w0, StartStory(st0, job, p, generated, faults), BuildSystemPrompt(p))
      else if IsContinue(job) then
        var p := ContinueParams(ParamsOf(job), native);
        Finish(jobId, w0, ContinueStory(st0, Get(ParamsOf(job), "story_id"), p, generated, faults),
               ContinuePromptOf(p))
      else Outcome(st0, Ignored, w0, None)
  }

  /** The whole handler for one request. `storedLanguage` is what the users query returns for
      the job's user, `reply` what the model's HTTP endpoint returns, `parse` is `JSON.parse`. */
  function Process(st: StoreState, req: Request, env: Env, storedLanguage: Option<string>,
                   reply: HttpReply, parse: string -> Option<Json>, faults: InsertFaults): Outcome
  {
    if req.verb == "OPTIONS" then Outcome(st, Preflight, [], None)
    else if req.body.Failure? then Outcome(st, ServerError(req.body.error), [], None)
    else if req.body.value == JNull then Outcome(st, ServerError(NullReadMessage), [], None)
    else Handle(st, req.body.value, env, storedLanguage, CallGemini(reply, parse), faults)
  }

  // ----- properties of the handler ----------------------------------------------------------

  /** The request reaches the writes: not a preflight, a readable non-null body, and the
      environment configured. */
  predicate Admitted(req: Request, env: Env) {
    req.verb != "OPTIONS" && req.body.Success? && req.body.value != JNull && EnvPresent(env)
  }

  function JobIdOfRequest(req: Request): Json
    requires req.body.Success? && req.body.value != JNull
  {
    JobIdOf(JobOf(req.body.value))
  }

  /** Whichever branch runs, the jobs table is only written by the handler itself. */
  lemma BranchesKeepJobs(st: StoreState, job: Json, sp: GenerationParams, storyId: Read, cp: ContinuationParams,
                         generated: Result<StoryResponse, string>, faults: InsertFaults)
    requires job != JNull && sp.Wf() && !storyId.TypeError? && cp.Wf()
    ensures StartStory(st, job, sp, generated, faults).store.jobs == st.jobs
    ensures ContinueStory(st, storyId, cp, generated, faults).store.jobs == st.jobs
    ensures StartStory(st, job, sp, generated, faults).outcome.Success? ==>
              StartStory(st, job, sp, generated, faults).outcome.value.1.StartedStory?
    ensures ContinueStory(st, storyId, cp, generated, faults).outcome.Success? ==>
              ContinueStory(st, storyId, cp, generated, faults).outcome.value.1.ContinuedStory?
  {
  }

  /** The writes of a finished branch: none for an unknown id, else `processing` and then
      `completed` or `failed` as the branch succeeded or threw. */
  lemma FinishWrites(jobId: Json, b: BranchResult, p: Prompt)
    requires b.outcome.Success? ==> b.outcome.value.1.StartedStory? || b.outcome.value.1.ContinuedStory?
    ensures var o := Finish(jobId, if jobId != Unknown then [MarkProcessing(jobId)] else [], b, p);
      && (o.writes == [] <==> jobId == Unknown)
      && (jobId != Unknown ==> |o.writes| == 2 && o.writes[0] == MarkProcessing(jobId) && o.writes[1].id == jobId)
      && (jobId != Unknown ==> (o.writes[1].MarkCompleted? <==> o.response.StartedStory? || o.response.ContinuedStory?))
      && (jobId != Unknown ==> (o.writes[1].MarkFailed? <==> o.response.ServerError?))
      && !o.response.Ignored? && !o.response.Preflight?
  {
  }

  /** The jobs table sees at most two writes, both to the job's own id: `processing` first,
      then `completed` on success or `failed` on an error; nothing at all before the
      environment check passes or when the job has no id. */
  lemma JobWritesFollowLifecycle(st: StoreState, req: Request, env: Env, lang: Option<string>,
                                 reply: HttpReply, parse: string -> Option<Json>, faults: InsertFaults)
    ensures var o := Process(st, req, env, lang, reply, parse, faults);
      o.writes == [] <==> !Admitted(req, env) || JobIdOfRequest(req) == Unknown
    ensures var o := Process(st, req, env, lang, reply, parse, faults);
      o.writes != [] ==> o.writes[0] == MarkProcessing(JobIdOfRequest(req)) && |o.writes| <= 2
    ensures var o := Process(st, req, env, lang, reply, parse, faults);
      |o.writes| == 2 ==> o.writes[1].id == JobIdOfRequest(req)
    ensures var o := Process(st, req, env, lang, reply, parse, faults);
      |o.writes| == 2 ==> (o.writes[1].MarkCompleted? <==> o.response.StartedStory? || o.response.ContinuedStory?)
    ensures var o := Process(st, req, env, lang, reply, parse, faults);
      |o.writes| == 2 ==> (o.writes[1].MarkFailed? <==> o.response.ServerError?)
    ensures var o := Process(st, req, env, lang, reply, parse, faults);
      |o.writes| == 1 <==> o.response.Ignored? && JobIdOfRequest(req) != Unknown
  {
    var o := Process(st, req, env, lang, reply, parse, faults);
    if Admitted(req, env) {
      var job := JobOf(req.body.value);
      var jobId := JobIdOf(job);
      var native := NativeLanguage(job, lang);
      var params := ParamsOf(job);
      var sp := StartParams(params, native);
      var cp := ContinueParams(params, native);
      var w0 := if jobId != Unknown then [MarkProcessing(jobId)] else [];
      var st0 := st.(jobs := ApplyJobWrites(st.jobs, w0));
      var generated := CallGemini(reply, parse);
      assert o == Handle(st, req.body.value, env, lang, generated, faults);
      BranchesKeepJobs(st0, job, sp, Get(params, "story_id"), cp, generated, faults);
      if IsStart(job) {
        var b := StartStory(st0, job, sp, generated, faults);
        assert o == Finish(jobId, w0, b, BuildSystemPrompt(sp));
        FinishWrites(jobId, b, BuildSystemPrompt(sp));
      } else if IsContinue(job) {
        var b := ContinueStory(st0, Get(params, "story_id"), cp, generated, faults);
        assert o == Finish(jobId, w0, b, ContinuePromptOf(cp));
        FinishWrites(jobId, b, ContinuePromptOf(cp));
      } else {
        assert o == Outcome(st0, Ignored, w0, None);
      }
    } else {
      RejectedRequestsWriteNothing(st, req, env, lang, reply, parse, faults);
    }
  }

  /** A known job ends `completed` exactly when the handler answers with success, `failed`
      exactly when it answers 500 and `processing` when its type is ignored; no other job
      row changes. */
  lemma JobStatusMatchesResponse(st: StoreState, req: Request, env: Env, lang: Option<string>,
                                 reply: HttpReply, parse: string -> Option<Json>, faults: InsertFaults)
    requires Admitted(req, env)
    requires JobIdOfRequest(req) != Unknown && JobIdOfRequest(req) in st.jobs
    ensures var o := Process(st, req, env, lang, reply, parse, faults);
      var id := JobIdOfRequest(req);
      && o.store.jobs.Keys == st.jobs.Keys
      && (forall k :: k in st.jobs && k != id ==> o.store.jobs[k] == st.jobs[k])
      && (o.store.jobs[id].status == Completed <==> o.response.StartedStory? || o.response.ContinuedStory?)
      && (o.store.jobs[id].status == Failed <==> o.response.ServerError?)
      && (o.store.jobs[id].status == Processing <==> o.response.Ignored?)
  {
    var o := Process(st, req, env, lang, reply, parse, faults);
    var id := JobIdOfRequest(req);
    var job := JobOf(req.body.value);
    var native := NativeLanguage(job, lang);
    var params := ParamsOf(job);
    var sp := StartParams(params, native);
    var cp := ContinueParams(params, native);
    SingleWrite(st.jobs, MarkProcessing(id));
    var st0 := st.(jobs := ApplyJobWrite(st.jobs, MarkProcessing(id)));
    var generated := CallGemini(reply, parse);
    BranchesKeepJobs(st0, job, sp, Get(params, "story_id"), cp, generated, faults);
    assert o == Handle(st, req.body.value, env, lang, generated, faults);
    if IsStart(job) {
      var b := StartStory(st0, job, sp, generated, faults);
      assert o == Finish(id, [MarkProcessing(id)], b, BuildSystemPrompt(sp));
      FinishJobStatus(st0, id, b, BuildSystemPrompt(sp));
    } else if IsContinue(job) {
      var b := ContinueStory(st0, Get(params, "story_id"), cp, generated, faults);
      assert o == Finish(id, [MarkProcessing(id)], b, ContinuePromptOf(cp));
      FinishJobStatus(st0, id, b, ContinuePromptOf(cp));
    } else {
      assert o == Outcome(st0, Ignored, [MarkProcessing(id)], None);
    }
  }

  /** After a branch that left the jobs table alone, the final write sets the job's own
      status to `completed` or `failed` as the branch succeeded or threw. */
  lemma FinishJobStatus(st0: StoreState, id: Json, b: BranchResult, p: Prompt)
    requires id != Unknown && id in st0.jobs && b.store.jobs == st0.jobs
    requires b.outcome.Success? ==> b.outcome.value.1.StartedStory? || b.outcome.value.1.ContinuedStory?
    ensures var o := Finish(id, [MarkProcessing(id)], b, p);
      && o.store.jobs.Keys == st0.jobs.Keys
      && (forall k :: k in st0.jobs && k != id ==> o.store.jobs[k] == st0.jobs[k])
      && (o.store.jobs[id].status == Completed <==> o.response.StartedStory? || o.response.ContinuedStory?)
      && (o.store.jobs[id].status == Failed <==> o.response.ServerError?)
      && o.store.jobs[id].status != Processing && !o.response.Ignored?
  {
    match b.outcome
    case Success((result, _)) => SingleWrite(b.store.jobs, MarkCompleted(id, result));
    case Failure(t) => SingleWrite(b.store.jobs, MarkFailed(id, FailureText(t)));
  }

  /** A preflight, an unreadable or `null` body, or a missing environment variable changes
      no table; the last three answer 500 with the error's message. */
  lemma RejectedRequestsWriteNothing(st: StoreState, req: Request, env: Env, lang: Option<string>,
                                     reply: HttpReply, parse: string -> Option<Json>, faults: InsertFaults)
    requires !Admitted(req, env)
    ensures var o := Process(st, req, env, lang, reply, parse, faults);
      && o.store == st && o.writes == [] && o.prompt.None?
      && (req.verb == "OPTIONS" <==> o.response == Preflight)
      && (req.verb != "OPTIONS" && req.body.Failure? ==> o.response == ServerError(req.body.error))
      && (req.verb != "OPTIONS" && req.body == Success(JNull) ==> o.response == ServerError(NullReadMessage))
      && (req.verb != "OPTIONS" && req.body.Success? && req.body.value != JNull ==>
            o.response == ServerError(MissingEnvMessage))
  {
  }

  /** A job that started a story is left `completed` with `{ story_id }` naming the new story,
      whose id is a positive number. */
  lemma StartedJobRecordsStory(st: StoreState, payload: Json, env: Env, lang: Option<string>,
                               generated: Result<StoryResponse, string>, faults: InsertFaults)
    requires payload != JNull && EnvPresent(env)
    requires JobIdOf(JobOf(payload)) != Unknown && JobIdOf(JobOf(payload)) in st.jobs
    requires Handle(st, payload, env, lang, generated, faults).response.StartedStory?
    ensures var o := Handle(st, payload, env, lang, generated, faults);
      var id := JobIdOf(JobOf(payload));
      && o.response.storyId == JNum(|st.stories| + 1)
      && id in o.store.jobs
      && o.store.jobs[id].status == Completed
      && o.store.jobs[id].result == JObj(map["story_id" := o.response.storyId])
  {
    var job := JobOf(payload);
    var id := JobIdOf(job);
    var native := NativeLanguage(job, lang);
    var params := ParamsOf(job);
    var sp := StartParams(params, native);
    var cp := ContinueParams(params, native);
    SingleWrite(st.jobs, MarkProcessing(id));
    var st0 := st.(jobs := ApplyJobWrite(st.jobs, MarkProcessing(id)));
    BranchesKeepJobs(st0, job, sp, Get(params, "story_id"), cp, generated, faults);
    var b := StartStory(st0, job, sp, generated, faults);
    assert IsStart(job);
    match b.outcome
    case Success((result, _)) => SingleWrite(b.store.jobs, MarkCompleted(id, result));
  }

  /** A job of any other type is marked `processing`, answered "Job type ignored", and
      leaves the stories and parts alone. */
  lemma OtherJobTypesIgnored(st: StoreState, req: Request, env: Env, lang: Option<string>,
                             reply: HttpReply, parse: string -> Option<Json>, faults: InsertFaults)
    requires Admitted(req, env)
    requires !IsStart(JobOf(req.body.value)) && !IsContinue(JobOf(req.body.value))
    ensures var o := Process(st, req, env, lang, reply, parse, faults);
      && o.response == Ignored && o.prompt.None?
      && o.store.stories == st.stories && o.store.parts == st.parts
  {
  }

  /** The new story's id names the row just inserted, and that story's first part is its
      last, so the next continuation is numbered 2. */
  lemma {:induction false} StartCreatesStoryWithFirstPart(st: StoreState, job: Json, p: GenerationParams,
                                                          r: StoryResponse)
    requires job != JNull && p.Wf()
    requires !HasPart(st.parts, JNum(|st.stories| + 1))
    ensures var b := StartStory(st, job, p, Success(r), InsertFaults(None, None));
      var id := JNum(|st.stories| + 1);
      && b.outcome == Success((JObj(map["story_id" := id]), StartedStory(id)))
      && StoryIndex(b.store.stories, id) == Some(|st.stories|)
      && b.store.stories[..|st.stories|] == st.stories
      && b.store.stories[|st.stories|].fullStory == r.content
      && b.store.stories[|st.stories|].title == "Your Story"
      && !b.store.stories[|st.stories|].isPublished && !b.store.stories[|st.stories|].isCompleted
      && |b.store.parts| == |st.parts| + 1
      && b.store.parts[..|st.parts|] == st.parts
      && LastPart(b.store.parts, id) == Some(|st.parts|)
      && var part := b.store.parts[|st.parts|];
      && part.partNumber == 1 && part.orderIndex == 1 && !part.isUserInput
      && part.content == r.content
      && NextPartNumber(b.store.parts, id) == 2
  {
    var b := StartStory(st, job, p, Success(r), InsertFaults(None, None));
    var id := JNum(|st.stories| + 1);
    var parts := b.store.parts;
    assert parts[..|parts| - 1] == st.parts;
    ParseNatToString(|st.stories| + 1);
    assert SameKey(parts[|parts| - 1].storyId, id);
  }

  /** `language = "English"` replaces an absent language only: an explicit `null` is stored
      as `null`, although the prompt still says English. */
  lemma StartLanguageDefault(st: StoreState, job: Json, params: Json, native: string, r: StoryResponse)
    requires job != JNull && params != JNull
    ensures var p := StartParams(params, native);
      var b := StartStory(st, job, p, Success(r), InsertFaults(None, None));
      && (Get(params, "language").Undefined? ==> b.store.stories[|st.stories|].language == JStr("English"))
      && (Get(params, "language") == Value(JNull) ==>
            b.store.stories[|st.stories|].language == JNull && BuildSystemPrompt(p).language == "English")
  {
  }

  /** A failed generation or a failed story insert leaves the store as it was; a failed part
      insert leaves the new story without parts. */
  lemma StartFailuresKeepStore(st: StoreState, job: Json, p: GenerationParams,
                               generated: Result<StoryResponse, string>, faults: InsertFaults)
    requires job != JNull && p.Wf()
    ensures var b := StartStory(st, job, p, generated, faults);
      && (generated.Failure? ==> b.store == st && b.outcome == Failure(ErrorObject(generated.error)))
      && (faults.storyInsert.Some? ==> b.store == st && b.outcome.Failure?)
      && (generated.Success? && faults.storyInsert.None? && faults.partInsert.Some? ==>
            && b.outcome == Failure(faults.partInsert.value)
            && |b.store.stories| == |st.stories| + 1 && b.store.parts == st.parts)
  {
  }

  /** The part a continuation inserts comes after every part of its story, is ordered by its
      number, and carries the typed text only for a custom turn. */
  lemma ContinueAddsNextPart(st: StoreState, storyIdRead: Read, p: ContinuationParams, r: StoryResponse)
    requires !storyIdRead.TypeError? && p.Wf()
    ensures var b := ContinueStory(st, storyIdRead, p, Success(r), InsertFaults(None, None));
      var id := Column(storyIdRead);
      var part := b.store.parts[|st.parts|];
      && b.outcome == Success((ResultObject(storyIdRead), ContinuedStory))
      && |b.store.parts| == |st.parts| + 1
      && part.storyId == id
      && (forall j :: 0 <= j < |st.parts| && SameKey(st.parts[j].storyId, id) ==> st.parts[j].partNumber < part.partNumber)
      && part.partNumber == NextPartNumber(st.parts, id)
      && (!HasPart(st.parts, id) ==> part.partNumber == 1)
      && (HasPart(st.parts, id) ==> part.partNumber == st.parts[LastPart(st.parts, id).value].partNumber + 1)
      && part.orderIndex == part.partNumber
      && !part.isUserInput
      && part.content == r.content && part.suggestedChoices == r.options && part.correction == r.correction
      && (p.turnType == Value(JStr("custom")) ==> part.userCustomInput == Column(p.userDirection))
      && (p.turnType != Value(JStr("custom")) ==> part.userCustomInput == JNull)
  {
    var id := Column(storyIdRead);
    forall j | 0 <= j < |st.parts| && SameKey(st.parts[j].storyId, id)
      ensures st.parts[j].partNumber < NextPartNumber(st.parts, id)
    {
      NextPartNumberExceedsAll(st.parts, id, j);
    }
  }

  /** The choice that triggered a continuation is saved on the story's last part before the
      model is called, so it stays saved when the generation or the insert fails. Parts other
      than that one are never modified. */
  lemma ContinueRecordsChoice(st: StoreState, storyIdRead: Read, p: ContinuationParams,
                              generated: Result<StoryResponse, string>, faults: InsertFaults)
    requires !storyIdRead.TypeError? && p.Wf()
    ensures var b := ContinueStory(st, storyIdRead, p, generated, faults);
      var last := LastPart(st.parts, Column(storyIdRead));
      && |b.store.parts| >= |st.parts|
      && (last.Some? && p.userDirection.Value? ==> b.store.parts[last.value].selectedChoice == p.userDirection.v)
      && (last.Some? ==> b.store.parts[last.value].(selectedChoice := st.parts[last.value].selectedChoice) == st.parts[last.value])
      && (forall i :: 0 <= i < |st.parts| && Some(i) != last ==> b.store.parts[i] == st.parts[i])
      && (b.outcome.Failure? ==> b.store.stories == st.stories && |b.store.parts| == |st.parts|)
  {
  }

  /** A successful continuation appends the new content to the story's `full_story` after a
      blank line, replaces its narrative context, and changes no other story. */
  lemma ContinueAppendsToStory(st: StoreState, storyIdRead: Read, p: ContinuationParams, r: StoryResponse)
    requires !storyIdRead.TypeError? && p.Wf()
    ensures var b := ContinueStory(st, storyIdRead, p, Success(r), InsertFaults(None, None));
      var id := Column(storyIdRead);
      && |b.store.stories| == |st.stories|
      && (forall i :: 0 <= i < |st.stories| && Some(i) != StoryIndex(st.stories, id) ==> b.store.stories[i] == st.stories[i])
      && (StoryIndex(st.stories, id).Some? ==>
            var i := StoryIndex(st.stories, id).value;
            && b.store.stories[i].fullStory == JStr(ToText(OrElse(Value(st.stories[i].fullStory), JStr(""))) + "\n\n" + ToText(r.content))
            && b.store.stories[i].narrativeContext == r.narrativeContext
            && b.store.stories[i].(fullStory := st.stories[i].fullStory, narrativeContext := st.stories[i].narrativeContext) == st.stories[i])
  {
  }

  /** A story that has no text yet gets the new content after a blank line, not "null". */
  lemma AppendToEmptyStory(stories: seq<StoryRow>, i: nat, content: string)
    requires i < |stories| && !Truthy(stories[i].fullStory)
    ensures AppendedStory(stories, JNum(i + 1), JStr(content)) == "\n\n" + content
  {
    ParseNatToString(i + 1);
  }

  // ----- the store as the handler mutates it ----------------------------------------------

  /** The three tables, updated one row write at a time. */
  class Store {
    var jobs: map<Json, JobRow>
    var stories: seq<StoryRow>
    var parts: seq<PartRow>

    function State(): StoreState
      reads this
    {
      StoreState(jobs, stories, parts)
    }

    constructor(initial: StoreState)
      ensures State() == initial
    {
      jobs := initial.jobs;
      stories := initial.stories;
      parts := initial.parts;
    }

    /** `update(...).eq("id", w.id)` on the jobs table. */
    method UpdateJob(w: JobWrite)
      modifies this
      ensures State() == old(State()).(jobs := ApplyJobWrite(old(jobs), w))
    {
      if w.id in jobs {
        var row := jobs[w.id];
        match w
        case MarkProcessing(_) => jobs := jobs[w.id := row.(status := Processing)];
        case MarkCompleted(_, result) => jobs := jobs[w.id := row.(status := Completed, result := result)];
        case MarkFailed(_, error) => jobs := jobs[w.id := row.(status := Failed, error := JStr(error))];
      }
    }

    /** `insert(row).select().single()` on the stories table: the new row's id. */
    method InsertStory(row: StoryRow) returns (id: Json)
      modifies this
      ensures id == JNum(|old(stories)| + 1)
      ensures State() == old(State()).(stories := old(stories) + [row])
    {
      id := JNum(|stories| + 1);
      stories := stories + [row];
    }

    method InsertPart(row: PartRow)
      modifies this
      ensures State() == old(State()).(parts := old(parts) + [row])
    {
      parts := parts + [row];
    }

    /** `update({ selected_choice })` on the part at position `i`. */
    method SetSelectedChoice(i: nat, choice: Json)
      requires i < |parts|
      modifies this
      ensures State() == old(State()).(parts := old(parts)[i := old(parts)[i].(selectedChoice := choice)])
    {
      parts := parts[i := parts[i].(selectedChoice := choice)];
    }

    /** `update({ full_story, narrative_context }).eq("id", storyId)`. */
    method SetStoryText(storyId: Json, fullStory: string, context: Json)
      modifies this
      ensures State() == old(State()).(stories :=
        match StoryIndex(old(stories), storyId)
        case None => old(stories)
        case Some(i) => old(stories)[i := old(stories)[i].(fullStory := JStr(fullStory), narrativeContext := context)])
    {
      match StoryIndex(stories, storyId)
      case None =>
      case Some(i) => stories := stories[i := stories[i].(fullStory := JStr(fullStory), narrativeContext := context)];
    }

    method RunStart(job: Json, p: GenerationParams, generated: Result<StoryResponse, string>, faults: InsertFaults)
      returns (outcome: Result<(Json, Response), Thrown>)
      requires job != JNull && p.Wf()
      modifies this
      ensures StartStory(old(State()), job, p, generated, faults) == BranchResult(State(), outcome)
    {
      if generated.Failure? {
        return Failure(ErrorObject(generated.error));
      }
      var r := generated.value;
      if faults.storyInsert.Some? {
        return Failure(faults.storyInsert.value);
      }
      var storyId := InsertStory(NewStory(job, p, r));
      if faults.partInsert.Some? {
        return Failure(faults.partInsert.value);
      }
      InsertPart(FirstPart(storyId, r));
      outcome := Success((JObj(map["story_id" := storyId]), StartedStory(storyId)));
    }

    method RunContinue(storyIdRead: Read, p: ContinuationParams, generated: Result<StoryResponse, string>,
                       faults: InsertFaults)
      returns (outcome: Result<(Json, Response), Thrown>)
      requires !storyIdRead.TypeError? && p.Wf()
      modifies this
      ensures ContinueStory(old(State()), storyIdRead, p, generated, faults) == BranchResult(State(), outcome)
    {
      var storyId := Column(storyIdRead);
      var last := LastPart(parts, storyId);
      var next := NextPartNumber(parts, storyId);
      if last.Some? && p.userDirection.Value? {
        SetSelectedChoice(last.value, p.userDirection.v);
      }
      if generated.Failure? {
        return Failure(ErrorObject(generated.error));
      }
      var r := generated.value;
      if faults.partInsert.Some? {
        return Failure(faults.partInsert.value);
      }
      InsertPart(NextPart(storyId, next, p, r));
      SetStoryText(storyId, AppendedStory(stories, storyId, r.content), r.narrativeContext);
      outcome := Success((ResultObject(storyIdRead), ContinuedStory));
    }

    /** One request, the writes issued in the handler's order; ends in `Process`'s state. */
    method Serve(req: Request, env: Env, storedLanguage: Option<string>,
                 reply: HttpReply, parse: string -> Option<Json>, faults: InsertFaults)
      returns (response: Response, writes: seq<JobWrite>, prompt: Option<Prompt>)
      modifies this
      ensures Process(old(State()), req, env, storedLanguage, reply, parse, faults)
              == Outcome(State(), response, writes, prompt)
    {
      if req.verb == "OPTIONS" {
        return Preflight, [], None;
      }
      if req.body.Failure? {
        return ServerError(req.body.error), [], None;
      }
      var payload := req.body.value;
      if payload == JNull {
        return ServerError(NullReadMessage), [], None;
      }
      assert Process(old(State()), req, env, storedLanguage, reply, parse, faults)
          == Handle(old(State()), payload, env, storedLanguage, CallGemini(reply, parse), faults);
      var job := JobOf(payload);
      var jobId := JobIdOf(job);
      if !EnvPresent(env) {
        return ServerError(MissingEnvMessage), [], None;
      }
      writes := [];
      if jobId != Unknown {
        UpdateJob(MarkProcessing(jobId));
        writes := [MarkProcessing(jobId)];
      }
      assert State() == old(State()).(jobs := ApplyJobWrites(old(State()).jobs, writes));
      var native := NativeLanguage(job, storedLanguage);
      var params := ParamsOf(job);
      var b: BranchResult;
      var p: Prompt;
      if IsStart(job) {
        var sp := StartParams(params, native);
        p := BuildSystemPrompt(sp);
        var generated := CallGemini(reply, parse);
        var outcome := RunStart(job, sp, generated, faults);
        b := BranchResult(State(), outcome);
      } else if IsContinue(job) {
        var cp := ContinueParams(params, native);
        p := ContinuePromptOf(cp);
        var generated := CallGemini(reply, parse);
        var outcome := RunContinue(Get(params, "story_id"), cp, generated, faults);
        b := BranchResult(State(), outcome);
      } else {
        return Ignored, writes, None;
      }
      assert Process(old(State()), req, env, storedLanguage, reply, parse, faults) == Finish(jobId, writes, b, p);
      response, writes := FinishJob(jobId, writes, b, p);
      prompt := Some(p);
    }

    /** The writes that close the job, on the store `b` left. */
    method FinishJob(jobId: Json, w0: seq<JobWrite>, b: BranchResult, p: Prompt)
      returns (response: Response, writes: seq<JobWrite>)
      requires State() == b.store
      modifies this
      ensures Finish(jobId, w0, b, p) == Outcome(State(), response, writes, Some(p))
    {
      writes := w0;
      match b.outcome
      case Success((result, resp)) =>
        response := resp;
        if jobId != Unknown {
          SingleWrite(jobs, MarkCompleted(jobId, result));
          UpdateJob(MarkCompleted(jobId, result));
          writes := writes + [MarkCompleted(jobId, result)];
        }
      case Failure(t) =>
        response := ServerError(ResponseText(t));
        if jobId != Unknown {
          SingleWrite(jobs, MarkFailed(jobId, FailureText(t)));
          UpdateJob(MarkFailed(jobId, FailureText(t)));
          writes := writes + [MarkFailed(jobId, FailureText(t))];
        }
    }
  }
}
