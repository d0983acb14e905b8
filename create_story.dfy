/** The story creation page: the reader picks a genre, a target language, an optional goal
    and lesson and a CEFR level, and the page queues a `generate_start` job; once the job row
    exists the form gives way to the job listener. */
module CreateStory {
  import opened Wrappers
  import opened JsValue
  import StoryProvider
  import StoryWorker

  datatype Level = Level(value: int, caption: string, name: string, description: string)

  /** `DIFFICULTY_LEVELS`, the six CEFR levels from easiest to hardest. */
  const DifficultyLevels: seq<Level> := [
    Level(1, "A1", "Beginner", "Simple words, short sentences."),
    Level(2, "A2", "Elementary", "Everyday topics, basic descriptions."),
    Level(3, "B1", "Intermediate", "Conversational, connected text."),
    Level(4, "B2", "Upper Int.", "Detailed text, abstract topics."),
    Level(5, "C1", "Advanced", "Complex, structured, fluent."),
    Level(6, "C2", "Mastery", "Sophisticated, nuanced, literary.")
  ]

  /** The slider index selects the level whose value is one more, the labels in CEFR order. */
  lemma LevelTable()
    ensures |DifficultyLevels| == 6
    ensures forall i :: 0 <= i < 6 ==> DifficultyLevels[i].value == i + 1
    ensures seq(6, i requires 0 <= i < 6 => DifficultyLevels[i].caption) == ["A1", "A2", "B1", "B2", "C1", "C2"]
  {
  }

  /** The page's state: `loading`, `jobId` (`null` at first), the genre and the level index. */
  datatype Page = Page(loading: bool, jobId: Json, selectedGenre: string, difficultyIndex: int)

  const InitialPage: Page := Page(false, JNull, "fantasy", 0)

  /** The default level is index 0, that is A1 with value 1. */
  lemma DefaultsToFantasyAtA1()
    ensures InitialPage.selectedGenre == "fantasy"
    ensures DifficultyLevels[InitialPage.difficultyIndex] == Level(1, "A1", "Beginner", "Simple words, short sentences.")
  {
  }

  /** The `params` object of the job, from the form's fields and the page's state. */
  function JobParams(genre: string, language: string, goal: string, lesson: string, level: Level): (p: Json)
    ensures p.JObj? && p.fields.Keys == {"genre", "language", "goal", "lesson", "level", "level_label"}
  {
    JObj(map["genre" := JStr(genre), "language" := JStr(language), "goal" := JStr(goal),
             "lesson" := JStr(lesson), "level" := JNum(level.value), "level_label" := JStr(level.caption)])
  }

  /** The inserted job row. */
  datatype JobRow = JobRow(userId: string, kind: string, params: Json, status: string)

  /** What the signed-in check answered, and what the insert answered. */
  datatype InsertReply = InsertError | Inserted(data: Json)

  datatype SubmitResult = SubmitResult(page: Page, insert: Option<JobRow>, redirect: Option<string>,
                                       alert: Option<string>)

  const FailedMessage: string := "Failed to start story generation"

  /** `handleSubmit`. Reading the level of an index outside the table throws before the
      insert, which the `catch` reports like an insert error. */
  function Submit(p: Page, language: string, goal: string, lesson: string, user: Option<string>,
                  reply: InsertReply): SubmitResult
  {
    var busy := p.(loading := true);
    if user.None? then SubmitResult(busy, None, Some("/login"), None)
    else if !(0 <= p.difficultyIndex < |DifficultyLevels|) then
      SubmitResult(busy.(loading := false), None, None, Some(FailedMessage))
    else
      var row := JobRow(user.value, "generate_start",
                        JobParams(p.selectedGenre, language, goal, lesson, DifficultyLevels[p.difficultyIndex]),
                        "pending");
      match reply
      case InsertError => SubmitResult(busy.(loading := false), Some(row), None, Some(FailedMessage))
      case Inserted(data) =>
        SubmitResult(if Truthy(data) then busy.(jobId := Column(Get(data, "id"))) else busy,
                     Some(row), None, None)
  }

  /** `if (jobId)`: the listener replaces the form. A row without an `id` sets `undefined`,
      which, like `null`, keeps the form. */
  predicate ShowsListener(p: Page) {
    Truthy(p.jobId)
  }

  /** Without a user there is no insert, only the redirect; the button stays disabled. */
  lemma SignedOutRedirects(p: Page, language: string, goal: string, lesson: string, reply: InsertReply)
    ensures var r := Submit(p, language, goal, lesson, None, reply);
      r.insert.None? && r.redirect == Some("/login") && r.page.loading && r.page.jobId == p.jobId
  {
  }

  /** A signed-in submission at a valid level inserts one pending `generate_start` job whose
      level and label come from the selected index and whose other fields are the form's. */
  lemma SignedInInsertsTheJob(p: Page, language: string, goal: string, lesson: string, user: string,
                              reply: InsertReply)
    requires 0 <= p.difficultyIndex < 6
    ensures var r := Submit(p, language, goal, lesson, Some(user), reply);
      && r.insert.Some? && r.redirect.None?
      && r.insert.value.userId == user && r.insert.value.kind == "generate_start"
      && r.insert.value.status == "pending"
      && r.insert.value.params.fields["level"] == JNum(p.difficultyIndex + 1)
      && r.insert.value.params.fields["level_label"] == JStr(DifficultyLevels[p.difficultyIndex].caption)
      && r.insert.value.params.fields["genre"] == JStr(p.selectedGenre)
  {
    LevelTable();
  }

  /** An insert error ends loading, keeps `jobId` and alerts. */
  lemma InsertErrorResets(p: Page, language: string, goal: string, lesson: string, user: string)
    ensures var r := Submit(p, language, goal, lesson, Some(user), InsertError);
      !r.page.loading && r.page.jobId == p.jobId && r.alert == Some(FailedMessage)
  {
  }

  /** Once the job row comes back with a truthy id the form gives way to the listener, and
      the page stays busy in the meantime. */
  lemma InsertedShowsListener(p: Page, language: string, goal: string, lesson: string, user: string, id: Json)
    requires 0 <= p.difficultyIndex < 6 && Truthy(id)
    ensures var r := Submit(p, language, goal, lesson, Some(user), Inserted(JObj(map["id" := id])));
      ShowsListener(r.page) && r.page.jobId == id && r.page.loading && r.alert.None?
  {
  }

  /** The worker reads back from the job exactly what the form held: the genre, the language
      as chosen (an empty one stays empty, with no "English" default), the goal and lesson,
      and the level's value and label; the prompt's complexity line names the label. */
  lemma WorkerReadsTheForm(genre: string, language: string, goal: string, lesson: string, index: int,
                           native: string)
    requires 0 <= index < 6
    ensures var level := DifficultyLevels[index];
      var g := StoryWorker.StartParams(JobParams(genre, language, goal, lesson, level), native);
      && g == StoryProvider.GenerationParams(Value(JStr(genre)), Value(JStr(language)), Value(JStr(goal)),
                                             Value(JStr(lesson)), Value(JNum(index + 1)),
                                             Value(JStr(level.caption)), native)
      && StoryProvider.BuildSystemPrompt(g).complexity == "Level " + level.caption
      && (goal == "" <==> StoryProvider.BuildSystemPrompt(g).goal.None?)
  {
    LevelTable();
  }

  class CreatePage {
    var loading: bool
    var jobId: Json
    var selectedGenre: string
    var difficultyIndex: int

    function State(): Page
      reads this
    {
      Page(loading, jobId, selectedGenre, difficultyIndex)
    }

    constructor ()
      ensures State() == InitialPage
    {
      loading := false;
      jobId := JNull;
      selectedGenre := "fantasy";
      difficultyIndex := 0;
    }

    method SelectGenre(genre: string)
      modifies this
      ensures State() == old(State()).(selectedGenre := genre)
    {
      selectedGenre := genre;
    }

    /** The range input's `parseInt` of its value, which the browser keeps in 0..5. */
    method SetDifficulty(value: int)
      requires 0 <= value <= 5
      modifies this
      ensures State() == old(State()).(difficultyIndex := value)
    {
      difficultyIndex := value;
    }

    method HandleSubmit(language: string, goal: string, lesson: string, user: Option<string>, reply: InsertReply)
      returns (insert: Option<JobRow>, redirect: Option<string>, alert: Option<string>)
      modifies this
      ensures SubmitResult(State(), insert, redirect, alert) == Submit(old(State()), language, goal, lesson, user, reply)
    {
      loading := true;
      insert, redirect, alert := None, None, None;
      if user.None? {
        redirect := Some("/login");
        return;
      }
      if !(0 <= difficultyIndex < |DifficultyLevels|) {
        alert := Some(FailedMessage);
        loading := false;
        return;
      }
      var level := DifficultyLevels[difficultyIndex];
      insert := Some(JobRow(user.value, "generate_start",
                            JobParams(selectedGenre, language, goal, lesson, level), "pending"));
      match reply {
        case InsertError =>
          alert := Some(FailedMessage);
          loading := false;
        case Inserted(data) =>
          if Truthy(data) {
            jobId := Column(Get(data, "id"));
          }
      }
    }
  }
}
