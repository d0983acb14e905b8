# Readov story engine and client state, in Dafny

Readov is a language-learning story app. A reader picks a genre, a language and a CEFR
level. This inserts a `generate_start` job row. A server-side worker
(`supabase/functions/generate-story/index.ts`) then takes the job through its life:

- It marks the job `processing`.
- It asks a text generator for the first part.
- It saves the story and its first part.
- It marks the job `completed` with the story's id, or `failed` with the error text.

Later `continue_story` jobs add numbered parts, record the choice that led to them and
extend the story's full text. In the browser, a listener watches the job row and opens
the story. Around this sit small state machines:

- the story list and public feed;
- the editor's synonym/antonym lookup;
- countdown, typewriter and sentence carousel;
- sign-up validation and the toast queue;
- layout and footer path rules;
- choice, branch and publish controls;
- the create page.

The project models each of these in Dafny:

- Pure code becomes functions and lemmas. The lemmas state what the code promises.
- Code that updates state becomes classes. Their methods are proved equal to those
  functions.

Shared modules:

| module | content |
|---|---|
| `Wrappers` | `Option`, `Result` |
| `Text` | JavaScript string helpers: the `\s` class, `trim`, ASCII lower case, number text, `padStart` |
| `JsValue` | JSON values with JavaScript truthiness, `\|\|`, `?.` property reads and `String()` |
| `Lists` | `filter` and subsequences |
| `Arith` | two arithmetic facts |
| `Paths` | the "no sub-path" rule |

How the environment appears in the model:

- The database is a `Store` class: a job map plus story and part sequences, where a row's
  id is its position plus one. Insert errors are inputs.
- The generator's HTTP reply is an input value. `JSON.parse` is a function parameter.
- Clocks, timers, random choices and router pushes become parameters, explicit steps or
  emitted effects.

## Model

| member | source | states |
|---|---|---|
| StoryProvider.StripFences | supabase/functions/generate-story/index.ts:151 | removing the code fences never lengthens the text |
| StoryProvider.StripFencesKeepsPlainText | supabase/functions/generate-story/index.ts:151 | text without a backtick passes through fence stripping unchanged |
| StoryProvider.KeepsFirst | supabase/functions/generate-story/index.ts:151 | a character that does not start a fence is kept, and stripping goes on after it |
| StoryProvider.StripClosingFence | supabase/functions/generate-story/index.ts:151 | a closing fence after plain text is removed together with the newline before it |
| StoryProvider.FencedJsonUnwrapped | supabase/functions/generate-story/index.ts:151 | a reply wrapped in a json code fence is reduced to exactly its body |
| StoryProvider.FenceMakesNoDifferenceToParsing | supabase/functions/generate-story/index.ts:151-152 | the parser sees the same text whether or not the body was fenced |
| StoryProvider.Interpret | supabase/functions/generate-story/index.ts:152-163 | an unparseable reply, or one that parses to null, becomes the raw text with empty options and context |
| StoryProvider.CallGemini | supabase/functions/generate-story/index.ts:134-163 | a non-OK status is an error naming the status and body, and nothing else is an error; a missing or blank text gives "Error: No content generated." |
| StoryProvider.UnparseableReplyIsContent | supabase/functions/generate-story/index.ts:150-163 | a non-blank reply that does not parse is returned as content, not as a failure |
| StoryProvider.ParsedObjectDefaults | supabase/functions/generate-story/index.ts:153-159 | each field is taken when truthy; otherwise content falls back to the trimmed text, options to [], context to {}, correction and highlight to null |
| StoryProvider.TrimOfUnspaced | supabase/functions/generate-story/index.ts:141 | trimming a text that neither starts nor ends with white space leaves it unchanged |
| StoryProvider.BuildSystemPrompt | supabase/functions/generate-story/index.ts:166-196 | complexity is "Level" plus the label, else "Level 5/10" when there is neither label nor level; language defaults to English; the goal and theme rules appear exactly when goal and lesson are truthy |
| StoryProvider.ContinuePromptOf | supabase/functions/generate-story/index.ts:58-104 | the correction rules and the direction clause appear exactly for a custom turn with a non-empty direction and quote it; context defaults to {} and the summary to "Start of story." |
| StoryProvider.AiTurnHasNoCorrectionRule | supabase/functions/generate-story/index.ts:59-93 | an "ai" turn never gets the correction rules or the direction clause |
| StoryWorker.ApplyJobWrite | supabase/functions/generate-story/index.ts:232-238 | a status write changes only the row with that id, sets its status, and adds no row |
| StoryWorker.SingleWrite | supabase/functions/generate-story/index.ts:232-238 | one write in sequence acts as that write alone |
| StoryWorker.StoryIndex | supabase/functions/generate-story/index.ts:401-415 | a story id that is found names an existing row at that position |
| StoryWorker.LastPart | supabase/functions/generate-story/index.ts:337-344 | the part found belongs to the story, and none is found exactly when the story has no parts |
| StoryWorker.LastPartIsHighest | supabase/functions/generate-story/index.ts:337-344 | the part found has the highest part number among the story's parts |
| StoryWorker.NextPartNumberExceedsAll | supabase/functions/generate-story/index.ts:381 | the next part number is larger than every existing part number of the story |
| StoryWorker.RecordChoice | supabase/functions/generate-story/index.ts:347-359 | only the last part's selected choice changes, and it becomes the caller's direction verbatim |
| StoryWorker.StartParams | supabase/functions/generate-story/index.ts:254-261 | the start parameters read from a job are always well formed |
| StoryWorker.ContinueParams | supabase/functions/generate-story/index.ts:324-330 | the continuation parameters read from a job are always well formed |
| StoryWorker.UpdateStory | supabase/functions/generate-story/index.ts:407-415 | updating the story text adds and removes no story row |
| StoryWorker.ParamsOf | supabase/functions/generate-story/index.ts:254-324 | the parameters default to an object, never null |
| StoryWorker.BranchesKeepJobs | supabase/functions/generate-story/index.ts:253-427 | the start and continue branches write no job row, and a success is a started or continued story |
| StoryWorker.FinishWrites | supabase/functions/generate-story/index.ts:232-443 | without a job id nothing is written; with one, processing comes first and then exactly one completed or failed write, matching the response |
| StoryWorker.JobWritesFollowLifecycle | supabase/functions/generate-story/index.ts:205-454 | over the whole handler: no write iff the request is rejected or has no job id; processing comes first; at most two writes; the second is completed iff a story was produced and failed iff a server error is answered; a single write iff the job type is ignored |
| StoryWorker.JobStatusMatchesResponse | supabase/functions/generate-story/index.ts:205-454 | for a known job, only its row changes; it ends completed, failed or still processing exactly as the response is a story, an error or "Job type ignored" |
| StoryWorker.FinishJobStatus | supabase/functions/generate-story/index.ts:309-443 | after a branch, the job row ends completed or failed, matching the response, and never stays processing |
| StoryWorker.RejectedRequestsWriteNothing | supabase/functions/generate-story/index.ts:206-227 | the preflight, an unreadable body and a missing environment change nothing and answer the matching response |
| StoryWorker.StartedJobRecordsStory | supabase/functions/generate-story/index.ts:275-319 | a started story gets the next story id, and the job row is completed with the result containing only story_id |
| StoryWorker.OtherJobTypesIgnored | supabase/functions/generate-story/index.ts:428-432 | an unknown job type answers "Job type ignored", generates nothing and touches no story or part |
| StoryWorker.StartCreatesStoryWithFirstPart | supabase/functions/generate-story/index.ts:275-319 | the new story holds the content, is titled "Your Story", is neither published nor completed, and gets exactly one part, numbered 1 with order index 1 and not marked as user input, which is then the story's last part so the next is numbered 2; the older rows are untouched |
| StoryWorker.StartLanguageDefault | supabase/functions/generate-story/index.ts:174-290 | a missing language is stored as English; an explicit null is stored as null but the prompt still says English |
| StoryWorker.StartFailuresKeepStore | supabase/functions/generate-story/index.ts:275-306 | a generation or story-insert failure changes nothing; a part-insert failure leaves the new story without parts |
| StoryWorker.ContinueAddsNextPart | supabase/functions/generate-story/index.ts:365-398 | one part is added, numbered one above the story's highest-numbered part (so above every earlier part, and 1 for a story without parts); order index equals number; it is not marked as user input; it carries the content and choices, and the custom input only on custom turns |
| StoryWorker.ContinueRecordsChoice | supabase/functions/generate-story/index.ts:337-359 | the previous last part's selected choice becomes the direction even if later steps fail; no other part changes |
| StoryWorker.ContinueAppendsToStory | supabase/functions/generate-story/index.ts:401-415 | the story's full text becomes the old text, or "", followed by a blank line and the content; its context is replaced wholesale; nothing else changes |
| StoryWorker.AppendToEmptyStory | supabase/functions/generate-story/index.ts:401-407 | a story without text gets the blank line followed by the content |
| StoryWorker.Store.constructor | supabase/functions/generate-story/index.ts:229-230 | the store starts in the given state |
| StoryWorker.Store.UpdateJob | supabase/functions/generate-story/index.ts:232-238 | the store changes by that one status write |
| StoryWorker.Store.InsertStory | supabase/functions/generate-story/index.ts:275-293 | appends the row and returns its new id |
| StoryWorker.Store.InsertPart | supabase/functions/generate-story/index.ts:296-398 | appends the part row |
| StoryWorker.Store.SetSelectedChoice | supabase/functions/generate-story/index.ts:353-358 | sets one part's selected choice |
| StoryWorker.Store.SetStoryText | supabase/functions/generate-story/index.ts:407-415 | sets one story's text and context; nothing happens when the id matches no row |
| StoryWorker.Store.RunStart | supabase/functions/generate-story/index.ts:253-320 | the imperative start branch ends in the state and outcome `StartStory` gives |
| StoryWorker.Store.RunContinue | supabase/functions/generate-story/index.ts:323-427 | the imperative continue branch ends in the state and outcome `ContinueStory` gives |
| StoryWorker.Store.FinishJob | supabase/functions/generate-story/index.ts:309-453 | the final status write and response are the ones `Finish` gives |
| StoryWorker.Store.Serve | supabase/functions/generate-story/index.ts:205-454 | the whole handler ends in the state, response, job writes and prompt `Process` gives |
| ProviderFactory.ProviderName | supabase/functions/generate-story/ai-providers/factory.ts:8 | the name is the lower-cased setting, or "mistral" when unset or empty |
| ProviderFactory.GetAIProvider | supabase/functions/generate-story/ai-providers/factory.ts:6-23 | a provider is returned iff the name is "gemini" and a key is set; gemini without a key is "GEMINI_API_KEY is missing"; any other name is "Unsupported AI Provider: " plus the name |
| ProviderFactory.ProviderNameIgnoresCase | supabase/functions/generate-story/ai-providers/factory.ts:8 | settings that differ only in case select the same provider |
| ProviderFactory.DefaultIsUnsupported | supabase/functions/generate-story/ai-providers/factory.ts:8-22 | with no setting the default "mistral" is rejected as unsupported |
| JobListener.OptionalGet | src/components/JobListener.tsx:37 | an optional property read never raises: it is `undefined` on `null` or `undefined`, and the property otherwise |
| JobListener.Observe | src/components/JobListener.tsx:32-74 | the status becomes the row's status (`null` when absent); an effect only for a completed row; the error is set iff the row failed, to its error or "Job failed"; a completed row with a callback calls it with the result, and without one has an effect iff `result?.story_id` is truthy |
| JobListener.Absorb | src/components/JobListener.tsx:31-42 | an observation always issues its callback or navigation; it sets the status, and the error when the row failed, only on a mounted component |
| JobListener.Render | src/components/JobListener.tsx:83-103 | completed shows the redirect notice, failed shows the error, anything else shows the waiting panel |
| JobListener.CompletedJobOpensStory | src/components/JobListener.tsx:34-39 | without a callback, a completed row whose `result?.story_id` is truthy navigates to `/stories/` followed by that id as text |
| JobListener.CompletedWithoutStoryStays | src/components/JobListener.tsx:37-90 | without a callback, a completed row whose `result?.story_id` is falsy or missing has no effect but still renders as completed |
| JobListener.FailedJobShowsError | src/components/JobListener.tsx:40-97 | a failed row shows its error, or "Job failed" when that is empty |
| JobListener.Listener.constructor | src/components/JobListener.tsx:13-14 | status starts "pending", error null, no effects, not listening and no read in flight |
| JobListener.Listener.Mount | src/components/JobListener.tsx:18-76 | listening starts, and one initial read is started, only for a non-empty job id; the state is kept |
| JobListener.Listener.Unmount | src/components/JobListener.tsx:78-80 | the subscription is removed; a read in flight stays in flight, and the state is kept |
| JobListener.Listener.Apply | src/components/JobListener.tsx:33-74 | one row's observation takes effect through `Absorb`: the callback or navigation always, status and error only while mounted |
| JobListener.Listener.FetchArrived | src/components/JobListener.tsx:22-44 | without a read in flight nothing changes; otherwise the read is consumed, a query error sets only the error message (while mounted), a truthy row goes through `Absorb` (so after unmount it still calls back or navigates, but status and error stay), and a falsy row changes nothing |
| JobListener.Listener.UpdateArrived | src/components/JobListener.tsx:49-76 | while the channel is open a non-null pushed row goes through `Absorb` as a mounted observation; otherwise nothing changes |
| JobHandoff.RowJson | supabase/functions/generate-story/index.ts:309-314 | the job row as the client reads it has status, result and error columns |
| JobHandoff.StartedStoryIsOpened | supabase/functions/generate-story/index.ts:309-314 | a job the worker completes with a new story makes the listener navigate to that story and render as completed |
| JobHandoff.FailedJobShowsWorkerMessage | supabase/functions/generate-story/index.ts:435-443 | a job the worker fails with a message makes the listener show that message |
| MyJourney.CountsAddUp | src/components/MyJourney.tsx:33-34 | completed plus in-progress counts equal the number of stories |
| MyJourney.CountersMatchFilters | src/components/MyJourney.tsx:33-42 | each counter equals the size of its filter's result, and "all" shows every story |
| MyJourney.FilterShowsExactlyMatching | src/components/MyJourney.tsx:37-42 | every filter keeps, in order, exactly the matching stories with their multiplicity; completed and in-progress partition the stories |
| MyJourney.Preview | src/components/MyJourney.tsx:99-101 | a completed story shows its full text, else the first part's content, else "No content available." |
| MyJourney.InProgressIgnoresFullStory | src/components/MyJourney.tsx:101 | a story in progress never shows its full text |
| MyJourney.WithPublished | src/components/MyJourney.tsx:51-53 | the publish toggle keeps the length and every id in place |
| MyJourney.PublishToggleChangesOnlyTheFlag | src/components/MyJourney.tsx:51-53 | only matching stories change, and only in their published flag; counts are kept, and repeating the toggle changes nothing |
| MyJourney.FilterAgreesOnCompletion | src/components/MyJourney.tsx:33 | lists that agree on completion have the same completed count |
| MyJourney.Journey.constructor | src/components/MyJourney.tsx:29-30 | the filter starts at "all" with the given stories |
| MyJourney.Journey.SetFilter | src/components/MyJourney.tsx:29-90 | the filter changes and the stories do not |
| MyJourney.Journey.HandlePublishToggle | src/components/MyJourney.tsx:51-53 | the stories become the toggled list |
| Feed.Cut | src/app/feed/page.tsx:74 | the cut is a prefix of at most 150 characters, and all of a shorter text |
| Feed.PreviewAsWrittenMissesFallback | src/app/feed/page.tsx:74 | as written, a story without text never shows the fallback, and one without parts shows "undefined..." |
| Feed.Preview | src/app/feed/page.tsx:74 | the full text, else the first 150 characters of the first part and "...", else "No preview available." |
| Feed.PreviewAgreesWhenThereIsText | src/app/feed/page.tsx:74 | the intended and the written preview agree whenever there is text |
| Feed.FormatStory | src/app/feed/page.tsx:71-77 | a card keeps the id and genre, has no likes, is not liked, and shows the corrected preview `Feed.Preview`, which equals the page's own preview whenever the story has text |
| Feed.FormatAll | src/app/feed/page.tsx:71-77 | every row is formatted, in order |
| Feed.GenreFilterShowsMatching | src/app/feed/page.tsx:92-98 | "All" shows every story; another genre keeps, in order, exactly the stories of that genre in any case, and never one without a genre |
| Feed.ToggleLike | src/app/feed/page.tsx:113-126 | the like toggle keeps the length |
| Feed.ToggleLikeFlipsOnlyMatching | src/app/feed/page.tsx:113-126 | the matching story's flag flips and its count moves by one towards the new state; other stories are unchanged; a second toggle restores the list |
| Feed.GetGenreImage | src/app/feed/page.tsx:222-233 | the seven genres, matched in lower case, map to their images; anything else gets the default image |
| Feed.FeedPage.constructor | src/app/feed/page.tsx:24-30 | starts loading with no stories, genre "All" and more to load |
| Feed.FeedPage.ApplyGenreFilter | src/app/feed/page.tsx:92-98 | the shown stories become the genre filter of the stories |
| Feed.FeedPage.StoriesFetched | src/app/feed/page.tsx:68-85 | the fetched rows become cards (with the corrected preview); an error keeps the old stories; loading ends |
| Feed.FeedPage.SelectGenre | src/app/feed/page.tsx:92-98 | the genre changes and the shown stories follow |
| Feed.FeedPage.HandleToggleLike | src/app/feed/page.tsx:113-126 | the stories become the toggled list and the shown stories follow |
| Feed.FeedPage.HandleLoadMore | src/app/feed/page.tsx:101-104 | nothing happens while loading or without more; otherwise loading starts |
| Feed.FeedPage.LoadMoreFinished | src/app/feed/page.tsx:106-110 | loading ends and there is never more |
| EditorWords.ExtractWord | src/app/editor/page.tsx:149-156 | a word is extracted only from text ending in exactly one space; it has at least two characters, all word characters |
| EditorWords.ExtractsTyped | src/app/editor/page.tsx:150-156 | typing a word of word characters and one space extracts exactly that word |
| EditorWords.ExtractsLastWord | src/app/editor/page.tsx:150-156 | the same for the last word after a space |
| EditorWords.OnlyASingleTrailingSpaceTriggers | src/app/editor/page.tsx:154 | text that does not end in exactly one space extracts nothing |
| Editor.CollectedIsTheSet | src/app/editor/page.tsx:121-136 | the collected words have no repeats and are exactly the offered words not equal to the query in any case |
| Editor.CollectedKeepsOrder | src/app/editor/page.tsx:121-136 | later offers only add words after the ones collected so far, as a set keeps insertion order |
| Editor.AddAllConcat | src/app/editor/page.tsx:124-136 | adding two lists in turn equals adding their concatenation |
| Editor.Take4 | src/app/editor/page.tsx:139 | the first four words, or all when there are fewer |
| Editor.FallbackAtMostFour | src/app/editor/page.tsx:11-26 | every fallback list has at most four words |
| Editor.LookupAtMostFour | src/app/editor/page.tsx:115-147 | a lookup yields at most four synonyms and four antonyms |
| Editor.DictionaryWordsWin | src/app/editor/page.tsx:124-140 | when the dictionary offers any other word, the result is the first four distinct words it offered, none of them the query |
| Editor.FirstFourOfCollected | src/app/editor/page.tsx:139 | the first four collected words are distinct, offered and not the query |
| Editor.NothingOfferedFallsBack | src/app/editor/page.tsx:138-146 | when the dictionary fails or offers nothing new, the result is the fallback entry for the lower-cased word, or empty lists |
| Editor.AddEach | src/app/editor/page.tsx:127-133 | the loop adds exactly the words a set would |
| Editor.AddMeaning | src/app/editor/page.tsx:125-135 | one meaning's loops add the words `MeaningWords` collects, skipping the queried word and repeats |
| Editor.AddDefinitions | src/app/editor/page.tsx:131-134 | the definitions loop adds the words `DefinitionsWords` collects, skipping the queried word and repeats |
| Editor.AddEntry | src/app/editor/page.tsx:124-136 | one entry's loops add the words `MeaningsWords` collects from its meanings, skipping the queried word and repeats |
| Editor.CollectEntries | src/app/editor/page.tsx:121-136 | the nested loops collect the words `EntriesWords` lists, as `Collected` keeps them |
| Editor.GetWords | src/app/editor/page.tsx:115-147 | the imperative lookup returns what `Lookup` gives |
| Editor.Schedule | src/app/editor/page.tsx:164-165 | one appearance per synonym and antonym |
| Editor.AntonymsAfterSynonyms | src/app/editor/page.tsx:164-165 | every antonym appears after every synonym, at least 200 ms per synonym later, and each kind appears in order |
| Editor.ScheduleWords | src/app/editor/page.tsx:164-165 | the timer loops schedule exactly the specified appearances |
| Editor.LookUpAndSchedule | src/app/editor/page.tsx:162-165 | the timers are the schedule of the lookup |
| Editor.StartPositions | src/app/editor/page.tsx:80-92 | the position table repeats every four words, and synonyms start above antonyms |
| Editor.ProcessRule | src/app/editor/page.tsx:149-166 | a lookup happens iff a word is extracted whose lower case is not remembered; it is then remembered and scheduled; otherwise nothing changes |
| Editor.SecondTimeIsIgnored | src/app/editor/page.tsx:157 | the same input again is ignored |
| Editor.CaseDoesNotMatter | src/app/editor/page.tsx:157-159 | a word differing only in case from one just looked up is ignored |
| Editor.FilterKeepsIncreasing | src/app/editor/page.tsx:74-111 | removing a word keeps the ids increasing |
| Editor.EditorPage.constructor | src/app/editor/page.tsx:40-65 | nothing remembered, counter 0, no words on screen |
| Editor.EditorPage.ProcessInput | src/app/editor/page.tsx:149-166 | the remembered set, lookup and timers are those `Process` gives for the text |
| Editor.EditorPage.RememberWord | src/app/editor/page.tsx:156-165 | the remembered set, lookup and timers are those `ProcessWord` gives for an already extracted word |
| Editor.EditorPage.ForgetWord | src/app/editor/page.tsx:160 | the timer forgets only that word |
| Editor.EditorPage.CreateAnimatedWord | src/app/editor/page.tsx:73-107 | the id is the counter plus one, and the word is appended at its table position |
| Editor.EditorPage.RemoveAnimatedWord | src/app/editor/page.tsx:110-112 | only words with that id are removed |
| Countdown.JsRem | src/components/ComingSoon.tsx:39-44 | JavaScript's remainder: the ordinary one for a non-negative dividend, and between minus the divisor and 0 otherwise |
| Countdown.FloorDiv | src/components/ComingSoon.tsx:39-44 | the floor quotient brackets the dividend |
| Countdown.Split | src/components/ComingSoon.tsx:38-45 | for time left, hours are below 24 and minutes and seconds below 60; after the date all parts are at most 0 |
| Countdown.SplitReassembles | src/components/ComingSoon.tsx:38-45 | days, hours, minutes, seconds and leftover milliseconds add up to the time left |
| Countdown.DaysNeverIncrease | src/components/ComingSoon.tsx:39 | the day count never goes up as time passes |
| Countdown.Display | src/components/ComingSoon.tsx:128 | the display has at least two characters |
| Countdown.DisplayPads | src/components/ComingSoon.tsx:128 | values below ten get one leading zero; larger ones are shown as they are |
| SplitHero.InitialIsValid | src/components/SplitHero.tsx:58-61 | the shown text starts as a prefix of the story |
| SplitHero.StepKeepsPrefix | src/components/SplitHero.tsx:104-129 | every step keeps the shown text a prefix of the current story |
| SplitHero.FetchKeepsPrefix | src/components/SplitHero.tsx:64-82 | a fetched story is one of the four phrases, waiting ends, and the prefix rule holds |
| SplitHero.StepLengths | src/components/SplitHero.tsx:109-121 | typing adds exactly one character without passing the story, and deleting removes exactly one |
| SplitHero.StepTransitions | src/components/SplitHero.tsx:113-125 | fully typed text turns to deleting; emptied text stops deleting and fetches |
| SplitHero.WaitingChangesNothing | src/components/SplitHero.tsx:106 | nothing happens while waiting for the next story |
| SplitHero.TypingShowsPrefix | src/components/SplitHero.tsx:118-121 | after n typing steps the first n characters are shown |
| SplitHero.RemovingANewBlotRestores | src/components/SplitHero.tsx:48-54 | removing a new blot by its id restores the earlier list |
| SplitHero.Hero.constructor | src/components/SplitHero.tsx:40-61 | the initial typewriter state with no blots |
| SplitHero.Hero.Tick | src/components/SplitHero.tsx:104-129 | one effect run moves the state as the step function says |
| SplitHero.Hero.FetchDone | src/components/SplitHero.tsx:74-81 | the fetched phrase is installed as the step function says |
| SplitHero.Hero.AddInkBlot | src/components/SplitHero.tsx:48-49 | one blot is appended |
| SplitHero.Hero.RemoveInkBlot | src/components/SplitHero.tsx:52-54 | only blots with that id are removed |
| Sentences.NextIndex | src/app/sentences/page.tsx:50-57 | the last index wraps to 0, any other advances by one, and the result stays in range |
| Sentences.PrevIndex | src/app/sentences/page.tsx:59-63 | index 0 stays, any other goes back by one |
| Sentences.DragTarget | src/app/sentences/page.tsx:40-48 | an upward drag past 100 goes next, a downward one goes back, anything within 100 stays |
| Sentences.NextTimes | src/app/sentences/page.tsx:50-57 | repeated next stays in range |
| Sentences.NextTimesWraps | src/app/sentences/page.tsx:50-57 | k steps forward land at the start plus k, modulo the count |
| Sentences.FullRoundReturns | src/app/sentences/page.tsx:50-57 | as many steps as sentences return to the start |
| Sentences.Carousel.constructor | src/app/sentences/page.tsx:10-33 | starts at the first sentence |
| Sentences.Carousel.NextSentence | src/app/sentences/page.tsx:50-57 | the index follows the next rule |
| Sentences.Carousel.PrevSentence | src/app/sentences/page.tsx:59-63 | the index follows the previous rule |
| Sentences.Carousel.HandleDragEnd | src/app/sentences/page.tsx:40-48 | the index follows the drag rule |
| Signup.Change | src/app/signup/page.tsx:38-40 | the named field gets the value and every other field is kept |
| Signup.ValidateCases | src/app/signup/page.tsx:42-50 | a mismatch is reported whatever the length; matching passwords are too short iff under 8 characters; the form is valid iff they match and have at least 8 |
| Signup.InvalidFormIsNotSent | src/app/signup/page.tsx:57-62 | an invalid form shows its error and is not sent |
| Signup.ValidFormIsSent | src/app/signup/page.tsx:64-87 | a valid form is sent; it redirects iff accepted; a rejection shows a non-empty message |
| Signup.SignupPage.constructor | src/app/signup/page.tsx:10-33 | the empty form with English as native language, not loading, no error |
| Signup.SignupPage.HandleChange | src/app/signup/page.tsx:38-40 | the form follows the change rule |
| Signup.SignupPage.HandleSignup | src/app/signup/page.tsx:52-88 | error, attempt and redirect are those `Submit` gives; loading ends |
| Toast.Without | src/context/ToastContext.tsx:28-33 | removal keeps the other toasts in order and drops every toast with that id |
| Toast.RemovingAnAbsentIdChangesNothing | src/context/ToastContext.tsx:32-34 | removing an absent id leaves the list unchanged |
| Toast.RemovingKeepsOthers | src/context/ToastContext.tsx:32-34 | every other toast keeps its multiplicity |
| Toast.TimerRemovesOnlyItsToast | src/context/ToastContext.tsx:26-29 | the scheduled removal takes away exactly the toast it added |
| Toast.ToastProvider.constructor | src/context/ToastContext.tsx:22 | no toasts |
| Toast.ToastProvider.ShowToast | src/context/ToastContext.tsx:24-26 | one toast is appended with the message and the type, which defaults to info |
| Toast.ToastProvider.RemoveToast | src/context/ToastContext.tsx:32-34 | the list loses exactly the toasts with that id |
| Toast.UseToast | src/context/ToastContext.tsx:79-85 | outside a provider this is the error message; inside, the provider |
| AppLayout.FrameParts | src/components/AppLayout.tsx:12-41 | the sidebar iff signed in on a non-public path; navbar and footer iff the path is public; never sidebar and navbar together |
| AppLayout.MainPadding | src/components/AppLayout.tsx:50 | the three padding classes, each exactly in its case |
| AppLayout.SubPathsAreNotPublic | src/components/AppLayout.tsx:32 | a sub-path of a public path is not public |
| AppLayout.NavbarLinksByUser | src/components/AppLayout.tsx:80-116 | Dashboard and Sign Out with a user, Log In and Sign Up without |
| FooterWrapper.ListedPages | src/components/FooterWrapper.tsx:12-14 | /payment has the footer, /login and /signup do not |
| FooterWrapper.SubPathsHaveNoFooter | src/components/FooterWrapper.tsx:14-18 | matching is exact, so a sub-path of a listed page has no footer |
| StoryPartItem.LogOrActiveChoices | src/components/story/StoryPartItem.tsx:75-144 | the decision log and the active choices never show together; one shows iff there are choices; active choices only on the last part |
| StoryPartItem.CollapsedLabel | src/components/story/StoryPartItem.tsx:90-92 | the collapsed label is never empty |
| StoryPartItem.CollapsedLabelOrder | src/components/story/StoryPartItem.tsx:90-92 | the selected choice, else the custom input, else "Custom Input" |
| StoryPartItem.CustomRowMeansNoSuggestionWasPicked | src/components/story/StoryPartItem.tsx:106-132 | when the custom row shows, any marked suggestion is marked only because it equals the custom input |
| StoryPartItem.PickedSuggestionIsMarked | src/components/story/StoryPartItem.tsx:31-132 | a picked suggestion is marked, exactly where it occurs, and no custom row shows |
| StoryPartItem.ActiveChoicesProps | src/components/story/StoryPartItem.tsx:146-151 | the choices are loading and disabled exactly while generating |
| StoryPartItem.PartItem.constructor | src/components/story/StoryPartItem.tsx:30 | the log starts closed |
| StoryPartItem.PartItem.ToggleHistory | src/components/story/StoryPartItem.tsx:80 | the log flips |
| StoryPartItem.PartItem.ShownLabel | src/components/story/StoryPartItem.tsx:88-94 | the label shows exactly while the log is closed |
| StoryChoices.ThemesRepeat | src/components/StoryChoices.tsx:103 | the card themes repeat every three cards in the order red, amber, cyan |
| StoryChoices.AutoOpenRule | src/components/StoryChoices.tsx:22-28 | the panel opens iff enabled with choices, and nothing else changes |
| StoryChoices.ClickRule | src/components/StoryChoices.tsx:30-34 | a click selects iff neither loading nor disabled, then records the index and sends the choice as "ai"; otherwise nothing changes |
| StoryChoices.ClickedCardIsBusy | src/components/StoryChoices.tsx:30-116 | after a click, only the clicked card shows as busy |
| StoryChoices.SubmitRule | src/components/StoryChoices.tsx:36-184 | a custom submit is sent iff the button is enabled and the panel is not disabled, and it sends the untrimmed text as "custom" |
| StoryChoices.ChoicesPanel.constructor | src/components/StoryChoices.tsx:17-28 | the initial state after the auto-open effect |
| StoryChoices.ChoicesPanel.Rerender | src/components/StoryChoices.tsx:22-28 | the effect runs again only when disabled or the number of choices changes |
| StoryChoices.ChoicesPanel.Toggle | src/components/StoryChoices.tsx:47-48 | the panel flips |
| StoryChoices.ChoicesPanel.Type | src/components/StoryChoices.tsx:158-184 | only the input changes |
| StoryChoices.ChoicesPanel.HandleChoiceClick | src/components/StoryChoices.tsx:30-34 | follows the click rule |
| StoryChoices.ChoicesPanel.HandleCustomSubmit | src/components/StoryChoices.tsx:36-40 | follows the submit rule |
| StoryControls.SendingRules | src/components/story/StoryControls.tsx:20-37 | Enter sends iff Send is enabled; blank input disables Send; generating disables everything and shows "AI is writing..." |
| StoryBrancher.ExpandAndClose | src/components/StoryBrancher.tsx:17-25 | expanding keeps the text; closing collapses and clears it |
| StoryBrancher.SubmitRule | src/components/StoryBrancher.tsx:27-126 | a branch is sent iff the button is enabled; it sends the text as typed and closes; otherwise nothing changes; blank text never branches |
| StoryBrancher.ChoiceRule | src/components/StoryBrancher.tsx:34-37 | a choice click branches with that choice and closes |
| StoryBrancher.BranchPanel.constructor | src/components/StoryBrancher.tsx:13-15 | closed, empty, choices defaulting to none |
| StoryBrancher.BranchPanel.HandleExpand | src/components/StoryBrancher.tsx:17-19 | follows the expand rule |
| StoryBrancher.BranchPanel.HandleClose | src/components/StoryBrancher.tsx:21-25 | follows the close rule |
| StoryBrancher.BranchPanel.Type | src/components/StoryBrancher.tsx:15 | only the text changes |
| StoryBrancher.BranchPanel.HandleSubmit | src/components/StoryBrancher.tsx:27-32 | follows the submit rule |
| StoryBrancher.BranchPanel.HandleChoiceClick | src/components/StoryBrancher.tsx:34-37 | follows the choice rule |
| PublishButton.InitialState | src/components/StoryPublishButton.tsx:18-20 | the flag starts at the given value, not loading |
| PublishButton.ClickWhileLoadingIsIgnored | src/components/StoryPublishButton.tsx:24-48 | a click while loading changes nothing; otherwise the request starts with the flag unchanged |
| PublishButton.SuccessSetsTheFlag | src/components/StoryPublishButton.tsx:33-60 | success sets the flag to the request, calls back iff a callback exists, with the new flag; unpublishing closes the modal |
| PublishButton.ErrorChangesNothing | src/components/StoryPublishButton.tsx:38-64 | a store error keeps the flag and modal, makes no callback, and shows an error toast |
| PublishButton.FinishEndsLoading | src/components/StoryPublishButton.tsx:41-66 | loading is false after every attempt |
| PublishButton.PublishButton.constructor | src/components/StoryPublishButton.tsx:18-20 | the initial state |
| PublishButton.PublishButton.SetShowModal | src/components/StoryPublishButton.tsx:73 | only the modal flag changes |
| PublishButton.PublishButton.HandleClick | src/components/StoryPublishButton.tsx:24-48 | follows the click rule |
| PublishButton.PublishButton.StoreAnswered | src/components/StoryPublishButton.tsx:27-66 | follows the answer rule |
| CreateStory.LevelTable | src/app/create/page.tsx:84-121 | six levels valued 1 to 6, captioned A1, A2, B1, B2, C1, C2 |
| CreateStory.DefaultsToFantasyAtA1 | src/app/create/page.tsx:124-127 | the page starts at fantasy and the A1 level |
| CreateStory.JobParams | src/app/create/page.tsx:156-166 | the parameters have exactly genre, language, goal, lesson, level and level_label |
| CreateStory.SignedOutRedirects | src/app/create/page.tsx:146-149 | without a user nothing is inserted and the page goes to /login |
| CreateStory.SignedInInsertsTheJob | src/app/create/page.tsx:152-167 | with a user, a pending generate_start job is inserted for that user with the selected genre and level |
| CreateStory.InsertErrorResets | src/app/create/page.tsx:169-180 | an insert error ends loading, keeps the job id and alerts |
| CreateStory.InsertedShowsListener | src/app/create/page.tsx:171-189 | a returned id replaces the form with the listener while loading stays on |
| CreateStory.WorkerReadsTheForm | src/app/create/page.tsx:156-166 | the worker reads back the form's genre, language, goal, lesson, level and caption, and prompts for "Level" plus the caption |
| CreateStory.CreatePage.constructor | src/app/create/page.tsx:124-127 | the initial page |
| CreateStory.CreatePage.SelectGenre | src/app/create/page.tsx:222 | only the genre changes |
| CreateStory.CreatePage.SetDifficulty | src/app/create/page.tsx:346-354 | only the level index changes |
| CreateStory.CreatePage.HandleSubmit | src/app/create/page.tsx:132-181 | the page, insert, redirect and alert are those `Submit` gives |

## Left out

- Network and database I/O are not modelled as such: Supabase queries and inserts, realtime
  channels, auth, `fetch` to the generator and the dictionary, and router pushes. They
  appear as store state, reply inputs and emitted effects. Row order of query results and
  column type coercion are not modelled; a story's rows are found by position.
- Concurrency and timing: timers, debounce, intervals and the race between the listener's
  fetch and its push event are explicit steps in any order the caller chooses.
- Clocks: the jobs row's `updated_at` timestamp, written as `new Date().toISOString()` at
  supabase/functions/generate-story/index.ts:413, is not modelled; a job row has no
  timestamp.
- Randomness: random phrases and ink-blot ids are parameters, and toast ids are taken to be
  unique. The editor's drift, rotation and typing-speed jitter are left out, as are
  floating-point mouse tilt, spring physics and 3D effects.
- Text: lower case is ASCII only, and lengths count code points rather than UTF-16 units.
- Numbers: job and story ids are integers; fractional JSON numbers are not modelled.
- Object keys: JSON objects are maps, so keys inherited from `Object.prototype` are not
  modelled.
- The listener's effect re-running when `jobId` changes is not modelled; a new listener is
  built instead.
- `supabase/functions/generate-story/ai-providers/gemini.ts` and `base.ts` are not part
  of this model; the handler uses its own `GeminiProvider` class in index.ts, which is
  modelled.
- Prompt prose is not modelled; only which rules are included and what they quote is.
- SplitHero's `catch` branch is not modelled: the fixed phrase list cannot throw.
- The editor's `handleSave`, title, modal and metadata form are not modelled.
- StoryPartItem: a `suggested_choices` value that is not an array is not modelled; choices
  are a sequence of JSON values.
- Signup.Change: `handleChange` with a field name outside the form is not modelled; fields
  are an enumeration.
- Icons, classes and markup are not modelled, except where a condition chooses what is
  shown.
- Feed.FormatStory: the cards show the corrected preview `Feed.Preview`, not the page's
  expression as written (`Feed.PreviewAsWritten`); the two differ only for a story with no
  text and no non-empty first part, as recorded under Findings.
- JobListener.Listener: React's warning about a state update on an unmounted component is
  not modelled; such an update simply changes nothing.
- Editor.FallbackAtMostFour: the promise that a fallback list never contains the queried
  word itself is not stated for the fallback table; it is stated only for dictionary
  results (Editor.DictionaryWordsWin).
- CreateStory.Submit: the form's language, goal and lesson are plain strings, so a
  missing form field (`null` from `FormData.get`) is not modelled.
- CreateStory.CreatePage.SetDifficulty: the slider's range 0 to 5 is taken as given; a
  `parseInt` of anything else is not modelled.
- Static pages, the sidebar, modals, local storage preferences, the payment webhook and the
  vocabulary upsert are not part of this model.

## Findings

| source | as written | input that shows it | evidently intended | confidence | as-written member | corrected member |
|---|---|---|---|---|---|---|
| src/app/feed/page.tsx:74 | `+ '...'` binds before `\|\|`, so the "No preview available." fallback can never be chosen | a published story with no `full_story` and no parts shows "undefined..." | the first part's first 150 characters with "...", else "No preview available." | not executed | Feed.PreviewAsWrittenMissesFallback | Feed.Preview |
