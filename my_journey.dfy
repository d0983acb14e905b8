/** The "My Journey" page: a reader's stories with their completion and publication counts,
    a filter over them, a preview for each card, and the publication flag the publish
    button reports back. */
module MyJourney {
  import opened Lists

  datatype JourneyStory = JourneyStory(
    id: int, isCompleted: bool, isPublished: bool,
    fullStory: string,        // "" when the column is null
    partContents: seq<string> // the `content` of each of `story_parts`
  )

  datatype StoryFilter = All | CompletedOnly | InProgress | PublishedOnly

  /** The predicate of the filter's `stories.filter` callback. */
  function Keeps(f: StoryFilter): JourneyStory -> bool {
    match f
    case All => (s: JourneyStory) => true
    case CompletedOnly => (s: JourneyStory) => s.isCompleted
    case InProgress => (s: JourneyStory) => !s.isCompleted
    case PublishedOnly => (s: JourneyStory) => s.isPublished
  }

  function Filtered(stories: seq<JourneyStory>, f: StoryFilter): seq<JourneyStory> {
    Filter(stories, Keeps(f))
  }

  /** The three counters in the header; the total is `stories.length`. */
  function CompletedCount(stories: seq<JourneyStory>): nat { |Filter(stories, (s: JourneyStory) => s.isCompleted)| }
  function InProgressCount(stories: seq<JourneyStory>): nat { |Filter(stories, (s: JourneyStory) => !s.isCompleted)| }
  function PublishedCount(stories: seq<JourneyStory>): nat { |Filter(stories, (s: JourneyStory) => s.isPublished)| }

  /** Every story is either completed or in progress. */
  lemma CountsAddUp(stories: seq<JourneyStory>)
    ensures CompletedCount(stories) + InProgressCount(stories) == |stories|
  {
    FilterSplits(stories, (s: JourneyStory) => s.isCompleted, (s: JourneyStory) => !s.isCompleted);
  }

  /** Each counter is the number of cards its filter shows. */
  lemma CountersMatchFilters(stories: seq<JourneyStory>)
    ensures |Filtered(stories, CompletedOnly)| == CompletedCount(stories)
    ensures |Filtered(stories, InProgress)| == InProgressCount(stories)
    ensures |Filtered(stories, PublishedOnly)| == PublishedCount(stories)
    ensures |Filtered(stories, All)| == |stories|
  {
    FilterAgrees(stories, Keeps(CompletedOnly), (s: JourneyStory) => s.isCompleted);
    FilterAgrees(stories, Keeps(InProgress), (s: JourneyStory) => !s.isCompleted);
    FilterAgrees(stories, Keeps(PublishedOnly), (s: JourneyStory) => s.isPublished);
    FilterKeepsAll(stories, Keeps(All));
  }

  /** What a filter shows: the stories that satisfy it, each as often as it occurs, in the
      order of the list; "all" shows the whole list, and "completed" and "in progress"
      together show every story exactly once. */
  lemma FilterShowsExactlyMatching(stories: seq<JourneyStory>, f: StoryFilter, x: JourneyStory)
    ensures IsSubsequence(Filtered(stories, f), stories)
    ensures multiset(Filtered(stories, f))[x] == if Keeps(f)(x) then multiset(stories)[x] else 0
    ensures Filtered(stories, All) == stories
    ensures multiset(Filtered(stories, CompletedOnly))[x] + multiset(Filtered(stories, InProgress))[x]
            == multiset(stories)[x]
  {
    FilterIsSubsequence(stories, Keeps(f));
    FilterCounts(stories, Keeps(f), x);
    FilterKeepsAll(stories, Keeps(All));
    FilterCounts(stories, Keeps(CompletedOnly), x);
    FilterCounts(stories, Keeps(InProgress), x);
  }

  /** The card text: a completed story shows its full text, else its first part, else a
      placeholder; a story in progress shows its first part or the placeholder. */
  function Preview(s: JourneyStory): (r: string)
    ensures s.isCompleted && s.fullStory != "" ==> r == s.fullStory
    ensures (!s.isCompleted || s.fullStory == "") && |s.partContents| > 0 && s.partContents[0] != "" ==> r == s.partContents[0]
    ensures (!s.isCompleted || s.fullStory == "") && (|s.partContents| == 0 || s.partContents[0] == "") ==>
              r == "No content available."
  {
    if s.isCompleted && s.fullStory != "" then s.fullStory
    else if |s.partContents| > 0 && s.partContents[0] != "" then s.partContents[0]
    else "No content available."
  }

  /** A story in progress never shows its accumulated text. */
  lemma InProgressIgnoresFullStory(s: JourneyStory, text: string)
    requires !s.isCompleted
    ensures Preview(s.(fullStory := text)) == Preview(s)
  {
  }

  /** `handlePublishToggle`: the stories with that id get the new flag. */
  function WithPublished(stories: seq<JourneyStory>, storyId: int, isPublished: bool): (r: seq<JourneyStory>)
    ensures |r| == |stories|
    ensures forall i :: 0 <= i < |r| ==> r[i].id == stories[i].id
  {
    seq(|stories|, i requires 0 <= i < |stories| =>
      if stories[i].id == storyId then stories[i].(isPublished := isPublished) else stories[i])
  }

  /** Only the flag of the matching story changes: completion counts stay, the matching
      story reads back the new flag, every other story is untouched, and reporting the same
      flag twice is the same as once. */
  lemma PublishToggleChangesOnlyTheFlag(stories: seq<JourneyStory>, storyId: int, isPublished: bool)
    ensures var r := WithPublished(stories, storyId, isPublished);
      && (forall i :: 0 <= i < |r| && stories[i].id == storyId ==>
            r[i].isPublished == isPublished && r[i].(isPublished := stories[i].isPublished) == stories[i])
      && (forall i :: 0 <= i < |r| && stories[i].id != storyId ==> r[i] == stories[i])
      && CompletedCount(r) == CompletedCount(stories)
      && WithPublished(r, storyId, isPublished) == r
  {
    var r := WithPublished(stories, storyId, isPublished);
    FilterAgreesOnCompletion(stories, r);
  }

  lemma {:induction false} FilterAgreesOnCompletion(a: seq<JourneyStory>, b: seq<JourneyStory>)
    requires |a| == |b| && forall i :: 0 <= i < |a| ==> a[i].isCompleted == b[i].isCompleted
    ensures CompletedCount(a) == CompletedCount(b)
    decreases |a|
  {
    if a != [] {
      FilterAgreesOnCompletion(a[1..], b[1..]);
    }
  }

  /** The page's state. */
  class Journey {
    var filter: StoryFilter
    var stories: seq<JourneyStory>

    constructor(initialStories: seq<JourneyStory>)
      ensures filter == All && stories == initialStories
    {
      filter := All;
      stories := initialStories;
    }

    /** The cards on screen. */
    function Shown(): seq<JourneyStory>
      reads this
    {
      Filtered(stories, filter)
    }

    /** A click on one of the four counters. */
    method SetFilter(f: StoryFilter)
      modifies this
      ensures filter == f && stories == old(stories)
    {
      filter := f;
    }

    method HandlePublishToggle(storyId: int, isPublished: bool)
      modifies this
      ensures stories == WithPublished(old(stories), storyId, isPublished)
      ensures filter == old(filter)
    {
      stories := WithPublished(stories, storyId, isPublished);
    }
  }
}
