/** The public feed: published stories formatted into cards, a genre filter, an optimistic
    like toggle, a stand-in "load more", and the genre artwork lookup. */
module Feed {
  import opened Wrappers
  import opened Text
  import opened Lists

  /** A published story as the query returns it. `firstPart` is the content of its first
      part, `None` when it has no parts or the content is null. */
  datatype StoryRecord = StoryRecord(id: string, genre: Option<string>, fullStory: Option<string>, firstPart: Option<string>)

  datatype FeedStory = FeedStory(id: string, genre: Option<string>, likes: int, likedByUser: bool, contentPreview: string)

  const PreviewLength := 150
  const NoPreview := "No preview available."

  /** `substring(0, 150)`. */
  function Cut(s: string): (r: string)
    ensures |r| <= PreviewLength && |r| <= |s| && r == s[..|r|]
    ensures |s| <= PreviewLength ==> r == s
  {
    if |s| <= PreviewLength then s else s[..PreviewLength]
  }

  function Truthy(s: Option<string>): bool { s.Some? && s.value != "" }

  /** The preview expression as the page writes it: the `+ '...'` binds before the `||`,
      so a story without a first part shows "undefined..." and the fallback is never used. */
  function PreviewAsWritten(r: StoryRecord): string {
    if Truthy(r.fullStory) then r.fullStory.value
    else
      var cut := if r.firstPart.Some? then Cut(r.firstPart.value) else "undefined";
      var joined := cut + "...";
      if joined != "" then joined else NoPreview
  }

  /** Without text the as-written preview is never the fallback, and with no parts at all
      it is the word "undefined". */
  lemma PreviewAsWrittenMissesFallback(r: StoryRecord)
    requires !Truthy(r.fullStory)
    ensures PreviewAsWritten(r) != NoPreview
    ensures r.firstPart.None? ==> PreviewAsWritten(r) == "undefined..."
  {
    var p := PreviewAsWritten(r);
    assert p[|p| - 1] == '.' && p[|p| - 2] == '.' && p[|p| - 3] == '.';
    assert NoPreview[|NoPreview| - 2] != '.';
  }

  /** The preview the page means: the full text, else the first 150 characters of the first
      part followed by "...", else the fallback. */
  function Preview(r: StoryRecord): (p: string)
    ensures Truthy(r.fullStory) ==> p == r.fullStory.value
    ensures !Truthy(r.fullStory) && Truthy(r.firstPart) ==>
              p == Cut(r.firstPart.value) + "..." && IsPrefix(Cut(r.firstPart.value), r.firstPart.value)
    ensures !Truthy(r.fullStory) && !Truthy(r.firstPart) ==> p == NoPreview
  {
    if Truthy(r.fullStory) then r.fullStory.value
    else if Truthy(r.firstPart) then Cut(r.firstPart.value) + "..."
    else NoPreview
  }

  predicate IsPrefix(a: string, b: string) { |a| <= |b| && b[..|a|] == a }

  /** The two agree whenever the story has text or a non-empty first part. */
  lemma PreviewAgreesWhenThereIsText(r: StoryRecord)
    requires Truthy(r.fullStory) || Truthy(r.firstPart)
    ensures Preview(r) == PreviewAsWritten(r)
  {
  }

  /** The card for a story: no likes yet, not liked. It shows the intended preview, which
      is the page's own whenever the story has some text. */
  function FormatStory(r: StoryRecord): (s: FeedStory)
    ensures s.id == r.id && s.genre == r.genre
    ensures s.likes == 0 && !s.likedByUser
    ensures s.contentPreview == Preview(r)
    ensures Truthy(r.fullStory) || Truthy(r.firstPart) ==> s.contentPreview == PreviewAsWritten(r)
  {
    FeedStory(r.id, r.genre, 0, false, Preview(r))
  }

  function FormatAll(rows: seq<StoryRecord>): (r: seq<FeedStory>)
    ensures |r| == |rows| && forall i :: 0 <= i < |rows| ==> r[i] == FormatStory(rows[i])
  {
    seq(|rows|, i requires 0 <= i < |rows| => FormatStory(rows[i]))
  }

  /** The genre filter's predicate: the story's genre equals the selection, ignoring case. */
  function MatchesGenre(genre: string): FeedStory -> bool {
    (s: FeedStory) => s.genre.Some? && Lower(s.genre.value) == Lower(genre)
  }

  function GenreFilter(stories: seq<FeedStory>, selected: string): seq<FeedStory> {
    if selected == "All" then stories else Filter(stories, MatchesGenre(selected))
  }

  /** "All" shows every story; another genre shows, in order, exactly the stories of that
      genre in any case, each as often as it occurs, and never a story without a genre. */
  lemma GenreFilterShowsMatching(stories: seq<FeedStory>, selected: string, x: FeedStory)
    ensures selected == "All" ==> GenreFilter(stories, selected) == stories
    ensures IsSubsequence(GenreFilter(stories, selected), stories)
    ensures selected != "All" ==>
      multiset(GenreFilter(stories, selected))[x] ==
        if x.genre.Some? && Lower(x.genre.value) == Lower(selected) then multiset(stories)[x] else 0
    ensures selected != "All" && x.genre.None? ==> x !in GenreFilter(stories, selected)
  {
    if selected != "All" {
      FilterIsSubsequence(stories, MatchesGenre(selected));
      FilterCounts(stories, MatchesGenre(selected), x);
    } else {
      SubsequenceOfItself(stories);
    }
  }

  lemma {:induction false} SubsequenceOfItself(s: seq<FeedStory>)
    ensures IsSubsequence(s, s)
    decreases |s|
  {
    if s != [] {
      SubsequenceOfItself(s[1..]);
    }
  }

  /** The optimistic like update on the stories with that id. */
  function ToggleLike(stories: seq<FeedStory>, id: string): (r: seq<FeedStory>)
    ensures |r| == |stories|
  {
    seq(|stories|, i requires 0 <= i < |stories| =>
      var s := stories[i];
      if s.id == id then s.(likedByUser := !s.likedByUser, likes := if s.likedByUser then s.likes - 1 else s.likes + 1)
      else s)
  }

  /** A like flips the flag and moves the count by one towards the new state, on the
      matching story only; a second toggle undoes the first. */
  lemma ToggleLikeFlipsOnlyMatching(stories: seq<FeedStory>, id: string)
    ensures var r := ToggleLike(stories, id);
      && (forall i :: 0 <= i < |r| && stories[i].id == id ==>
            && r[i].likedByUser == !stories[i].likedByUser
            && r[i].likes == stories[i].likes + (if r[i].likedByUser then 1 else -1)
            && r[i].(likes := stories[i].likes, likedByUser := stories[i].likedByUser) == stories[i])
      && (forall i :: 0 <= i < |r| && stories[i].id != id ==> r[i] == stories[i])
      && ToggleLike(r, id) == stories
  {
  }

  /** `getGenreImage`: the artwork for a genre, matched in lower case, with a default. */
  const GenreImages: map<string, string> := map[
    "fantasy" := "/img/fantasy.jpg", "mystery" := "/img/mystery.jpg", "romance" := "/img/romance.jpg",
    "sci-fi" := "/img/sci-fi.jpg", "horror" := "/img/horror.jpg", "adventure" := "/img/adventure.jpg",
    "custom" := "/img/custom.jpg"]

  const DefaultImage := "/img/Mockup_img.png"

  function GetGenreImage(genre: Option<string>): (path: string)
    ensures genre.Some? && Lower(genre.value) in GenreImages ==> path == GenreImages[Lower(genre.value)]
    ensures genre.None? || Lower(genre.value) !in GenreImages ==> path == DefaultImage
  {
    if genre.Some? && Lower(genre.value) in GenreImages then GenreImages[Lower(genre.value)] else DefaultImage
  }

  /** The page's state, with the filter effect run after every change it depends on. */
  class FeedPage {
    var stories: seq<FeedStory>
    var filteredStories: seq<FeedStory>
    var loading: bool
    var selectedGenre: string
    var hasMore: bool
    var loadingMore: bool

    /** The filter effect has caught up. */
    predicate Valid()
      reads this
    {
      filteredStories == GenreFilter(stories, selectedGenre)
    }

    constructor()
      ensures Valid()
      ensures stories == [] && loading && selectedGenre == "All" && hasMore && !loadingMore
    {
      stories := [];
      filteredStories := [];
      loading := true;
      selectedGenre := "All";
      hasMore := true;
      loadingMore := false;
    }

    method ApplyGenreFilter()
      modifies this
      ensures Valid()
      ensures stories == old(stories) && selectedGenre == old(selectedGenre)
      ensures loading == old(loading) && hasMore == old(hasMore) && loadingMore == old(loadingMore)
    {
      if selectedGenre == "All" {
        filteredStories := stories;
      } else {
        filteredStories := Filter(stories, MatchesGenre(selectedGenre));
      }
    }

    /** The initial query's answer: its rows as cards, or (on an error) nothing new. */
    method StoriesFetched(rows: Result<seq<StoryRecord>, string>)
      requires Valid()
      modifies this
      ensures Valid() && !loading
      ensures rows.Success? ==> stories == FormatAll(rows.value)
      ensures rows.Failure? ==> stories == old(stories)
      ensures selectedGenre == old(selectedGenre) && hasMore == old(hasMore) && loadingMore == old(loadingMore)
    {
      if rows.Success? {
        stories := FormatAll(rows.value);
        filteredStories := stories;
        ApplyGenreFilter();
      }
      loading := false;
    }

    method SelectGenre(genre: string)
      modifies this
      ensures Valid() && selectedGenre == genre && stories == old(stories)
      ensures loading == old(loading) && hasMore == old(hasMore) && loadingMore == old(loadingMore)
    {
      selectedGenre := genre;
      ApplyGenreFilter();
    }

    method HandleToggleLike(id: string)
      modifies this
      ensures Valid() && stories == ToggleLike(old(stories), id) && selectedGenre == old(selectedGenre)
      ensures loading == old(loading) && hasMore == old(hasMore) && loadingMore == old(loadingMore)
    {
      stories := ToggleLike(stories, id);
      ApplyGenreFilter();
    }

    /** `handleLoadMore`: ignored while a load is running or when there is no more. */
    method HandleLoadMore()
      modifies this
      ensures old(loadingMore) || !old(hasMore) ==> loadingMore == old(loadingMore) && hasMore == old(hasMore)
      ensures !old(loadingMore) && old(hasMore) ==> loadingMore && hasMore
      ensures stories == old(stories) && filteredStories == old(filteredStories) && selectedGenre == old(selectedGenre)
      ensures loading == old(loading)
    {
      if loadingMore || !hasMore {
        return;
      }
      loadingMore := true;
    }

    /** The timer that ends the stand-in load: there is never more. */
    method LoadMoreFinished()
      modifies this
      ensures !loadingMore && !hasMore
      ensures stories == old(stories) && filteredStories == old(filteredStories) && selectedGenre == old(selectedGenre)
      ensures loading == old(loading)
    {
      loadingMore := false;
      hasMore := false;
    }
  }
}
