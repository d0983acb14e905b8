/** The free-writing editor: when the writer finishes a word with a single space, it is
    looked up in an online dictionary (or a small built-in table), and its synonyms and
    antonyms float onto the page one after the other. */
module Editor {
  import opened Wrappers
  import opened Text
  import opened Lists
  import opened EditorWords

  datatype Kind = Synonym | Antonym

  /** One definition inside a dictionary meaning; either list may be absent. */
  datatype Definition = Definition(synonyms: Option<seq<string>>, antonyms: Option<seq<string>>)

  datatype Meaning = Meaning(
    synonyms: Option<seq<string>>,
    antonyms: Option<seq<string>>,
    definitions: Option<seq<Definition>>)

  datatype Entry = Entry(meanings: Option<seq<Meaning>>)

  /** What the dictionary request produced: the decoded entry array of an OK response, or
      nothing usable (network failure, a non-OK status, or a body whose shape makes the
      iteration throw, all of which the lookup swallows). */
  datatype DictionaryReply = Failed | Entries(data: seq<Entry>)

  datatype Words = Words(synonyms: seq<string>, antonyms: seq<string>)

  function Of(k: Kind, synonyms: Option<seq<string>>, antonyms: Option<seq<string>>): seq<string> {
    (if k == Synonym then synonyms else antonyms).GetOr([])
  }

  // ---------------------------------------------------------------------------------
  // The order in which the nested `forEach` loops offer words to each Set.
  // ---------------------------------------------------------------------------------

  function DefinitionsWords(k: Kind, ds: seq<Definition>): seq<string> {
    if ds == [] then []
    else
      var d := ds[|ds| - 1];
      DefinitionsWords(k, ds[..|ds| - 1]) + Of(k, d.synonyms, d.antonyms)
  }

  /** A meaning offers its own list first, then each definition's list. */
  function MeaningWords(k: Kind, m: Meaning): seq<string> {
    Of(k, m.synonyms, m.antonyms) + DefinitionsWords(k, m.definitions.GetOr([]))
  }

  function MeaningsWords(k: Kind, ms: seq<Meaning>): seq<string> {
    if ms == [] then [] else MeaningsWords(k, ms[..|ms| - 1]) + MeaningWords(k, ms[|ms| - 1])
  }

  function EntriesWords(k: Kind, es: seq<Entry>): seq<string> {
    if es == [] then []
    else EntriesWords(k, es[..|es| - 1]) + MeaningsWords(k, es[|es| - 1].meanings.GetOr([]))
  }

  // ---------------------------------------------------------------------------------
  // A JavaScript Set in insertion order, filled with the words that differ from the
  // queried word case-insensitively.
  // ---------------------------------------------------------------------------------

  predicate SameWord(s: string, word: string) {
    Lower(s) == Lower(word)
  }

  /** `s.toLowerCase() !== word.toLowerCase() && set.add(s)` */
  function AddWord(acc: seq<string>, s: string, word: string): seq<string> {
    if SameWord(s, word) || s in acc then acc else acc + [s]
  }

  function AddAll(acc: seq<string>, items: seq<string>, word: string): seq<string> {
    if items == [] then acc else AddWord(AddAll(acc, items[..|items| - 1], word), items[|items| - 1], word)
  }

  predicate Distinct(s: seq<string>) {
    forall i, j :: 0 <= i < j < |s| ==> s[i] != s[j]
  }

  /** The Set built from the given offers, as `Array.from` lists it. */
  function Collected(items: seq<string>, word: string): seq<string> {
    AddAll([], items, word)
  }

  lemma {:induction false} AddAllConcat(acc: seq<string>, a: seq<string>, b: seq<string>, word: string)
    ensures AddAll(acc, a + b, word) == AddAll(AddAll(acc, a, word), b, word)
    decreases |b|
  {
    if b == [] {
      assert a + b == a;
    } else {
      var b' := b[..|b| - 1];
      assert (a + b)[..|a + b| - 1] == a + b';
      assert (a + b)[|a + b| - 1] == b[|b| - 1];
      AddAllConcat(acc, a, b', word);
    }
  }

  /** The collected words are exactly the offered words that differ from the queried word,
      each once, in the order of their first offer. */
  lemma {:induction false} CollectedIsTheSet(items: seq<string>, word: string)
    ensures Distinct(Collected(items, word))
    ensures forall s :: s in Collected(items, word) <==> s in items && !SameWord(s, word)
    decreases |items|
  {
    if items != [] {
      CollectedIsTheSet(items[..|items| - 1], word);
      assert items == items[..|items| - 1] + [items[|items| - 1]];
    }
  }

  /** Adding words never disturbs the words already in the Set. */
  lemma {:induction false} AddAllExtends(acc: seq<string>, items: seq<string>, word: string)
    ensures var r := AddAll(acc, items, word); |acc| <= |r| && r[..|acc|] == acc
    decreases |items|
  {
    if items != [] {
      AddAllExtends(acc, items[..|items| - 1], word);
    }
  }

  /** Later offers only append: the Set built from a prefix of the offers is a prefix of
      the Set built from all of them. */
  lemma CollectedKeepsOrder(a: seq<string>, b: seq<string>, word: string)
    ensures var c := Collected(a, word); var d := Collected(a + b, word);
      |c| <= |d| && c == d[..|c|]
  {
    AddAllConcat([], a, b, word);
    AddAllExtends(Collected(a, word), b, word);
  }

  /** `Array.from(set).slice(0, 4)` */
  function Take4(s: seq<string>): (r: seq<string>)
    ensures |r| <= 4 && |r| <= |s| && r == s[..|r|]
    ensures |s| >= 4 ==> |r| == 4
    ensures |s| < 4 ==> r == s
  {
    if |s| <= 4 then s else s[..4]
  }

  // ---------------------------------------------------------------------------------
  // The built-in table used when the dictionary gives nothing.
  // ---------------------------------------------------------------------------------

  const FallbackWords: map<string, Words> := map[
    "happy" := Words(["joyful", "cheerful", "glad", "pleased"], ["sad", "unhappy", "miserable"]),
    "sad" := Words(["unhappy", "sorrowful", "melancholy"], ["happy", "joyful", "cheerful"]),
    "big" := Words(["large", "huge", "enormous"], ["small", "tiny", "little"]),
    "small" := Words(["tiny", "little", "miniature"], ["big", "large", "huge"]),
    "good" := Words(["excellent", "great", "wonderful"], ["bad", "terrible", "awful"]),
    "bad" := Words(["terrible", "awful", "horrible"], ["good", "excellent", "great"]),
    "fast" := Words(["quick", "rapid", "swift"], ["slow", "sluggish", "gradual"]),
    "slow" := Words(["sluggish", "gradual", "leisurely"], ["fast", "quick", "rapid"]),
    "hot" := Words(["warm", "heated", "burning"], ["cold", "chilly", "freezing"]),
    "cold" := Words(["chilly", "freezing", "icy"], ["hot", "warm", "heated"]),
    "love" := Words(["adore", "cherish", "treasure"], ["hate", "despise", "loathe"]),
    "hate" := Words(["despise", "loathe", "detest"], ["love", "adore", "cherish"]),
    "beautiful" := Words(["gorgeous", "stunning", "lovely"], ["ugly", "hideous", "unsightly"]),
    "ugly" := Words(["hideous", "unsightly", "repulsive"], ["beautiful", "gorgeous", "stunning"])
  ]

  /** `FALLBACK_WORDS[word.toLowerCase()] || { synonyms: [], antonyms: [] }` */
  function Fallback(word: string): Words {
    var key := Lower(word);
    if key in FallbackWords then FallbackWords[key] else Words([], [])
  }

  /** The built-in lists hold at most four words. */
  lemma FallbackAtMostFour(word: string)
    ensures |Fallback(word).synonyms| <= 4 && |Fallback(word).antonyms| <= 4
  {
  }

  /** What `getWords` resolves to. */
  function Lookup(word: string, reply: DictionaryReply): Words {
    if reply.Failed? then Fallback(word)
    else
      var syn := Collected(EntriesWords(Synonym, reply.data), word);
      var ant := Collected(EntriesWords(Antonym, reply.data), word);
      if |syn| > 0 || |ant| > 0 then Words(Take4(syn), Take4(ant)) else Fallback(word)
  }

  /** Whatever the reply, at most four words of each kind float in. */
  lemma LookupAtMostFour(word: string, reply: DictionaryReply)
    ensures |Lookup(word, reply).synonyms| <= 4 && |Lookup(word, reply).antonyms| <= 4
  {
    FallbackAtMostFour(word);
  }

  /** When the dictionary offers any word other than the queried one, the result is the
      first four distinct such words of each kind, in the order offered, and never the
      queried word itself. */
  lemma DictionaryWordsWin(word: string, data: seq<Entry>, k: Kind)
    requires exists s :: s in EntriesWords(Synonym, data) + EntriesWords(Antonym, data) && !SameWord(s, word)
    ensures var r := Lookup(word, Entries(data));
      var got := if k == Synonym then r.synonyms else r.antonyms;
      var all := Collected(EntriesWords(k, data), word);
      && got == Take4(all)
      && |got| <= 4
      && Distinct(got)
      && forall i :: 0 <= i < |got| ==> got[i] in EntriesWords(k, data) && !SameWord(got[i], word)
  {
    var syn := EntriesWords(Synonym, data);
    var ant := EntriesWords(Antonym, data);
    var s :| s in syn + ant && !SameWord(s, word);
    CollectedIsTheSet(syn, word);
    CollectedIsTheSet(ant, word);
    assert s in Collected(syn, word) || s in Collected(ant, word);
    assert Lookup(word, Entries(data)) == Words(Take4(Collected(syn, word)), Take4(Collected(ant, word)));
    FirstFourOfCollected(EntriesWords(k, data), word);
  }

  lemma FirstFourOfCollected(items: seq<string>, word: string)
    ensures var got := Take4(Collected(items, word));
      && Distinct(got)
      && forall i :: 0 <= i < |got| ==> got[i] in items && !SameWord(got[i], word)
  {
    var all := Collected(items, word);
    CollectedIsTheSet(items, word);
    var got := Take4(all);
    assert forall i :: 0 <= i < |got| ==> got[i] == all[i];
  }

  /** A failed request, or entries that offer nothing but the queried word, fall back to
      the built-in table, and to two empty lists for a word it does not know. */
  lemma NothingOfferedFallsBack(word: string, reply: DictionaryReply)
    requires reply.Entries? ==>
      forall s :: s in EntriesWords(Synonym, reply.data) + EntriesWords(Antonym, reply.data) ==> SameWord(s, word)
    ensures Lookup(word, reply) == (if Lower(word) in FallbackWords then FallbackWords[Lower(word)] else Words([], []))
  {
    if reply.Entries? {
      CollectedIsTheSet(EntriesWords(Synonym, reply.data), word);
      CollectedIsTheSet(EntriesWords(Antonym, reply.data), word);
      var syn := Collected(EntriesWords(Synonym, reply.data), word);
      var ant := Collected(EntriesWords(Antonym, reply.data), word);
      if |syn| > 0 {
        assert syn[0] in EntriesWords(Synonym, reply.data) + EntriesWords(Antonym, reply.data);
      }
      if |ant| > 0 {
        assert ant[0] in EntriesWords(Synonym, reply.data) + EntriesWords(Antonym, reply.data);
      }
    }
  }

  // ---------------------------------------------------------------------------------
  // `getWords`: the nested `forEach` loops over the decoded reply.
  // ---------------------------------------------------------------------------------

  /** `list?.forEach(s => ... && set.add(s))` */
  method AddEach(acc: seq<string>, items: seq<string>, word: string) returns (r: seq<string>)
    ensures r == AddAll(acc, items, word)
  {
    r := acc;
    var i := 0;
    while i < |items|
      invariant 0 <= i <= |items|
      invariant r == AddAll(acc, items[..i], word)
    {
      assert items[..i + 1][..i] == items[..i];
      r := AddWord(r, items[i], word);
      i := i + 1;
    }
    assert items[..i] == items;
  }

  /** One meaning: its own lists, then every definition's lists. */
  method AddMeaning(syn0: seq<string>, ant0: seq<string>, m: Meaning, word: string)
    returns (syn: seq<string>, ant: seq<string>)
    ensures syn == AddAll(syn0, MeaningWords(Synonym, m), word)
    ensures ant == AddAll(ant0, MeaningWords(Antonym, m), word)
  {
    var syn1 := AddEach(syn0, m.synonyms.GetOr([]), word);
    var ant1 := AddEach(ant0, m.antonyms.GetOr([]), word);
    var ds := m.definitions.GetOr([]);
    syn, ant := AddDefinitions(syn1, ant1, ds, word);
    AddAllConcat(syn0, Of(Synonym, m.synonyms, m.antonyms), DefinitionsWords(Synonym, ds), word);
    AddAllConcat(ant0, Of(Antonym, m.synonyms, m.antonyms), DefinitionsWords(Antonym, ds), word);
  }

  /** The inner `definitions.forEach` loop. */
  method AddDefinitions(syn0: seq<string>, ant0: seq<string>, ds: seq<Definition>, word: string)
    returns (syn: seq<string>, ant: seq<string>)
    ensures syn == AddAll(syn0, DefinitionsWords(Synonym, ds), word)
    ensures ant == AddAll(ant0, DefinitionsWords(Antonym, ds), word)
  {
    syn, ant := syn0, ant0;
    var i := 0;
    while i < |ds|
      invariant 0 <= i <= |ds|
      invariant syn == AddAll(syn0, DefinitionsWords(Synonym, ds[..i]), word)
      invariant ant == AddAll(ant0, DefinitionsWords(Antonym, ds[..i]), word)
    {
      assert ds[..i + 1][..i] == ds[..i];
      AddAllConcat(syn0, DefinitionsWords(Synonym, ds[..i]), Of(Synonym, ds[i].synonyms, ds[i].antonyms), word);
      AddAllConcat(ant0, DefinitionsWords(Antonym, ds[..i]), Of(Antonym, ds[i].synonyms, ds[i].antonyms), word);
      syn := AddEach(syn, ds[i].synonyms.GetOr([]), word);
      ant := AddEach(ant, ds[i].antonyms.GetOr([]), word);
      i := i + 1;
    }
    assert ds[..i] == ds;
  }

  /** One entry: every meaning in turn. */
  method AddEntry(syn0: seq<string>, ant0: seq<string>, e: Entry, word: string)
    returns (syn: seq<string>, ant: seq<string>)
    ensures syn == AddAll(syn0, MeaningsWords(Synonym, e.meanings.GetOr([])), word)
    ensures ant == AddAll(ant0, MeaningsWords(Antonym, e.meanings.GetOr([])), word)
  {
    syn, ant := syn0, ant0;
    var ms := e.meanings.GetOr([]);
    var i := 0;
    while i < |ms|
      invariant 0 <= i <= |ms|
      invariant syn == AddAll(syn0, MeaningsWords(Synonym, ms[..i]), word)
      invariant ant == AddAll(ant0, MeaningsWords(Antonym, ms[..i]), word)
    {
      assert ms[..i + 1][..i] == ms[..i];
      AddAllConcat(syn0, MeaningsWords(Synonym, ms[..i]), MeaningWords(Synonym, ms[i]), word);
      AddAllConcat(ant0, MeaningsWords(Antonym, ms[..i]), MeaningWords(Antonym, ms[i]), word);
      syn, ant := AddMeaning(syn, ant, ms[i], word);
      i := i + 1;
    }
    assert ms[..i] == ms;
  }

  /** The outer `data.forEach` loop: both Sets, filled entry by entry. */
  method CollectEntries(data: seq<Entry>, word: string) returns (syn: seq<string>, ant: seq<string>)
    ensures syn == Collected(EntriesWords(Synonym, data), word)
    ensures ant == Collected(EntriesWords(Antonym, data), word)
  {
    syn, ant := [], [];
    var i := 0;
    while i < |data|
      invariant 0 <= i <= |data|
      invariant syn == Collected(EntriesWords(Synonym, data[..i]), word)
      invariant ant == Collected(EntriesWords(Antonym, data[..i]), word)
    {
      assert data[..i + 1][..i] == data[..i];
      AddAllConcat([], EntriesWords(Synonym, data[..i]), MeaningsWords(Synonym, data[i].meanings.GetOr([])), word);
      AddAllConcat([], EntriesWords(Antonym, data[..i]), MeaningsWords(Antonym, data[i].meanings.GetOr([])), word);
      syn, ant := AddEntry(syn, ant, data[i], word);
      i := i + 1;
    }
    assert data[..i] == data;
  }

  /** `getWords(word)` */
  method GetWords(word: string, reply: DictionaryReply) returns (r: Words)
    ensures r == Lookup(word, reply)
  {
    if reply.Entries? {
      var syn, ant := CollectEntries(reply.data, word);
      if |syn| > 0 || |ant| > 0 {
        return Words(Take4(syn), Take4(ant));
      }
    }
    var key := Lower(word);
    if key in FallbackWords {
      r := FallbackWords[key];
    } else {
      r := Words([], []);
    }
  }

  // ---------------------------------------------------------------------------------
  // Scheduling and placing the floating words.
  // ---------------------------------------------------------------------------------

  /** A timer `processInput` sets: show `text` as the `index`-th word of its kind after
      `delay` milliseconds. */
  datatype Appearance = Appearance(text: string, kind: Kind, index: nat, delay: nat)

  /** Synonym `i` after `i * 200` ms; antonym `i` after all synonyms' slots, at
      `synonyms.length * 200 + i * 200` ms. */
  function Schedule(w: Words): (r: seq<Appearance>)
    ensures |r| == |w.synonyms| + |w.antonyms|
  {
    seq(|w.synonyms|, i requires 0 <= i < |w.synonyms| => Appearance(w.synonyms[i], Synonym, i, i * 200)) +
    seq(|w.antonyms|, i requires 0 <= i < |w.antonyms| =>
      Appearance(w.antonyms[i], Antonym, i, |w.synonyms| * 200 + i * 200))
  }

  /** Every synonym is scheduled strictly before every antonym, and each kind in list order. */
  lemma AntonymsAfterSynonyms(w: Words)
    ensures var r := Schedule(w);
      && (forall i, j :: 0 <= i < |r| && 0 <= j < |r| && r[i].kind == Synonym && r[j].kind == Antonym
            ==> r[i].delay < r[j].delay)
      && (forall i :: 0 <= i < |r| && r[i].kind == Antonym ==> r[i].delay >= |w.synonyms| * 200)
      && (forall i, j :: 0 <= i < j < |r| && r[i].kind == r[j].kind ==> r[i].delay < r[j].delay)
  {
    var r := Schedule(w);
    var n := |w.synonyms|;
    assert forall i :: 0 <= i < |r| ==> (r[i].kind == Synonym <==> i < n);
    assert forall i :: 0 <= i < |r| && i < n ==> r[i].delay == i * 200 < n * 200;
    assert forall i :: 0 <= i < |r| && n <= i ==> r[i].delay == i * 200;
  }

  /** The two `forEach` loops of `processInput` that set the timers. */
  method ScheduleWords(w: Words) returns (r: seq<Appearance>)
    ensures r == Schedule(w)
  {
    var all := Schedule(w);
    var n := |w.synonyms|;
    r := [];
    var i := 0;
    while i < n
      invariant 0 <= i <= n
      invariant r == all[..i]
    {
      assert all[i] == Appearance(w.synonyms[i], Synonym, i, i * 200);
      assert all[..i + 1] == all[..i] + [all[i]];
      r := r + [Appearance(w.synonyms[i], Synonym, i, i * 200)];
      i := i + 1;
    }
    var j := 0;
    while j < |w.antonyms|
      invariant 0 <= j <= |w.antonyms|
      invariant r == all[..n + j]
    {
      assert all[n + j] == Appearance(w.antonyms[j], Antonym, j, n * 200 + j * 200);
      assert all[..n + j + 1] == all[..n + j] + [all[n + j]];
      r := r + [Appearance(w.antonyms[j], Antonym, j, n * 200 + j * 200)];
      j := j + 1;
    }
    assert all[..n + j] == all;
  }

  /** Start position, as left and top percentages. */
  datatype Position = Position(x: nat, y: nat)

  const Margin: nat := 15

  /** Synonyms start along the top and left, antonyms along the bottom and right. */
  function StartPosition(k: Kind, index: nat): Position {
    var table := if k == Synonym
      then [Position(Margin, Margin), Position(50, Margin), Position(85, Margin), Position(Margin, 30)]
      else [Position(85, 70), Position(50, 85), Position(Margin, 85), Position(85, 50)];
    table[index % |table|]
  }

  /** Positions repeat every four words, and a synonym always starts higher on the page
      than any antonym. */
  lemma StartPositions(k: Kind, index: nat, other: nat)
    ensures StartPosition(k, index + 4) == StartPosition(k, index)
    ensures StartPosition(Synonym, index).y <= 30 < 50 <= StartPosition(Antonym, other).y
  {
    assert (index + 4) % 4 == index % 4;
  }

  /** A floating word on the page; its random drift and rotation are not modelled. */
  datatype AnimatedWord = AnimatedWord(id: nat, text: string, kind: Kind, start: Position)

  /** `processedWords`, `wordIdCounter` and `animatedWords` of the editor page. */
  /** The dictionary request of `processInput` and the timers it sets for the result. */
  method LookUpAndSchedule(w: string, reply: DictionaryReply) returns (timers: seq<Appearance>)
    ensures timers == Schedule(Lookup(w, reply))
  {
    var found := GetWords(w, reply);
    timers := ScheduleWords(found);
  }

  /** The remembered words after `processInput`, the word looked up and the timers set. */
  datatype Processed = Processed(remembered: set<string>, looked: Option<string>, timers: seq<Appearance>)

  function Process(remembered: set<string>, text: string, reply: DictionaryReply): Processed {
    ProcessWord(remembered, ExtractWord(text), reply)
  }

  /** What `processInput` does with the word it extracted, if any. */
  function ProcessWord(remembered: set<string>, word: Option<string>, reply: DictionaryReply): Processed {
    match word
    case None => Processed(remembered, None, [])
    case Some(w) =>
      if Lower(w) in remembered then Processed(remembered, None, [])
      else Processed(remembered + {Lower(w)}, Some(w), Schedule(Lookup(w, reply)))
  }

  /** A word is looked up only when it was typed and is not remembered; it is then
      remembered, and what floats in is the schedule of what the lookup found. */
  lemma ProcessRule(remembered: set<string>, text: string, reply: DictionaryReply)
    ensures var p := Process(remembered, text, reply);
      && (p.looked.Some? <==> ExtractWord(text).Some? && Lower(ExtractWord(text).value) !in remembered)
      && (p.looked.Some? ==>
            && p.looked == ExtractWord(text)
            && p.remembered == remembered + {Lower(p.looked.value)}
            && p.timers == Schedule(Lookup(p.looked.value, reply)))
      && (p.looked.None? ==> p.remembered == remembered && p.timers == [])
  {
  }

  /** The same text typed again before the word is forgotten looks nothing up, whatever
      the dictionary answers. */
  lemma SecondTimeIsIgnored(remembered: set<string>, text: string, reply: DictionaryReply, reply2: DictionaryReply)
    ensures var p := Process(remembered, text, reply);
      var q := Process(p.remembered, text, reply2);
      q.looked.None? && q.timers == [] && q.remembered == p.remembered
  {
  }

  /** A word differing only in case counts as already looked up. */
  lemma CaseDoesNotMatter(remembered: set<string>, w: string, w2: string, reply: DictionaryReply, reply2: DictionaryReply)
    requires Lower(w) == Lower(w2)
    ensures ProcessWord(ProcessWord(remembered, Some(w), reply).remembered, Some(w2), reply2).looked.None?
  {
  }

  class EditorPage {
    var processedWords: set<string>
    var wordIdCounter: nat
    var animatedWords: seq<AnimatedWord>

    /** Ids on the page strictly increase and none exceeds the counter. */
    ghost predicate Valid()
      reads this
    {
      && (forall i, j :: 0 <= i < j < |animatedWords| ==> animatedWords[i].id < animatedWords[j].id)
      && (forall i :: 0 <= i < |animatedWords| ==> animatedWords[i].id <= wordIdCounter)
    }

    constructor ()
      ensures processedWords == {} && wordIdCounter == 0 && animatedWords == []
      ensures Valid()
    {
      processedWords := {};
      wordIdCounter := 0;
      animatedWords := [];
    }

    /** `processInput(text)` given the dictionary's reply: looks the typed word up at most
        once while it is remembered, and returns the word and the timers it sets. */
    method ProcessInput(text: string, reply: DictionaryReply) returns (looked: Option<string>, timers: seq<Appearance>)
      modifies this
      ensures wordIdCounter == old(wordIdCounter) && animatedWords == old(animatedWords)
      ensures Processed(processedWords, looked, timers) == Process(old(processedWords), text, reply)
    {
      var word := ExtractWord(text);
      looked, timers := RememberWord(word, reply);
    }

    method RememberWord(word: Option<string>, reply: DictionaryReply) returns (looked: Option<string>, timers: seq<Appearance>)
      modifies this
      ensures wordIdCounter == old(wordIdCounter) && animatedWords == old(animatedWords)
      ensures Processed(processedWords, looked, timers) == ProcessWord(old(processedWords), word, reply)
    {
      looked, timers := None, [];
      if word.None? {
        return;
      }
      var w := word.value;
      if Lower(w) in processedWords {
        return;
      }
      processedWords := processedWords + {Lower(w)};
      timers := LookUpAndSchedule(w, reply);
      looked := Some(w);
    }

    /** The three-second timer that lets a word be looked up again. */
    method ForgetWord(key: string)
      modifies this
      ensures processedWords == old(processedWords) - {key}
      ensures wordIdCounter == old(wordIdCounter) && animatedWords == old(animatedWords)
    {
      processedWords := processedWords - {key};
    }

    /** `createAnimatedWord`: takes the next id and adds the word at its start position. */
    method CreateAnimatedWord(word: string, k: Kind, index: nat) returns (id: nat)
      requires Valid()
      modifies this
      ensures Valid()
      ensures id == old(wordIdCounter) + 1 == wordIdCounter
      ensures animatedWords == old(animatedWords) + [AnimatedWord(id, word, k, StartPosition(k, index))]
      ensures processedWords == old(processedWords)
    {
      wordIdCounter := wordIdCounter + 1;
      id := wordIdCounter;
      animatedWords := animatedWords + [AnimatedWord(id, word, k, StartPosition(k, index))];
    }

    /** The timer that removes a word once its animation is over. */
    method RemoveAnimatedWord(id: nat)
      requires Valid()
      modifies this
      ensures Valid()
      ensures animatedWords == Filter(old(animatedWords), (a: AnimatedWord) => a.id != id)
      ensures wordIdCounter == old(wordIdCounter) && processedWords == old(processedWords)
    {
      FilterKeepsIncreasing(animatedWords, id);
      animatedWords := Filter(animatedWords, (a: AnimatedWord) => a.id != id);
    }
  }

  predicate IdsIncrease(s: seq<AnimatedWord>) {
    forall i, j :: 0 <= i < j < |s| ==> s[i].id < s[j].id
  }

  /** Removing one id keeps the remaining ids increasing. */
  lemma {:induction false} FilterKeepsIncreasing(s: seq<AnimatedWord>, id: nat)
    requires IdsIncrease(s)
    ensures IdsIncrease(Filter(s, (a: AnimatedWord) => a.id != id))
    decreases |s|
  {
    if s != [] {
      var rest := Filter(s[1..], (a: AnimatedWord) => a.id != id);
      FilterKeepsIncreasing(s[1..], id);
      assert forall y :: y in s[1..] ==> s[0].id < y.id;
      assert forall j :: 0 <= j < |rest| ==> rest[j] in s[1..];
    }
  }
}
