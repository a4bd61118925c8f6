/** The memory store: a snapshot of interaction and lesson records (the
    source of truth, persisted as one document) and one similarity-search
    index per collection. Ids are derived from the collection's length at
    insertion time. */
module MemoryStore {
  import opened Util

  datatype MetaValue = Text(text: string) | Number(number: int)

  type Metadata = map<string, MetaValue>

  /** Timestamps are seconds on one clock, supplied by the caller. */
  datatype Interaction = Interaction(id: string, timestamp: int, userInput: string,
                                     agentResponse: string, metadata: Metadata)

  /** Category and importance are optional because an imported snapshot may
      lack them; records written by `AddLesson` always carry both. */
  datatype Lesson = Lesson(id: string, timestamp: int, text: string,
                           category: Option<string>, importance: Option<int>)

  datatype Snapshot = Snapshot(interactions: seq<Interaction>, lessons: seq<Lesson>)

  /** One document of a search index. */
  datatype IndexEntry = IndexEntry(id: string, document: string, metadata: Metadata)

  /** One search result. */
  datatype Hit = Hit(id: string, document: string, metadata: Metadata)

  /** What the index answers to a similarity query: three parallel columns,
      or an error. */
  datatype QueryAnswer =
    | Answered(ids: seq<string>, documents: seq<string>, metadatas: seq<Metadata>)
    | QueryRaised(message: string)

  /** The similarity index, queried with a text and a result count. Ranking
      and embedding are not modelled: the oracle stands for them. */
  type IndexQuery = (string, int) -> QueryAnswer

  datatype MemoryStats = MemoryStats(totalInteractions: nat, totalLessons: nat, categories: set<string>)

  const SecondsPerDay: int := 86400
  const SearchCap: int := 10
  const IndexedInputLength: nat := 500

  function InteractionId(k: nat): string { "interaction_" + NatToString(k) }

  function LessonId(k: nat): string { "lesson_" + NatToString(k) }

  lemma InteractionIdInjective(a: nat, b: nat)
    requires InteractionId(a) == InteractionId(b)
    ensures a == b
  {
    assert InteractionId(a)[12..] == NatToString(a);
    assert InteractionId(b)[12..] == NatToString(b);
    NatToStringInjective(a, b);
  }

  function InteractionIds(s: seq<Interaction>): (r: seq<string>)
    ensures |r| == |s|
  {
    seq(|s|, i requires 0 <= i < |s| => s[i].id)
  }

  function LessonIds(s: seq<Lesson>): (r: seq<string>)
    ensures |r| == |s|
  {
    seq(|s|, i requires 0 <= i < |s| => s[i].id)
  }

  function IndexIds(index: seq<IndexEntry>): (r: seq<string>)
    ensures |r| == |index|
  {
    seq(|index|, i requires 0 <= i < |index| => index[i].id)
  }

  /** The i-th interaction (counting from 1) carries id "interaction_i". */
  ghost predicate NumberedInteractions(s: seq<Interaction>)
  {
    forall i :: 0 <= i < |s| ==> s[i].id == InteractionId(i + 1)
  }

  ghost predicate NumberedLessons(s: seq<Lesson>)
  {
    forall i :: 0 <= i < |s| ==> s[i].id == LessonId(i + 1)
  }

  /** The interactions strictly newer than the cutoff, in order. */
  function KeepNewerThan(s: seq<Interaction>, cutoff: int): seq<Interaction>
  {
    Filter(s, (x: Interaction) => x.timestamp > cutoff)
  }

  /** The index metadata stored beside an interaction's document. */
  function InteractionMetadata(now: int, userInput: string): Metadata
  {
    map["timestamp" := Number(now), "user_input" := Text(Prefix(userInput, IndexedInputLength)),
        "type" := Text("interaction")]
  }

  function LessonMetadata(now: int, category: string, importance: int): Metadata
  {
    map["timestamp" := Number(now), "category" := Text(category),
        "importance" := Number(importance), "type" := Text("lesson")]
  }

  /** The hits a search returns for an index answer: one per document, or none
      at all when the index raised or a column is too short to read (the
      lookup fails and the failure is swallowed). */
  function HitsOf(answer: QueryAnswer): (r: seq<Hit>)
  {
    if answer.QueryRaised? || |answer.ids| < |answer.documents| || |answer.metadatas| < |answer.documents| then []
    else seq(|answer.documents|, i requires 0 <= i < |answer.documents| =>
               Hit(answer.ids[i], answer.documents[i], answer.metadatas[i]))
  }

  /** The index behaves as a similarity index over `index`: it returns at most
      the requested number of documents, and only ids it holds. */
  ghost predicate Honest(ask: IndexQuery, index: seq<IndexEntry>)
  {
    forall q, k :: ask(q, k).Answered? ==>
      |ask(q, k).documents| <= Max(k, 0) &&
      forall j :: 0 <= j < |ask(q, k).ids| ==> ask(q, k).ids[j] in IndexIds(index)
  }

  /** A search never returns more hits than it asked the index for, each hit
      is an indexed id, and an empty index yields no hits. */
  lemma HitsBounded(ask: IndexQuery, index: seq<IndexEntry>, query: string, k: int)
    requires Honest(ask, index)
    ensures |HitsOf(ask(query, k))| <= Max(k, 0)
    ensures forall h :: h in HitsOf(ask(query, k)) ==> h.id in IndexIds(index)
    ensures index == [] ==> HitsOf(ask(query, k)) == []
  {
    var answer := ask(query, k);
    var r := HitsOf(answer);
    forall h | h in r ensures h.id in IndexIds(index) {
      var i :| 0 <= i < |r| && r[i] == h;
      assert h.id == answer.ids[i];
    }
    if r != [] {
      assert r[0] in r;
    }
  }

  /** What the search index did with a new entry: stored it, or raised (an
      embedding failure, say). */
  datatype IndexAdd = Stored | AddRaised(message: string)

  /** What an add reports: the new record's id, or the index's exception. */
  datatype AddOutcome = Added(id: string) | AddFailed(message: string)

  class Memory {
    var interactions: seq<Interaction>
    var lessons: seq<Lesson>
    var interactionIndex: seq<IndexEntry>
    var lessonIndex: seq<IndexEntry>

    /** Every snapshot record has a matching index entry and vice versa, in order. */
    ghost predicate InLockstep()
      reads this
    {
      IndexIds(interactionIndex) == InteractionIds(interactions) && IndexIds(lessonIndex) == LessonIds(lessons)
    }

    ghost predicate WellNumbered()
      reads this
    {
      NumberedInteractions(interactions) && NumberedLessons(lessons)
    }

    /** Starts from the loaded snapshot (none: the file is missing or
        unreadable) and two fresh, empty indexes, which are not rebuilt from it. */
    constructor (loaded: Option<Snapshot>)
      ensures loaded.Some? ==> interactions == loaded.value.interactions && lessons == loaded.value.lessons
      ensures loaded.None? ==> interactions == [] && lessons == []
      ensures interactionIndex == [] && lessonIndex == []
      ensures loaded.None? ==> InLockstep() && WellNumbered()
    {
      if loaded.Some? {
        interactions := loaded.value.interactions;
        lessons := loaded.value.lessons;
      } else {
        interactions := [];
        lessons := [];
      }
      interactionIndex := [];
      lessonIndex := [];
    }

    /** Appends one interaction, numbered after the current length, to the
        snapshot, then hands it to the index. When the index stores it, the id
        is returned; when the index raises, the record stays appended without
        an index entry and the index's exception is passed on. */
    method AddInteraction(userInput: string, agentResponse: string, metadata: Option<Metadata>, now: int,
                          indexAdd: IndexAdd)
      returns (r: AddOutcome)
      modifies this
      ensures var id := InteractionId(|old(interactions)| + 1);
              && r == (if indexAdd.Stored? then Added(id) else AddFailed(indexAdd.message))
              && interactions == old(interactions) +
                   [Interaction(id, now, userInput, agentResponse, metadata.GetOr(map[]))]
              && interactionIndex == old(interactionIndex) +
                   (if indexAdd.Stored?
                    then [IndexEntry(id, userInput + " " + agentResponse, InteractionMetadata(now, userInput))]
                    else [])
      ensures lessons == old(lessons) && lessonIndex == old(lessonIndex)
      ensures old(InLockstep()) ==> (InLockstep() <==> indexAdd.Stored?)
      ensures old(WellNumbered()) ==> WellNumbered()
    {
      var id := InteractionId(|interactions| + 1);
      interactions := interactions + [Interaction(id, now, userInput, agentResponse, metadata.GetOr(map[]))];
      assert InteractionIds(interactions) == InteractionIds(old(interactions)) + [id];
      match indexAdd {
        case Stored =>
          interactionIndex := interactionIndex +
            [IndexEntry(id, userInput + " " + agentResponse, InteractionMetadata(now, userInput))];
          assert IndexIds(interactionIndex) == IndexIds(old(interactionIndex)) + [id];
          r := Added(id);
        case AddRaised(message) =>
          if old(InLockstep()) {
            assert |IndexIds(interactionIndex)| != |InteractionIds(interactions)|;
          }
          r := AddFailed(message);
      }
    }

    /** Appends one lesson, numbered after the current length, to the snapshot,
        then hands it to the index, with the same two outcomes as an interaction. */
    method AddLesson(lesson: string, category: string, importance: int, now: int, indexAdd: IndexAdd)
      returns (r: AddOutcome)
      modifies this
      ensures var id := LessonId(|old(lessons)| + 1);
              && r == (if indexAdd.Stored? then Added(id) else AddFailed(indexAdd.message))
              && lessons == old(lessons) + [Lesson(id, now, lesson, Some(category), Some(importance))]
              && lessonIndex == old(lessonIndex) +
                   (if indexAdd.Stored?
                    then [IndexEntry(id, lesson, LessonMetadata(now, category, importance))]
                    else [])
      ensures interactions == old(interactions) && interactionIndex == old(interactionIndex)
      ensures old(InLockstep()) ==> (InLockstep() <==> indexAdd.Stored?)
      ensures old(WellNumbered()) ==> WellNumbered()
    {
      var id := LessonId(|lessons| + 1);
      lessons := lessons + [Lesson(id, now, lesson, Some(category), Some(importance))];
      assert LessonIds(lessons) == LessonIds(old(lessons)) + [id];
      match indexAdd {
        case Stored =>
          lessonIndex := lessonIndex + [IndexEntry(id, lesson, LessonMetadata(now, category, importance))];
          assert IndexIds(lessonIndex) == IndexIds(old(lessonIndex)) + [id];
          r := Added(id);
        case AddRaised(message) =>
          if old(InLockstep()) {
            assert |IndexIds(lessonIndex)| != |LessonIds(lessons)|;
          }
          r := AddFailed(message);
      }
    }

    /** Asks the interaction index for min(n, 10) results and copies them out;
        any failure gives no results. */
    method SearchInteractions(query: string, n: int, ask: IndexQuery) returns (r: seq<Hit>)
      ensures r == HitsOf(ask(query, Min(n, SearchCap)))
      ensures Honest(ask, interactionIndex) ==> |r| <= Min(Max(n, 0), SearchCap)
      ensures Honest(ask, interactionIndex) && interactionIndex == [] ==> r == []
    {
      r := CollectHits(ask(query, Min(n, SearchCap)));
      if Honest(ask, interactionIndex) {
        HitsBounded(ask, interactionIndex, query, Min(n, SearchCap));
      }
    }

    /** The same for the lesson index. */
    method SearchLessons(query: string, n: int, ask: IndexQuery) returns (r: seq<Hit>)
      ensures r == HitsOf(ask(query, Min(n, SearchCap)))
      ensures Honest(ask, lessonIndex) ==> |r| <= Min(Max(n, 0), SearchCap)
      ensures Honest(ask, lessonIndex) && lessonIndex == [] ==> r == []
    {
      r := CollectHits(ask(query, Min(n, SearchCap)));
      if Honest(ask, lessonIndex) {
        HitsBounded(ask, lessonIndex, query, Min(n, SearchCap));
      }
    }

    /** Python's `interactions[-n:]`: for n > 0 the last min(n, length)
        records in insertion order; n == 0 gives all of them. */
    function RecentInteractions(n: int): (r: seq<Interaction>)
      reads this
      ensures n > 0 ==> |r| == Min(n, |interactions|)
      ensures n > 0 ==> forall i :: 0 <= i < |r| ==> r[i] == interactions[|interactions| - |r| + i]
      ensures n == 0 ==> r == interactions
      ensures n < 0 ==> r == interactions[Min(-n, |interactions|)..]
    {
      PySuffix(interactions, n)
    }

    /** Every occurrence of a lesson whose importance (0 when missing) is at least the bound, in order. */
    function ImportantLessons(minImportance: int): (r: seq<Lesson>)
      reads this
      ensures IsSubsequence(r, lessons)
      ensures forall l :: l in r <==> l in lessons && l.importance.GetOr(0) >= minImportance
      ensures forall l :: multiset(r)[l] == if l.importance.GetOr(0) >= minImportance then multiset(lessons)[l] else 0
    {
      var important := (l: Lesson) => l.importance.GetOr(0) >= minImportance;
      FilterSpec(lessons, important);
      FilterMultiset(lessons, important);
      Filter(lessons, important)
    }

    /** Every occurrence of a lesson of the given category, in order; a lesson without a category matches none. */
    function LessonsByCategory(category: string): (r: seq<Lesson>)
      reads this
      ensures IsSubsequence(r, lessons)
      ensures forall l :: l in r <==> l in lessons && l.category == Some(category)
      ensures forall l :: multiset(r)[l] == if l.category == Some(category) then multiset(lessons)[l] else 0
    {
      var inCategory := (l: Lesson) => l.category == Some(category);
      FilterSpec(lessons, inCategory);
      FilterMultiset(lessons, inCategory);
      Filter(lessons, inCategory)
    }

    /** Counts, and the set of lesson categories ("unknown" for a lesson without one). */
    function Stats(): (r: MemoryStats)
      reads this
      ensures r.totalInteractions == |interactions| && r.totalLessons == |lessons|
      ensures forall c :: c in r.categories <==>
                exists i :: 0 <= i < |lessons| && lessons[i].category.GetOr("unknown") == c
    {
      var categories := set l | l in lessons :: l.category.GetOr("unknown");
      assert forall c :: c in categories ==>
               exists i :: 0 <= i < |lessons| && lessons[i].category.GetOr("unknown") == c;
      MemoryStats(|interactions|, |lessons|, categories)
    }

    /** Drops the interactions not newer than `days` days before `now`; the
        lessons and both indexes stay as they are. */
    method ClearOldInteractions(days: int, now: int)
      modifies this
      ensures interactions == KeepNewerThan(old(interactions), now - days * SecondsPerDay)
      ensures lessons == old(lessons)
      ensures interactionIndex == old(interactionIndex) && lessonIndex == old(lessonIndex)
    {
      interactions := KeepNewerThan(interactions, now - days * SecondsPerDay);
    }

    /** Replaces the snapshot with the imported one (none: the file could not
        be read, and nothing changes); the indexes are not rebuilt. */
    method ImportMemory(loaded: Option<Snapshot>)
      modifies this
      ensures loaded.Some? ==> interactions == loaded.value.interactions && lessons == loaded.value.lessons
      ensures loaded.None? ==> interactions == old(interactions) && lessons == old(lessons)
      ensures interactionIndex == old(interactionIndex) && lessonIndex == old(lessonIndex)
    {
      if loaded.Some? {
        interactions := loaded.value.interactions;
        lessons := loaded.value.lessons;
      }
    }
  }

  /** The copying loop of a search, with the lookup failure of a short column
      turned into an empty result. */
  method CollectHits(answer: QueryAnswer) returns (r: seq<Hit>)
    ensures r == HitsOf(answer)
  {
    if answer.QueryRaised? {
      return [];
    }
    r := [];
    var i := 0;
    while i < |answer.documents|
      invariant 0 <= i <= |answer.documents|
      invariant i <= |answer.ids| && i <= |answer.metadatas|
      invariant |r| == i
      invariant forall j :: 0 <= j < i ==> r[j] == Hit(answer.ids[j], answer.documents[j], answer.metadatas[j])
    {
      if i >= |answer.ids| || i >= |answer.metadatas| {
        return [];
      }
      r := r + [Hit(answer.ids[i], answer.documents[i], answer.metadatas[i])];
      i := i + 1;
    }
    if |answer.ids| < |answer.documents| || |answer.metadatas| < |answer.documents| {
      return [];
    }
  }

  /** While no interaction was ever removed, the next id is fresh. */
  lemma NextInteractionIdFresh(s: seq<Interaction>)
    requires NumberedInteractions(s)
    ensures InteractionId(|s| + 1) !in InteractionIds(s)
  {
    if InteractionId(|s| + 1) in InteractionIds(s) {
      var i :| 0 <= i < |s| && InteractionIds(s)[i] == InteractionId(|s| + 1);
      InteractionIdInjective(i + 1, |s| + 1);
    }
  }

  /** Ids derived from the length are reused after a purge: once any
      interaction has been dropped, the id the next insertion will take was
      already issued, and the index, which the purge leaves alone, still holds it. */
  lemma PurgeThenAddReusesId(s: seq<Interaction>, cutoff: int)
    requires NumberedInteractions(s)
    requires exists x :: x in s && x.timestamp <= cutoff
    ensures InteractionId(|KeepNewerThan(s, cutoff)| + 1) in InteractionIds(s)
  {
    var keep := (x: Interaction) => x.timestamp > cutoff;
    FilterShrinks(s, keep);
    var m := |KeepNewerThan(s, cutoff)|;
    assert InteractionIds(s)[m] == InteractionId(m + 1);
  }

  /** A concrete case: two interactions, the older one purged; the next
      insertion takes the id of the one that survived. */
  lemma PurgeThenAddDuplicatesSnapshotId()
    ensures var s := [Interaction(InteractionId(1), 100, "a", "b", map[]),
                      Interaction(InteractionId(2), 200, "c", "d", map[])];
            var kept := KeepNewerThan(s, 150);
            |kept| == 1 && kept[0].id == InteractionId(|kept| + 1)
  {
    var s := [Interaction(InteractionId(1), 100, "a", "b", map[]),
              Interaction(InteractionId(2), 200, "c", "d", map[])];
    assert s[1..] == [s[1]];
    assert KeepNewerThan(s, 150) == [s[1]];
  }

  /** The reused id is not only an old snapshot id: on a memory whose index
      was in lockstep, a purge leaves the index alone, so the id the next
      add will take is still held by an index entry. */
  lemma PurgedIdStillIndexed(m: Memory, cutoff: int)
    requires m.InLockstep() && m.WellNumbered()
    requires exists x :: x in m.interactions && x.timestamp <= cutoff
    ensures InteractionId(|KeepNewerThan(m.interactions, cutoff)| + 1) in IndexIds(m.interactionIndex)
  {
    PurgeThenAddReusesId(m.interactions, cutoff);
  }
}
