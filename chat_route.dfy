/**
 * The chat API route (`POST /api/chat`): validate the conversation, take the
 * latest user message as the query, retrieve chunks by vector similarity,
 * ground a completion in them, and reduce the retrieved chunks to one
 * best-scoring entry per event for the "suggested events" list.
 *
 * The embedding service, the vector search RPC, the completion service and
 * the events table lookup are parameters: each is a function from what the
 * route sends to what comes back. The route also reports the upstream calls
 * it makes, in order.
 */
module ChatRoute {

  import opened Wrappers
  import opened Seqs

  type EventId = int

  /** A conversation turn as the caller sends it: `{role, content}`. */
  datatype ChatMessage = ChatMessage(role: string, content: Option<string>)

  /** The parsed request body; `messages` is `None` when absent or not an array. */
  datatype ChatBody = ChatBody(messages: Option<seq<ChatMessage>>, topK: Option<int>)

  /** One row of the vector search result. `similarity` is `None` when it is not a number. */
  datatype RetrievedChunk = RetrievedChunk(
    eventId: EventId,
    name: Option<string>,
    start: Option<string>,
    end: Option<string>,
    area: Option<string>,
    content: string,
    similarity: Option<real>)

  /** A row of the events table, with the columns the route selects. */
  datatype EventRow = EventRow(
    id: EventId,
    name: Option<string>,
    imageUrl: Option<string>,
    start: Option<string>,
    end: Option<string>,
    area: Option<string>,
    websiteUrl: Option<string>)

  /** An event row with the similarity the route attaches to it. */
  datatype SuggestedEvent = SuggestedEvent(row: EventRow, similarity: Option<real>)

  /** The query embedding the embedding service returns. */
  type Embedding = seq<real>

  /** The vector search RPC: `SearchFailed` when it returns an `error`, otherwise its `data`. */
  datatype SearchResult = SearchFailed | SearchRows(rows: Option<seq<RetrievedChunk>>)
  /** The completion request: `CompletionThrew` when it throws, otherwise the first choice's content. */
  datatype CompletionResult = CompletionThrew | Completed(content: Option<string>)
  /** The events lookup: `SelectFailed` when it returns an `error`, otherwise its `data`. */
  datatype SelectResult = SelectFailed | SelectRows(rows: Option<seq<EventRow>>)

  /** The upstream calls the route makes. */
  datatype ChatCall =
    | EmbedQuery(input: string)
    | SearchVectors(queryEmbedding: Embedding, matchCount: int)
    | Complete(messages: seq<ChatMessage>)
    | SelectEvents(ids: seq<EventId>)

  datatype ChatResponse =
    | Failure(status: int, error: string)
    | Answer(answer: string, sources: seq<RetrievedChunk>, events: seq<SuggestedEvent>)

  const DefaultTopK: int := 5
  const MinSimilarity: real := 0.55

  const EmptyMessagesError := "messagesが空です"
  const NoUserMessageError := "ユーザーメッセージがありません"
  const SearchError := "検索に失敗しました"
  const ServerError := "サーバーエラー"

  // ------------------------------------------------------------- validation

  /** A request that passed validation. */
  datatype Query = Query(messages: seq<ChatMessage>, topK: int, userMessage: string)

  datatype Checked = Rejected(error: string) | Accepted(query: Query)

  /** `messages.filter(m => m.role === "user").at(-1)?.content ?? ""`. */
  function LatestUserContent(messages: seq<ChatMessage>): string
  {
    var users := Filter((m: ChatMessage) => m.role == "user", messages);
    if users == [] then "" else users[|users| - 1].content.GetOr("")
  }

  /** Reference definition: the index of the last user turn, scanning from the end. */
  function LastUserIndex(messages: seq<ChatMessage>): (k: Option<nat>)
    ensures k.Some? ==> k.value < |messages| && messages[k.value].role == "user"
    ensures k.Some? ==> forall j :: k.value < j < |messages| ==> messages[j].role != "user"
    ensures k.None? ==> forall j :: 0 <= j < |messages| ==> messages[j].role != "user"
  {
    if messages == [] then None
    else if messages[|messages| - 1].role == "user" then Some(|messages| - 1)
    else LastUserIndex(messages[..|messages| - 1])
  }

  /** The query is the content of the last user turn, or "" when there is none or it has no content. */
  lemma {:induction false} LatestUserContentIsLast(messages: seq<ChatMessage>)
    ensures LatestUserContent(messages) ==
      match LastUserIndex(messages)
      case None => ""
      case Some(k) => messages[k].content.GetOr("")
  {
    var isUser := (m: ChatMessage) => m.role == "user";
    if messages != [] {
      var init, last := messages[..|messages| - 1], messages[|messages| - 1];
      LatestUserContentIsLast(init);
      assert messages == init + [last];
      FilterAppend(isUser, init, [last]);
      assert Filter(isUser, [last]) == if isUser(last) then [last] else [];
    }
  }

  /** Lines 15-26 of the route: the request checks made before any upstream call. */
  function Validate(body: ChatBody): (r: Checked)
    ensures r == Rejected(EmptyMessagesError) <==> body.messages.None? || body.messages.value == []
    ensures r == Rejected(NoUserMessageError) <==>
      body.messages.Some? && body.messages.value != [] && LatestUserContent(body.messages.value) == ""
    ensures r.Accepted? ==>
      r.query.messages == body.messages.value && r.query.messages != [] &&
      r.query.topK == body.topK.GetOr(DefaultTopK) &&
      r.query.userMessage == LatestUserContent(r.query.messages) && r.query.userMessage != ""
  {
    var messages := body.messages.GetOr([]);
    if messages == [] then Rejected(EmptyMessagesError)
    else
      var userMessage := LatestUserContent(messages);
      if userMessage == "" then Rejected(NoUserMessageError)
      else Accepted(Query(messages, body.topK.GetOr(DefaultTopK), userMessage))
  }

  // -------------------------------------------------------- grounding context

  const ContextSeparator := "\n\n---\n\n"

  /** One context block: title, dates, place and chunk text, with the route's placeholders. */
  function Block(c: RetrievedChunk): (b: string)
    ensures |b| > |c.content| && b[|b| - |c.content|..] == c.content
  {
    "【タイトル】" + c.name.GetOr("(タイトル不明)") +
    "\n【日付】" + c.start.GetOr("未定") + "〜" + c.end.GetOr("未定") +
    "\n【場所】" + c.area.GetOr("不明") +
    "\n【説明】" + c.content
  }

  function Blocks(chunks: seq<RetrievedChunk>): seq<string>
  {
    seq(|chunks|, i requires 0 <= i < |chunks| => Block(chunks[i]))
  }

  /** `contextText`: every retrieved chunk, unfiltered, as a block, joined by the separator. */
  function ContextText(chunks: seq<RetrievedChunk>): string
  {
    Join(Blocks(chunks), ContextSeparator)
  }

  /** Block `i` of the context, `Blocks(chunks)[i] == Block(chunks[i])`, stands at its offset. */
  lemma {:induction false} ContextBlockAt(chunks: seq<RetrievedChunk>, i: nat)
    requires i < |chunks|
    ensures var bs := Blocks(chunks);
      var o := BlockOffset(bs, ContextSeparator, i);
      o + |bs[i]| <= |ContextText(chunks)| &&
      ContextText(chunks)[o..o + |bs[i]|] == bs[i]
  {
    JoinBlockAt(Blocks(chunks), ContextSeparator, i);
  }

  /** Right after block `i`, unless it is the last, the context holds the separator. */
  lemma {:induction false} ContextSeparatorAt(chunks: seq<RetrievedChunk>, i: nat)
    requires i + 1 < |chunks|
    ensures var bs := Blocks(chunks);
      var o := BlockOffset(bs, ContextSeparator, i) + |bs[i]|;
      o + |ContextSeparator| <= |ContextText(chunks)| &&
      ContextText(chunks)[o..o + |ContextSeparator|] == ContextSeparator
  {
    SeparatorAfterBlock(Blocks(chunks), ContextSeparator, i);
  }

  /** The context is empty exactly when nothing was retrieved. */
  lemma {:induction false} ContextTextEmpty(chunks: seq<RetrievedChunk>)
    ensures ContextText(chunks) == "" <==> chunks == []
  {
    var bs := Blocks(chunks);
    forall i | 0 <= i < |bs| ensures bs[i] != "" {
      assert |bs[i]| > |chunks[i].content|;
    }
    JoinEmpty(bs, ContextSeparator);
  }

  const PromptHead := "あなたはイベント提案アシスタントです。ユーザーの条件に合うイベントを3件まで、簡潔に日本語で提案してください。存在しない情報は作らず、以下のコンテキストのみを根拠に回答してください。必要に応じて日付や場所、費用を箇条書きで示し、最後に関連するリンクがあれば記載してください。\n\n[コンテキスト]\n"

  /** The system prompt: the fixed instruction with the context at its end. */
  function SystemPrompt(context: string): (p: string)
    ensures |p| == |PromptHead| + |context|
    ensures p[..|PromptHead|] == PromptHead && p[|PromptHead|..] == context
  {
    PromptHead + context
  }

  /** The messages sent to the completion model: the system prompt, then the caller's turns as given. */
  function CompletionMessages(context: string, messages: seq<ChatMessage>): (r: seq<ChatMessage>)
    ensures |r| == |messages| + 1
    ensures r[0].role == "system" && r[0].content == Some(SystemPrompt(context))
    ensures r[1..] == messages
  {
    [ChatMessage("system", Some(SystemPrompt(context)))] + messages
  }

  // ------------------------------------------------------ similarity filter

  /** `typeof c.similarity === "number" && c.similarity >= minSimilarity`. */
  predicate Relevant(c: RetrievedChunk, minSimilarity: real)
  {
    c.similarity.Some? && c.similarity.value >= minSimilarity
  }

  /** `filteredBySim`, which is also the response's `sources`. */
  function FilterBySimilarity(chunks: seq<RetrievedChunk>, minSimilarity: real): seq<RetrievedChunk>
  {
    Filter((c: RetrievedChunk) => Relevant(c, minSimilarity), chunks)
  }

  /**
   * `filteredBySim` keeps, in their retrieval order, exactly the chunks
   * whose similarity is a number at or above the threshold, each as often
   * as it was retrieved.
   */
  lemma {:induction false} FilterBySimilaritySpec(chunks: seq<RetrievedChunk>, minSimilarity: real)
    ensures IsSubsequence(FilterBySimilarity(chunks, minSimilarity), chunks)
    ensures forall c :: c in FilterBySimilarity(chunks, minSimilarity) ==> Relevant(c, minSimilarity)
    ensures forall c ::
      multiset(FilterBySimilarity(chunks, minSimilarity))[c] == (if Relevant(c, minSimilarity) then multiset(chunks)[c] else 0)
  {
    var p := (c: RetrievedChunk) => Relevant(c, minSimilarity);
    FilterIsSubsequence(p, chunks);
    FilterMembers(p, chunks);
    FilterMultiset(p, chunks);
  }

  // ----------------------------------------------- best chunk per event id

  /** `c.similarity ?? 0`. */
  function Score(c: RetrievedChunk): real
  {
    c.similarity.GetOr(0.0)
  }

  /**
   * The `idToBest` map: a JavaScript `Map` from event id to chunk, whose
   * keys iterate in insertion order.
   */
  datatype BestMap = BestMap(keys: seq<EventId>, best: map<EventId, RetrievedChunk>)

  /** The keys are listed once each, and they are exactly the map's keys. */
  ghost predicate WellFormed(m: BestMap)
  {
    NoDup(m.keys) && (forall k :: k in m.keys ==> k in m.best) && (forall k :: k in m.best ==> k in m.keys)
  }

  /** `map.set(id, c)`: a new key goes to the end, an existing key keeps its place. */
  function MapSet(m: BestMap, id: EventId, c: RetrievedChunk): BestMap
  {
    BestMap(if id in m.best then m.keys else m.keys + [id], m.best[id := c])
  }

  /** One iteration of the loop: keep `c` if its id is new or it scores strictly higher. */
  function Offer(m: BestMap, c: RetrievedChunk): BestMap
  {
    if c.eventId !in m.best || Score(c) > Score(m.best[c.eventId]) then MapSet(m, c.eventId, c) else m
  }

  /** The map the loop builds from `chunks`, as a left fold of `Offer`. */
  function BestPerEvent(chunks: seq<RetrievedChunk>): BestMap
  {
    if chunks == [] then BestMap([], map[]) else Offer(BestPerEvent(chunks[..|chunks| - 1]), chunks[|chunks| - 1])
  }

  function Ids(chunks: seq<RetrievedChunk>): seq<EventId>
  {
    seq(|chunks|, i requires 0 <= i < |chunks| => chunks[i].eventId)
  }

  /** The map's keys are the chunks' ids, once each, in first-appearance order. */
  ghost predicate KeysInOrder(chunks: seq<RetrievedChunk>, m: BestMap)
  {
    WellFormed(m) && m.keys == Distinct(Ids(chunks))
  }

  /** Each id maps to one of the chunks, and to one carrying that id. */
  ghost predicate ChosenFrom(chunks: seq<RetrievedChunk>, m: BestMap)
  {
    forall id :: id in m.best ==> m.best[id] in chunks && m.best[id].eventId == id
  }

  /** No chunk scores higher than the chunk kept for its id. */
  ghost predicate Maximal(chunks: seq<RetrievedChunk>, m: BestMap)
  {
    forall i :: 0 <= i < |chunks| ==>
      chunks[i].eventId in m.best && Score(chunks[i]) <= Score(m.best[chunks[i].eventId])
  }

  /** Among equally scoring chunks of an id, the kept one is seen no later than any other. */
  ghost predicate FirstOnTies(chunks: seq<RetrievedChunk>, m: BestMap)
  {
    forall i :: (0 <= i < |chunks| && chunks[i].eventId in m.best &&
      Score(chunks[i]) == Score(m.best[chunks[i].eventId])) ==>
      m.best[chunks[i].eventId] in chunks[..i + 1]
  }

  lemma {:induction false} KeysStep(chunks: seq<RetrievedChunk>, m: BestMap, c: RetrievedChunk)
    requires KeysInOrder(chunks, m)
    ensures KeysInOrder(chunks + [c], Offer(m, c))
  {
    assert Ids(chunks + [c]) == Ids(chunks) + [c.eventId];
    DistinctSnoc(Ids(chunks), c.eventId);
    DistinctNoDup(Ids(chunks + [c]));
  }

  lemma {:induction false} ChosenStep(chunks: seq<RetrievedChunk>, m: BestMap, c: RetrievedChunk)
    requires ChosenFrom(chunks, m)
    ensures ChosenFrom(chunks + [c], Offer(m, c))
  {
    var m' := Offer(m, c);
    forall id | id in m'.best ensures m'.best[id] in chunks + [c] && m'.best[id].eventId == id {
      if m'.best[id] != c { assert m'.best[id] == m.best[id]; }
    }
  }

  lemma {:induction false} MaximalStep(chunks: seq<RetrievedChunk>, m: BestMap, c: RetrievedChunk)
    requires Maximal(chunks, m)
    ensures Maximal(chunks + [c], Offer(m, c))
  {
    var s := chunks + [c];
    forall i | 0 <= i < |s| ensures s[i].eventId in Offer(m, c).best && Score(s[i]) <= Score(Offer(m, c).best[s[i].eventId]) {
      if i < |chunks| { assert s[i] == chunks[i]; }
    }
  }

  /** One position of `TiesStep`, from the facts about the earlier chunks' map at that position only. */
  lemma {:induction false} TiesStepAt(chunks: seq<RetrievedChunk>, m: BestMap, i: nat)
    requires i < |chunks|
    requires var init, c := chunks[..|chunks| - 1], chunks[|chunks| - 1];
      (c.eventId in m.best ==> m.best[c.eventId] in init) &&
      (i < |init| ==> init[i].eventId in m.best && Score(init[i]) <= Score(m.best[init[i].eventId])) &&
      (i < |init| && init[i].eventId in m.best && Score(init[i]) == Score(m.best[init[i].eventId]) ==>
        m.best[init[i].eventId] in init[..i + 1])
    ensures var m' := Offer(m, chunks[|chunks| - 1]);
      chunks[i].eventId in m'.best && Score(chunks[i]) == Score(m'.best[chunks[i].eventId]) ==>
      m'.best[chunks[i].eventId] in chunks[..i + 1]
  {
    var init, c := chunks[..|chunks| - 1], chunks[|chunks| - 1];
    var m' := Offer(m, c);
    var id := chunks[i].eventId;
    if i < |init| {
      assert chunks[i] == init[i] && chunks[..i + 1] == init[..i + 1];
      if id != c.eventId || m' == m {
        assert m'.best[id] == m.best[id];
      } else {
        assert Score(c) > Score(m.best[id]);
      }
    } else {
      assert chunks[i] == c && chunks[..i + 1] == chunks;
      if m' == m && c.eventId in m.best {
        assert m.best[id] in init;
      } else {
        assert m'.best[id] == c;
      }
    }
  }

  /** Offering the last chunk keeps the tie rule, given what the earlier chunks' map satisfies. */
  lemma {:induction false} TiesStep(chunks: seq<RetrievedChunk>)
    requires chunks != []
    requires var init := chunks[..|chunks| - 1];
      ChosenFrom(init, BestPerEvent(init)) && Maximal(init, BestPerEvent(init)) && FirstOnTies(init, BestPerEvent(init))
    ensures FirstOnTies(chunks, BestPerEvent(chunks))
  {
    var init, c := chunks[..|chunks| - 1], chunks[|chunks| - 1];
    var m := BestPerEvent(init);
    assert BestPerEvent(chunks) == Offer(m, c);
    forall i | 0 <= i < |chunks| && chunks[i].eventId in Offer(m, c).best &&
        Score(chunks[i]) == Score(Offer(m, c).best[chunks[i].eventId])
      ensures Offer(m, c).best[chunks[i].eventId] in chunks[..i + 1]
    {
      TiesStepAt(chunks, m, i);
    }
  }

  /**
   * `m` is the reduction of `chunks` to one chunk per event id: ids in
   * first-appearance order; each id's chunk is one of its chunks with the
   * highest score; and of those, the first one seen.
   */
  ghost predicate IsBestPerEvent(chunks: seq<RetrievedChunk>, m: BestMap)
  {
    KeysInOrder(chunks, m) && ChosenFrom(chunks, m) && Maximal(chunks, m) && FirstOnTies(chunks, m)
  }

  lemma {:induction false} KeysCorrect(chunks: seq<RetrievedChunk>)
    ensures KeysInOrder(chunks, BestPerEvent(chunks))
  {
    if chunks == [] {
      assert Ids(chunks) == [];
    } else {
      var init, c := chunks[..|chunks| - 1], chunks[|chunks| - 1];
      KeysCorrect(init);
      KeysStep(init, BestPerEvent(init), c);
      assert init + [c] == chunks;
    }
  }

  lemma {:induction false} ChosenCorrect(chunks: seq<RetrievedChunk>)
    ensures ChosenFrom(chunks, BestPerEvent(chunks))
  {
    if chunks != [] {
      var init, c := chunks[..|chunks| - 1], chunks[|chunks| - 1];
      ChosenCorrect(init);
      ChosenStep(init, BestPerEvent(init), c);
      assert init + [c] == chunks;
    }
  }

  lemma {:induction false} MaximalCorrect(chunks: seq<RetrievedChunk>)
    ensures Maximal(chunks, BestPerEvent(chunks))
  {
    if chunks != [] {
      var init, c := chunks[..|chunks| - 1], chunks[|chunks| - 1];
      MaximalCorrect(init);
      MaximalStep(init, BestPerEvent(init), c);
      assert init + [c] == chunks;
    }
  }

  lemma {:induction false} TiesCorrect(chunks: seq<RetrievedChunk>)
    ensures FirstOnTies(chunks, BestPerEvent(chunks))
  {
    if chunks != [] {
      var init, c := chunks[..|chunks| - 1], chunks[|chunks| - 1];
      TiesCorrect(init);
      ChosenCorrect(init);
      MaximalCorrect(init);
      TiesStep(chunks);
    }
  }

  lemma BestPerEventCorrect(chunks: seq<RetrievedChunk>)
    ensures IsBestPerEvent(chunks, BestPerEvent(chunks))
  {
    KeysCorrect(chunks);
    ChosenCorrect(chunks);
    MaximalCorrect(chunks);
    TiesCorrect(chunks);
  }

  /**
   * Lines 66-72 of the route: the loop that fills `idToBest` from
   * `filteredBySim`. Afterwards there is one entry per event id, ids in
   * first-appearance order; each entry is a chunk of that id with the
   * highest score, the first such when several tie.
   */
  method PickBestPerEvent(chunks: seq<RetrievedChunk>) returns (m: BestMap)
    ensures m == BestPerEvent(chunks)
    ensures IsBestPerEvent(chunks, m)
  {
    m := BestMap([], map[]);
    var i := 0;
    while i < |chunks|
      invariant 0 <= i <= |chunks|
      invariant m == BestPerEvent(chunks[..i])
    {
      var c := chunks[i];
      var prev := if c.eventId in m.best then Some(m.best[c.eventId]) else None;
      if prev.None? || Score(c) > Score(prev.value) {
        m := BestMap(if c.eventId in m.best then m.keys else m.keys + [c.eventId], m.best[c.eventId := c]);
      }
      assert chunks[..i + 1][..i] == chunks[..i];
      i := i + 1;
    }
    assert chunks[..i] == chunks;
    BestPerEventCorrect(chunks);
  }

  /** `filteredIds`: the first `topK` keys in insertion order, not re-sorted by score. */
  function TopIds(m: BestMap, topK: int): seq<EventId>
  {
    SlicePrefix(m.keys, topK)
  }

  /** `filteredIds` lists distinct ids, at most `topK` of them, in first-appearance order. */
  lemma {:induction false} TopIdsSpec(chunks: seq<RetrievedChunk>, topK: int)
    ensures var ids := TopIds(BestPerEvent(chunks), topK);
      NoDup(ids) && |ids| <= |Distinct(Ids(chunks))| && ids == Distinct(Ids(chunks))[..|ids|] &&
      (topK >= 0 ==> |ids| <= topK) && (topK == 0 ==> ids == [])
  {
    BestPerEventCorrect(chunks);
    var keys := BestPerEvent(chunks).keys;
    var ids := TopIds(BestPerEvent(chunks), topK);
    assert forall i, j :: 0 <= i < j < |ids| ==> ids[i] == keys[i] && ids[j] == keys[j];
  }

  // ------------------------------------------------------- suggested events

  /** `{...ev, similarity: idToBest.get(ev.id)?.similarity ?? null}`. */
  function Attach(rows: seq<EventRow>, m: BestMap): seq<SuggestedEvent>
  {
    seq(|rows|, i requires 0 <= i < |rows| =>
      SuggestedEvent(rows[i], if rows[i].id in m.best then m.best[rows[i].id].similarity else None))
  }

  /** `(x.similarity ?? 0)`, the sort key. */
  function Key(e: SuggestedEvent): real
  {
    e.similarity.GetOr(0.0)
  }

  predicate SortedDescending(xs: seq<SuggestedEvent>)
  {
    forall i, j :: 0 <= i < j < |xs| ==> Key(xs[i]) >= Key(xs[j])
  }

  /** Puts `x` before the first element whose key is not larger than its own. */
  function InsertDescending(x: SuggestedEvent, xs: seq<SuggestedEvent>): (r: seq<SuggestedEvent>)
    requires SortedDescending(xs)
    ensures |r| == |xs| + 1 && r[0] == (if xs == [] || Key(xs[0]) <= Key(x) then x else xs[0])
    ensures SortedDescending(r)
    ensures multiset(r) == multiset(xs) + multiset{x}
  {
    if xs == [] then [x]
    else if Key(xs[0]) <= Key(x) then [x] + xs
    else
      assert xs == [xs[0]] + xs[1..];
      [xs[0]] + InsertDescending(x, xs[1..])
  }

  /**
   * `.sort((a, b) => (b.similarity ?? 0) - (a.similarity ?? 0))`: a stable
   * sort by score, highest first.
   */
  function SortByScore(xs: seq<SuggestedEvent>): (r: seq<SuggestedEvent>)
    ensures SortedDescending(r)
    ensures multiset(r) == multiset(xs)
  {
    if xs == [] then []
    else
      assert xs == [xs[0]] + xs[1..];
      InsertDescending(xs[0], SortByScore(xs[1..]))
  }

  /** `suggestedEvents`: empty unless there are ids and the lookup returned an array of rows. */
  function Suggested(ids: seq<EventId>, lookup: SelectResult, m: BestMap): seq<SuggestedEvent>
  {
    if ids == [] then []
    else match lookup
      case SelectRows(Some(rows)) => SortByScore(Attach(rows, m))
      case _ => []
  }

  /**
   * The suggestions are the looked-up rows, each once, highest score first;
   * a row carries the similarity of the chunk kept for its id, or `null`
   * when its id was not kept. Empty when there are no ids to look up or the
   * lookup gave no array.
   */
  lemma {:induction false} SuggestedSpec(ids: seq<EventId>, lookup: SelectResult, m: BestMap)
    ensures SortedDescending(Suggested(ids, lookup, m))
    ensures ids == [] || !lookup.SelectRows? || lookup.rows.None? ==> Suggested(ids, lookup, m) == []
    ensures ids != [] && lookup.SelectRows? && lookup.rows.Some? ==>
      multiset(Suggested(ids, lookup, m)) == multiset(Attach(lookup.rows.value, m))
    ensures forall e :: e in Suggested(ids, lookup, m) ==>
      e.similarity == (if e.row.id in m.best then m.best[e.row.id].similarity else None)
  {
    var r := Suggested(ids, lookup, m);
    forall e | e in r ensures e.similarity == (if e.row.id in m.best then m.best[e.row.id].similarity else None) {
      var rows := lookup.rows.value;
      assert e in multiset(Attach(rows, m));
      var k :| 0 <= k < |rows| && Attach(rows, m)[k] == e;
    }
  }

  /**
   * The chunk kept for an id is a relevant chunk of that id, and no relevant
   * chunk of that id has a higher similarity: the similarity attached to a
   * suggested event is the best among its chunks.
   */
  lemma {:induction false} KeptSimilarityIsBest(chunks: seq<RetrievedChunk>, id: EventId)
    requires id in BestPerEvent(FilterBySimilarity(chunks, MinSimilarity)).best
    ensures var b := BestPerEvent(FilterBySimilarity(chunks, MinSimilarity)).best[id];
      b in chunks && b.eventId == id && Relevant(b, MinSimilarity) &&
      forall c :: c in chunks && c.eventId == id && Relevant(c, MinSimilarity) ==> c.similarity.value <= b.similarity.value
  {
    var filtered := FilterBySimilarity(chunks, MinSimilarity);
    ChosenCorrect(filtered);
    MaximalCorrect(filtered);
    FilterMembers((c: RetrievedChunk) => Relevant(c, MinSimilarity), chunks);
    forall c | c in chunks && c.eventId == id && Relevant(c, MinSimilarity)
      ensures c.similarity.value <= BestPerEvent(filtered).best[id].similarity.value
    {
      assert c in filtered;
      var i :| 0 <= i < |filtered| && filtered[i] == c;
    }
  }

  // ------------------------------------------------------------ the route

  /** The route after the search: complete with the context of `chunks`, then look up the suggested events. */
  method Conclude(
    q: Query,
    chunks: seq<RetrievedChunk>,
    complete: seq<ChatMessage> -> CompletionResult,
    lookup: seq<EventId> -> SelectResult)
    returns (response: ChatResponse, calls: seq<ChatCall>)
    ensures var prompt := CompletionMessages(ContextText(chunks), q.messages);
      |calls| >= 1 && calls[0] == Complete(prompt) &&
      (complete(prompt).CompletionThrew? ==> response == Failure(500, ServerError) && |calls| == 1) &&
      (complete(prompt).Completed? ==>
        var filtered := FilterBySimilarity(chunks, MinSimilarity);
        var m := BestPerEvent(filtered);
        var ids := TopIds(m, q.topK);
        calls[1..] == (if ids == [] then [] else [SelectEvents(ids)]) &&
        response == Answer(complete(prompt).content.GetOr(""), filtered, Suggested(ids, lookup(ids), m)))
  {
    var prompt := CompletionMessages(ContextText(chunks), q.messages);
    calls := [Complete(prompt)];
    var completion := complete(prompt);
    if completion.CompletionThrew? {
      return Failure(500, ServerError), calls;
    }
    var answer := completion.content.GetOr("");

    var filtered := FilterBySimilarity(chunks, MinSimilarity);
    var m := PickBestPerEvent(filtered);
    var ids := TopIds(m, q.topK);

    var suggested: seq<SuggestedEvent> := [];
    if ids != [] {
      calls := calls + [SelectEvents(ids)];
      suggested := Suggested(ids, lookup(ids), m);
    }
    response := Answer(answer, filtered, suggested);
  }

  /** The route after validation: embed the query, search, complete, then look up the suggested events. */
  method Respond(
    q: Query,
    embed: string -> Option<Embedding>,
    search: (Embedding, int) -> SearchResult,
    complete: seq<ChatMessage> -> CompletionResult,
    lookup: seq<EventId> -> SelectResult)
    returns (response: ChatResponse, calls: seq<ChatCall>)
    ensures |calls| >= 1 && calls[0] == EmbedQuery(q.userMessage)
    ensures embed(q.userMessage).None? ==> response == Failure(500, ServerError) && calls == [EmbedQuery(q.userMessage)]
    ensures embed(q.userMessage).Some? ==>
      var v := embed(q.userMessage).value;
      |calls| >= 2 && calls[1] == SearchVectors(v, q.topK) &&
      (search(v, q.topK).SearchFailed? ==> response == Failure(500, SearchError) && |calls| == 2) &&
      (search(v, q.topK).SearchRows? ==>
        var chunks := search(v, q.topK).rows.GetOr([]);
        var prompt := CompletionMessages(ContextText(chunks), q.messages);
        |calls| >= 3 && calls[2] == Complete(prompt) &&
        (complete(prompt).CompletionThrew? ==> response == Failure(500, ServerError) && |calls| == 3) &&
        (complete(prompt).Completed? ==>
          var filtered := FilterBySimilarity(chunks, MinSimilarity);
          var m := BestPerEvent(filtered);
          var ids := TopIds(m, q.topK);
          calls[3..] == (if ids == [] then [] else [SelectEvents(ids)]) &&
          response == Answer(complete(prompt).content.GetOr(""), filtered, Suggested(ids, lookup(ids), m))))
  {
    calls := [EmbedQuery(q.userMessage)];
    var embedded := embed(q.userMessage);
    if embedded.None? {
      return Failure(500, ServerError), calls;
    }

    calls := calls + [SearchVectors(embedded.value, q.topK)];
    var found := search(embedded.value, q.topK);
    if found.SearchFailed? {
      return Failure(500, SearchError), calls;
    }
    var later;
    response, later := Conclude(q, found.rows.GetOr([]), complete, lookup);
    assert (calls + later)[2..] == later;
    calls := calls + later;
  }

  /**
   * `POST /api/chat`. `body` is `None` when the request body is not JSON.
   * `embed` answers the embedding request (`None` when it throws), `search`
   * answers the vector search for a query embedding and a match count, `complete` answers the completion
   * request and `lookup` the events table query for a list of ids.
   */
  method Post(
    body: Option<ChatBody>,
    embed: string -> Option<Embedding>,
    search: (Embedding, int) -> SearchResult,
    complete: seq<ChatMessage> -> CompletionResult,
    lookup: seq<EventId> -> SelectResult)
    returns (response: ChatResponse, calls: seq<ChatCall>)
    ensures body.None? ==> response == Failure(500, ServerError) && calls == []
    ensures body.Some? && Validate(body.value).Rejected? ==>
      response == Failure(400, Validate(body.value).error) && calls == []
    ensures body.Some? && Validate(body.value).Accepted? ==>
      var q := Validate(body.value).query;
      |calls| >= 1 && calls[0] == EmbedQuery(q.userMessage) &&
      (embed(q.userMessage).None? ==> response == Failure(500, ServerError) && calls == [EmbedQuery(q.userMessage)]) &&
      (embed(q.userMessage).Some? ==>
        var v := embed(q.userMessage).value;
        |calls| >= 2 && calls[1] == SearchVectors(v, q.topK) &&
        (search(v, q.topK).SearchFailed? ==> response == Failure(500, SearchError) && |calls| == 2) &&
        (search(v, q.topK).SearchRows? ==>
          var chunks := search(v, q.topK).rows.GetOr([]);
          var prompt := CompletionMessages(ContextText(chunks), q.messages);
          |calls| >= 3 && calls[2] == Complete(prompt) &&
          (complete(prompt).CompletionThrew? ==> response == Failure(500, ServerError) && |calls| == 3) &&
          (complete(prompt).Completed? ==>
            var filtered := FilterBySimilarity(chunks, MinSimilarity);
            var m := BestPerEvent(filtered);
            var ids := TopIds(m, q.topK);
            calls[3..] == (if ids == [] then [] else [SelectEvents(ids)]) &&
            response == Answer(complete(prompt).content.GetOr(""), filtered, Suggested(ids, lookup(ids), m)))))
  {
    calls := [];
    if body.None? {
      return Failure(500, ServerError), calls;
    }
    var checked := Validate(body.value);
    if checked.Rejected? {
      return Failure(400, checked.error), calls;
    }
    response, calls := Respond(checked.query, embed, search, complete, lookup);
  }
}
