/**
 * The ingestion route (`POST /api/embeddings/ingest`): every event's text
 * `name + "\n" + long_description`, trimmed, is cut into consecutive
 * 500-character windows; whitespace-only windows are dropped; each kept
 * window becomes a chunk carrying the event's display fields; each chunk is
 * embedded one at a time and the chunks are inserted as rows
 * `{event_id, content, embedding}`. The embedding service and the insert
 * are parameters: `embed` answers a text with a vector, or `None` when the
 * call throws; `insert` answers whether the insert succeeded.
 */
module IngestRoute {
  import opened Wrappers
  import opened Seqs
  import opened Text

  /** The `id` of an incoming event: a number, a string, or absent. */
  datatype IdValue = NumberId(n: int) | StringId(s: string) | NoId

  /** An element of the request's `events` array; `None` is a missing field. */
  datatype IngestEvent = IngestEvent(
    id: IdValue,
    name: Option<string>,
    longDescription: Option<string>,
    area: Option<string>,
    start: Option<string>,
    end: Option<string>,
    websiteUrl: Option<string>)

  /** The request body; `events` is `None` when it is not an array. */
  datatype IngestBody = IngestBody(events: Option<seq<IngestEvent>>)

  /** One chunk of an event's text with the event's fields copied onto it. */
  datatype Chunk = Chunk(
    eventId: IdValue,
    eventName: Option<string>,
    start: Option<string>,
    end: Option<string>,
    area: Option<string>,
    websiteUrl: Option<string>,
    text: string,
    embedding: Option<seq<real>>)

  /** The `event_id` of an inserted row: a number, `NaN`, or absent. */
  datatype PayloadId = IdNumber(n: int) | IdNaN | IdAbsent

  datatype PayloadRow = PayloadRow(eventId: PayloadId, content: string, embedding: Option<seq<real>>)

  datatype IngestCall = EmbedText(input: string) | InsertRows(rows: seq<PayloadRow>)

  datatype IngestResponse = Failure(status: int, error: string) | Inserted(count: nat)

  const ChunkSize: nat := 500

  const EmptyEventsError := "eventsが空です"
  const SaveError := "保存に失敗しました"
  const ServerError := "サーバーエラー"

  // ------------------------------------------------------------ base text

  /** A template literal renders a missing value as `undefined`. */
  function NameText(name: Option<string>): string
  {
    match name
    case Some(s) => s
    case None => "undefined"
  }

  /** The raw text of an event before trimming. */
  function RawText(ev: IngestEvent): string
  {
    NameText(ev.name) + "\n" + ev.longDescription.GetOr("")
  }

  function Base(ev: IngestEvent): string
  {
    Trim(RawText(ev))
  }

  // ------------------------------------------------------------ windows

  /** `base.slice(i, i + 500)`: at most 500 characters from `i`, fewer only at the end. */
  function Window(b: string, i: nat): (w: string)
    requires i <= |b|
    ensures |w| <= ChunkSize && i + |w| <= |b| && w == b[i..i + |w|]
    ensures |w| == ChunkSize || i + |w| == |b|
  {
    b[i..if i + ChunkSize < |b| then i + ChunkSize else |b|]
  }

  /** A whitespace-only window, the one `text.trim().length === 0` skips (see `TrimEmptyIff`). */
  predicate Blank(t: string)
  {
    AllWhitespace(t)
  }

  /** The offsets `i, i + 500, …` below `|b|` whose window is kept. */
  function KeptOffsets(b: string, i: nat): seq<nat>
    decreases |b| - i
  {
    if i >= |b| then []
    else (if Blank(Window(b, i)) then [] else [i]) + KeptOffsets(b, i + ChunkSize)
  }

  /** The texts of the windows the inner loop keeps, starting at offset `i`. */
  function KeptWindows(b: string, i: nat): seq<string>
    decreases |b| - i
  {
    if i >= |b| then []
    else (if Blank(Window(b, i)) then [] else [Window(b, i)]) + KeptWindows(b, i + ChunkSize)
  }

  /** The `j`-th kept text is the window at the `j`-th kept offset. */
  lemma {:induction false} KeptWindowsAt(b: string, i: nat)
    ensures |KeptWindows(b, i)| == |KeptOffsets(b, i)|
    ensures forall j :: 0 <= j < |KeptOffsets(b, i)| ==>
      KeptOffsets(b, i)[j] <= |b| && KeptWindows(b, i)[j] == Window(b, KeptOffsets(b, i)[j])
    decreases |b| - i
  {
    if i < |b| {
      KeptWindowsAt(b, i + ChunkSize);
      var w, ws, os := Window(b, i), KeptWindows(b, i + ChunkSize), KeptOffsets(b, i + ChunkSize);
      if Blank(w) {
        assert KeptWindows(b, i) == ws && KeptOffsets(b, i) == os;
      } else {
        assert KeptWindows(b, i) == [w] + ws && KeptOffsets(b, i) == [i] + os;
        WindowsAtCons(b, i, ws, os);
      }
    }
  }

  /** Putting the window at `i` in front keeps texts and offsets in step. */
  lemma WindowsAtCons(b: string, i: nat, ws: seq<string>, os: seq<nat>)
    requires i <= |b| && |ws| == |os|
    requires forall j :: 0 <= j < |os| ==> os[j] <= |b| && ws[j] == Window(b, os[j])
    ensures var ws', os' := [Window(b, i)] + ws, [i] + os;
      forall j :: 0 <= j < |os'| ==> os'[j] <= |b| && ws'[j] == Window(b, os'[j])
  {
    var ws', os' := [Window(b, i)] + ws, [i] + os;
    forall j | 0 <= j < |os'| ensures os'[j] <= |b| && ws'[j] == Window(b, os'[j]) {
      if j > 0 {
        assert os'[j] == os[j - 1] && ws'[j] == ws[j - 1];
      }
    }
  }

  /** Kept offsets lie in `[i, |b|)`, step from `i` by multiples of 500, and have a window that is not blank. */
  lemma {:induction false} KeptOffsetsSound(b: string, i: nat)
    ensures forall j :: 0 <= j < |KeptOffsets(b, i)| ==>
      var o := KeptOffsets(b, i)[j];
      i <= o < |b| && (o - i) % ChunkSize == 0 && !Blank(Window(b, o))
    decreases |b| - i
  {
    if i < |b| {
      KeptOffsetsSound(b, i + ChunkSize);
      var head: seq<nat> := if Blank(Window(b, i)) then [] else [i];
      var rest := KeptOffsets(b, i + ChunkSize);
      assert KeptOffsets(b, i) == head + rest;
      forall j | 0 <= j < |KeptOffsets(b, i)|
        ensures var o := KeptOffsets(b, i)[j]; i <= o < |b| && (o - i) % ChunkSize == 0 && !Blank(Window(b, o))
      {
        if j >= |head| {
          var o := rest[j - |head|];
          assert (o - (i + ChunkSize)) % ChunkSize == 0;
          assert o - i == (o - (i + ChunkSize)) + ChunkSize;
        }
      }
    }
  }

  /** Every offset `i + 500k` below `|b|` whose window is not blank is kept. */
  lemma {:induction false} KeptOffsetsComplete(b: string, i: nat, o: nat)
    requires i <= o < |b| && (o - i) % ChunkSize == 0 && !Blank(Window(b, o))
    ensures o in KeptOffsets(b, i)
    decreases |b| - i
  {
    if o != i {
      var q := (o - i) / ChunkSize;
      assert o - i == ChunkSize * q;
      assert q >= 1;
      assert o - (i + ChunkSize) == ChunkSize * (q - 1);
      KeptOffsetsComplete(b, i + ChunkSize, o);
    }
  }

  /** Kept offsets are strictly ascending. */
  lemma {:induction false} KeptOffsetsAscending(b: string, i: nat)
    ensures forall j1, j2 :: 0 <= j1 < j2 < |KeptOffsets(b, i)| ==> KeptOffsets(b, i)[j1] < KeptOffsets(b, i)[j2]
    decreases |b| - i
  {
    if i < |b| {
      KeptOffsetsAscending(b, i + ChunkSize);
      KeptOffsetsSound(b, i + ChunkSize);
      var head: seq<nat> := if Blank(Window(b, i)) then [] else [i];
      assert KeptOffsets(b, i) == head + KeptOffsets(b, i + ChunkSize);
    }
  }

  /** No window from offset `i` on is blank. */
  ghost predicate NoBlankWindow(b: string, i: nat)
  {
    forall o: nat :: i <= o < |b| && (o - i) % ChunkSize == 0 ==> !Blank(Window(b, o))
  }

  /** Without blank windows from `i`, the window at `i` is kept and none from `i + 500` is blank. */
  lemma NoBlankStep(b: string, i: nat)
    requires i < |b| && NoBlankWindow(b, i)
    ensures !Blank(Window(b, i)) && NoBlankWindow(b, i + ChunkSize)
    ensures KeptWindows(b, i) == [Window(b, i)] + KeptWindows(b, i + ChunkSize)
  {
    assert (i - i) % ChunkSize == 0;
    forall o: nat | i + ChunkSize <= o < |b| && (o - (i + ChunkSize)) % ChunkSize == 0
      ensures !Blank(Window(b, o))
    {
      assert o - i == (o - (i + ChunkSize)) + ChunkSize;
      assert (o - i) % ChunkSize == 0;
    }
  }

  /** Without blank windows, the kept texts concatenate back to `b[i..]`. */
  lemma {:induction false} Reconstruct(b: string, i: nat)
    requires i <= |b| && NoBlankWindow(b, i)
    ensures Concat(KeptWindows(b, i)) == b[i..]
    decreases |b| - i
  {
    if i < |b| {
      NoBlankStep(b, i);
      var w, rest := Window(b, i), KeptWindows(b, i + ChunkSize);
      assert ([w] + rest)[1..] == rest;
      if i + ChunkSize < |b| {
        Reconstruct(b, i + ChunkSize);
        assert b[i..] == w + b[i + ChunkSize..];
      } else {
        assert rest == [];
        assert w == b[i..];
      }
    }
  }

  /** Without blank windows, `b[i..]` gives `ceil((|b| - i) / 500)` chunks. */
  lemma {:induction false} KeptCount(b: string, i: nat)
    requires i <= |b| && NoBlankWindow(b, i)
    ensures |KeptWindows(b, i)| == (|b| - i + ChunkSize - 1) / ChunkSize
    decreases |b| - i
  {
    if i < |b| {
      NoBlankStep(b, i);
      if i + ChunkSize < |b| {
        KeptCount(b, i + ChunkSize);
      } else {
        assert KeptWindows(b, i + ChunkSize) == [];
      }
    }
  }

  /** A trimmed base keeps its first window, so it yields a chunk exactly when it is not empty. */
  lemma {:induction false} FirstWindowKept(ev: IngestEvent)
    ensures Base(ev) != [] ==> |KeptOffsets(Base(ev), 0)| > 0 && KeptOffsets(Base(ev), 0)[0] == 0
    ensures KeptWindows(Base(ev), 0) == [] <==> Base(ev) == []
  {
    var b := Base(ev);
    TrimEdges(RawText(ev));
    KeptWindowsAt(b, 0);
    if b != [] {
      assert Window(b, 0)[0] == b[0];
      assert KeptOffsets(b, 0) == [0] + KeptOffsets(b, ChunkSize);
    }
  }

  // ------------------------------------------------------------ chunks

  /** The chunk object pushed for one kept window of `ev`. */
  function MakeChunk(ev: IngestEvent, text: string): Chunk
  {
    Chunk(ev.id, ev.name, ev.start, ev.end, ev.area, ev.websiteUrl, text, None)
  }

  /** The chunks pushed for `texts`, in order. */
  function Stamp(ev: IngestEvent, texts: seq<string>): (r: seq<Chunk>)
    ensures |r| == |texts|
    ensures forall k :: 0 <= k < |texts| ==> r[k] == MakeChunk(ev, texts[k])
  {
    if texts == [] then [] else [MakeChunk(ev, texts[0])] + Stamp(ev, texts[1..])
  }

  function EventChunks(ev: IngestEvent): seq<Chunk>
  {
    Stamp(ev, KeptWindows(Base(ev), 0))
  }

  /** The chunks of all events, event by event. */
  function ChunksOf(events: seq<IngestEvent>): seq<Chunk>
  {
    FlatMap(EventChunks, events)
  }

  lemma {:induction false} StampCons(ev: IngestEvent, t: string, ts: seq<string>)
    ensures Stamp(ev, [t] + ts) == [MakeChunk(ev, t)] + Stamp(ev, ts)
  {
    assert ([t] + ts)[1..] == ts;
  }

  /** The chunks of `a + b` are the chunks of `a` followed by those of `b`: input order is kept. */
  lemma {:induction false} ChunksOfAppend(a: seq<IngestEvent>, b: seq<IngestEvent>)
    ensures ChunksOf(a + b) == ChunksOf(a) + ChunksOf(b)
  {
    FlatMapAppend(EventChunks, a, b);
  }

  /** A single event gives exactly its own chunks. */
  lemma {:induction false} ChunksOfSingle(ev: IngestEvent)
    ensures ChunksOf([ev]) == EventChunks(ev)
  {
    assert [ev][..0] == [] && [ev][0] == ev;
    assert FlatMap(EventChunks, [ev]) == FlatMap(EventChunks, []) + EventChunks(ev);
  }

  /** Each chunk is one kept window of one input event, with that event's fields copied unchanged. */
  lemma {:induction false} ChunksOfFields(events: seq<IngestEvent>)
    ensures forall c :: c in ChunksOf(events) ==>
      exists ev :: ev in events && c == MakeChunk(ev, c.text) && c.text in KeptWindows(Base(ev), 0)
  {
    FlatMapMembers(EventChunks, events);
    forall c | c in ChunksOf(events)
      ensures exists ev :: ev in events && c == MakeChunk(ev, c.text) && c.text in KeptWindows(Base(ev), 0)
    {
      var ev :| ev in events && c in EventChunks(ev);
      ChunkOfEvent(ev, c);
    }
  }

  /** A chunk of one event is one of its kept windows stamped with its fields. */
  lemma ChunkOfEvent(ev: IngestEvent, c: Chunk)
    requires c in EventChunks(ev)
    ensures c == MakeChunk(ev, c.text) && c.text in KeptWindows(Base(ev), 0)
  {
    var k :| 0 <= k < |EventChunks(ev)| && EventChunks(ev)[k] == c;
    assert c.text == KeptWindows(Base(ev), 0)[k];
  }

  /** Every chunk text is at most 500 characters and is not blank. */
  lemma {:induction false} ChunkTextBounds(events: seq<IngestEvent>)
    ensures forall c :: c in ChunksOf(events) ==> |c.text| <= ChunkSize && !Blank(c.text)
  {
    ChunksOfFields(events);
    forall c | c in ChunksOf(events) ensures |c.text| <= ChunkSize && !Blank(c.text) {
      var ev :| ev in events && c == MakeChunk(ev, c.text) && c.text in KeptWindows(Base(ev), 0);
      var b := Base(ev);
      KeptWindowsAt(b, 0);
      KeptOffsetsSound(b, 0);
      var j :| 0 <= j < |KeptWindows(b, 0)| && KeptWindows(b, 0)[j] == c.text;
      assert c.text == Window(b, KeptOffsets(b, 0)[j]);
    }
  }

  /** One turn of the inner loop: the window at `i` is pushed exactly when its trimmed text is not empty. */
  lemma {:induction false} KeepStep(ev: IngestEvent, b: string, i: nat, text: string)
    requires i < |b| && text == b[i..if i + ChunkSize < |b| then i + ChunkSize else |b|]
    ensures Stamp(ev, KeptWindows(b, i)) ==
      (if Trim(text) == [] then [] else [MakeChunk(ev, text)]) + Stamp(ev, KeptWindows(b, i + ChunkSize))
  {
    assert text == Window(b, i);
    TrimEmptyIff(text);
    if Trim(text) != [] {
      StampCons(ev, text, KeptWindows(b, i + ChunkSize));
    }
  }

  /** The inner loop over one event's base text: for `i = 0, 500, …` below `|base|`, push the window unless it is whitespace only. */
  method ChunkBase(ev: IngestEvent, base: string) returns (pushed: seq<Chunk>)
    ensures pushed == Stamp(ev, KeptWindows(base, 0))
  {
    pushed := [];
    var i: nat := 0;
    while i < |base|
      invariant pushed + Stamp(ev, KeptWindows(base, i)) == Stamp(ev, KeptWindows(base, 0))
      decreases |base| - i
    {
      var text := base[i..if i + ChunkSize < |base| then i + ChunkSize else |base|];
      KeepStep(ev, base, i, text);
      ghost var rest := Stamp(ev, KeptWindows(base, i + ChunkSize));
      if Trim(text) != [] {
        AppendAssoc(pushed, [MakeChunk(ev, text)], rest);
        pushed := pushed + [MakeChunk(ev, text)];
      } else {
        assert [] + rest == rest;
      }
      i := i + ChunkSize;
    }
  }

  /** The chunks of one event: its base text, then the inner loop. */
  method ChunkEvent(ev: IngestEvent) returns (pushed: seq<Chunk>)
    ensures pushed == EventChunks(ev)
  {
    var base := Trim(NameText(ev.name) + "\n" + ev.longDescription.GetOr(""));
    pushed := ChunkBase(ev, base);
  }

  /** The outer loop: the chunks of every event, in input order. */
  method BuildChunks(events: seq<IngestEvent>) returns (chunks: seq<Chunk>)
    ensures chunks == ChunksOf(events)
  {
    chunks := [];
    var j := 0;
    while j < |events|
      invariant 0 <= j <= |events|
      invariant chunks == ChunksOf(events[..j])
    {
      var pushed := ChunkEvent(events[j]);
      FlatMapSnoc(EventChunks, events, j);
      chunks := chunks + pushed;
      j := j + 1;
    }
    assert events[..j] == events;
  }

  // ------------------------------------------------------------ embeddings

  /** The chunks after every embedding request succeeded. */
  function Embedded(chunks: seq<Chunk>, embed: string -> Option<seq<real>>): (r: seq<Chunk>)
    ensures |r| == |chunks|
  {
    seq(|chunks|, k requires 0 <= k < |chunks| => chunks[k].(embedding := embed(chunks[k].text)))
  }

  function Texts(chunks: seq<Chunk>): (r: seq<string>)
    ensures |r| == |chunks|
  {
    seq(|chunks|, k requires 0 <= k < |chunks| => chunks[k].text)
  }

  ghost predicate AllEmbedded(chunks: seq<Chunk>, embed: string -> Option<seq<real>>)
  {
    forall k :: 0 <= k < |chunks| ==> embed(chunks[k].text).Some?
  }

  /**
   * The second loop: request an embedding for each chunk in turn and store
   * it on the chunk. A failing request ends the loop (the route answers
   * 500); `requested` are the texts sent, in order.
   */
  method EmbedAll(chunks: seq<Chunk>, embed: string -> Option<seq<real>>)
    returns (embedded: Option<seq<Chunk>>, requested: seq<string>)
    ensures |requested| <= |chunks| && requested == Texts(chunks)[..|requested|]
    ensures embedded.Some? <==> AllEmbedded(chunks, embed)
    ensures embedded.Some? ==> requested == Texts(chunks) && embedded.value == Embedded(chunks, embed)
    ensures embedded.None? ==>
      |requested| >= 1 && embed(requested[|requested| - 1]).None? &&
      forall k :: 0 <= k < |requested| - 1 ==> embed(requested[k]).Some?
  {
    var work := chunks;
    requested := [];
    var i := 0;
    while i < |work|
      invariant 0 <= i <= |chunks| && |work| == |chunks|
      invariant requested == Texts(chunks)[..i]
      invariant forall k :: 0 <= k < i ==> embed(chunks[k].text).Some?
      invariant forall k :: 0 <= k < i ==> work[k] == chunks[k].(embedding := embed(chunks[k].text))
      invariant forall k :: i <= k < |chunks| ==> work[k] == chunks[k]
    {
      requested := requested + [work[i].text];
      var emb := embed(work[i].text);
      if emb.None? {
        assert requested == Texts(chunks)[..i + 1];
        return None, requested;
      }
      work := work[i := work[i].(embedding := emb)];
      i := i + 1;
    }
    assert requested == Texts(chunks);
    return Some(work), requested;
  }

  // ------------------------------------------------------------ payload

  /** `typeof id === "string" ? Number(id) : id` */
  function ToPayloadId(id: IdValue): PayloadId
  {
    match id
    case NumberId(n) => IdNumber(n)
    case StringId(s) => (match ParseInteger(s) case Some(n) => IdNumber(n) case None => IdNaN)
    case NoId => IdAbsent
  }

  /** A numeric id is inserted as is, and the decimal text of an integer id is inserted as that integer. */
  lemma {:induction false} PayloadIdRoundTrip(n: int)
    ensures ToPayloadId(NumberId(n)) == IdNumber(n)
    ensures ToPayloadId(StringId(IntegerString(n))) == IdNumber(n)
  {
    ParseIntegerString(n);
  }

  function PayloadOf(c: Chunk): PayloadRow
  {
    PayloadRow(ToPayloadId(c.eventId), c.text, c.embedding)
  }

  function Payload(chunks: seq<Chunk>): (p: seq<PayloadRow>)
    ensures |p| == |chunks|
  {
    seq(|chunks|, k requires 0 <= k < |chunks| => PayloadOf(chunks[k]))
  }

  function Contents(rows: seq<PayloadRow>): (r: seq<string>)
    ensures |r| == |rows|
  {
    seq(|rows|, k requires 0 <= k < |rows| => rows[k].content)
  }

  /**
   * The rows inserted for one event hold its kept windows in order; when no
   * window of its base text is blank, their contents concatenate back to
   * the base text and there are `ceil(|base| / 500)` of them.
   */
  lemma {:induction false} PayloadOfEvent(ev: IngestEvent, embed: string -> Option<seq<real>>)
    ensures Contents(Payload(Embedded(ChunksOf([ev]), embed))) == KeptWindows(Base(ev), 0)
    ensures NoBlankWindow(Base(ev), 0) ==>
      Concat(Contents(Payload(Embedded(ChunksOf([ev]), embed)))) == Base(ev) &&
      |Payload(Embedded(ChunksOf([ev]), embed))| == (|Base(ev)| + ChunkSize - 1) / ChunkSize
  {
    ChunksOfSingle(ev);
    var texts := KeptWindows(Base(ev), 0);
    assert Contents(Payload(Embedded(ChunksOf([ev]), embed))) == texts;
    if NoBlankWindow(Base(ev), 0) {
      Reconstruct(Base(ev), 0);
      KeptCount(Base(ev), 0);
    }
  }

  /** The rows inserted are the chunks' texts in chunk order, one row per chunk, each with its chunk's converted id and embedding. */
  lemma {:induction false} PayloadRows(chunks: seq<Chunk>, embed: string -> Option<seq<real>>)
    ensures |Payload(Embedded(chunks, embed))| == |chunks|
    ensures Contents(Payload(Embedded(chunks, embed))) == Texts(chunks)
    ensures forall k :: 0 <= k < |chunks| ==>
      Payload(Embedded(chunks, embed))[k].eventId == ToPayloadId(chunks[k].eventId) &&
      Payload(Embedded(chunks, embed))[k].embedding == embed(chunks[k].text)
  {
  }

  // ------------------------------------------------------------ the route

  function EmbedCalls(texts: seq<string>): (r: seq<IngestCall>)
    ensures |r| == |texts|
  {
    seq(|texts|, k requires 0 <= k < |texts| => EmbedText(texts[k]))
  }

  /** The `events` the route works on: a non-array is treated as empty. */
  function EventsOf(body: IngestBody): seq<IngestEvent>
  {
    body.events.GetOr([])
  }

  /** The route's steps after chunking: embed every chunk in order, then insert all rows at once. */
  method EmbedAndInsert(chunks: seq<Chunk>, embed: string -> Option<seq<real>>, insert: seq<PayloadRow> -> bool)
    returns (response: IngestResponse, calls: seq<IngestCall>)
    ensures AllEmbedded(chunks, embed) ==>
      var rows := Payload(Embedded(chunks, embed));
      calls == EmbedCalls(Texts(chunks)) + [InsertRows(rows)] &&
      response == (if insert(rows) then Inserted(|chunks|) else Failure(500, SaveError))
    ensures !AllEmbedded(chunks, embed) ==>
      response == Failure(500, ServerError) &&
      1 <= |calls| <= |chunks| && calls == EmbedCalls(Texts(chunks)[..|calls|]) &&
      embed(Texts(chunks)[|calls| - 1]).None? &&
      forall k :: 0 <= k < |calls| - 1 ==> embed(Texts(chunks)[k]).Some?
  {
    var embedded, requested := EmbedAll(chunks, embed);
    calls := EmbedCalls(requested);
    if embedded.None? {
      assert |calls| == |requested| && requested == Texts(chunks)[..|calls|];
      assert forall k :: 0 <= k < |calls| ==> Texts(chunks)[k] == requested[k];
      return Failure(500, ServerError), calls;
    }
    assert requested == Texts(chunks);
    var rows := Payload(embedded.value);
    calls := calls + [InsertRows(rows)];
    if !insert(rows) {
      return Failure(500, SaveError), calls;
    }
    response := Inserted(|chunks|);
  }

  /**
   * `POST /api/embeddings/ingest`. `body` is `None` when the request body
   * is not JSON; `calls` are the upstream calls made, in order.
   */
  method Post(body: Option<IngestBody>, embed: string -> Option<seq<real>>, insert: seq<PayloadRow> -> bool)
    returns (response: IngestResponse, calls: seq<IngestCall>)
    ensures body.None? ==> response == Failure(500, ServerError) && calls == []
    ensures body.Some? && EventsOf(body.value) == [] ==> response == Failure(400, EmptyEventsError) && calls == []
    ensures body.Some? && EventsOf(body.value) != [] ==>
      var chunks := ChunksOf(EventsOf(body.value));
      (AllEmbedded(chunks, embed) ==>
        var rows := Payload(Embedded(chunks, embed));
        calls == EmbedCalls(Texts(chunks)) + [InsertRows(rows)] &&
        response == (if insert(rows) then Inserted(|chunks|) else Failure(500, SaveError))) &&
      (!AllEmbedded(chunks, embed) ==>
        response == Failure(500, ServerError) &&
        1 <= |calls| <= |chunks| && calls == EmbedCalls(Texts(chunks)[..|calls|]) &&
        embed(Texts(chunks)[|calls| - 1]).None? &&
        forall k :: 0 <= k < |calls| - 1 ==> embed(Texts(chunks)[k]).Some?)
  {
    calls := [];
    if body.None? {
      return Failure(500, ServerError), calls;
    }
    var events := EventsOf(body.value);
    if |events| == 0 {
      return Failure(400, EmptyEventsError), calls;
    }
    var chunks := BuildChunks(events);
    response, calls := EmbedAndInsert(chunks, embed, insert);
  }
}
