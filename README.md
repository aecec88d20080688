# Event assistant: ingestion, retrieval-grounded chat and the calendar pages, in Dafny

This project models the core of a local-event web application. It has three parts.

- **Ingestion** (`POST /api/embeddings/ingest`). Each event's text is its name, a newline and its long description, trimmed. That text is cut into 500-character windows, and whitespace-only windows are dropped. Every kept window becomes a chunk that carries the event's fields. The chunks are embedded one at a time, then inserted in one batch as rows `{event_id, content, embedding}`.
- **Chat** (`POST /api/chat`). The route validates the request and embeds the latest user message. It searches the vector index for `topK` chunks and builds a grounding context from every chunk found. It asks the completion model for an answer. It then keeps the chunks with similarity at least 0.55, keeps the best chunk per event id, and takes the first `topK` ids. It looks those events up and returns them sorted by similarity, highest first.
- **UI state**:
  - the chat page's message list, input and loading flag;
  - the calendar's month navigation, its week-aligned day grid, and the per-day category index drawn as coloured dots;
  - the category filter's option list;
  - the home page's list of events for the selected day and category.

Files:

- `wrappers.dfy`: `Option`.
- `seqs.dfy`: filter, de-duplication in first-seen order (`[...new Set(xs)]`, `includes`/`push`), `join`, `slice(0, n)`, and flattening, each with its lemmas.
- `text.dfy`: `trim` and `Number(string)` for decimal integers.
- `chat_route.dfy`: the chat route.
- `ingest_route.dfy`: the ingestion route.
- `events.dfy`, `calendar.dfy`, `category_filter.dfy`, `homepage.dfy`: the calendar pages.
- `chat_page.dfy`: the chat page.

The route handlers are methods over their loops and calls. Their contracts tie the response and the exact sequence of upstream calls to the specification functions. The properties of those functions are proved as lemmas. Components whose state changes (the chat page, the calendar's month, the home page's selection) are classes. Their methods' contracts state the new state.

External services are parameters of the route methods:
- the embedding service, the vector search, the completion model and the database queries;
- a failed call is a distinguished result, one per failure the route handles:
  - `None` from the embedding service: the embeddings request threw;
  - `SearchFailed`: the vector search RPC returned an `error`;
  - `CompletionThrew`: the completion request threw;
  - `SelectFailed`: the events lookup returned an `error`;
  - at ingestion, a failed embedding: the request threw; a failed insert: it returned an `error`.

Dates are calendar days counted from 1970-01-01 (proleptic Gregorian, weeks starting on Sunday). A date that does not parse is `None`.

## Model

| member | source | states |
|---|---|---|
| Text.TrimStart | src/app/api/embeddings/ingest/route.js:24 | the result is a suffix of the input; what was removed is all whitespace; the result does not start with whitespace |
| Text.TrimEnd | src/app/api/embeddings/ingest/route.js:24 | the result is a prefix of the input; what was removed is all whitespace; the result does not end with whitespace |
| Text.Trim | src/app/api/embeddings/ingest/route.js:24 | `trim()` removes the leading and then the trailing whitespace; TrimShape, TrimEdges, TrimEmptyIff and TrimIdempotent state what it leaves |
| Text.TrimShape | src/app/api/embeddings/ingest/route.js:24 | `trim` splits the string into a whitespace prefix, the result and a whitespace suffix |
| Text.TrimEdges | src/app/chat/page.jsx:118 | a non-empty trimmed string neither starts nor ends with whitespace |
| Text.TrimEmptyIff | src/app/api/embeddings/ingest/route.js:27 | `s.trim().length === 0` exactly when every character of `s` is whitespace |
| Text.TrimIdempotent | src/app/chat/page.jsx:118 | trimming a trimmed string changes nothing |
| Text.ParseInteger | src/app/api/embeddings/ingest/route.js:53 | `Number(s)` for decimal text: the trimmed text as an optionally signed run of digits, the blank string as 0, anything else `NaN` (`None`); ParseIntegerString proves it inverts `String(n)` |
| Text.ParseIntegerString | src/app/api/embeddings/ingest/route.js:53 | `Number(String(n)) === n` for every integer `n` |
| Seqs.SlicePrefix | src/app/api/chat/route.js:73 | `slice(0, n)` is a prefix of length `min(n, len)`; for negative `n` it drops `-n` elements from the end |
| Seqs.FirstIndex | src/components/ui/Filter.jsx:28 | the position of the first occurrence, before which the element does not occur |
| Seqs.Distinct | src/components/ui/Filter.jsx:27-29 | `[...new Set(xs)]`: each element appended unless already present; DistinctMembers, DistinctNoDup and DistinctFirstSeenOrder state its members, uniqueness and order |
| Seqs.DistinctMembers | src/components/ui/Filter.jsx:27-29 | de-duplication keeps exactly the elements of the input |
| Seqs.DistinctNoDup | src/components/ui/Filter.jsx:27-29 | de-duplication leaves no element twice |
| Seqs.DistinctFirstSeenOrder | src/components/ui/Filter.jsx:27-29 | de-duplicated elements come in the order of their first occurrence |
| Seqs.DistinctSnoc | src/components/calendar/Calendar.jsx:179-181 | pushing an element unless it is already included keeps the list equal to the de-duplication of everything offered |
| Seqs.Join | src/app/api/chat/route.js:46 | `xs.join(sep)`; JoinBlockAt, JoinSeparatorAt and JoinEmpty state where each element and separator stands and when it is empty |
| Seqs.JoinBlockAt | src/app/api/chat/route.js:46 | in `xs.join(sep)`, element `i` stands at the sum of the earlier lengths plus one separator per earlier element |
| Seqs.JoinSeparatorAt | src/app/api/chat/route.js:46 | between element `i` and element `i+1` of a join stands exactly the separator |
| Seqs.JoinEmpty | src/app/api/chat/route.js:46 | a join of non-empty strings is empty exactly when there are no elements |
| ChatRoute.LastUserIndex | src/app/api/chat/route.js:23 | reference definition: the index of a user turn with no user turn after it, or `None` when there is no user turn |
| ChatRoute.LatestUserContent | src/app/api/chat/route.js:23 | the content of the last `user` turn, `""` when it has none or there is no user turn; LatestUserContentIsLast ties it to LastUserIndex |
| ChatRoute.LatestUserContentIsLast | src/app/api/chat/route.js:23 | `filter(role === "user").at(-1)?.content ?? ""` is the content of the last user turn, or `""` when there is none |
| ChatRoute.Validate | src/app/api/chat/route.js:15-26 | 400 `messagesが空です` exactly when messages is missing, not an array or empty; 400 `ユーザーメッセージがありません` exactly when messages is non-empty and the latest user content is empty or absent; otherwise the query keeps all messages and `topK` defaults to 5 |
| ChatRoute.Block | src/app/api/chat/route.js:45 | a context block is longer than the chunk text and ends with it |
| ChatRoute.ContextText | src/app/api/chat/route.js:44-46 | the blocks of the retrieved chunks joined by `\n\n---\n\n`; ContextBlockAt, ContextSeparatorAt and ContextTextEmpty state its layout |
| ChatRoute.ContextBlockAt | src/app/api/chat/route.js:44-46 | the context holds the block of every retrieved chunk, in retrieval order, at its computed offset |
| ChatRoute.ContextSeparatorAt | src/app/api/chat/route.js:44-46 | every block but the last is followed by the `---` separator |
| ChatRoute.ContextTextEmpty | src/app/api/chat/route.js:44-46 | the context is empty exactly when the search returned no chunks |
| ChatRoute.SystemPrompt | src/app/api/chat/route.js:48 | the system prompt is the fixed instruction followed by the whole context |
| ChatRoute.CompletionMessages | src/app/api/chat/route.js:50-57 | the model receives one system message with the prompt, followed by the caller's turns unchanged |
| ChatRoute.FilterBySimilarity | src/app/api/chat/route.js:63 | the chunks whose similarity is a number at least the threshold; FilterBySimilaritySpec states membership, order and multiplicity |
| ChatRoute.FilterBySimilaritySpec | src/app/api/chat/route.js:62-63 | `sources` keeps, in order and with multiplicity, exactly the chunks whose similarity is a number at least the threshold |
| ChatRoute.Offer | src/app/api/chat/route.js:68-71 | one loop iteration: the chunk replaces its id's entry when there is none or it scores strictly higher (`similarity ?? 0`); KeysStep, ChosenStep, MaximalStep and TiesStep state what it keeps |
| ChatRoute.BestPerEvent | src/app/api/chat/route.js:66-72 | the loop as a left fold of Offer over the filtered chunks; KeysCorrect, ChosenCorrect, MaximalCorrect and TiesCorrect state its properties and PickBestPerEvent proves the loop computes it |
| ChatRoute.KeysStep | src/app/api/chat/route.js:67-71 | one loop iteration keeps the map's keys equal to the distinct ids seen so far, in first-seen order |
| ChatRoute.ChosenStep | src/app/api/chat/route.js:67-71 | one loop iteration keeps every entry a chunk seen so far with that id |
| ChatRoute.MaximalStep | src/app/api/chat/route.js:67-71 | one loop iteration keeps every entry scoring at least as high as every chunk of its id seen so far |
| ChatRoute.TiesStepAt | src/app/api/chat/route.js:69 | for one position: because the comparison is a strict `>`, after offering the last chunk a chunk tied with its id's entry has that entry at or before its own position |
| ChatRoute.TiesStep | src/app/api/chat/route.js:69 | one loop iteration keeps, among equally scored chunks of an id, the first one seen |
| ChatRoute.KeysCorrect | src/app/api/chat/route.js:66-73 | the map's keys are the distinct event ids of the filtered chunks, in first-appearance order |
| ChatRoute.ChosenCorrect | src/app/api/chat/route.js:66-72 | each id maps to one of the filtered chunks, and to one carrying that id |
| ChatRoute.MaximalCorrect | src/app/api/chat/route.js:66-72 | no filtered chunk scores higher than the chunk kept for its id |
| ChatRoute.TiesCorrect | src/app/api/chat/route.js:66-72 | when chunks of an id tie on the best score, the first one is kept |
| ChatRoute.BestPerEventCorrect | src/app/api/chat/route.js:66-72 | the fold of the loop body satisfies all four properties above |
| ChatRoute.PickBestPerEvent | src/app/api/chat/route.js:66-72 | the loop computes that fold, so it has one entry per id, in first-seen order, holding a first best-scoring chunk |
| ChatRoute.TopIds | src/app/api/chat/route.js:73 | `Array.from(idToBest.keys()).slice(0, topK)`; TopIdsSpec states its bounds and order |
| ChatRoute.TopIdsSpec | src/app/api/chat/route.js:73 | `filteredIds` are distinct, at most `topK` of them (none for `topK` 0), and a prefix of the ids in first-appearance order, not re-sorted by score |
| ChatRoute.InsertDescending | src/app/api/chat/route.js:88 | inserting into a descending list keeps it descending and adds exactly that element |
| ChatRoute.SortByScore | src/app/api/chat/route.js:88 | the sorted suggestions are a permutation of the input, in descending `similarity ?? 0` |
| ChatRoute.Attach | src/app/api/chat/route.js:83-86 | each looked-up row with the similarity of its id's kept chunk, or `null` when the id has none; KeptSimilarityIsBest states which similarity that is |
| ChatRoute.Suggested | src/app/api/chat/route.js:76-90 | no suggestions without ids or when the lookup fails or returns no array, otherwise the attached rows sorted by score; SuggestedSpec states its contents and order |
| ChatRoute.SuggestedSpec | src/app/api/chat/route.js:76-90 | suggestions are empty unless there are ids and the lookup returned an array; otherwise they are exactly the looked-up rows, highest similarity first, each carrying the similarity of its id's kept chunk or `null` |
| ChatRoute.KeptSimilarityIsBest | src/app/api/chat/route.js:62-72 | the similarity attached to an event is that of a relevant chunk of the event, and no relevant chunk of that event has a higher one |
| ChatRoute.Conclude | src/app/api/chat/route.js:50-94 | after the search: the completion call and then, only when there are ids, the events lookup; a thrown completion gives 500 `サーバーエラー`; otherwise the answer or `""`, the similarity-filtered sources and the suggestions |
| ChatRoute.Respond | src/app/api/chat/route.js:28-98 | calls are made in the order embed, search with the query embedding and `topK`, complete, events lookup (the lookup only when there are ids); a failed embedding or completion gives 500 `サーバーエラー`; a failed search gives 500 `検索に失敗しました`; otherwise the answer or `""`, the similarity-filtered sources and the suggestions |
| ChatRoute.Post | src/app/api/chat/route.js:12-98 | a body that is not JSON gives 500 with no calls; a rejected body gives its 400 with no calls; otherwise the response and calls `Respond` gives |
| IngestRoute.Window | src/app/api/embeddings/ingest/route.js:26 | `base.slice(i, i + 500)` is the substring at `i`: 500 characters long, or reaching the end of the text |
| IngestRoute.NameText | src/app/api/embeddings/ingest/route.js:24 | `${ev.name}` in the template: the name, or `undefined` when it is missing |
| IngestRoute.RawText | src/app/api/embeddings/ingest/route.js:24 | the name text, a newline and the long description or `""` |
| IngestRoute.Base | src/app/api/embeddings/ingest/route.js:24 | the raw text trimmed; FirstWindowKept and PayloadOfEvent state what the event contributes from it |
| IngestRoute.KeptWindows | src/app/api/embeddings/ingest/route.js:25-27 | the non-blank 500-character windows from an offset onward, in text order; KeptWindowsAt, KeptOffsetsSound, KeptOffsetsComplete, KeptOffsetsAscending, Reconstruct and KeptCount state which windows those are |
| IngestRoute.KeptWindowsAt | src/app/api/embeddings/ingest/route.js:25-28 | the `k`-th kept text is the window at the `k`-th kept offset |
| IngestRoute.KeptOffsetsSound | src/app/api/embeddings/ingest/route.js:25-27 | every kept offset lies inside the text on a multiple of 500, and its window is not blank |
| IngestRoute.KeptOffsetsComplete | src/app/api/embeddings/ingest/route.js:25-27 | every in-range multiple of 500 whose window is not blank is kept |
| IngestRoute.KeptOffsetsAscending | src/app/api/embeddings/ingest/route.js:25 | kept windows come in increasing text order |
| IngestRoute.NoBlankStep | src/app/api/embeddings/ingest/route.js:25-27 | when no window is blank, the first window is kept and the rest continues at the next offset |
| IngestRoute.Reconstruct | src/app/api/embeddings/ingest/route.js:25-27 | when no window is blank, the kept texts concatenate back exactly to the base text |
| IngestRoute.KeptCount | src/app/api/embeddings/ingest/route.js:25-27 | when no window is blank, there are `ceil(length / 500)` kept texts |
| IngestRoute.FirstWindowKept | src/app/api/embeddings/ingest/route.js:24-27 | an event yields no chunk exactly when its trimmed text is empty; otherwise its first window, at offset 0, is kept |
| IngestRoute.Stamp | src/app/api/embeddings/ingest/route.js:28-36 | one chunk per text, each carrying the event's id, name, dates, area and URL |
| IngestRoute.StampCons | src/app/api/embeddings/ingest/route.js:28-36 | stamping texts distributes over a leading element |
| IngestRoute.EventChunks | src/app/api/embeddings/ingest/route.js:24-37 | the event's kept windows, each stamped with the event's fields; ChunkEvent proves the loop body for one event pushes them |
| IngestRoute.ChunksOf | src/app/api/embeddings/ingest/route.js:23-38 | the chunks of the events, concatenated in event order; BuildChunks proves the loops compute it and ChunksOfFields and ChunkTextBounds state what each chunk holds |
| IngestRoute.ChunksOfAppend | src/app/api/embeddings/ingest/route.js:23 | the chunks of two event lists are the chunks of the first followed by those of the second |
| IngestRoute.ChunksOfSingle | src/app/api/embeddings/ingest/route.js:23-37 | the chunks of a single event are that event's chunks |
| IngestRoute.ChunksOfFields | src/app/api/embeddings/ingest/route.js:23-37 | every chunk comes from one of the events, carries that event's fields, and holds one of its kept windows |
| IngestRoute.ChunkTextBounds | src/app/api/embeddings/ingest/route.js:26-27 | every chunk text has at most 500 characters and is not whitespace-only |
| IngestRoute.KeepStep | src/app/api/embeddings/ingest/route.js:26-28 | one turn of the inner loop pushes the window exactly when it is not blank |
| IngestRoute.ChunkBase | src/app/api/embeddings/ingest/route.js:25-37 | the inner loop pushes the stamped kept windows of the base text |
| IngestRoute.ChunkEvent | src/app/api/embeddings/ingest/route.js:24-37 | the loop body for one event pushes that event's chunks |
| IngestRoute.BuildChunks | src/app/api/embeddings/ingest/route.js:21-38 | the chunking loops build the event chunks, concatenated in event order |
| IngestRoute.Embedded | src/app/api/embeddings/ingest/route.js:47 | one embedded chunk per chunk |
| IngestRoute.Texts | src/app/api/embeddings/ingest/route.js:45 | one text per chunk |
| IngestRoute.EmbedAll | src/app/api/embeddings/ingest/route.js:42-48 | chunk texts are sent one at a time in chunk order; all succeed exactly when each chunk's request succeeds, and then every chunk holds its embedding; otherwise the requests stop at the first failure |
| IngestRoute.ToPayloadId | src/app/api/embeddings/ingest/route.js:53 | a number id is kept, a string id becomes `Number(id)` (`NaN` when not decimal), a missing id stays missing; PayloadIdRoundTrip states the round trip |
| IngestRoute.PayloadIdRoundTrip | src/app/api/embeddings/ingest/route.js:53 | over exact integers: a numeric id is stored as is, and the decimal text of an integer id is stored as that integer |
| IngestRoute.Payload | src/app/api/embeddings/ingest/route.js:52-56 | one row per chunk |
| IngestRoute.Contents | src/app/api/embeddings/ingest/route.js:54 | one content per row |
| IngestRoute.PayloadRows | src/app/api/embeddings/ingest/route.js:52-56 | row `k` holds chunk `k`'s text, its converted event id and its embedding |
| IngestRoute.PayloadOfEvent | src/app/api/embeddings/ingest/route.js:21-56 | an event's rows hold its kept windows in order; with no blank window they concatenate to the trimmed text and number `ceil(length / 500)` |
| IngestRoute.EmbedCalls | src/app/api/embeddings/ingest/route.js:43-46 | one embedding request per text |
| IngestRoute.EmbedAndInsert | src/app/api/embeddings/ingest/route.js:42-71 | with all embeddings, one request per chunk and then one insert of all rows, answering `inserted` with the chunk count, or 500 `保存に失敗しました` when the insert fails; otherwise 500 `サーバーエラー` after the requests up to the first failure, with no insert |
| IngestRoute.Post | src/app/api/embeddings/ingest/route.js:12-71 | a body that is not JSON gives 500 with no calls; a missing, non-array or empty `events` gives 400 `eventsが空です` with no calls; otherwise the chunks are built and then embedded and inserted as above |
| Events.CategoryOf | src/components/calendar/Calendar.jsx:179 | `category \|\| "その他"`: a present, non-empty category is itself, and anything else is `その他` |
| Calendar.Weekday | src/components/calendar/Calendar.jsx:191-192 | the weekday is 0 (Sunday) to 6 |
| Calendar.StartOfWeek | src/components/calendar/Calendar.jsx:191 | the Sunday on or before the day, less than a week earlier |
| Calendar.EndOfWeek | src/components/calendar/Calendar.jsx:192 | the Saturday on or after the day, less than a week later |
| Calendar.DaysInMonth | src/components/calendar/Calendar.jsx:190 | every month has 28 to 31 days |
| Calendar.MonthsTileYear | src/components/calendar/Calendar.jsx:189-190 | each month begins where the previous one ends, and the twelve months fill the year |
| Calendar.YearStartStep | src/components/calendar/Calendar.jsx:189 | a year begins where the previous year ends |
| Calendar.YearStartMonotone | src/components/calendar/Calendar.jsx:189 | later years begin later |
| Calendar.MonthAfter | src/components/calendar/Calendar.jsx:198 | `addMonths(currentMonth, 1)` on a month: December goes to January of the next year; MonthAfterAdjacent states the adjacency |
| Calendar.MonthBefore | src/components/calendar/Calendar.jsx:197 | `subMonths(currentMonth, 1)` on a month: January goes to December of the previous year; MonthBeforeAdjacent states the adjacency |
| Calendar.MonthAfterAdjacent | src/components/calendar/Calendar.jsx:197-198 | the next month begins the day after this one ends; next and previous undo each other |
| Calendar.MonthBeforeAdjacent | src/components/calendar/Calendar.jsx:197 | the previous month ends the day before this one begins |
| Calendar.MonthsOrdered | src/components/calendar/Calendar.jsx:228 | an earlier month ends before a later one begins |
| Calendar.InMonthUnique | src/components/calendar/Calendar.jsx:228 | a day lies in exactly one month |
| Calendar.YearUp | src/components/calendar/Calendar.jsx:151 | the search upward finds the year containing the day |
| Calendar.YearDown | src/components/calendar/Calendar.jsx:151 | the search downward finds the year containing the day |
| Calendar.MonthFrom | src/components/calendar/Calendar.jsx:151 | the search within the year finds the month containing the day |
| Calendar.MonthOf | src/components/calendar/Calendar.jsx:151 | `startOfMonth(day)` gives the month containing the day |
| Calendar.MonthOfExact | src/components/calendar/Calendar.jsx:151 | a day is in a month exactly when that month is the day's month |
| Calendar.DaysBetween | src/components/calendar/Calendar.jsx:193 | `eachDayOfInterval` lists `hi - lo + 1` days |
| Calendar.WeekSpan | src/components/calendar/Calendar.jsx:191-193 | from a Sunday to a Saturday is a whole number of weeks, 4 to 6 for a month |
| Calendar.WeekGrid | src/components/calendar/Calendar.jsx:191-193 | the grid from the week start of the first day to the week end of the last lists consecutive days and contains the range |
| Calendar.GridDays | src/components/calendar/Calendar.jsx:189-193 | the days from the week start of the month's first day to the week end of its last; GridShape states its shape |
| Calendar.GridShape | src/components/calendar/Calendar.jsx:189-193 | the grid is 4 to 6 whole weeks of consecutive days, from a Sunday to a Saturday; it contains every day of the month, and each other day is within a week of it |
| Calendar.AddSpanAt | src/components/calendar/Calendar.jsx:170-182 | adding an event's days adds its category once to each day of the range and leaves other days alone |
| Calendar.Index | src/components/calendar/Calendar.jsx:155-186 | `eventsByDate` as a left fold over the events; IndexAt and IndexProperties state each day's list and BuildIndex proves the `reduce` computes it |
| Calendar.IndexAt | src/components/calendar/Calendar.jsx:155-186 | each day's list is the de-duplicated categories of the events covering it; a day has an entry exactly when some valid event covers it |
| Calendar.CategoriesOnMembers | src/components/calendar/Calendar.jsx:162-181 | the reference list of a day's categories contains exactly the categories of the events covering it |
| Calendar.IndexProperties | src/components/calendar/Calendar.jsx:155-186 | a day lists every category of an event covering it, no category twice, nothing else, in first-contributed order |
| Calendar.IndexSkipsInvalid | src/components/calendar/Calendar.jsx:162 | an event with an invalid start or end leaves the index unchanged |
| Calendar.BuildIndex | src/components/calendar/Calendar.jsx:155-186 | the `reduce` with its inner `forEach` computes the index |
| Calendar.Colour | src/components/calendar/Calendar.jsx:237 | a configured category gets its colour; any other gets the `その他` colour |
| Calendar.Dots | src/components/calendar/Calendar.jsx:221-239 | the colours of a day's first three categories; DotsSpec states their number, order and range |
| Calendar.DotsSpec | src/components/calendar/Calendar.jsx:221-239 | a day cell shows the colours of its first three categories, in order; none for a day without an entry; each one of the four configured colours |
| Calendar.CalendarView.constructor | src/components/calendar/Calendar.jsx:151 | the month on display starts as the month of the selected day |
| Calendar.CalendarView.PrevMonth | src/components/calendar/Calendar.jsx:197 | moves to the month that ends the day before the current one begins |
| Calendar.CalendarView.NextMonth | src/components/calendar/Calendar.jsx:198 | moves to the month that begins the day after the current one ends |
| Calendar.CalendarView.Days | src/components/calendar/Calendar.jsx:189-193 | the grid for the month on display is 4 to 6 whole weeks and contains every day of that month |
| Calendar.CalendarView.IsNotInMonth | src/components/calendar/Calendar.jsx:228 | a grid day is shown as outside the month exactly when it is not in the month on display; InMonthUnique and MonthOfExact state that each day has one month |
| CategoryFilter.CategoryList | src/components/ui/Filter.jsx:28 | one category per event |
| CategoryFilter.Categories | src/components/ui/Filter.jsx:27-29 | the de-duplicated categories of the events; CategoriesSpec states its members, uniqueness, order and size |
| CategoryFilter.CategoriesSpec | src/components/ui/Filter.jsx:27-29 | every event's category is listed, nothing else is, each once, in first-use order, none empty and no more than there are events |
| CategoryFilter.Options | src/components/ui/Filter.jsx:36-41 | the options are `all` followed by the categories |
| Homepage.UncategorisedHidden | src/components/calendar/Homepage.jsx:80-82 | as written: an uncategorised event on its own day is offered under `その他` yet selecting `その他` lists nothing |
| Homepage.AsWrittenAgreesWhenCategorised | src/components/calendar/Homepage.jsx:70-83 | when every event has a non-empty category, the page's comparison and the corrected one list the same events |
| Homepage.FilteredEventsAsWritten | src/components/calendar/Homepage.jsx:70-83 | the page's list as written: the events of the day, then with a category other than `all` those whose raw `category` equals it; the next three lemmas state its properties |
| Homepage.FilteredMembersAsWritten | src/components/calendar/Homepage.jsx:70-83 | an event is listed exactly when its range contains the selected day and the category is `all` or equal to the event's raw `category` |
| Homepage.FilteredOrderAsWritten | src/components/calendar/Homepage.jsx:70-83 | the list is a subsequence of the events, no longer than them; with `all` it is exactly the events of the day |
| Homepage.FiltersCommuteAsWritten | src/components/calendar/Homepage.jsx:71-82 | filtering by category then by day gives the same list as by day then by category |
| Homepage.FilteredEvents | src/components/calendar/Homepage.jsx:80-82 | corrected half of the finding below: the same list comparing `category \|\| "その他"` with the option |
| Homepage.FilteredMembers | src/components/calendar/Homepage.jsx:70-83 | corrected half: an event is listed exactly when its range contains the selected day and the option is `all` or the one the filter shows it as |
| Homepage.FilteredOrder | src/components/calendar/Homepage.jsx:70-83 | corrected half: the list is a subsequence of the events; with `all` it is exactly the events of the day |
| Homepage.FiltersCommute | src/components/calendar/Homepage.jsx:71-82 | corrected half: filtering by category then by day gives the same list as by day then by category |
| Homepage.EveryOptionListsItsEvents | src/components/calendar/Homepage.jsx:70-83 | every event of the day appears under `all` and under the option the filter shows it as |
| Homepage.HomepageState.constructor | src/components/calendar/Homepage.jsx:56-59 | the selection starts at the current day and `all` |
| Homepage.HomepageState.HandleDateChange | src/components/calendar/Homepage.jsx:62-64 | sets the day and keeps the category |
| Homepage.HomepageState.HandleFilterChange | src/components/calendar/Homepage.jsx:66-68 | sets the category and keeps the day |
| Homepage.HomepageState.Filtered | src/components/calendar/Homepage.jsx:70-83 | `filteredEvents` for the current selection, as written: an event is listed exactly when its range contains the selected day and the category is `all` or equal to its raw `category` |
| ChatUi.DisabledIffRefused | src/app/chat/page.jsx:180 | the send button is disabled exactly when a send would be refused |
| ChatUi.Accepts | src/app/chat/page.jsx:118-119 | a send goes ahead exactly when the trimmed input is non-empty and no reply is pending; DisabledIffRefused relates it to the button |
| ChatUi.SendDisabled | src/app/chat/page.jsx:180 | the send button is disabled while loading or when the trimmed input is empty; DisabledIffRefused relates it to the guard |
| ChatUi.Reply | src/app/chat/page.jsx:135-144 | the reply is a bot message holding the response's `text`, or the fixed error text when the request threw |
| ChatUi.Sent | src/app/chat/page.jsx:118-124 | the state once a send begins: the trimmed user message appended, the input cleared, loading set; a refused send leaves the state alone; SendOutcome states the result |
| ChatUi.RequestFor | src/app/chat/page.jsx:127-133 | the body `{query, history}` with the trimmed input and the messages from before the send, or no request when the send is refused |
| ChatUi.Settled | src/app/chat/page.jsx:134-147 | the reply appended and loading cleared |
| ChatUi.AfterSend | src/app/chat/page.jsx:116-148 | a whole send as a function of the outcome; SendOutcome, AppendOnly, EndsNotLoading and WellFormedKept state its properties |
| ChatUi.SendOutcome | src/app/chat/page.jsx:116-148 | a refused send changes nothing and makes no request; an accepted one appends exactly the trimmed user message and one reply, clears the input, ends not loading, and posts the messages from before it |
| ChatUi.AppendOnly | src/app/chat/page.jsx:122-144 | messages are only appended: the old list is a prefix of the new |
| ChatUi.EndsNotLoading | src/app/chat/page.jsx:145-147 | a send leaves no reply pending |
| ChatUi.WellFormedKept | src/app/chat/page.jsx:116-148 | sends keep the greeting first and every user message non-empty and trimmed |
| ChatUi.InitialWellFormed | src/app/chat/page.jsx:91-98 | the initial state is well formed, not loading, and refuses a send |
| ChatUi.ChatPage.constructor | src/app/chat/page.jsx:91-98 | the page starts with the greeting, an empty input and no reply pending |
| ChatUi.ChatPage.SetInput | src/app/chat/page.jsx:168 | typing replaces the input and nothing else |
| ChatUi.ChatPage.BeginSend | src/app/chat/page.jsx:117-133 | the guard, the appended user message, the cleared input, the loading flag and the request body |
| ChatUi.ChatPage.FinishSend | src/app/chat/page.jsx:134-147 | appends the reply for the outcome and clears loading |
| ChatUi.ChatPage.HandleSend | src/app/chat/page.jsx:116-148 | a whole send, with the state and request of `SendOutcome` |

## Left out

- External services (embedding, vector search, chat completion, database select and insert) are parameters. Only whether a call succeeds and what it returns is modelled; request options such as the model name and temperature are not. The vector search receives the query embedding and `topK`; how the index ranks chunks for that embedding is the parameter's.
- The similarity threshold's environment override (`OPENAI_MIN_SIMILARITY`) is not modelled; the threshold is the default 0.55.
- `topK` is an integer or absent. A `topK` that converts to `NaN` or a fraction is not modelled.
- A search result row is modelled with an integer `event_id`. A `Map` key of another JavaScript type is not modelled.
- `Number(string)` is modelled for trimmed, optionally signed, decimal integers and the blank string (0). Every other string is `NaN`, although JavaScript also accepts hexadecimal, exponents, fractions and `Infinity`.
- Text.ParseInteger: yields the exact integer, while JavaScript's `Number` rounds to the nearest double; beyond 2^53 they differ (`"9007199254740993"` is 9007199254740992 in JavaScript).
- Text.ParseIntegerString: holds of exact integers; in JavaScript `Number(String(n)) === n` also holds for every safe integer, but integers beyond 2^53 are not exactly representable as numbers.
- IngestRoute.PayloadIdRoundTrip: a string id is stored as an exact integer; JavaScript stores the nearest double, so an id beyond 2^53 such as `"9007199254740993"` is stored as 9007199254740992. Numeric ids are modelled as integers.
- Strings are sequences of Dafny characters, which are Unicode scalar values, while JavaScript's `length` and `slice` count UTF-16 code units. A character outside the Basic Multilingual Plane is one character here and two in the source, so for text holding such characters the 500-character windows, the chunk counts and the lengths differ from the source's; a window boundary that splits a surrogate pair, and lone surrogates, are not modelled.
- A search RPC or events lookup whose promise rejects, instead of returning an `error`, is not modelled. In the source it reaches the route's `catch` and gives 500 `サーバーエラー`. The database client reports such failures as a returned `error`, which is what `SearchFailed` and `SelectFailed` stand for. The same holds for the ingestion insert.
- The chat request body is modelled as parsed into well-typed messages, with `request.json()` rejecting (src/app/api/chat/route.js:14) as the body `None`. Two 500 `サーバーエラー` paths are not modelled: a `null` or non-object element of `messages`, whose `role` read throws on src/app/api/chat/route.js:23, and a truthy `content` that is not a string, which is sent to the embedding service as it is.
- A missing event name renders as `undefined` in the ingestion text. A `null` name, which renders as `null`, is not distinguished from a missing one.
- Date parsing, time zones, time of day and the `yyyy-MM-dd` key are abstracted: a date is the day it falls on, and a date that does not parse is `None`. In JavaScript `new Date(null)` is the epoch, a valid date, so an event with a `null` date spans back to (or from) 1970-01-01 in the source; the model does not derive this from `null`, and a caller passes such a date as day 0.
- Calendar.IndexAt: on a range given end before start, the model covers the days between the two. date-fns before version 3 throws on such an interval; the package version is not part of this model. The home page's comparisons list no event for such a range; the model follows that code.
- Calendar.Colour: an object lookup also finds inherited keys such as `constructor`. The model treats only the four configured categories as present.
- The event-to-vector script, the presentation-only components (styling, header and footer, the SSR style registry), React rendering, effects (scrolling, textarea auto-height) and the selected-day highlight are not part of this model.
- Concurrent sends are not modelled: the chat page's asynchronous request is one outcome per send, applied at once.
- The chat page posts `{query, history}` and reads `data.text`. The chat route reads `messages` and answers `answer`. The model keeps each side as written and does not connect them.
- ChatRoute.SortByScore: states descending order and permutation, but not the stability that `Array.prototype.sort` guarantees.
- Re-ingestion does not delete earlier rows, `filteredIds` is not re-sorted by score before `topK` is applied, and an empty context uses the same prompt as any other. The model follows the code in each case.

## Findings

| source | as written | input that shows it | evidently intended | confidence | as-written member | corrected member |
|---|---|---|---|---|---|---|
| src/components/calendar/Homepage.jsx:80-82 | the list compares the raw `event.category` with the selected option, while the filter (src/components/ui/Filter.jsx:27-29) offers an uncategorised event under `その他` | the events `[{category: none, start: day 0, end: day 0}]`, day 0 selected, option `その他` chosen: nothing is listed | compare `event.category \|\| "その他"`, so every option the filter offers lists the events it stands for | not executed | Homepage.UncategorisedHidden | Homepage.EveryOptionListsItsEvents |
