# A verified model of pu's sessions

The modules here model the parts of pu that keep state between an agent's turns, and prove what they promise:

- **Text** (`Utf8`, `LineSplit`): the bit-level UTF-8 decoder against the grammar of sections 3 and 4 of RFC 3629, the sanitizer, the test for a cut character, and lines.
- **Command output** (`OutputCapture`, `CaptureChunks`, `Paging`, `PageWalk`, `PagePlaces`, `Cursors`, `Retention`): the bounded buffer that keeps the head or the end of a stream, pages numbered against output that was thrown away, and the pager that evicts under two budgets.
- **Server-sent events** (`Sse`, `SseStandard`, `SseModes`): the incremental parser, shown not to depend on how bytes are cut into chunks, against section 9.2.6 of the WHATWG HTML Living Standard and, in both its line modes, against a frame-by-frame reading of the lines.
- **Conversations** (`GraphSpec`, `GraphRuns`, `GraphVerbs`, `MessageGraphs`, `GraphStore`, `Conversations`): a parent-linked map with a leaf that behaves as a list, its three-colour check, and its stored form.
- **Requests and the tool loop** (`Requests`, `Protocol`, `Turns`, `Tallies`, `ToolLoop`): pages superseded by newer runs, and the loop whose requests must keep each answer and its receipts together.
- **The session runner** (`Runner`, `RunnerSafety`, `RunnerDelivery`, `RunnerTokens`, `RunnerCloses`, `RunnerAnswers`, `SessionRunners`): a worker and a socket thread as atomic steps, with what holds over every interleaving.
- **The job board** (`BoardSpec`, `BoardRuns`, `BoardVerbs`, `Boards`): seven job states, five verbs that may refuse, bounded storage.

Where the program changes fields step by step the model is a class whose methods are proved equal to a function on values (`Next`, `Applied`, `Play`, `Step` and the like); the theorems are about those functions, over every input and every run, and what each main operation decides is also said apart from its function, field by field. Text is a sequence of bytes except in `Cursors`, `Retention` and the board, where ids and words are strings.

The parameters of the model are what the program is given from outside: message ids and turn ids (any that are new), time (an integer), the JSON parser and printer, the hash that names a source, and, in the tool loop, the provider, the tools, the cancel and shutdown flags and the user's notes, each any function of a clock that ticks whenever one of them is asked.

## Where the code and its comments differ

The code is followed in each case.

- An end-kept capture may hand over half a character, though its comments say a cut keeps to character boundaries (`OutputCapture.EndCutsACharacter`); `EndValidIff` says exactly when it does not.
- What an end-kept capture hands over can depend on the chunks the stream came in (`CaptureChunks.ChunksMatterHere`): exactly when its cut falls between two lines, a later line ends too, and the stream was over-full before its last byte (`ChunksMatterIff`).
- A page without a rank is superseded by a later ranked page of its source, though a comment says it never is (`Requests.UnrankedPages`).
- A conversation is left out of order by a turn cancelled after some but not all calls of a reply ran, or before any ran but after a note arrived; `Turns.CutShortTurnIsOutOfOrder` is such a turn, and `ToolLoop.TurnKeepsOrder` says exactly when a turn, however it ends, leaves the conversation in order.
- A receipt carries its call's id made valid text and the record keeps the id as it came, so a call whose id is not valid UTF-8 stays pending (`Protocol.AnswerCompletesIffValid`).
- A stored origin that names no source or no buffer is lost on reading (`GraphStore.StoredReadBack`); origins read from results always name both.
- A page's close and the cancel it asks for are two steps, so the cancel can set the token of the next turn (`RunnerCloses.CloseMayCancelTheNextTurn`). It spares every other turn exactly when none that somebody asked for is waiting to begin (`DetachSparesIff`).
- A page's cancel is to be answered with `done`, but one that comes after the turn read the request and before its token goes is too late: the turn ends without a word to a page still there (`RunnerAnswers.LateCancelIsSilent`, and exactly when in `CancelledIsAnsweredIff`).
- A turn that throws leaves its token installed between turns (`RunnerCloses.ThrownTokenStays`), and a cancel then sets that ended turn's token (`RunnerTokens.CancelBetweenTurns`).
- A job just posted can be the one evicted, when the board is full and the clock stepped back behind every stamp on it (`BoardRuns.PostedIsKept` says exactly when it stays).
- The board refuses an update without a state, so an update that only leaves a note is never accepted (`BoardRuns.NoteAloneIsRefused`), and the audit kind `note` never appears (`NoNoteIsRecorded`).

## Model

| member | source | states |
|---|---|---|
| Utf8.DecoderMeetsGrammar | include/pu/core/text.hpp:45-101 | A byte sequence decodes just when it is one character of RFC 3629's grammar |
| Utf8.EncodeDecode | include/pu/core/text.hpp:63-74 | A character's decoded code point encodes to the same bytes |
| Utf8.DecodeEncode | include/pu/core/text.hpp:63-74 | Every code point but the surrogates, encoded, decodes to itself |
| Utf8.DecodeCodePoint | include/pu/core/text.hpp:63-74 | The loop computes the code point of the bytes it is given |
| Utf8.ValidSequenceLength | include/pu/core/text.hpp:85-100 | The length of the character at an index, or nothing when there is none |
| Utf8.IsValidUtf8 | include/pu/core/text.hpp:104-111 | Accepts exactly valid text |
| Utf8.ValidMeetsGrammar | include/pu/core/text.hpp:104-111 | Valid text is exactly the UTF8-octets of RFC 3629 section 4 |
| Utf8.SanitizeUtf8 | include/pu/core/text.hpp:113-127 | Each byte that starts no character becomes U+FFFD, the rest is kept |
| Utf8.SanitizedIsValid | include/pu/core/text.hpp:113-127 | Sanitized text is always valid |
| Utf8.SanitizedIsIdentity | include/pu/core/text.hpp:113-127 | Sanitizing leaves text as it is exactly when it is valid |
| Utf8.SanitizedIsIdempotent | include/pu/core/text.hpp:113-127 | Sanitizing twice is sanitizing once |
| Utf8.EndsWithPartialSequence | include/pu/core/text.hpp:153-165 | Whether the text ends in a character's beginning |
| Utf8.PartialMeetsValid | include/pu/core/text.hpp:153-165 | A prefix of valid text ends in a partial character exactly when it is not valid |
| OutputCapture.CountLines | src/exec/run.cpp:36-44 | The number of lines, an unterminated last one included |
| OutputCapture.Capture.Append | src/exec/run.cpp:52-76 | The kept bytes, counters and flags stay those of the whole stream so far, an end-kept buffer being the old one with the chunk appended |
| OutputCapture.Capture.Take | src/exec/run.cpp:78-95 | What is handed over is a text the stream and the budget allow, that of the buffer trimmed, with lines and bytes counted over the whole stream |
| OutputCapture.Capture.DropToBudget | src/exec/run.cpp:99-108 | The front is dropped to a line boundary within the budget, or to the budget where there is none |
| OutputCapture.ChunksLeaveNoTrace | src/exec/run.cpp:52-108 | Wherever chunks cannot matter, two captures of one stream are equal, counts and text |
| CaptureChunks.EveryChunkingIsEndText | src/exec/run.cpp:70-108 | However a stream is chunked, an end capture hands over the stream from its one cut, or from the budget where chunks can matter |
| CaptureChunks.EndTextIsSomeChunking | src/exec/run.cpp:70-108 | The texts an end capture is allowed to hand over are just those some chunking makes it hand over |
| CaptureChunks.ChunksMatterIff | src/exec/run.cpp:70-108 | Two chunkings of a stream are handed over differently exactly when its cut falls between lines, a later line ends too, and it was over-full before its last byte |
| CaptureChunks.ChunksMatterHere | src/exec/run.cpp:70-108 | A concrete stream of which two chunkings keep different lines |
| CaptureChunks.ChunksDoNotMatterHere | src/exec/run.cpp:70-108 | A concrete stream cut between lines of which every chunking keeps the same |
| OutputCapture.WithinBudget | src/exec/run.cpp:72-95 | What is kept fits the budget, or a quarter more of it where nothing was dropped |
| OutputCapture.HeadIsValidPrefix | src/exec/run.cpp:78-91 | A truncated head capture of valid text is a valid prefix, ending at a newline if one was kept and else the longest within the budget |
| OutputCapture.EndValidIff | src/exec/run.cpp:99-108 | An end capture of valid text is valid exactly when its cut does not fall inside a character |
| OutputCapture.EndCutsACharacter | src/exec/run.cpp:99-108 | A concrete stream whose end capture is half a character |
| OutputCapture.SkippedCountsDropped | include/pu/exec/run.hpp:26-28 | `skipped` is the number of newlines in the dropped prefix |
| OutputCapture.KeptLinesAreStreamLines | src/exec/run.cpp:78-108 | Kept line k is line skipped + k of the stream, unless the buffer is a lone fragment of one line |
| LineSplit.LineCountMeetsLines | src/exec/run.cpp:36-44 | Newlines plus one for an unterminated end is the number of lines |
| Cursors.Parse | src/paging/paging.cpp:104-118 | The cursor a text names: after the last colon, one to twelve digits |
| Cursors.ParsePrinted | src/paging/paging.cpp:102-125 | A printed cursor reads back as itself exactly when its buffer is named and its line is below 10^12 |
| Paging.IndexLines | src/paging/paging.cpp:18-25 | The starts of the lines, as many as there are lines |
| Paging.LineOfIndex | src/paging/paging.cpp:94-100 | The bytes between two starts, without the newline, are that line |
| Paging.LinesPerIndex | src/paging/paging.cpp:84-92 | A buffer has as many indexed lines as its text has lines |
| Paging.Line | src/paging/paging.cpp:94-100 | Line k of the buffer |
| Paging.Read | src/paging/paging.cpp:127-156 | The page at an anchor is the one whose lines, numbers and cursors the lemmas of `PagePlaces` and `PageWalk` give |
| PageWalk.ForwardReadsAll | src/paging/paging.cpp:127-156 | From the head along `later`, pages tile the buffer's lines once each in order and concatenate to it |
| PageWalk.BackwardShowsAll | src/paging/paging.cpp:127-156 | From the tail along `earlier`, every line is shown |
| PageWalk.PageLinesAreCommandLines | src/paging/paging.cpp:127-156 | Any page's line k is line first + k of the whole command output, unless the buffer is a lone fragment |
| PagePlaces.NoPageIff | src/paging/paging.cpp:127-138 | There is no page exactly when no line is asked for, none is held, or the cursor is past the end |
| PagePlaces.TailPage | src/paging/paging.cpp:132-153 | The tail is the last lines, as many as asked or held, numbered to the end of the output |
| PagePlaces.HeadPage | src/paging/paging.cpp:132-154 | The head is the first lines, as many as asked or held |
| PagePlaces.CursorPage | src/paging/paging.cpp:132-154 | A cursor's page begins at its line, with both its neighbours' cursors |
| PagePlaces.LaterAbuts | src/paging/paging.cpp:154 | The page at `later` begins on the next line |
| PagePlaces.EarlierAbuts | src/paging/paging.cpp:153 | The page at `earlier` begins as many lines before, and ends just before this one exactly when there are that many |
| PagePlaces.BackwardTilesIff | src/paging/paging.cpp:127-156 | From the tail along `earlier`, pages number each line once exactly when one page holds all or every page is full |
| Retention.Pager.Store | src/paging/paging.cpp:255-276 | The run is stored under the next id and rank, then the oldest are evicted until the rest fits |
| Retention.Pager.EvictOldest | src/paging/paging.cpp:269-274 | The loop leaves the longest suffix that fits, with its byte sum exact |
| Retention.Pager.Find | src/paging/paging.cpp:278-284 | The run of that id when it is held, and no other run has the id |
| Retention.Pager.ContinueRankingFrom | src/paging/paging.cpp:250-253 | The next rank is above every rank given and never lower than before |
| Retention.Pager.IdsAreDistinct | src/paging/paging.cpp:255-260 | No two runs ever stored have one id |
| Retention.EvictIsLongest | src/paging/paging.cpp:267-274 | Eviction keeps a suffix that fits, never empty, and every suffix that fits is part of it |
| Retention.EvictLater | src/paging/paging.cpp:267-274 | Evicting before storing more changes nothing of what is kept in the end |
| Retention.StoreAllKeepsLongest | src/paging/paging.cpp:255-276 | After any stores under one budget the pager holds the longest suffix of all runs that fits |
| Sse.SplitField | src/core/sse.cpp:16-26 | A line's field and its value without one leading space |
| Sse.SseParser.Feed | src/core/sse.cpp:54-70 | The parser's state and events after more bytes are those of draining the buffered bytes and these |
| Sse.SseParser.HandleLine | src/core/sse.cpp:72-131 | One line's effect on the pending event and what it delivers, which `SseModes` reads off the line's bytes in both modes |
| Sse.SseParser.Dispatch | src/core/sse.cpp:135-147 | The pending event is delivered if it has data, and cleared |
| Sse.SseParser.Finish | src/core/sse.cpp:149-160 | The unterminated line is taken unless it ends in a partial character, and the last frame delivered |
| SseStandard.ChunkInvariance | src/core/sse.cpp:54-160 | However the bytes are cut into chunks, the same events and retries are delivered, in both line modes |
| SseStandard.SplitMeetsColonRule | src/core/sse.cpp:16-26 | The parser splits a line into field and value by the standard's colon rule, stated apart |
| SseStandard.MeetsStandard | src/core/sse.cpp:54-160 | On plain streams the messages are those of WHATWG HTML 9.2.6 exactly when no beginning of a payload is already whole |
| SseModes.DeliversFrames | src/core/sse.cpp:54-160 | On valid text whose carriage returns end lines, in either mode and any chunks: every frame with its last event name, its last id and its data joined, every retry hint, every bare line, in order, and nothing else |
| SseModes.BareLinesAreEvents | src/core/sse.cpp:81-88 | Where no line begins as a field, bare mode delivers one event for each line that is neither blank nor a comment, holding the line |
| SseModes.ModesAgreeOnFields | src/core/sse.cpp:81-88 | Where every line is blank, a comment or begins with one of the four names and a colon, both modes deliver the same |
| SseModes.StartsAsNamed | src/core/sse.cpp:28-37 | A line begins as a field exactly when it begins with the bytes of `data:`, `event:`, `id:` or `retry:` |
| SseModes.StoiReadsBack | src/core/sse.cpp:118-123 | A printed number is read as itself within 32 bits, with its sign, whatever that is no digit follows |
| GraphSpec.ChainDistinct | include/pu/session/graph.hpp:23-32 | No id comes twice on a chain |
| GraphSpec.ChainLinks | include/pu/session/graph.hpp:23-32 | Each entry's parent is the entry before it |
| GraphSpec.ChainAt | include/pu/session/graph.hpp:23-32 | The chain to an entry is the chain's beginning up to it |
| GraphSpec.CompleteAtIsList | include/pu/session/graph.hpp:132-151 | The walk over the map completes the record the walk over the list completes |
| GraphSpec.AppendPushes | include/pu/session/graph.hpp:34-44 | An append pushes onto the list, and the map then holds exactly the chain |
| GraphSpec.RewindTruncates | include/pu/session/graph.hpp:46-50 | A rewind to an entry leaves the list up to it |
| GraphVerbs.PushSays | include/pu/session/graph.hpp:34-44 | An append adds one entry behind; a receipt completes the first record of its id in the last answer that has it, if pending, and nothing else changes |
| GraphVerbs.CompleteSays | include/pu/session/graph.hpp:132-151 | Record by record, what completing an id changes |
| GraphVerbs.SealSays | include/pu/session/graph.hpp:57-76 | A seal interrupts just the pending calls of the last answer and adds as many receipts |
| GraphVerbs.SealAnswers | include/pu/session/graph.hpp:73-75 | Each call that was pending is answered in call order by the receipt that says it never ran |
| GraphVerbs.SealLeaves | include/pu/session/graph.hpp:57-72 | A seal changes nothing exactly where the last entry is no answer with a call pending |
| GraphRuns.SealIsList | include/pu/session/graph.hpp:57-76 | Sealing interrupts the last entry's pending calls and appends a receipt for each |
| GraphRuns.RewindIsList | src/session/session.cpp:136-151 | A rewind before turn t leaves the first t - 1 entries, or refuses and leaves all |
| GraphRuns.RewindSays | src/session/session.cpp:129-151 | A rewind is made exactly of a turn that exists, with no call of the last message pending, that no peer asked; refused as a peer's exactly when one did |
| GraphRuns.AskedIsRewound | src/session/session.cpp:129-151 | A message just asked can be taken back exactly when no peer asked it, which leaves what was before |
| GraphRuns.RunFromEmpty | include/pu/session/graph.hpp:34-76 | A conversation begun empty is sound after any run, and the list the run builds from nothing |
| GraphRuns.RunIsList | include/pu/session/graph.hpp:34-76 | After any run of appends, rewinds and seals the graph is sound and its chain is the list the run builds |
| MessageGraphs.PathGrounded | include/pu/session/graph.hpp:88-110 | A parent path reaches the end exactly when where it goes on does |
| MessageGraphs.CycleNotGrounded | include/pu/session/graph.hpp:88-110 | A path that comes back to itself never reaches the end |
| MessageGraphs.MessageGraph.Chain | include/pu/session/graph.hpp:23-32 | The loop ends and yields the parent path of the leaf, oldest first |
| MessageGraphs.MessageGraph.LinksResolve | include/pu/session/graph.hpp:88-110 | True exactly when every parent path reaches the empty id through existing nodes |
| MessageGraphs.MessageGraph.CompleteFor | include/pu/session/graph.hpp:132-151 | The first record of the id, up from the leaf, is completed if pending |
| MessageGraphs.CompleteIn | include/pu/session/graph.hpp:139-147 | Within one answer the first record of the id is the one completed |
| MessageGraphs.MessageGraph.DropUnreachable | include/pu/session/graph.hpp:119-130 | Exactly the chain's nodes are kept |
| MessageGraphs.MessageGraph.AppendAfterLeaf | include/pu/session/graph.hpp:34-44 | The new graph is the old with the entry appended, and sound |
| MessageGraphs.MessageGraph.Add | include/pu/session/graph.hpp:112-117 | The node is filed and the call it answers completed |
| MessageGraphs.MessageGraph.RewindTo | include/pu/session/graph.hpp:46-50 | The leaf moves exactly when the id is empty or known |
| MessageGraphs.MessageGraph.SealInterruptedToolCalls | include/pu/session/graph.hpp:57-76 | The new graph is the old sealed, and sound |
| MessageGraphs.SealPending | include/pu/session/graph.hpp:64-71 | The pending calls become interrupted and are collected in order |
| MessageGraphs.MessageGraph.LeafHasUnfinishedToolCalls | include/pu/session/graph.hpp:52-55 | Whether the last entry of the chain has a call pending |
| GraphStore.SerializeNode | src/session/graph.cpp:20-69 | A node's stored form |
| GraphStore.DeserializeNode | src/session/graph.cpp:71-130 | The node a value stores, or nothing |
| GraphStore.Serialize | src/session/graph.cpp:134-142 | The graph's nodes, each once, and its leaf |
| GraphStore.Deserialize | src/session/graph.cpp:144-165 | Accepts exactly what is readable; a refused value leaves the graph as it was; an accepted one is sound |
| GraphStore.NodeReadBack | src/session/graph.cpp:20-130 | A stored node reads back as itself but for an origin that does not name itself |
| GraphStore.BlocksReadBack | include/pu/session/message.hpp:34-50 | Reasoning blocks read back as themselves |
| GraphStore.CallsReadBack | src/session/graph.cpp:14-18 | Call records read back as themselves, their status with them |
| GraphStore.OriginReadBack | src/paging/paging.cpp:211-228 | An origin reads back exactly when it names its source and its buffer |
| GraphStore.RanksRead | src/paging/paging.cpp:69-80 | A rank is read signed or unsigned, from a result and from storage alike; below zero, of another kind or absent it is none |
| GraphStore.OriginsReadAreNamed | src/paging/paging.cpp:186-209 | An origin read from a result names both |
| GraphStore.ReadIsSound | src/session/graph.cpp:144-165 | Whatever is accepted is a sound graph |
| GraphStore.ReadIsNamed | src/session/graph.cpp:112-126 | Whatever is accepted keeps only origins that name themselves |
| GraphStore.LoadedRunReadsBack | src/session/graph.cpp:134-165 | Every graph reached from one that was loaded is stored and read back whole |
| GraphStore.AcceptsExactly | src/session/graph.cpp:144-165 | Accepted exactly when every item is a node, ids are unique, the leaf exists and links resolve |
| GraphStore.StoredReadBack | src/session/graph.cpp:134-165 | A sound graph stored in any order is accepted, and read back whole exactly when its origins name themselves |
| GraphStore.RunReadsBack | src/session/graph.cpp:134-165 | Every graph a run reaches is stored and read back whole |
| Conversations.Normalized | src/session/session.cpp:65-79 | The message is made valid text, and left as it is exactly when it was |
| Conversations.CleanedIsIdentity | src/session/session.cpp:65-79 | Making a message valid leaves it exactly when it is well encoded |
| Conversations.IncomingIsNamed | src/session/session.cpp:42-51 | Whatever arrives, an origin kept with it names its source and its buffer |
| Conversations.Conversation.Append | src/session/session.cpp:91-93 | The list is pushed with the message made valid |
| Conversations.Conversation.TurnCameFromPeer | src/session/session.cpp:129-134 | Whether the entry at that turn is a peer's, which `GraphRuns.RewindSays` spells out |
| Conversations.Conversation.RewindBefore | src/session/session.cpp:136-151 | The first check that fails is the answer; else the first t - 1 entries are left |
| Conversations.Conversation.SealInterruptedToolCalls | src/session/session.cpp:155 | The list is sealed |
| Requests.NamedIsNeverSuperseded | src/session/request.cpp:13-47 | The page a receipt names outranks it and is itself never superseded |
| Requests.NamedExists | src/session/request.cpp:33-46 | Every superseded page has exactly one run to name |
| Requests.GrownChain | src/session/request.cpp:33-46 | A further message supersedes just the earlier pages of its source that it outranks |
| Requests.SupersededStays | src/session/request.cpp:33-46 | A superseded page stays superseded as the chain grows |
| Requests.HighestRankIn | src/runtime/runtime.cpp:93-101 | The highest rank on the chain |
| Requests.FreshRunSupersedes | src/paging/paging.cpp:250-260 | A run ranked above the chain supersedes every earlier page of its source and is the one named |
| Requests.StoreAfterResuming | src/runtime/runtime.cpp:169 | The first run of a resumed session ranks above the whole chain |
| Requests.UnrankedPages | src/paging/paging.cpp:66-82 | A page without rank supersedes none, and is superseded exactly by a later ranked page |
| Requests.SupersededPages | src/session/request.cpp:19-47 | The one-pass scan writes a receipt for exactly the superseded pages, each naming the highest-ranked later page, the last on ties |
| Requests.RenderedReadsBack | src/session/request.cpp:51-85 | A rendered message read again is the message, its calls pending and its origin read anew |
| Requests.SystemSays | src/session/request.cpp:91-102 | The one system message is the prompt, a blank line where both exist, and the environment; there is none exactly when both are empty |
| Requests.RequestSays | src/session/request.cpp:49-85 | Every other message has the number, stamp, role, addressee and, unless superseded, the text of the chain's at its place |
| Requests.BuildRequestPath | src/session/request.cpp:87-119 | At most one system message, then one message for each of the chain, in order and numbered, superseded ones shown as receipts |
| Protocol.OrderlyMeetsOrder | src/runtime/executor.cpp:410-413 | Reading the list once decides that every answer is followed at once by exactly its receipts in call order |
| Protocol.RequestKeepsOrder | src/session/request.cpp:87-119 | The request is in order exactly when the conversation is |
| Protocol.CompleteKeepsOwed | include/pu/session/graph.hpp:132-151 | Completing a record changes nothing of the order |
| Protocol.RoundKeepsOrder | src/runtime/executor.cpp:355-425 | A round leaves the conversation in order exactly when it was, and all calls ran, or none did and no note came |
| Protocol.RoundSettles | src/runtime/executor.cpp:355-425 | A round leaves no record pending exactly when none was, and all calls ran under distinct ids, or none ran and no note came |
| Protocol.RoundIsCalm | src/runtime/executor.cpp:355-425 | However a round went, its last message is not an answer with a call pending |
| Protocol.AnswerCompletesIffValid | src/session/session.cpp:65-93 | The receipt for call k of an answer completes its record exactly when the call's id is valid text and no earlier call has it |
| Protocol.CompletedCalls | include/pu/session/graph.hpp:139-147 | Receipts for the first r calls leave none pending exactly when that is all and no id comes twice |
| Protocol.SealedOrder | include/pu/session/graph.hpp:57-76 | Sealing an answer none of whose calls ran keeps the order |
| Turns.RoundsBounded | src/runtime/executor.cpp:427-485 | A turn makes at most max(budget, 0) + 1 rounds |
| Turns.OneWrapUp | src/runtime/executor.cpp:439-457 | The wrap-up is asked for in the last round or not at all |
| Turns.RequestsInOrder | src/runtime/executor.cpp:427-485 | A round's request is in order exactly when every round before it was clean |
| Turns.TurnOrder | src/runtime/executor.cpp:427-485 | However a turn ends, it leaves a conversation in order exactly when every round of it was clean |
| Turns.CutShortTurnIsOutOfOrder | src/runtime/executor.cpp:361-364 | A turn stopped after one of two calls ran leaves any conversation out of order |
| Turns.NoRecordLeftPending | src/runtime/executor.cpp:355-425 | Where receipts carry their calls' ids, a turn leaves no record pending exactly when every round settles its calls |
| ToolLoop.RequestsFollowProtocol | src/runtime/executor.cpp:427-485 | Each request of a turn, as the provider reads it, is in order exactly when every round before it was clean |
| ToolLoop.ValidIdsSettle | src/runtime/executor.cpp:355-425 | Where ids are valid text, a turn leaves no record pending exactly when in each round all calls ran under distinct ids, or none ran and no note came |
| ToolLoop.TurnKeepsOrder | src/runtime/executor.cpp:186-213 | A conversation in order is in order after a whole turn, answered, failed, stopped or abandoned, exactly when every round was clean |
| ToolLoop.TurnSays | src/runtime/executor.cpp:196-213 | The question is the entry behind the conversation, and the answer the last one, unless there was none or an error |
| ToolLoop.WrapUpIsSent | src/runtime/executor.cpp:439-457 | A round asks for the wrap-up exactly when the calls so far reach the budget, and its request ends in that message |
| ToolLoop.ExecutedTurnRewinds | src/session/session.cpp:129-151 | A turn executed for the user can be taken back, leaving what was before; one executed for a peer cannot |
| ToolLoop.GivenIdsDiffer | src/runtime/executor.cpp:475-481 | Ids given under different numbers differ, whatever their stamps |
| Tallies.RefusedAll | src/runtime/executor.cpp:505-513 | The counts match exactly when every result was refused, and exactly when every one was unaskable |
| ToolLoop.Executor.NameCalls | src/runtime/executor.cpp:475-481 | Every call has an id; one that had one keeps it, and those given one are given different ones |
| ToolLoop.Executor.AppendAssistantTurn | src/runtime/executor.cpp:239-252 | The answer is appended with its calls pending, in order |
| ToolLoop.Executor.CallProvider | src/runtime/executor.cpp:254-353 | The request is the conversation as it stands; a failure is a stop, an abandonment or an error, a stop whenever the flag is set |
| ToolLoop.Executor.RunOne | src/runtime/executor.cpp:365-409 | The receipt names its call and holds the result the tool gave of that very call, which counts as refused, and as unaskable, exactly when it says so |
| ToolLoop.Executor.RunToolCalls | src/runtime/executor.cpp:355-425 | Before each call the flag is read; calls run in order until it is seen set; then the note waiting, if any and there is a flag; then the seal exactly when the flag is set |
| ToolLoop.Executor.EndRound | src/runtime/executor.cpp:449-484 | A stopped turn is sealed, a reply without calls is the turn's content, one with calls is appended and its calls run and counted, just as the round heard them |
| ToolLoop.Executor.OneRound | src/runtime/executor.cpp:439-484 | What one round makes of the conversation and of the counts, and when the turn goes on |
| ToolLoop.Executor.RunToolLoop | src/runtime/executor.cpp:427-540 | The loop ends within its bound, its rounds are legal and make the conversation, and `EndsAs`: a turn that said nothing, whose budget lasted and whose provider did not fail, is in error exactly when every call it ran was refused, for refusals alone exactly when there were some; else its content is the last answer's text, its reasoning, or what was streamed |
| ToolLoop.Executor.Conclude | src/runtime/executor.cpp:487-530 | What a turn without content comes to, by what its calls' results were; content is left as it is |
| ToolLoop.Executor.Execute | src/runtime/executor.cpp:186-213 | The question, the rounds, and the answer if there is one; the result is what those rounds heard |
| RunnerSafety.BeginKeepsBook | src/app/serve_runner.cpp:221-230 | The eight last records are kept, each with just its turn's frames |
| RunnerSafety.LogKeepsBook | src/app/serve_runner.cpp:97-100 | A frame goes to the record of the turn running |
| RunnerSafety.OnePage | src/app/serve_runner.cpp:35-63 | At most one connection counts as the page, and it is the attached one |
| RunnerSafety.LivePageKept | src/app/serve_runner.cpp:41-52 | A live page keeps the session from any other tab and gives it to a newer socket of its own |
| RunnerDelivery.Snapshot | src/app/serve_runner.cpp:381-394 | A page attaching is handed each frame of the turn in flight, and none twice |
| RunnerDelivery.WorkerIsWell | src/app/serve_runner.cpp:89-112 | No worker step loses or repeats a frame for an attached page |
| RunnerDelivery.SocketIsWell | src/app/serve_runner.cpp:35-78 | No socket step does |
| RunnerTokens.RunKeepsInv | src/app/serve_runner.cpp:35-300 | The invariant holds after any interleaving |
| RunnerTokens.EveryFrameReachesThePage | src/app/serve_runner.cpp:35-112 | A page that stays attached is handed every frame of the turn in flight when it attached and of all later ones |
| RunnerTokens.AtMostOneFrameDoubled | src/app/serve_runner.cpp:35-112 | No frame is handed more than twice, and twice only the one logged and not yet aimed at the attach |
| RunnerTokens.OnlyTheseSetTokens | src/app/serve_runner.cpp:145-176 | A token is set only while installed, by a page's cancel, the stop, or a close that left the session alone |
| RunnerTokens.OnlyTheAttachedLeavesAlone | src/app/serve_runner.cpp:65-78 | Only the attached connection's close leaves the session alone |
| RunnerTokens.SetTokensHaveCauses | src/app/serve_runner.cpp:65-78 | A set token has a cause, and the close of a refused or replaced connection is never one |
| RunnerTokens.CancelBetweenTurns | src/app/serve_runner.cpp:167-176 | Between turns a cancel sets nothing, unless the last turn threw, and then only that turn's token |
| RunnerTokens.TurnsStartUncancelled | src/app/serve_runner.cpp:244-248 | A turn starts with its token clear |
| RunnerCloses.CancelLeftSets | src/app/serve_runner.cpp:77 | The cancel of a page that left sets another turn's token exactly when one is installed by then |
| RunnerCloses.CloseSparesIff | src/app/serve_runner.cpp:65-78 | While that cancel is to come, it can set no other turn's token exactly when none is installed and no turn anybody asked for is to begin |
| RunnerCloses.DetachSparesIff | src/app/serve_runner.cpp:65-78 | At the close, it can cancel no turn but the one running exactly when no other is waiting to begin |
| RunnerCloses.AwaitedTurnBegins | src/app/serve_runner.cpp:178-248 | A turn waiting to begin can have its token installed before the cancel comes |
| RunnerCloses.CloseMayCancelTheNextTurn | src/app/serve_runner.cpp:65-78 | An interleaving in which a page's close cancels the turn after its own |
| RunnerCloses.ThrownTokenStays | src/app/serve_runner.cpp:200-206 | A run after which no turn runs and the token of the one that threw is installed |
| RunnerAnswers.RequestIsRead | src/app/serve_runner.cpp:288 | The request is read as set exactly when a page's cancel has set this turn's token |
| RunnerAnswers.CancelledIsAnsweredIff | src/app/serve_runner.cpp:288-306 | A cancelled turn is answered exactly when a page asked before the request was read and the page whose turn it is is still there |
| RunnerAnswers.AskedEarlyOrLate | src/app/serve_runner.cpp:167-176 | At its end, a page's cancel of the turn was read or came too late to be |
| RunnerAnswers.LateCancelIsSilent | src/app/serve_runner.cpp:288-306 | A run in which a page that is still there cancels its own turn and is never told |
| SessionRunners.SessionRunner.Attach | src/app/serve_runner.cpp:35-63 | Refuses or takes the session as the step says, with the frames to hand over |
| SessionRunners.SessionRunner.ReadFrames | src/app/serve_runner.cpp:381-394 | The frames of the last two records, older first |
| SessionRunners.SessionRunner.Detach | src/app/serve_runner.cpp:65-78 | The slot is emptied exactly when it held this connection |
| SessionRunners.SessionRunner.RequestCancel | src/app/serve_runner.cpp:167-176 | The installed token is set, if any; only a page's cancel is remembered |
| SessionRunners.SessionRunner.InstallToken | src/app/serve_runner.cpp:244-248 | A new token, clear, and no request pending |
| SessionRunners.SessionRunner.AppendToRecord | src/app/serve_runner.cpp:97-100 | The frame is logged in the newest record |
| SessionRunners.SessionRunner.AimFrame | src/app/serve_runner.cpp:104-108 | The frame goes to the page attached when the slot is read |
| SessionRunners.SessionRunner.BeginRecord | src/app/serve_runner.cpp:222-230 | A new record, the oldest beyond eight dropped |
| SessionRunners.KeepLast | src/app/serve_runner.cpp:229 | The loop keeps the last eight |
| SessionRunners.SessionRunner.StopTaking | src/app/serve_runner.cpp:145-151 | No job is left and none will be taken |
| BoardSpec.DurationReadBack | src/serve/board.cpp:94-119 | A count and a unit are read as that many seconds, within the count's width |
| BoardSpec.StateReadBack | src/serve/board.cpp:62-92 | A state's name is read back, but for cancelled |
| BoardRuns.ChangeKeepsJob | src/serve/board.cpp:222-264 | Results and questions exist just on the states they belong to, whatever is said of a job; a closed job takes nothing |
| BoardRuns.SortedIsStable | src/serve/board.cpp:212-215 | The sort keeps jobs of one update time in order |
| BoardRuns.EvictedIsOldest | src/serve/board.cpp:211-216 | The job evicted is the first of those longest without an update, whatever its state |
| BoardRuns.RunKeepsInv | src/serve/board.cpp:158-359 | After any run: 32 unfinished at most, 160 kept, 64 records, ids unique, every job well |
| BoardRuns.BoardFromEmpty | src/serve/board.cpp:158-359 | The same of a board begun empty |
| BoardRuns.PostedIsKept | src/serve/board.cpp:210-216 | A job just posted is on the board exactly when the board was not full or some job on it is not stamped later |
| BoardRuns.JobAfter | src/serve/board.cpp:179-359 | A step leaves a job, evicts it, or makes of it what an accepted verb about it says |
| BoardRuns.ClosedForGood | src/serve/board.cpp:222-359 | A closed job never changes again while it is on the board |
| BoardRuns.DeclineMarks | src/serve/board.cpp:283-289 | A decline is accepted only of a job not yet declined, and marks it |
| BoardRuns.DeclinesAreApart | src/serve/board.cpp:229-243 | Without a claimed or working update between, a second decline is refused |
| BoardRuns.AuditIsTheLast | src/serve/board.cpp:158-162 | The audit is the last 64 of all records ever made |
| BoardRuns.NoteAloneIsRefused | src/serve/board.cpp:222-227 | An update without a state is refused |
| BoardRuns.NoNoteIsRecorded | src/serve/board.cpp:294 | No record of any run is of the kind `note` |
| BoardRuns.MoveToOpenIsNeverRefused | src/serve/board.cpp:283-291 | The move a decline asks for is never refused, so marking the decline first leaves no trace of a refusal |
| BoardVerbs.UpdateAcceptedIff | src/serve/board.cpp:222-291 | An update is accepted exactly from the peer the job is for, while unfinished, naming one of six states, a block with its question, a decline once |
| BoardVerbs.UpdateSays | src/serve/board.cpp:222-305 | The job is in the state named, with the result, question, due time, note and declines that state leaves; outcome and presence say so too; nothing else changes |
| BoardVerbs.PersonSays | src/serve/board.cpp:307-359 | When an answer, a question and a recall are accepted, and every field each leaves |
| BoardVerbs.PostAcceptedIff | src/serve/board.cpp:179-209 | A job is posted exactly with a peer, an intent, fewer than 32 unfinished, and a due time that is one |
| BoardVerbs.PostSays | src/serve/board.cpp:195-209 | A posted job is open, as asked, stamped now, with nothing said of it yet |
| BoardVerbs.PostDue | src/serve/board.cpp:203-209 | It is due so many units after now |
| BoardVerbs.TouchKeeps | src/serve/board.cpp:164-177 | No presence but the peer's changes |
| BoardVerbs.TouchSays | src/serve/board.cpp:164-177 | The peer's presence is seen now, its state kept unless one is said, or it is new behind the others |
| BoardVerbs.RecordSays | src/serve/board.cpp:158-162 | The last record of an accepted verb says when, what, by whom and of which job |
| Boards.ParseDuration | src/serve/board.cpp:94-119 | The seconds a duration says, or nothing |
| Boards.Move | src/serve/board.cpp:222-264 | What each state makes of the job, as `BoardVerbs.UpdateSays` gives it field by field; a refused move leaves it |
| Boards.Board.Record | src/serve/board.cpp:158-162 | The entry is last and the audit is trimmed from the front |
| Boards.Board.TouchPeer | src/serve/board.cpp:164-177 | The peer's presence is new or updated, others stay |
| Boards.Board.Post | src/serve/board.cpp:179-220 | Refused with nothing changed, or the job joins the others and, if they are more than 160, the one longest without an update goes, which may be the new one |
| Boards.Board.Update | src/serve/board.cpp:266-305 | Refused, not found, or the job changed as `BoardVerbs.UpdateSays` says, recorded, and the peer's presence with it |
| Boards.Board.Answer | src/serve/board.cpp:307-325 | Only a blocked job is answered, and goes back to working |
| Boards.Board.Chase | src/serve/board.cpp:327-342 | Any unfinished job is asked about, its state kept |
| Boards.Board.Drop | src/serve/board.cpp:344-359 | Any unfinished job is cancelled |
| Boards.Board.Page | src/serve/board.cpp:406-434 | Every unfinished job in order, and the three that settled last, newest first |
| Boards.PartsOfPage | src/serve/board.cpp:406-434 | The two lists of a page hold every job once, the closed ones apart |

## Left out

- Sockets, HTTP, TLS, processes, files, environment variables, logging and the page itself: calls out of the program.
- JSON as text: a parser is a parameter, so that a value written and read as text is the same value is not stated.
- Random ids, the hash that names a source and the pager's mark: parameters; that two ids differ is what `Fresh`, `FreshIds` and the counters say.
- Widths of counters: sizes are unbounded, so `start + lines` and ranks near the largest `size_t` do not wrap; `ParseDuration`'s product does not overflow.
- The verdict of a command, carried through the pager unchanged, and the envelope a page is wrapped in.
- Windows: the console code page and its re-encoding after `Take`.
- The pager's and the board's own mutexes: each of their methods is one atomic step.
- `OutputCapture.Capture.Append`: reads come as byte sequences; the pipe, its limits and the clock that stops a command are not modelled.
- `Conversations.Conversation.Append`: the history view, which hides a receipt whose call is not before it, is not modelled.
- `ToolLoop.Executor.Execute`: the final answer's time stamp is empty here; usage sums, notices, streaming callbacks and the approval gate are not modelled.
- `ToolLoop.Executor.RunToolCalls`: a note may arrive at any moment of a round and is seen at its end, where it is read.
- `ToolLoop.Executor.RunToolLoop`: it needs the cancel flag never to clear and a provider call made with it set to fail; without them a loop whose calls never run need not end.
- `RunnerTokens.EveryFrameReachesThePage`: handing over is posting to the connection; what the network then delivers is not modelled, nor the expiry of a weakly held connection.
- `SessionRunners.SessionRunner.Attach`: closing the replaced socket is any later `Close` step of it.
- Readers of a turn's record by its id, and closing the board job of a turn.
- The board's rendering, `Snapshot` and `Digest`: text built from what is modelled. Its stamps are integers, so their textual order is not modelled.
- The usage ledger: its total reads an absent cost after units differ, so a total specification does not hold in general.
- Config, gateways, model listing, tools and their sandbox: wide and shallow, without state of the kind above.
