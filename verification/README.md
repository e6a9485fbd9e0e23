# Streaming, fallback and caching: a verified model

This project models the parts of the SDK whose correctness is hardest to see by reading, and proves
what their documentation promises of them. Every module is a Dafny module of its own; a program loop
or class is a method or class here, proved equal to a function, and the theorems are lemmas about
those functions.

**Partial JSON** (`JsonGrammar`, `JsonLeaves`, `PartialJson`, `PartialJsonRepair`, `PartialJsonLexing`,
`PartialViews`). The grammar of RFC 8259, sections 2 to 7, is written as a printer over tokens. The
lexer, the two repair passes and the printer are methods over a cursor and two bracket stacks.
Every prefix of an object or array document that reaches its opening bracket repairs to a complete
document; its value is a partial view of the whole; longer prefixes never take back what shorter ones
showed; a complete document parses to itself. The grammar is shown to be unambiguous, so "the value of
a text" makes sense.

**Message streams** (`MessageEvents`, `Accumulator`, `SentBlocks`). Well-formed event streams are an
automaton. The accumulator is the in-place fold: position equals index, and every field of every block and
of the message is what was sent for it, read off the events alone.
A tool input that is still arriving can be read unless only white space has come. A stream is taken to
its end exactly when the server reports no error, every tool input can be read each time it is (as its
block stops and, while anyone listens for `inputJson`, at every JSON delta), and, if the request asks for
an output that is parsed, each text block by itself parses as the message stops.

**Refusal fallback** (`FallbackSplice`, `SpliceForm`, `SpliceLedger`, `SpliceContent`, `SpliceCredit`,
`SpliceClient`, `SpliceModel`, `FallbackLoop`). The middleware against an arbitrary server: a function from everything sent so far to
a reply, which may be a stream, a status or an exception. The spliced output is one well-formed
message for every pattern of refusals, failures and rejections. The log of requests and replies falls
into one turn per entry, in chain order; every request of a turn redeems, for that entry, the credit in
flight as the log alone tells it, and follows another only where the reply to that calls for it. What a
refusal grants, its partial output block by block among it, is read off the refused stream's events. The
accumulated message is the hops' blocks with a seam before each hop. A client takes the spliced stream to
its end exactly when it would take each hop's stream so and every text sent parses by itself.

**Incremental decoders** (`UniversalNewlines`, `LineDecoding`, `SseDecoding`, `SsePrinting`). Whatever
the chunks, the line decoder and the server-sent-events decoder give what the universal-newline lines
of the whole text give. Both printers are inverted by the decoder, with the exact conditions, for single
records and for whole streams.

**Stream queues** (`StreamTee`, `StreamReading`). `tee` and the async iterator for every interleaving
of reads, events and endings.

**File store** (`FileStore`). The hash cache as the code between two awaits, run by any number of
concurrent calls against a file system that others write to at any moment. It is sound exactly when
the clock that stamps changes never lags true time by more than the trust margin; no answer is without
a sha unless the file was absent during its call; and an unchanged file is not read again.

**Schema strictification** (`SchemaStrictness`). The recursive rewrite of a JSON Schema: what the
original accepts with its object nodes closed is accepted by the result if its references are kept,
exactly that where nothing had to be dropped, and rewriting twice is rewriting once exactly when no node mixes a combinator with
keywords of its type.

**Query encoding** (`QueryEncoding`). UTF-16 to percent-encoded UTF-8 in segments of 1024 units, with
the bit operations of the source.

**Requests** (`HeaderMerging`, `HeaderSources`, `ClientRetry`). Merging headers from any number of
sources, where the last source that gives anything for an ordinary header wins and one header
accumulates; and a call's attempts, delays, token refresh and abort listeners, by a policy that is
spelled out case by case.

## Where the code differs from what it is meant to do

- A complete document that is a bare number with nothing after it is a syntax error, since more
  digits might follow (`PartialViews.WholeDocument`; the document `1`, `PartialViews.BareNumberUnread`).
- A surrogate pair across the edge of a 1024-unit segment is encoded as two wrong characters, and the
  character after it may be swallowed (`QueryEncoding.ReceivedIff`, `QueryEncoding.SplitPair`).
- A byte order mark is stripped from every line, not only the first of the stream, so a raw line that
  begins with one after stripping is not passed through whole (`SsePrinting.PassThroughIff`; for whole
  streams `SsePrinting.StreamPassedThrough`, and a text, `SsePrinting.MarkedIsNotPassedWhole`).
- An error that reaches the message iterator while unread events are queued is lost: after the last
  event the reader is told that the stream is done (`StreamReading.FailureSeen`,
  `StreamReading.FailureLost`).
- A schema node with both a combinator and keywords that go with its type keeps the keywords and loses
  the type, so a second rewriting turns them into a note (`SchemaStrictness.Twice`; `type: object` beside
  `anyOf`, `SchemaStrictness.MixedChangesTwice`).
- Headers that were merged before no longer know that the accumulating header was removed. Merging in
  steps is the same as merging at once exactly when what is merged first removes nothing, or ends up
  holding nothing, or holds all that the rest would add to (`HeaderMerging.HelperInSteps`; sources for
  which it differs, `HeaderMerging.RemovalForgotten`).
- A tool input whose JSON so far is white space only cannot be read, although an empty one can
  (`Accumulator.ToolInputOnTheWay`). With an `inputJson` listener each JSON delta reads the input of the
  last block, so a first piece that is only white space ends the whole stream in error, with the object
  still to come (src/lib/BetaMessageStream.ts:563-577). `Accumulator.CutByWhiteSpace` says exactly when a
  stream of objects is cut short, `Accumulator.SpaceFirst` gives such a stream.
- Structured output is parsed block by block as the message stops (src/lib/beta-parser.ts:99-149), and a
  chained refusal that cuts a text leaves that text as a block of its own. A spliced stream that was served
  well then ends in error, unless the cut text and what the fallback sends parse one by one
  (`SpliceClient.SplicedTaken`; such streams, `SpliceClient.CutTextParsedAlone`).
- A reference into `oneOf`, or to what else the rewriting drops, has nothing to lead to in the strict form
  (`SchemaStrictness.PathLeads` says exactly which are kept; `SchemaStrictness.DanglingReference`).

## Model

| member | source | states |
|---|---|---|
| PartialJson.Tokenize | src/_vendor/partial-json-parser/parser.ts:8-182 | the scanning loop yields the tokens of the text, read one head at a time: strings close at an even number of backslashes, a number that runs to the end is marked as unfinished, an unknown word swallows one more character |
| PartialJson.HeadReads | src/_vendor/partial-json-parser/parser.ts:12-179 | what the head of any text reads as, what is no JSON included: a bracket, colon or comma as itself, a string up to the first quotation mark that is not escaped or nothing up to the end, the longest run of a number, a literal, nothing for another word and the character behind it, nothing for any other character |
| JsonLeaves.NumberIs | src/_vendor/partial-json-parser/parser.ts:197 | a JSON number is a sign or none, digits without a needless zero, a fraction or none, and an exponent or none (section 6 of RFC 8259) |
| JsonLeaves.BodyIs | src/_vendor/partial-json-parser/parser.ts:72-103 | the body of a JSON string is characters that stand for themselves and escapes (section 7 of RFC 8259) |
| PartialJson.FindClosingQuote | src/_vendor/partial-json-parser/parser.ts:80-103 | the search with `indexOf` and the count of backslashes finds the first quotation mark that an even number of backslashes precedes |
| PartialJson.Strip | src/_vendor/partial-json-parser/parser.ts:183-238 | with the bracket stack of the whole input, the trailing tokens that cannot stand at the end are dropped |
| PartialJson.TrimmedIs | src/_vendor/partial-json-parser/parser.ts:199-237 | what is stripped off any tokens is all the colons, unfinished or broken numbers and keys without a value at the end, and then one comma |
| PartialJson.OpenAre | src/_vendor/partial-json-parser/parser.ts:186-194 | a closing bracket closes the innermost open one, of whatever sort |
| PartialJson.Unstrip | src/_vendor/partial-json-parser/parser.ts:239-276 | the closers of all open brackets are appended, innermost first |
| PartialJson.DropLastIs | src/_vendor/partial-json-parser/parser.ts:242-262 | a closing bracket drops the last open one of its sort, and where there is none the last of all |
| PartialJson.Generate | src/_vendor/partial-json-parser/parser.ts:277-292 | the output is the tokens written out, strings quoted |
| PartialJson.Repair | src/_vendor/partial-json-parser/parser.ts:293 | the four stages in a row |
| PartialJsonLexing.LexPrefix | src/_vendor/partial-json-parser/parser.ts:8-182 | lexing a prefix of a rendered token sequence, cut anywhere, gives the tokens that have arrived for certain and at most one number that is cut short |
| PartialJsonLexing.LexWhole | src/_vendor/partial-json-parser/parser.ts:8-182 | lexing inverts writing out a document's tokens with any white space between them |
| PartialJsonRepair.RepairTokens | src/_vendor/partial-json-parser/parser.ts:183-276 | strip and unstrip turn the first k tokens of a document into exactly the tokens of what those k tokens show of it |
| PartialJsonRepair.SeenGrows | src/_vendor/partial-json-parser/parser.ts:183-293 | what k tokens show is a partial view of what more tokens show |
| PartialJsonRepair.PartialOfTransitive | src/_vendor/partial-json-parser/parser.ts:183-293 | being a partial view is transitive |
| PartialViews.UniqueReading | src/_vendor/partial-json-parser/parser.ts:293 | a text denotes at most one JSON value, so parsing is well defined |
| PartialViews.PrefixIsPartialView | src/_vendor/partial-json-parser/parser.ts:8-293 | a prefix of an object or array document parses exactly when it reaches the opening bracket, and then into a partial view of the document |
| PartialViews.NeverTakenBack | src/_vendor/partial-json-parser/parser.ts:8-293 | of two prefixes the shorter one's value is a partial view of the longer one's |
| PartialViews.WholeDocument | src/_vendor/partial-json-parser/parser.ts:8-293 | a complete document of any kind parses to itself unless it is a bare number with nothing after it, which is a syntax error |
| PartialViews.BareNumberUnread | src/_vendor/partial-json-parser/parser.ts:183-238 | the document `1` is such a number: it is complete and does not parse |
| PartialViews.ViewOfPrefix | src/_vendor/partial-json-parser/parser.ts:8-293 | the value of a prefix is precisely what the tokens that have arrived show |
| PartialViews.ItemsShown | src/_vendor/partial-json-parser/parser.ts:183-238 | once an array's first m items have arrived they are all shown, with or without the comma after them |
| PartialViews.MembersShown | src/_vendor/partial-json-parser/parser.ts:183-238 | the same for an object's members |
| Accumulator.MessageStream.AccumulateMessage | src/lib/BetaMessageStream.ts:681-839 | the in-place update of the snapshot is the step function of the fold; a second message_start ends the stream in error |
| Accumulator.MessageStream.AddStreamEvent | src/lib/BetaMessageStream.ts:544-618 | nothing is taken once the stream has ended, be it by an error that the server reports, by an event out of order, by a tool input that cannot be read as its block stops, by a delta while there is no block, by a message_stop while a text block does not parse as the output asked for, or, while anyone listens for `inputJson`, by a JSON delta after which the last block's input cannot be read |
| Accumulator.MessageStream.EndRequest | src/lib/BetaMessageStream.ts:635-645 | the request ends with the snapshot, or in error if there is none or one of its text blocks does not parse |
| Accumulator.MessageStream.Run | src/lib/BetaMessageStream.ts:650-668 | the loop over a whole stream and its end are the fold of single deliveries |
| Accumulator.TakenWhole | src/lib/BetaMessageStream.ts:544-618 | a well-formed stream is taken to its end exactly when no error is reported, every tool input that came as JSON can be read each time it is, as its block stops and at each JSON delta that anyone listens to, and every text sent parses by itself as the message stops, for any listeners and any notions of reading and parsing; then the snapshot is the fold of all its events |
| Accumulator.RequestSucceeds | src/lib/BetaMessageStream.ts:635-645 | the request behind a stream in good order ends without an error exactly when moreover the stream has begun and its texts parse, and with the fold of its events; for a complete stream being taken to its end is enough |
| Accumulator.OneTextParsed | src/lib/beta-parser.ts:99-149 | a message of one text is taken to its end exactly when that text is the output asked for |
| Accumulator.CutByWhiteSpace | src/lib/BetaMessageStream.ts:544-618 | while every tool is sent the JSON of an object, a stream is cut short exactly when, as a block stops or at a JSON delta that anyone listens to, what has come for it is white space and nothing else, or when a text does not parse as the message stops, or when an error is reported |
| Accumulator.SpaceFirst | src/lib/BetaMessageStream.ts:563-577 | a first piece that is only a space, with all of an object still to come, ends the stream exactly when anyone listens for `inputJson` at that moment |
| Accumulator.ArrivingReads | src/internal/message-stream-utils.ts:10-30 | the JSON of an object that was cut short can be read unless it is only white space |
| Accumulator.PositionIsIndex | src/lib/BetaMessageStream.ts:745-839 | for a well-formed stream the block at position i is the one started with index i and grown by the deltas that name it, and there are as many as were started |
| SentBlocks.BuiltIsSent | src/lib/BetaMessageStream.ts:757-815 | that block holds, field by field, what it started with and what the deltas of its own kind say: text, thinking, citations and JSON are the start's and then all of theirs in order, the signature is the last one's, compacted and encrypted content are the last that came |
| SentBlocks.InputIsSent | src/lib/BetaMessageStream.ts:775-831 | a tool's input is what it came with or what all the JSON sent for it says, lazily until the block stops |
| SentBlocks.SnapshotReports | src/lib/BetaMessageStream.ts:697-744 | the stop reason, the transformations and every counter of the snapshot are those of its message_start, or of its message_delta where that gives them anew: output tokens always, six other counters and the iterations when it carries them |
| SentBlocks.SecondStartFails | src/lib/BetaMessageStream.ts:681-692 | whatever the order of events, nothing is held before a message_start, and there is an error exactly when a second one comes |
| Accumulator.TextIsStartPlusDeltas | src/lib/BetaMessageStream.ts:757-765 | a text block's text is its start text and then all its deltas, in order |
| Accumulator.InputIsJsonSent | src/lib/BetaMessageStream.ts:775-781 | a tool block's input is read from the concatenation of all its partial_json, lazily until the block stops |
| Accumulator.ToolInputOnTheWay | src/internal/message-stream-utils.ts:10-30 | while a tool input arrives in any pieces it can be read exactly when what has arrived is empty or more than white space, it is then a partial view of the whole input, and in the end the whole |
| Accumulator.ToolInputGrows | src/internal/message-stream-utils.ts:10-30 | later events never take back what reading a tool input showed |
| FallbackSplice.BlockTracker.Start | src/lib/middleware.ts:805-810 | the block is recorded under its wire index, opened under its shifted one, and the next index moves past it |
| FallbackSplice.BlockTracker.Delta | src/lib/middleware.ts:813-816 | the delta is applied to the first block recorded under that index, if there is one |
| SpliceCredit.TracksAll | src/lib/middleware.ts:793-930 | after any part of a well-formed stream the tracker has one block for each that was started, under its index, holding the start and all that every delta says, of whatever kind, and knows the opening |
| SpliceCredit.NextIndexIs | src/lib/middleware.ts:793-836 | for any events, in order or not, the next index is one past the highest index that has been started or stopped, or the base |
| SpliceCredit.TrackedOutput | src/lib/middleware.ts:970-990 | what the tracker holds is sent back as the stream's output: each block as it was sent, its input read from its JSON, which is not itself sent |
| FallbackSplice.BlockTracker.Stop | src/lib/middleware.ts:819-824 | the shifted index is closed |
| FallbackSplice.BlockTracker.CloseOpenBlocks | src/lib/middleware.ts:827-835 | one stop per open block, in order of opening, and none left open |
| FallbackSplice.ConsumeHop | src/lib/middleware.ts:660-779 | the loop over one hop's events forwards, suppresses and rewrites them as the recursive reading of the stream does, and stops at a refusal that can be chained |
| FallbackSplice.SendHop | src/lib/middleware.ts:895-917 | a request that is fast only because the original was is sent again without speed after a 429 or 529 |
| FallbackSplice.TryEntry | src/lib/middleware.ts:515-562 | the two attempts at one entry, the second without the partial output after a 400 |
| FallbackSplice.TakeHop | src/lib/middleware.ts:483-616 | one turn of the loop over the chain: boundary, attempts, and the next link or the ending |
| FallbackSplice.SplicedEvents | src/lib/middleware.ts:443-617 | the whole generator: its output, requests, reported problems and pins |
| SpliceForm.ConsumeForm | src/lib/middleware.ts:660-836 | a hop's well-formed stream, shifted onto the output, leaves no block open and the next index free when it is refused, and otherwise takes the output to its end |
| SpliceForm.HopForm | src/lib/middleware.ts:483-616 | each turn of the chain keeps the output well formed so far |
| SpliceForm.SplicedIsOneMessage | src/lib/middleware.ts:443-617 | for every server that sends well-formed streams the output is one well-formed message unless the run is aborted; the loop never runs out of entries without an ending; a stream that is not retried passes through unchanged |
| SpliceLedger.TryTurn | src/lib/middleware.ts:515-562 | the two attempts at an entry are one to three requests, all for that entry: each redeems the credit, without the borrowed speed once a 429 or 529 has come in the same turn and without the partial output once a 400 has, and another follows exactly when the last reply calls for it |
| SpliceLedger.HopTurn | src/lib/middleware.ts:459-616 | a turn of the loop adds its own entry's turn to the log, and the chain goes on exactly while the last reply is a failure or a refusal and an entry remains, with the credit in flight |
| SpliceLedger.EveryRequestRedeems | src/lib/middleware.ts:459-616 | the log of every run falls into one turn for each entry pinned, those from `firstHop` on one after another; every request of a turn is the original body with that entry's model and speed, the thinking edit, the token of the latest refusal before the turn, and at most one trailing assistant turn, that refusal's base and partial output, or the base alone exactly behind a 400 in the same turn; the last turn is the last entry's unless its last reply ends the chain |
| SpliceCredit.GrantedIsSaid | src/lib/middleware.ts:700-740 | a refusal grants what its stream says: its token, with a prefill claim the whole output before it, one iteration with its counters, and its details and usage completed from the message_start |
| SpliceCredit.CreditIsSaid | src/lib/middleware.ts:459-616 | the credit in flight after any log is what the stream refused last in it grants, on the assistant turn that its request carried |
| SpliceCredit.RunIsSaid | src/lib/middleware.ts:443-617 | every run in terms of its log: one turn for each entry pinned, whose requests redeem for that entry what the stream refused last before it grants; and the client's message is the refused stream's blocks and then, turn by turn, a seam from the model that refused to the entry's, with that refusal's category, and the blocks of the stream that answered, if any did; and what is reported is, stream by stream, the refusals that are not retried, for want of a token or of an entry, and the requests that fail |
| SpliceLedger.OneIterationPerRefusal | src/lib/middleware.ts:476-478 | the iterations carried are one `message` entry per refused stream of the log |
| SpliceLedger.ServedUsage | src/lib/middleware.ts:750-769 | when a fallback ends the stream its message_delta carries that fallback's own counters, completed like its transformations from its message_start, and reports the refused streams in order and then one `fallback_message` for its model with those counters |
| SpliceCredit.ServedSaid | src/lib/middleware.ts:750-769 | those iterations are, one for each refused stream of the log, the counters it reported |
| SpliceLedger.DegradedSurfaces | src/lib/middleware.ts:564-598 | when all that follows the last refusal fails, the only message_delta is the one of the stream refused last in the log, verbatim but for the last entry's model as the recommended one, with its counters and, for a fallback's stream, its transformations completed from its message_start |
| SpliceContent.HopGrows | src/lib/middleware.ts:660-836 | a hop's blocks land behind those already there, exactly as they would by themselves |
| SpliceContent.SplicedContent | src/lib/middleware.ts:443-617 | folding the accumulator over any spliced stream gives the refused stream's blocks, then for each entry tried a seam and that entry's own blocks, and nothing else |
| SpliceCredit.OwnBlocksHold | src/lib/middleware.ts:660-836 | a hop's own blocks hold what that hop was sent for them, up to its refusal if that is retried |
| SpliceClient.SplicedTaken | src/lib/middleware.ts:443-617 | a client takes the spliced stream to its end exactly when it could read everything on stream A and on each hop's own stream, a block that a refusal cuts short included, with listeners at the same moments, and, unless the run is aborted, each text sent on any of them parses by itself; then its message has exactly the content above |
| SpliceClient.HopSmooth | src/lib/middleware.ts:660-836 | a hop's stream, shifted behind other blocks and without its message_start, ends the client's stream exactly where it would by itself, texts aside |
| SpliceClient.CutTextParsedAlone | src/lib/beta-parser.ts:99-149 | a refusal in the middle of a text and a fallback that serves another text: one well-formed message, taken to its end exactly when each of the two texts parses by itself |
| SpliceModel.ModelIsLastSeam | src/lib/BetaMessageStream.ts:745-752 | the snapshot's model is where the last seam of its content leads, or the one it started with |
| SpliceModel.SplicedModel | src/lib/BetaMessageStream.ts:745-752 | at the end of a chain whose streams carry no seams of their own, however it ends, the message's model is that of the last entry pinned |
| FallbackLoop.RunLoop | src/lib/middleware.ts:275-358 | a first response that failed is returned as it is; otherwise the loop over the chain without streaming, and what the caller is given |
| FallbackLoop.OneSeamPerHop | src/lib/middleware.ts:275-358 | exactly one seam per hop in chain order, each one's `to` the next one's `from`, in front of a message that is not a refusal; anything else is returned as it came, a first response that failed before any hop, a refusal otherwise only from the last entry |
| FallbackLoop.EveryHopPatches | src/lib/middleware.ts:66-95 | the requests fall into hops, in order: each is one request, and a second without the speed exactly when the reply to a borrowed fast one is 429 or 529. Every request of a hop is the original body, never a patched one, with that hop's entry's model, its speed and thinking where it sets or unsets them, thinking between tools disabled where it does not, the original's messages, and the token of the refusal in the reply just before the hop, else the original's |
| UniversalNewlines.LinesAre | src/internal/decoders/line.ts:24-67 | a line ends at CR LF, at LF, or at a CR that no LF follows, and what is left over is a line unless it is empty |
| UniversalNewlines.FinalNewline | src/internal/decoders/line.ts:69-74 | a newline after an unfinished last line adds no line |
| LineDecoding.FindNewlineIndex | src/internal/decoders/line.ts:86-104 | the first newline at or after the start, if there is one |
| LineDecoding.LineDecoder.Decode | src/internal/decoders/line.ts:24-67 | whatever is still to come, the lines returned and then the lines of the buffer and the rest are the lines of everything given |
| LineDecoding.LineDecoder.Flush | src/internal/decoders/line.ts:69-74 | the lines of the buffer, which is left empty |
| LineDecoding.IterLines | src/core/streaming.ts:118-131 | for every way of cutting the bytes into chunks, the universal-newline lines of their concatenation |
| LineDecoding.FromReadable | src/core/streaming.ts:111-154 | the values parsed from the non-empty lines, whatever the chunks |
| LineDecoding.ParsedEach | src/core/streaming.ts:133-154 | one value is read from each line that is not empty, in order |
| LineDecoding.ReadBack | src/core/streaming.ts:196-220 | values written to a readable stream come back as they were under any re-chunking |
| SseDecoding.Decoder.TakeLine | src/core/streaming.ts:246-272 | one line, its byte order mark stripped, read as a field or as the end of a record |
| SseDecoding.TakeSaid | src/core/streaming.ts:246-272 | a line that says a value for a name, with or without one space behind the colon, or the name alone for no value, sets the event or adds to the data, and any other name is only kept |
| SseDecoding.EveryLineSays | src/core/streaming.ts:260-271 | every line says a value for a name |
| SseDecoding.RecordSaid | src/core/streaming.ts:246-272 | a record's event is what its last event field says and its data all that its data fields say, with line feeds between; it is sent unless it says neither, an empty event being none |
| SseDecoding.TakeLfLines | src/core/streaming.ts:279-286 | the fast path for text without a CR takes the same lines |
| SseDecoding.TakeAnyLines | src/core/streaming.ts:287-298 | the other path holds back a CR at the very end and otherwise takes the same lines |
| SseDecoding.Decode | src/core/streaming.ts:223-309 | for every text and every division into chunks, the records are those of feeding the lines of the whole text one by one |
| SsePrinting.SerializeSse | src/lib/middleware.ts:1066-1071 | the loop writes the event line and one data line per piece, then an empty line |
| SsePrinting.DecodeSerialized | src/lib/middleware.ts:1066-1071 | decoding any concatenation of serialized printable records gives their events and data back |
| SsePrinting.SerializedIff | src/lib/middleware.ts:1066-1071 | a record survives serializing and decoding exactly when its event has no CR or LF and its data no CR |
| SsePrinting.DecodedPrintable | src/lib/middleware.ts:1066-1071 | every decoded record is such a record |
| SsePrinting.PassThroughIff | src/lib/middleware.ts:1014-1016 | a decoded record passed through and decoded again is the same, raw lines included, exactly when no raw line begins with a byte order mark |
| SsePrinting.PassThroughDecoded | src/lib/middleware.ts:1014-1016 | the same for every record decoded from any text |
| SsePrinting.StreamPassedThrough | src/lib/middleware.ts:1014-1016 | passing all the records of any text through, one behind the other, and decoding again gives the same records, raw lines and all, exactly when no raw line of theirs begins with a byte order mark |
| SsePrinting.MarkedIsNotPassedWhole | src/lib/middleware.ts:1014-1016 | a text of one record whose raw line begins with such a mark and which is not passed through whole |
| StreamTee.TeeBranches.Next | src/core/streaming.ts:172-181 | a branch with an empty queue draws one result for both |
| StreamTee.Conserved | src/core/streaming.ts:167-189 | for every schedule of reads, what a branch was given and what waits in its queue are all the results drawn, on both sides |
| StreamTee.EachSeesAll | src/core/streaming.ts:167-189 | each branch is given exactly the source's results in order, each drawn once when first needed, and one queue is always empty |
| StreamReading.LiveStream.Emit | src/lib/BetaMessageStream.ts:480-526 | the latch: nothing is emitted after the end, and an error or abort is followed by the end |
| StreamReading.LiveStream.Next | src/lib/BetaMessageStream.ts:890-901 | one call of the iterator |
| StreamReading.EveryRunFits | src/lib/BetaMessageStream.ts:455-526 | for every interleaving of events, reads and endings: the k-th read gets the k-th event, the queues are what is unread and who is waiting, `end` is the last signal and comes once, at most one of error and abort comes before it, and the end promise is rejected exactly then |
| StreamReading.OneQueueEmpty | src/lib/BetaMessageStream.ts:848-907 | one of the two queues is always empty |
| StreamReading.FailureSeen | src/lib/BetaMessageStream.ts:873-887 | a failure reaches whoever reads the events exactly when a reader is waiting as it happens |
| StreamReading.FailureLost | src/lib/BetaMessageStream.ts:881-901 | a run in which an error is lost to the reader |
| FileStore.HashCache.AfterStat | src/internal/file-store.ts:323-341 | a cache hit is recorded again and is the answer |
| FileStore.HashCache.AfterRead | src/internal/file-store.ts:338-341 | a fresh sha is recorded under the stat taken before the read, if that is old enough |
| FileStore.RunKeeps | src/internal/file-store.ts:314-342 | no step of any run, calls and writers interleaved, breaks the invariant of cache and calls |
| FileStore.Sound | src/internal/file-store.ts:314-342 | within the margin every answer of every run is to its own call, and its sha, cached or not, is the hash of bytes that the file held between that call's first and last step; it has none only if the file was absent in between |
| FileStore.HitIsRehash | src/internal/file-store.ts:314-342 | at any moment of any run a hit is what hashing the file again would give |
| FileStore.UnchangedReused | src/internal/file-store.ts:225-236 | a file that was hashed and has not changed is answered from the cache, without reading it again, exactly when both of its times lay more than two seconds before the walk began |
| FileStore.WritersAreFree | src/internal/file-store.ts:518-530 | what others may do between two steps: let time pass, delete, and write anything with any mtime and a ctime that lags |
| FileStore.StaleHit | src/internal/file-store.ts:518-530 | with any more lag a rewrite that keeps size and mtime is hidden |
| FileStore.SoundIffWithinMargin | src/internal/file-store.ts:518-530 | the cache is sound over every run exactly when stamps lag by no more than the margin |
| SchemaStrictness.TransformNode | src/lib/transform-json-schema.ts:28-126 | popping keywords off the working copy and filling the strict schema field by field is the recursive rewrite |
| SchemaStrictness.PathLeads | src/lib/transform-json-schema.ts:28-126 | a JSON pointer that leads somewhere in a schema leads somewhere in the strict form, and then to the strict form of what it led to, exactly when each of its steps is kept: definitions always, `oneOf` never, the rest by whether the node has a reference, its type, and its other combinators |
| SchemaStrictness.Sound | src/lib/transform-json-schema.ts:28-126 | every instance that the original accepts with its object-typed nodes closed, the strict form accepts, through definitions, references that are kept, combinators, properties and items |
| SchemaStrictness.DanglingReference | src/lib/transform-json-schema.ts:42-46 | a schema that refers into its `oneOf` accepts an instance that its strict form refuses |
| SchemaStrictness.Exact | src/lib/transform-json-schema.ts:28-126 | where nothing had to be dropped, which keeps every reference, the two accept the same instances |
| SchemaStrictness.OpenObjectNarrowed | src/lib/transform-json-schema.ts:76-92 | without the closed reading soundness fails |
| SchemaStrictness.RaisesIff | src/lib/transform-json-schema.ts:28-67 | the rewriting throws exactly when it reaches a node that has no reference, no type and no combinator with a list |
| SchemaStrictness.NodeSays | src/lib/transform-json-schema.ts:62-126 | what becomes of each keyword of a node: the title stays, the keywords that go with its type are kept (ten formats, minimums of 0 and 1) or left over, and what is left over is noted behind the old description |
| SchemaStrictness.Twice | src/lib/transform-json-schema.ts:28-126 | rewriting a strict form never throws, and changes nothing exactly when no node mixed a combinator with keywords kept for its type |
| SchemaStrictness.MixedChangesTwice | src/lib/transform-json-schema.ts:28-126 | `type: object` beside `anyOf`, which a second rewriting changes |
| QueryEncoding.Encode | src/internal/qs/utils.ts:163-213 | the nested loops over segments write the escapes of the code points that the encoder reads |
| QueryEncoding.EscapeAt | src/internal/qs/utils.ts:168-208 | one turn of the inner loop |
| QueryEncoding.ReceivedAsRead | src/internal/qs/utils.ts:136-213 | for every text, undoing percent-encoding and UTF-8 gives exactly the code points that the encoder took it for |
| QueryEncoding.ReceivedIff | src/internal/qs/utils.ts:163-213 | a well-formed text arrives as what it says exactly when no surrogate pair lies across the edge of a segment |
| QueryEncoding.SplitPair | src/internal/qs/utils.ts:163-213 | a text of 1025 units that does not arrive |
| QueryEncoding.EncodedIsEscaped | src/internal/qs/utils.ts:168-208 | only unreserved characters, escapes with upper-case digits and, in the older format, parentheses are written |
| QueryEncoding.PlainAre | src/internal/qs/utils.ts:168-181 | letters, digits, four signs and in the older format parentheses are written as they are, and nothing else is |
| HeaderMerging.AppendHeaderValue | src/internal/headers.ts:85-97 | the loop adds the tokens that are not there yet, in order |
| HeaderMerging.AppendedTokens | src/internal/headers.ts:85-97 | the tokens that were there come first, every token of both is there, joining loses nothing, and appending the same again changes nothing |
| HeaderSources.TokensAre | src/internal/headers.ts:85-97 | tokens are the pieces between commas, trimmed, those that are left empty passed over |
| HeaderSources.TrimIs | src/internal/headers.ts:85-97 | trimming takes the white space off both ends and nothing else |
| HeaderSources.AddedNext | src/internal/headers.ts:85-97 | a further token goes behind all that are there, unless it is there |
| HeaderMerging.HeaderBuilder.AddItem | src/internal/headers.ts:103-130 | one item updates the held and removed headers, by adding tokens to the header that accumulates and by replacing any other that this source had not mentioned |
| HeaderMerging.HeaderBuilder.AddSource | src/internal/headers.ts:101-131 | one source's items update the held and removed headers one after another |
| HeaderMerging.HeaderBuilder.Build | src/internal/headers.ts:99-134 | all sources in turn |
| HeaderMerging.BuiltDisjoint | src/internal/headers.ts:99-134 | no header is both held and removed |
| HeaderMerging.LastSourceWins | src/internal/headers.ts:117-130 | an ordinary header is what the last source that mentions it says by itself |
| HeaderSources.SourceSays | src/internal/headers.ts:28-76 | what a source says of an ordinary header is what it gives for it: undefined values nothing, a null that all before it goes, several texts all of them in order, and an object only its last row that gives anything |
| HeaderSources.LastGivenWins | src/internal/headers.ts:99-134 | an ordinary header comes to what the last source that gives anything for it gives |
| HeaderMerging.MergeInSteps | src/internal/headers.ts:34-41 | for every ordinary header, merging some sources first and their result as a source gives the same |
| HeaderMerging.HelperAccumulates | src/internal/headers.ts:106-116 | the accumulating header is the tokens given since its last removal, in order of first mention, each once |
| HeaderSources.HelperIsGathered | src/internal/headers.ts:99-134 | it is held exactly when some text has been given since the last null, and has then the tokens of all those texts |
| HeaderMerging.HelperInSteps | src/internal/headers.ts:106-116 | merging some sources first and their result as a source gives the accumulating header the same value exactly when those sources remove nothing, or end up holding nothing, or hold, since their last removal, all that adding them to the rest comes to |
| HeaderMerging.RemovalForgotten | src/internal/headers.ts:106-116 | a token, a removal and another token: merged in steps both tokens are held, merged at once the second alone |
| ClientRetry.Client.Request | src/client.ts:1599-1614 | a call from the top, with no retries when the body is a stream, does what the recursive reading of its attempts says |
| ClientRetry.Client.MakeRequest | src/client.ts:1599-1779 | one attempt and what follows: its retry count, its listener, and the ending |
| ClientRetry.Client.CheckRetry | src/client.ts:1921-1959 | the retry policy, with one token refresh per call |
| ClientRetry.Client.RetryRequest | src/client.ts:1961-2000 | a delay, then the next attempt |
| ClientRetry.TimeoutMillis | src/client.ts:1968-1996 | what the headers ask for where a timer can take it, else the default |
| ClientRetry.DelayIsWait | src/client.ts:1968-1996 | that is: `retry-after-ms` first, then `retry-after` in seconds or as a date when there is none of the other or it is zero, each only where a timer can take it; otherwise half a second, doubled up to eight with each retry, less up to a quarter by chance |
| ClientRetry.AgainIsTried | src/client.ts:1921-1959 | an attempt is tried again when its connection broke and may be, when its token was refused for the first time, and when the server says so, or where it does not say at 408, 409, 429 and from 500 on |
| ClientRetry.DefaultInRange | src/client.ts:2002-2015 | the default delay lies between 375 and 8000 milliseconds, either included |
| ClientRetry.CallOrderly | src/client.ts:1599-1779 | for every sequence of replies: the k-th attempt has retry count k; another follows exactly when the reply is to be tried again by that policy and retries are left, none with a stream body; every delay is the policy's, in (0, 2^31-1]; the token is refreshed exactly once if one was refused; the ending is that of the last reply; only a successful attempt keeps its listener |

## Left out

- Accumulator.MessageStream.AccumulateMessage: the `container`, `context_management` and `stop_sequence` fields are not modelled, and a snapshot block is a value, so the memo of `withLazyInput` and the identity of blocks are not either.
- Accumulator.TakenWhole: blocks start without JSON of their own and text blocks with a text, as they come on the wire, and records are JSON of the expected shape, nobody aborts, and listeners and tracing do not throw; `fromReadableStream` ignores what the server reports as an error, which is then not recognised; whether a text parses depends on that text alone.
- FallbackSplice.SplicedEvents: the transport of a hop stream cannot fail halfway, an error on it is an event like others and does not end it, `Stream.rawEvents` and JSON parsing of records are taken as given, and cancelling the body is an abort reported by a reply.
- FallbackLoop.RunLoop: the fields that only an entry's other settings touch, `output_config` among them, are one abstract patch; `stripFallbackBlocks` and the beta headers are not part of this model.
- FileStore.RunKeeps: a read is one step, so a file that is rewritten while it is being read is not modelled; directory renames, symbolic links and the walk itself are left out.
- SchemaStrictness.Sound: a reference is a pointer through the keywords that are modelled, so one into others, such as `definitions`, leads nowhere, before or after; the root and its definitions are always kept; at most `depth` references are followed one after another, for every `depth`; boolean schemas and a definition named `__proto__` are left out; the closed reading counts declared properties only, not `patternProperties`; how leftover keywords are printed is a parameter.
- StreamReading.EveryRunFits: listeners do not throw, and the iterator is opened before the first event; the events derived from raw ones (`text`, `citation` and so on) are left out, since the same latch guards them; the read for `inputJson`, which can end the stream, is in `Accumulator.MessageStream.AddStreamEvent`.
- QueryEncoding.Encode: the `iso-8859-1` character set and non-string values are left out.
- LineDecoding.LineDecoder.Decode: works on bytes; the decoding of each line to text is left out, and `null` chunks are not given.
- SseDecoding.Decode: starts from the text that the streaming `TextDecoder` has produced.
- PartialViews.PrefixIsPartialView: `JSON.parse` is the grammar of RFC 8259 read as a specification; values keep the spelling of strings and numbers, which only makes equality finer.
- The non-beta `MessageStream`: its queues are the same, but it reads tool inputs without catching errors, copies the blocks that start, and knows no fallback or compaction blocks, iterations or transformations.
- HeaderMerging.HeaderBuilder.Build: names are in lower case already, several values of `set-cookie` are not kept apart, and a row without a name is not given.
- ClientRetry.Client.MakeRequest: which errors may be retried, with or without middleware, is part of what an attempt meets; `parseFloat` and dates give a number or none.
- ClientRetry.DefaultInRange: delays are over `real`; the random number may be 1, which covers the rounding of doubles.
- Pagination, credentials, tracing, `qs` formatting other than `encode`, and the resource classes: tables and thin loops.
