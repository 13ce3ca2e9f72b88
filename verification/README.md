# gocoon: a verified model of its translator, wire protocol, session, stores and contracts

gocoon is a client of the Cocoon inference network. It speaks a TL-encoded protocol over framed TCP to
proxies, multiplexes queries and answer streams over one session, keeps signed payments in a store,
builds and reads TON contract cells, solves a proof of work before connecting, and translates OpenAI
tool calls into text and back. This project models that behaviour in Dafny and proves what it promises.
`dafny verify dfyconfig.toml` checks all of it.

How the modules fit together:

- **Tool calls** (`Text`, `Json`, `JsonText`, `BraceScan`, `ToolCalls`, `ToolCallRoundTrip`, `ToolCallTexts`,
  `ToolResponse`). A printer with the escaping of Go's `encoding/json`, a reader, the brace scanner and the tag
  scanners. One main theorem is that printing any list of calls into an assistant's text and parsing the text
  gives exactly those calls back. The other is about texts nobody printed here: `JsonText` has the concrete
  syntax of RFC 8259, with any white space and any spelling of strings and numbers; the reader accepts exactly
  these texts, and a block with a call object so written yields the call it says. CDATA wrapping of tool results
  is shown lossless.
- **Wire** (`Bytes`, `TLPrimitives`, `TLTypes`, `TCPPacket`, `Frame`, `Senders`). Layout functions, and the
  Reader, Writer and FramedConn classes proved against them; round trips for any sequence of fields, any
  interleaving of senders with writes that may fail, and any dropping, duplicating or reordering of frames.
- **Session** (`QueryCorrelator`, `CorrelatorLocks`, `Transport`, `Streams`, `StreamEnds`, `Scenarios`,
  `HandshakeCodec`, `Handshake`). Step systems with invariants over all runs. In `QueryCorrelator` a critical
  section that looks up and updates the map is one step, and taking an entry out and resolving it are two;
  `CorrelatorLocks` takes the critical sections apart and shows that every run is a run of the coarser system.
  In `Streams` the lock, the check of done, the send, the unlock and each close are steps of their own; looking
  up a route and deleting it are one step each. Writes of a frame and the stages of the shutdown are apart too.
  The classes beside the step systems perform runs of them, and `Scenarios` gives runs with what they lead to.
  The handshake is a closed system with the proxy as the peer, whatever it announces; bytes travel in two framed
  queues.
- **Stores** (`Ledger`, `MemoryStore`, `BboltStore`, `StoreSimulation`). One abstract map, two classes that
  simulate it, and a run of any operations over both.
- **Contracts** (`Cells`, `RootParams`, `ClientStorage`) and **proof of work** (`ProofOfWork`). Cells are bits
  and references; coins are TL-B's `VarUInteger 16`; the hash is any function.

What is a parameter: query ids, connect ids and times, which goroutine moves next, how many bytes a write
gets through, the proxy's announcement and verdict, the outcome of the on-chain registration, the reader of
argument texts (any that returns printable JSON), the serialiser of payments (any inverse pair) and the hash
function.

Results that are narrower than one might hope, each stated as an exact condition:

- `WriteBytes` keeps three bytes of a length, so strings of 2^24 bytes and more are cut; the frame size
  guard makes that unreachable for tcp packets (`BytesRoundTrip`, `AcceptedPacketsDecode`,
  `UnguardedPacketIsCut`).
- A strict reader accepts only prefixes of what was sent, but only while fewer than 2^32 frames were sent
  (`AcceptedIsPrefix`, `ReplayAfterWrap`).
- A `SendQuery` refused for a duplicate id leaves the other query's entry under that id (`FailedSendAndItsId`).
- The handshake can finish exactly with compatible announcements that fit a frame (`HandshakeCanFinish`).
- `EncodeStorage` keeps two bits of the state (`StorageReadsBack`), and it defaults a missing stake where
  the other encoder refuses it (`EncodersAgree`).
- The comment on `SolvePoW` speaks of preserving bytes that are not a challenge; the code consumes all 24
  of them, and so does the model.

## Model

| member | source | states |
|---|---|---|
| `Text.NextCut` | cmd/gocoon-runner/tools_translate.go:290-300 | A span found splits the text into before, open tag, inside, close tag, after; nothing is lost in the cut. |
| `Text.NextCutIsFirst` | cmd/gocoon-runner/tools_translate.go:290-300 | The text before the span has no opening tag and its inside no closing tag; no cut means no opening tag at all; an unclosed cut means no closing tag follows. |
| `Text.CloseSearchAgrees` | cmd/gocoon-runner/tools_translate.go:390-394 | Searching the closing tag from the opening tag (stripper) or from behind it (parser) finds the same place, for any two tags of the form used. |
| `Text.StripOfWeave` | cmd/gocoon-runner/tools_translate.go:377-397 | For all shown segments without the opening tag and hidden ones without the closing tag, stripping a0 open b1 close a1 … leaves a0 a1 … |
| `Text.StripOfUnclosed` | cmd/gocoon-runner/tools_translate.go:377-397 | An opening tag never closed drops what follows it and nothing else. |
| `Text.EveryTextIsWoven` | cmd/gocoon-runner/tools_translate.go:377-397 | Every text is of one of those two shapes, so the two lemmas fix stripping on all inputs. |
| `Text.TrimIs` | cmd/gocoon-runner/tools_translate.go:420-420 | White space, a text without any at its edges, and white space again are trimmed to that text. |
| `Text.TrimCuts` | cmd/gocoon-runner/tools_translate.go:420-420 | Every text is its trimmed form with white space around it, and the trimmed form has none at its edges. |
| `Text.SpaceCharacters` | cmd/gocoon-runner/tools_translate.go:420-420 | White space is what Unicode calls so, as for strings.TrimSpace. |
| `Json.StringRoundTrip` | cmd/gocoon-runner/tools_translate.go:244-247 | Reading undoes the escaping of encoding/json for every string, whatever follows the closing quote. |
| `Json.ValueRoundTrip` | cmd/gocoon-runner/tools_translate.go:244-247 | Reading a printed JSON value of any nesting gives the value back and stops right behind it. |
| `Json.ReadIsWellFormed` | cmd/gocoon-runner/tools_translate.go:238-240 | Whatever text is read as JSON can be printed again. |
| `Json.KeyRoundTrip` | cmd/gocoon-runner/tools_translate.go:315-319 | A printed member key is read back and the reader stands at the value. |
| `Json.PrintedCharacters` | cmd/gocoon-runner/tools_translate.go:244-247 | Characters that need no escape are printed as they are, control characters as escapes. |
| `Json.SafeEscapes` | cmd/gocoon-runner/tools_translate.go:244-247 | The HTML-safe escapes of encoding/json and those of U+2028 and U+2029, digit by digit. |
| `Json.PrintedShapes` | cmd/gocoon-runner/tools_translate.go:244-247 | The printed form of each kind of value, with nothing between the tokens. |
| `JsonText.SpelledReads` | cmd/gocoon-runner/tools_translate.go:315-319 | Every JSON text, with any white space between its tokens and any spelling of strings and numbers, is read as what it means, whatever follows it. |
| `JsonText.ReadIsSpelled` | cmd/gocoon-runner/tools_translate.go:315-319 | Conversely, whatever is read is such a text behind white space, and means what was read. |
| `JsonText.GlyphsRead` | cmd/gocoon-runner/tools_translate.go:315-319 | A string in any mixture of plain characters, short escapes, four digits and surrogate pairs is read as what it spells. |
| `JsonText.StringIsSpelled` | cmd/gocoon-runner/tools_translate.go:315-319 | Whatever is read as a string is spelled so. |
| `JsonText.NumberIsSpelled` | cmd/gocoon-runner/tools_translate.go:315-319 | Whatever passes as a number is sign, whole part, fraction and exponent of the grammar. |
| `BraceScan.ExtractJSONObject` | cmd/gocoon-runner/tools_translate.go:340-375 | The loop over depth, inString and escaped equals the specification Extract from its start index on. |
| `BraceScan.ExtractIsExact` | cmd/gocoon-runner/tools_translate.go:340-375 | For every string: a result is the shortest prefix at which the string-aware depth returns to zero, and whenever there is such a prefix it is found. |
| `BraceScan.PrintedObjectIsExtracted` | cmd/gocoon-runner/tools_translate.go:340-375 | On any printed JSON object followed by any text exactly that object is cut out, whatever braces, quotes and backslashes its strings hold. |
| `BraceScan.LevelPrint` | cmd/gocoon-runner/tools_translate.go:347-373 | Printed JSON returns the scanner to the state it started in and never drops below the starting depth. |
| `BraceScan.PrintHasNoBracket` | cmd/gocoon-runner/tools_translate.go:244-255 | Printed JSON contains no '<', so it can neither open nor close a tag. |
| `ToolCalls.StripSpans` | cmd/gocoon-runner/tools_translate.go:401-420 | The stripping loop terminates and equals the recursive specification; the spans it skips are Spans of the text. |
| `ToolCalls.StripThinkBlocks` | cmd/gocoon-runner/tools_translate.go:379-397 | Equals the recursive specification for <think> blocks. |
| `ToolCalls.StripThinkAndToolCalls` | cmd/gocoon-runner/tools_translate.go:401-420 | Both kinds of block removed; what is shown has no white space at either edge, and only white space was cut from the stripped text; the tool-call spans removed are exactly those the parser visits. |
| `ToolCalls.ParseToolCallsFromText` | cmd/gocoon-runner/tools_translate.go:285-335 | The parsing loop terminates, equals the recursive specification, and visits exactly the spans the stripper removes, for every text. |
| `ToolCalls.BlockAt` | cmd/gocoon-runner/tools_translate.go:302-331 | One block: from the first brace before the closing tag, the balanced object decoded, nameless or malformed ones skipped, empty or null arguments made {}. |
| `ToolCalls.Message.RewriteAssistantToolCalls` | cmd/gocoon-runner/tools_translate.go:215-260 | Replaces content by the printed text of all well-formed calls, removes the calls, leaves the role; a message without calls is untouched. |
| `ToolCallRoundTrip.PrintedCallsAreParsed` | cmd/gocoon-runner/tools_translate.go:215-335 | For every list of calls, every reader of argument texts and every existing text free of the two opening tags, parsing the printed text yields exactly the printed calls in order; only nameless ones are dropped. |
| `ToolCallRoundTrip.ReadTextReadsJson` | cmd/gocoon-runner/tools_translate.go:238-243 | The JSON reader modelled here is one of the readers the theorem speaks of, and reads its own prints alike. |
| `ToolCallRoundTrip.OneForOne` | cmd/gocoon-runner/tools_translate.go:225-256 | With no malformed entry and no empty name, as many calls come back as went in, each with its own name and the arguments its text reads as. |
| `ToolCallRoundTrip.ArgumentsReadBack` | cmd/gocoon-runner/tools_translate.go:323-326 | Recovered arguments are JSON that reads as the value the argument text reads as, null having become the empty object, or as the argument text itself, a string, where that text is not JSON. |
| `ToolCallRoundTrip.CallObjectRoundTrip` | cmd/gocoon-runner/tools_translate.go:237-244 | A printed call object decodes to its name and to the exact printed text of its arguments. |
| `ToolCallRoundTrip.BlockRoundTrip` | cmd/gocoon-runner/tools_translate.go:302-331 | The span around one printed call yields that call, whatever follows it. |
| `ToolCallRoundTrip.FirstBlockIsCut` | cmd/gocoon-runner/tools_translate.go:248-255 | The first printed call is the first span of the text, with separator and neighbours intact. |
| `ToolCallRoundTrip.VisibleTextIsTheOriginal` | cmd/gocoon-runner/tools_translate.go:399-420 | The visible text of a printed message is the trimmed original text, with no trace of the calls. |
| `ToolCallRoundTrip.BlockIsWritten` | cmd/gocoon-runner/tools_translate.go:237-255 | A printed call, character for character: the tags on lines of their own, the object with arguments and name in this order. |
| `ToolCallRoundTrip.TextGrows` | cmd/gocoon-runner/tools_translate.go:225-256 | One more call appends its block, on a new line unless the text is empty; a malformed one appends nothing; no calls leave the text as it was. |
| `ToolCallTexts.CallObjectReads` | cmd/gocoon-runner/tools_translate.go:315-323 | A call object in any spelling, with any white space around and inside it, is decoded to what it says: the last name, the exact text of the last arguments, keys matched whatever their case, refused if a name is not a string or null. |
| `ToolCallTexts.CollectedIs` | cmd/gocoon-runner/tools_translate.go:315-319 | What the decoder collects member by member is the last name and the last arguments of the object. |
| `ToolCallTexts.OnlyCallObjects` | cmd/gocoon-runner/tools_translate.go:315-319 | Conversely, whatever is decoded as a call is an object so spelled, with nothing but white space around it. |
| `ToolCallTexts.SpelledObjectIsExtracted` | cmd/gocoon-runner/tools_translate.go:340-375 | The brace scanner cuts out exactly the object in any spelling of it, whatever follows. |
| `ToolCallTexts.BlockSays` | cmd/gocoon-runner/tools_translate.go:302-331 | A block of any text without a brace, an object in any spelling and any text yields the call the object says, or none. |
| `ToolCallTexts.SpelledBlockIsParsed` | cmd/gocoon-runner/tools_translate.go:285-335 | For every text before without the opening tag and every text behind: such a block yields the call it says, and parsing goes on right behind it. |
| `ToolResponse.RewriteToolMessage` | cmd/gocoon-runner/tools_translate.go:264-272 | A new user message without calls: behind its opening tag a reader of CDATA sections finds exactly the tool's content, then the closing tag; the tool message is untouched. |
| `ToolResponse.WrappedReadsBack` | cmd/gocoon-runner/tools_translate.go:264-272 | Lossless for every content: a reader that ends each CDATA section at the first ]]> finds consecutive sections whose text is the content. |
| `ToolResponse.SectionsReadBack` | cmd/gocoon-runner/tools_translate.go:266-266 | The same by induction over the split terminators. |
| `ToolResponse.WrappingIsInjective` | cmd/gocoon-runner/tools_translate.go:264-272 | Different results are wrapped differently. |
| `TLPrimitives.Writer.WriteBytes` | pkg/tl/primitives.go:266-287 | Appends length header, bytes and zero padding, long form with only three length bytes. |
| `TLPrimitives.Reader.ReadBytes` | pkg/tl/primitives.go:128-149 | Result, error and cursor agree with the layout on every buffer, short and malformed ones included. |
| `TLPrimitives.Reader.ReadLengthPrefix` | pkg/tl/primitives.go:163-182 | One- and four-byte headers, 0xff refused, cursor moved by what was read. |
| `TLPrimitives.Reader.ReadBool` | pkg/tl/primitives.go:110-123 | The two constructors; anything else is an error behind the id. |
| `TLPrimitives.BytesRoundTrip` | pkg/tl/primitives.go:266-287 | A byte string comes back, and the cursor stops behind its padding, if and only if it is shorter than 2^24, whatever follows. |
| `TLPrimitives.LengthRoundTrip` | pkg/tl/primitives.go:163-182 | A length comes back modulo 2^24 in the long form. |
| `TLPrimitives.I64RoundTrip` | pkg/tl/primitives.go:61-75 | Signed 64-bit integers survive the unsigned little-endian layout. |
| `TLPrimitives.I32RoundTrip` | pkg/tl/primitives.go:223-231 | Signed 32-bit integers survive the unsigned little-endian layout. |
| `TLPrimitives.BoolRoundTrip` | pkg/tl/primitives.go:109-123 | Bool constructors are read back. |
| `TLPrimitives.BoolsOnTheWire` | pkg/tl/primitives.go:257-263 | The bytes of the two bool constructors, and the byte order. |
| `TLTypes.FieldsRoundTrip` | pkg/tl/primitives.go:128-287 | For every sequence of typed fields and any suffix: reading the same types returns the values, flag-absent fields zeroed, and stops exactly at the suffix, a multiple of 4 bytes on. |
| `TLTypes.EncodingsArePrefixFree` | pkg/tl/primitives.go:128-287 | Two encodings of the same types that agree with their suffixes encode the same visible values and have the same suffix. |
| `TLTypes.FieldRoundTrip` | pkg/tl/primitives.go:128-287 | The same for one field of any of the twelve types. |
| `TLTypes.ClientParamsRoundTrip` | pkg/tl/types.go:113-153 | Flag-gated client parameters come back as their flags show them. |
| `TLTypes.ProxyParamsRoundTrip` | pkg/tl/types.go:176-219 | Flag-gated proxy parameters come back as their flags show them. |
| `TLTypes.TokensRoundTrip` | pkg/tl/types.go:234-261 | Five token counters come back in order. |
| `TLTypes.FlagBits` | pkg/tl/types.go:105-109 | Bit 0 of the flags gates the test mode, bit 1 the protocol versions. |
| `TLTypes.CallsOnTheWire` | pkg/tl/types.go:34-34 | The bytes of the constructors of the connect call and of client parameters. |
| `TLTypes.BytesListRoundTrip` | pkg/tl/vector.go:22-44 | Vector items come back in order, whatever follows. |
| `TLTypes.RawListRoundTrip` | pkg/tl/vector.go:73-95 | 256-bit vector items come back in order, whatever follows, in a multiple of 4 bytes. |
| `TLTypes.WriteVectorBytes` | pkg/tl/vector.go:39-44 | The loop appends the count and every item. |
| `TLTypes.ReadVectorBytes` | pkg/tl/vector.go:22-36 | The loop reads exactly the counted items or fails where the specification fails. |
| `TLTypes.EncodeClientParams` | pkg/tl/types.go:113-126 | Appends the layout, boxed or bare. |
| `TLTypes.DecodeClientParamsBody` | pkg/tl/types.go:129-153 | Decoder and cursor agree with the layout on every buffer. |
| `TLTypes.DecodeProxyParamsBody` | pkg/tl/types.go:192-219 | Decoder and cursor agree with the layout on every buffer. |
| `TLTypes.DecodeTokensUsed` | pkg/tl/types.go:242-261 | Decoder and cursor agree with the layout on every buffer. |
| `TLTypes.EncodeConnectCall` | pkg/tl/types.go:277-281 | The record's encoder: id, bare parameters, version. |
| `TLTypes.EncodeClientConnectToProxy` | pkg/cocoon/handshake.go:218-229 | The hand-written encoder produces the bytes of the record's encoder on flags 3, not test, protocols 1 to 4. |
| `TCPPacket.PacketRoundTrip` | pkg/tl/tcp.go:115-166 | A packet is recovered if and only if its variable part is shorter than 2^24. |
| `TCPPacket.AcceptedPacketsDecode` | pkg/tl/frame.go:49-56 | The size guard makes the truncated length unreachable: every packet the frame writer accepts decodes to itself. |
| `TCPPacket.UnguardedPacketIsCut` | pkg/tl/primitives.go:279-286 | Without the guard a body of 2^24 bytes decodes as an empty one. |
| `TCPPacket.UnknownIsRefused` | pkg/tl/tcp.go:158-160 | Any constructor id but the eight is refused as unknown, and a payload too short for an id as short. |
| `TCPPacket.ConstructorsOnTheWire` | pkg/tl/tcp.go:23-32 | The first four bytes of ping, pong, connect, connected and data packets. |
| `TCPPacket.QueriesOnTheWire` | pkg/tl/tcp.go:26-28 | The first four bytes of queries, answers and errors. |
| `TCPPacket.EncodeTCPConnect` | pkg/tl/tcp.go:40-45 | Equals the packet layout. |
| `TCPPacket.EncodeTCPConnected` | pkg/tl/tcp.go:48-53 | Equals the packet layout. |
| `TCPPacket.EncodeTCPQuery` | pkg/tl/tcp.go:58-64 | Equals the packet layout. |
| `TCPPacket.EncodeTCPPacket` | pkg/tl/tcp.go:67-72 | Equals the packet layout. |
| `TCPPacket.EncodeTCPPing` | pkg/tl/tcp.go:75-80 | Equals the packet layout. |
| `TCPPacket.EncodeTCPPong` | pkg/tl/tcp.go:83-88 | Equals the packet layout. |
| `TCPPacket.DecodeTCPPacket` | pkg/tl/tcp.go:115-166 | Equals the decoding specification on every payload, unknown constructors and short buffers included. |
| `Frame.FramedConn.WriteFrame` | pkg/tl/frame.go:49-68 | A refused size changes neither stream nor counter; otherwise the counter wraps on by one and the frame, or a prefix of it on a failed write, is on the wire. |
| `Frame.FramedConn.ReadFrame` | pkg/tl/frame.go:71-97 | Payload or error, counter and unread bytes as specified, strict and lax. |
| `Frame.FramedConn.ReadLoop` | pkg/cocoon/transport.go:58-78 | The loop accepts the payloads up to the first error and none after it. |
| `Frame.FrameRoundTrip` | pkg/tl/frame.go:49-97 | A frame is read back under its own seqno, and under no other by a strict reader. |
| `Frame.WrongLengthIsRefused` | pkg/tl/frame.go:78-83 | A header that announces fewer than 4 or more than 2^24 bytes is refused, strict or not, and only the header is consumed. |
| `Frame.FramesReadBack` | pkg/tl/frame.go:49-97 | A strict reader gets back any number of framed payloads in order, across int32 wrap-around. |
| `Frame.FramesThenRest` | pkg/tl/frame.go:49-97 | The same with any bytes behind the batch. |
| `Frame.DeliveredFrom` | pkg/tl/frame.go:84-91 | Whole frames dropped, duplicated or reordered: what a strict reader accepts is exactly the in-order run the delivery starts with. |
| `Frame.AcceptedIsPrefix` | pkg/tl/frame.go:84-91 | For every such delivery the accepted payloads are a prefix of those sent, if and only if fewer than 2^32 frames were sent. |
| `Frame.ReplayAfterWrap` | pkg/tl/frame.go:57-60 | From 2^32 frames on a replayed frame passes: the delivery that shows it. |
| `Senders.StreamReadsBack` | pkg/cocoon/transport.go:120-150 | In every state of every interleaving of senders, mid-write too, a strict reader of the stream gets exactly the accepted packets, whole, in order, and they decode; if writes have failed after any number of bytes, at least those accepted before the first failure, first and in order. |
| `Senders.SeqnoCountsAccepted` | pkg/cocoon/transport.go:120-125 | Between writes the counter is the number of packets accepted or failed on the way, modulo 2^32; without failures the stream is the concatenation of whole frames with consecutive seqnos. |
| `Senders.ExclusivePreserved` | pkg/cocoon/transport.go:122-123 | Only the owner of the write lock is inside a write. |
| `Senders.LedgerPreserved` | pkg/tl/frame.go:57-66 | Every step keeps stream, counter and accepted packets in agreement. |
| `Senders.InvRuns` | pkg/cocoon/transport.go:120-150 | The invariant holds over every run. |
| `QueryCorrelator.EveryQueryInOneClass` | pkg/cocoon/correlator.go:37-125 | After any interleaving each registered query is in exactly one of pending, being resolved, answered once, failed once; no send ever found its one-slot channel full. |
| `QueryCorrelator.RegistrationsAddUp` | pkg/cocoon/correlator.go:37-125 | The number of registrations is the sum of the four classes. |
| `QueryCorrelator.StepKeepsInv` | pkg/cocoon/correlator.go:56-125 | Every step, with removal and send apart, keeps the exactly-once invariant. |
| `QueryCorrelator.RunsKeepInv` | pkg/cocoon/correlator.go:37-125 | The invariant holds over every run. |
| `QueryCorrelator.RegisteredThenSwept` | pkg/cocoon/correlator.go:107-125 | A query registered and then swept is still pending if and only if the deadline it was registered with has not passed; otherwise it has been sent the timeout. |
| `QueryCorrelator.MutexExcludes` | pkg/cocoon/correlator.go:107-125 | While a sweep holds the mutex everybody else can only send and receive. |
| `QueryCorrelator.Correlator.Register` | pkg/cocoon/correlator.go:37-53 | Refuses when closed or duplicate and then changes nothing; otherwise adds one query with its id, its deadline and two empty channels; a run of the step system. |
| `QueryCorrelator.Correlator.Deliver` | pkg/cocoon/correlator.go:56-71 | Takes the entry out and puts the payload into its empty channel, touching no other query; a run of the step system. |
| `QueryCorrelator.Correlator.Fail` | pkg/cocoon/correlator.go:74-89 | The same with an error. |
| `QueryCorrelator.Correlator.FailAll` | pkg/cocoon/correlator.go:92-104 | Closes, empties the map and fails every query that was in it and no other; a run of the step system. |
| `QueryCorrelator.Correlator.GcExpired` | pkg/cocoon/correlator.go:107-125 | Removes and times out exactly the entries past their deadline and returns their number; nothing when closed; a run of the step system. |
| `CorrelatorLocks.LockedExactlyOnce` | pkg/cocoon/correlator.go:37-125 | Exactly-once resolution with the mutex taken apart: in any interleaving of locking, single reads and writes, unlocking and sends. |
| `CorrelatorLocks.OneFinder` | pkg/cocoon/correlator.go:56-64 | Two threads never find the same entry: who has found one is alone under the mutex, and nobody else has taken it. |
| `CorrelatorLocks.StepRefines` | pkg/cocoon/correlator.go:37-125 | Every fine step is no step or one step of the coarser system, and keeps what threads have read under the lock true. |
| `CorrelatorLocks.RunsRefine` | pkg/cocoon/correlator.go:37-125 | Every run of the fine system is a run of the coarser one. |
| `CorrelatorLocks.SectionAlone` | pkg/cocoon/correlator.go:37-104 | Run without interruption, every critical section leads to exactly the state of its coarse step, found or not, and the mutex is free again. |
| `CorrelatorLocks.SendsAreFree` | pkg/cocoon/correlator.go:61-70 | With the mutex free nothing holds up a send, receiving never waits for it, and a thread that is to send does so only behind its unlock. |
| `Transport.FiredMeansDrained` | pkg/cocoon/transport.go:172-179 | Once Closed fires the cause is set, registration is refused and nothing is pending; everything the shutdown took has been failed exactly once, with that cause; every other query is resolved or held by a deliver, fail or sweep in progress. |
| `Transport.ShutdownTakesAll` | pkg/cocoon/correlator.go:92-104 | What the shutdown takes is exactly what is pending at that moment, and none of it is pending afterwards. |
| `Transport.FiredIsFinal` | pkg/cocoon/transport.go:172-179 | Whatever runs afterwards, the cause never changes, the map stays empty and no query is added. |
| `Transport.FailedSendLeavesNothing` | pkg/cocoon/transport.go:129-140 | A query whose SendQuery returned an error after registering it is not pending, then or later. |
| `Transport.FailedSendAndItsId` | pkg/cocoon/transport.go:129-140 | By query id: a send whose write failed clears its id; a refused send changes nothing, so its id stays pending if and only if another query uses it. |
| `Transport.StepKeepsInv` | pkg/cocoon/transport.go:129-179 | Every step of closing and sending keeps the invariant; a cause once set stays. |
| `Transport.RunsKeepInv` | pkg/cocoon/transport.go:129-179 | The invariant holds over every run. |
| `Transport.Transport.SendQuery` | pkg/cocoon/transport.go:129-140 | Succeeds if and only if open, with a fresh id, a payload that fits a frame and a complete write; then the entry with its deadline is there and the frame on the wire; on error the pending map is what it was, and a registered query has been failed. |
| `Transport.Transport.CloseWithErr` | pkg/cocoon/transport.go:172-179 | The first call stores its cause and fails everything pending; every later call changes nothing. |
| `Streams.ClosingIsSafe` | pkg/cocoon/inference.go:215-256 | No interleaving, with the check of done and the send apart, sends on a closed channel, full or not, or closes one twice; at most 16 chunks wait. |
| `Streams.ConsumerSeesInOrder` | pkg/cocoon/inference.go:25-61 | The consumer gets, in order, exactly the attempts that found room in an open stream, all with its own request id; the read loop's attempts are its arrivals in order. |
| `Streams.LossNeedsFullBuffer` | pkg/cocoon/inference.go:25-41 | While the stream is open a chunk is dropped only if the buffer was full. |
| `Streams.StepKeepsInv` | pkg/cocoon/inference.go:25-256 | Every step keeps locks, close counts, flow and routing consistent. |
| `Streams.NoPanic` | pkg/cocoon/inference.go:25-41 | No step sends into or closes a closed channel, also not a send whose check of done came before the close began. |
| `Streams.ChecksKept` | pkg/cocoon/inference.go:26-34 | While a sender is between its two selects nobody closes its stream: what it saw of done still holds, because close takes the same lock. |
| `Streams.TwoSelects` | pkg/cocoon/inference.go:28-40 | A send on a stream whose done is closed is over; on an open one it goes on to its second select with nothing changed. |
| `Streams.RunsKeepInv` | pkg/cocoon/inference.go:25-256 | The invariant holds over every run. |
| `Streams.StreamChannel.Send` | pkg/cocoon/inference.go:25-41 | Never blocks: buffered if open and there is room, dropped otherwise. |
| `Streams.StreamChannel.Close` | pkg/cocoon/inference.go:217-227 | Closes both channels the first time, does nothing afterwards, keeps the buffer. |
| `StreamEnds.FinalChunkCloses` | pkg/cocoon/inference.go:46-61 | A final chunk, from the read loop or a watcher, gets its stream closed: when no thread is on its way to close it, its close has begun; no route leads to a closed stream. |
| `StreamEnds.ClosedIsFinal` | pkg/cocoon/inference.go:217-227 | Whatever runs after the close, nothing more arrives and nothing more is kept. |
| `StreamEnds.OpenUntilEnded` | pkg/cocoon/inference.go:46-61 | Over every run a stream just opened stays open and routed until a final chunk arrives, its watcher or its request ends it, or another stream takes its request id. |
| `StreamEnds.StepKeepsEnds` | pkg/cocoon/inference.go:46-61 | Every step keeps closing threads on course and deleted routes deleted. |
| `Scenarios.LoneWrite` | pkg/cocoon/transport.go:121-125 | From any state with the write lock free, a packet that fits can be written: one whole frame with the next seqno. |
| `Scenarios.LoneRefusal` | pkg/cocoon/transport.go:121-125 | One that does not fit is refused and changes nothing on the wire. |
| `Scenarios.LoneSend` | pkg/cocoon/transport.go:129-140 | A send can register and write: its entry, deadline included, is then pending, and nothing else has changed. |
| `Scenarios.LoneFailedSend` | pkg/cocoon/transport.go:129-140 | A send whose write fails puts the cause into its query and leaves the pending map as it was. |
| `Scenarios.LoneClose` | pkg/cocoon/transport.go:172-179 | Closing can run to its end: cause stored, registration closed, Closed fired. |
| `Scenarios.OneChunk` | pkg/cocoon/inference.go:25-61 | A chunk of an opened stream is routed, buffered and received, and the stream stays open. |
| `HandshakeCodec.ConnectedRoundTrip` | pkg/cocoon/handshake.go:236-304 | Whatever the proxy announces is decoded to the same parameters, address, nonce and payment, flag-absent fields zeroed. |
| `HandshakeCodec.AuthResultRoundTrip` | pkg/cocoon/handshake.go:307-362 | Success and refusal decode to what was encoded. |
| `HandshakeCodec.AuthRoundTrip` | pkg/cocoon/handshake.go:255-285 | Both forms of the connection authorisation decode to what was encoded. |
| `HandshakeCodec.PaymentRoundTrip` | pkg/cocoon/handshake.go:286-302 | Empty and signed payments decode to what was encoded. |
| `HandshakeCodec.MessagesOnTheWire` | pkg/cocoon/handshake.go:236-362 | The first four bytes of the announcement and of the two verdicts. |
| `HandshakeCodec.PartsOnTheWire` | pkg/cocoon/handshake.go:255-302 | The first four bytes of both authorisations, both payments and both authorisation calls. |
| `HandshakeCodec.DecodeConnectedToProxy` | pkg/cocoon/handshake.go:236-304 | Equals the decoding specification on every answer, malformed ones included. |
| `HandshakeCodec.DecodeAuthorizationWithProxy` | pkg/cocoon/handshake.go:307-362 | Equals the decoding specification on every answer, malformed ones included. |
| `HandshakeCodec.Validate` | pkg/cocoon/handshake.go:365-378 | Accepted if and only if the peer states its mode or protocol, is on the main network, and its protocol, if stated, is within the range the client offers; which refusal otherwise. |
| `HandshakeCodec.SynthesizeConnected` | pkg/cocoon/internal/fakeproxy/fakeproxy.go:137-158 | The peer's canned announcement is the encoding of its record, spelled out in the contract. |
| `HandshakeCodec.SynthesizeAuth` | pkg/cocoon/internal/fakeproxy/fakeproxy.go:160-184 | The peer's verdict is the encoding of its record. |
| `Handshake.SeqnoGapIsInFlight` | pkg/cocoon/internal/fakeproxy/fakeproxy.go:65-109 | In every reachable state of both parties, each sender/receiver seqno gap equals the frames in flight, and no reader meets a frame it refuses. |
| `Handshake.ReadyMeansHandshakeDone` | pkg/cocoon/handshake.go:51-117 | Whatever the proxy announces and decides: Ready only after tcp.connect was sent, tcp.connected read, and only then the connect query sent, the decoded announcement found compatible, registration with the announced address and nonce, long authorisation and success, in this order; what the client holds is what the proxy encoded, flag-absent fields zeroed. |
| `Handshake.AnnouncementIsAccepted` | pkg/cocoon/handshake.go:236-378 | In every run an announcement that arrives is decoded as announced, and the handshake goes on if and only if it is compatible. |
| `Handshake.AnswersAndErrors` | pkg/cocoon/transport.go:98-106 | Answers and errors for ids that are not pending change nothing; an error for a pending one ends the handshake. |
| `Handshake.UnsupportedIsRefused` | pkg/cocoon/internal/fakeproxy/fakeproxy.go:112-127 | A function the proxy does not know is answered with error code 13, a body too short for a function id with nothing. |
| `Handshake.OtherSeqnoIsRefused` | pkg/tl/frame.go:84-88 | Both readers refuse a frame with another seqno than the one they expect. |
| `Handshake.ReadyIsReachable` | pkg/cocoon/handshake.go:51-117 | No deadlock: between parties that can agree, from every state in which nothing has gone wrong some continuation makes the session Ready. |
| `Handshake.HandshakeCanFinish` | pkg/cocoon/handshake.go:51-117 | From the start some run ends Ready if and only if the announcement is compatible and both the wallet address (at most 2^24 - 44 bytes) and the announcement fit a frame. |
| `Handshake.FakeProxyIsViable` | pkg/cocoon/internal/fakeproxy/fakeproxy.go:137-158 | For the fake proxy's own announcement only the length of the wallet address matters. |
| `Handshake.ConnectSize` | pkg/cocoon/handshake.go:218-229 | The connect query fits a frame if and only if the wallet address has at most 2^24 - 44 bytes. |
| `Handshake.AnnouncementSize` | pkg/cocoon/internal/fakeproxy/fakeproxy.go:128-132 | An announcement is sent if and only if its encoding has at most 2^24 - 16 bytes. |
| `Handshake.StepKeepsInv` | pkg/cocoon/internal/fakeproxy/fakeproxy.go:65-199 | Every step of either party keeps wires, requests, replies and the client's view consistent. |
| `Handshake.RunsKeepInv` | pkg/cocoon/handshake.go:51-117 | The invariant holds over every run. |
| `Handshake.ServingGetsNearer` | pkg/cocoon/internal/fakeproxy/fakeproxy.go:86-133 | Serving a packet in flight keeps the session healthy and leaves less to do. |
| `Handshake.ReadingGetsNearer` | pkg/cocoon/transport.go:81-118 | Dispatching a packet in flight keeps the session healthy and leaves less to do. |
| `Handshake.ActingGetsNearer` | pkg/cocoon/handshake.go:51-117 | With nothing in flight the client can act, stays healthy and has less to do. |
| `Ledger.EachKeyHasItsOwnFate` | pkg/store/store.go:70-79 | Over every run of operations the entry of a key is the last put not followed by a delete of that key or a collection that found it too old. |
| `Ledger.CollectionIsExact` | pkg/store/store.go:78-79 | Collection keeps exactly the entries not older than the threshold, the count conserves entries, and a second one finds nothing. |
| `MemoryStore.MemoryStore.PutSignedPayment` | pkg/store/memory/memory.go:89-104 | Ledger put; nil changes nothing; no empty bucket is kept. |
| `MemoryStore.MemoryStore.GetSignedPayment` | pkg/store/memory/memory.go:107-121 | Ledger get, missing proxy and missing request alike not found. |
| `MemoryStore.MemoryStore.DeleteSignedPayment` | pkg/store/memory/memory.go:124-136 | Ledger delete; a bucket that becomes empty is dropped. |
| `MemoryStore.MemoryStore.ListSignedPayments` | pkg/store/memory/memory.go:139-153 | Exactly the proxy's entries, each once. |
| `MemoryStore.MemoryStore.GCSignedPayments` | pkg/store/memory/memory.go:156-172 | Ledger collection and its exact count; empty buckets dropped. |
| `BboltStore.PaymentBucketName` | pkg/store/bbolt/bbolt.go:140-146 | Payment buckets carry the prefix and never clash with the fixed ones. |
| `BboltStore.BucketNamesAreExact` | pkg/store/bbolt/bbolt.go:140-146 | A name with the prefix belongs to exactly one proxy. |
| `BboltStore.BboltStore.PutSignedPayment` | pkg/store/bbolt/bbolt.go:149-164 | Ledger put through any inverse pair of serialisers; the other buckets unchanged. |
| `BboltStore.BboltStore.GetSignedPayment` | pkg/store/bbolt/bbolt.go:167-184 | Exact on any database contents, undecodable blobs included; the ledger's answer on sound ones. |
| `BboltStore.BboltStore.DeleteSignedPayment` | pkg/store/bbolt/bbolt.go:187-195 | Ledger delete; the other buckets unchanged. |
| `BboltStore.BboltStore.ListSignedPayments` | pkg/store/bbolt/bbolt.go:198-223 | Fails exactly on a foreign key or undecodable blob; otherwise exactly the proxy's entries, each once. |
| `BboltStore.BboltStore.GCSignedPayments` | pkg/store/bbolt/bbolt.go:226-257 | Ledger collection and its exact count over all payment buckets; the other buckets unchanged. |
| `StoreSimulation.RunBoth` | pkg/store/store.go:59-82 | For every sequence of operations on two fresh stores both give the ledger's answers: same gets, same lists as sets, same counts. |
| `StoreSimulation.PerformInMemory` | pkg/store/memory/memory.go:89-172 | One operation simulates the ledger and keeps every bucket nonempty. |
| `StoreSimulation.PerformInBbolt` | pkg/store/bbolt/bbolt.go:149-257 | One operation simulates the ledger. |
| `Cells.BytesAsNumber` | pkg/contracts/client/messages.go:228-228 | The bits of raw bytes are those of the big-endian number they spell. |
| `Cells.CoinsLimit` | pkg/contracts/root/root.go:414-415 | An amount fits VarUInteger 16 if and only if it is below 2^120. |
| `Cells.LoadCoins` | pkg/contracts/root/root.go:493-499 | A stored amount loads back and the slice goes on behind it. |
| `Cells.LoadUInt` | pkg/contracts/root/root.go:469-483 | A stored integer loads back as its low bits and the slice goes on behind it. |
| `Cells.LoadMaybeRef` | pkg/contracts/root/root.go:501-510 | An optional reference loads back. |
| `RootParams.EncodeParamsCell` | pkg/contracts/root/root.go:408-439 | Succeeds if and only if the amounts its version writes are present and below 2^120, and then builds exactly the version's layout. |
| `RootParams.ParseParamsCell` | pkg/contracts/root/root.go:331-406 | Equals the reading specification on every cell; nil, short cells and versions above 5 are refused. |
| `RootParams.ParamsFit` | pkg/contracts/root/root.go:408-439 | Whatever the version and amounts, at most 764 bits and three references: never an overflow. |
| `RootParams.ParamsRoundTrip` | pkg/contracts/root/root.go:331-439 | For every version and all amounts the encoded cell, with or without codes, parses to what the version carries, or is refused above 5. |
| `RootParams.SnapshotSurvives` | pkg/contracts/root/root.go:331-439 | With codes the snapshot itself comes back if and only if it carries nothing its version lacks and the version is at most 5; without codes only the codes are lost. |
| `RootParams.ParsedSurvives` | pkg/contracts/root/root.go:104-108 | Whatever parses can be encoded again and parses to the same snapshot. |
| `ClientStorage.EncodersAgree` | pkg/contracts/root/root.go:441-467 | The two encoders give the same cell or fail alike for every owner, proxy, key, stake and parameter cell, if and only if the stake is present or an address missing; a missing stake one defaults to zero. |
| `ClientStorage.EncodesIfComplete` | pkg/contracts/client/messages.go:206-240 | Encoding succeeds if and only if addresses and key are present and both amounts below 2^120; the cell never overflows. |
| `ClientStorage.BuildLimit` | pkg/contracts/client/messages.go:206-240 | A cell is built if and only if its amounts can be stored and it has at most 1023 bits and four references. |
| `ClientStorage.ParseClientSCData` | cmd/gocoon/main.go:816-848 | Equals the reading specification on every cell, short ones included. |
| `ClientStorage.StorageReadsBack` | cmd/gocoon/main.go:816-848 | Every encoded storage reads back balance, stake, tokens and unlock time; the state modulo 4, so the state itself if and only if it is below 4. |
| `ClientStorage.StateInitDetermines` | pkg/contracts/client/messages.go:243-258 | Equal state-init cells mean equal code and equal storages up to defaults and the state's high bits. |
| `ProofOfWork.LeadingZerosMeanSmall` | pkg/router/pow.go:117-117 | At least d leading zeros if and only if d is at most 0, or at most 64 with the value below 2^(64-d). |
| `ProofOfWork.VerifyIsABound` | pkg/router/pow.go:111-118 | Verification is that bound on the hash value, for any hash function. |
| `ProofOfWork.FindNonce` | pkg/router/pow.go:89-107 | Returns the smallest nonnegative accepted nonce, fails only if there is none in the int64 range, and terminates by the wrap of the counter. |
| `ProofOfWork.SolvePoW` | pkg/router/pow.go:55-86 | Which error when, what is consumed, and that the response decodes to the smallest accepted nonce for the salt and difficulty asked; a failed write leaves a proper prefix of that response, and nothing is sent otherwise. |
| `ProofOfWork.ChallengeIsTaken` | pkg/router/pow.go:63-70 | A challenge is taken up if and only if its difficulty is between 0 and the limit asked for, 32 if that is not positive, whatever follows it. |
| `ProofOfWork.OtherBytesAreRefused` | pkg/router/pow.go:59-66 | Fewer than 24 bytes are a read error; 24 that do not start with the magic are refused as such, and no others. |
| `ProofOfWork.ResponseReadsBack` | pkg/router/pow.go:79-81 | The response decodes to its magic and nonce. |
| `ProofOfWork.ResponseIsAccepted` | pkg/router/pow.go:79-118 | The server decodes the response to a nonce it accepts, and to the smallest one. |
| `ProofOfWork.ChallengeReadsBack` | pkg/router/pow.go:63-72 | A challenge decodes to the difficulty and salt it was built from. |

## Left out

- TLS, certificates, dialing and attestation frames: network and cryptography library code.
- Liteclient calls, broadcasting, discovery, the HTTP control plane and the command line: plumbing around the modelled core.
- Request and response bodies of the translator (`translateRequestBody`, `translateResponseBody`, the system-prompt injection, `messageContentAsString`): field copying; a message's content is modelled as its text.
- Random tool-call ids: a recovered call carries name and arguments only.
- Text is a sequence of Unicode characters, so invalid UTF-8 and its replacement character are not represented.
- Go's limit of 10000 nested JSON values is not represented.
- What decoding argument texts does to numbers, duplicate keys and key order is inside the reader that is a parameter; the printer prints members in the order it is given them.
- Doubles on the wire, string vectors and the http and query-part messages built from the same primitives: they would only add easy members.
- Allocating a vector for a huge announced count before its items are read: memory is not modelled.
- Keepalive and sweep timers: their ticks are steps that may come at any time; pings are among the packets of `Senders` and not of `Handshake`.
- Short authorisation: the flag that selects it is never set, so only the long path is reachable.
- The fake proxy's hook for other queries and its payment-status answer: the handshake asks for neither.
- Session status and the session map under racing connects: dialing, status and registry are not updated together.
- Root and client snapshots in the stores: plain puts and gets; the payment operations are shown to leave their buckets alone.
- Copying of payment blobs in and out of the stores: values have no aliases here. Iteration order of maps and cursors is any order.
- Name and key length limits, transactions and files of the bbolt library, and serialisation errors.
- Cells are trees of bits and references without hashes or depth limits; addresses are standard ones; secret hashes and keys are below 2^256; amounts are not negative.
- Transport.Transport.SendQuery: one caller at a time; interleavings are in the step system of the same module.
- QueryCorrelator.Correlator.Deliver: one caller at a time, as the other methods of the class; interleavings are in the step system of the same module.
