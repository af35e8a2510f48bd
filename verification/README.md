# tmux control mode, from bytes to callers

A model of a client library for tmux control mode: the sans-IO protocol core and the
drivers that share it between callers, with proofs about every input, every chunking of the
stream and every interleaving of the threads.

A control session is one byte stream in each direction. The client writes command lines;
tmux answers each with a block of lines between `%begin` and `%end` or `%error`, and mixes
in `%`-notifications. The number in a guard is not known to the client when it sends, so
replies are matched to commands by position alone. That makes correctness global: the
outstanding ids, the block being read, the bytes buffered, in the pipe and on the wire, and
the waiting callers must all line up, in every reachable state.

The files, bottom up:

- `Text.dfy`: splitting, lines, Rust's integer parsing and printing, on byte strings.
- `Checksum.dfy`, `Layout.dfy`, `LayoutTheorems.dfy`: the layout string, its printer, its
  bounded recursive descent and its checksum.
- `Output.dfy`: the decoder of pane output against tmux's encoder.
- `Notification.dfy`, `NotificationTheorems.dfy`, `NotificationGrammar.dfy`: the notification
  lines, printed and read back, and the grammar they are parsed by.
- `Parser.dfy`, `Guards.dfy`, `Engine.dfy`: the line parser, the guard lines and the engine,
  the two as classes over the state they update, each method tied to a function of it.
- `Streams.dfy`, `Blocks.dfy`: any line stream and any chunks: correlation by position,
  ledgers of blocks and notifications, the desync assertion, the FIFO's accounting.
- `Transcripts.dfy`, `LostGuards.dfy`, `TranscriptExactness.dfy`: printed sessions, read back
  whole, with closing guards lost, and exactly when they read back at all.
- `Drivers.dfy`, `DriverTheorems.dfy`, `DriverOutput.dfy`, `DriverDifferences.dfy`: the
  lock-based client and the actor, on schedules, what they write, and where they part.
- `System.dfy`, `SystemInvariant.dfy`, `SystemTheorems.dfy`: callers, reader thread, pipe and a serial tmux as one
  transition system, and what holds in every state it can reach.
- `Progress.dfy`: runs that succeed, from any such state.
- `Linearization.dfy`, `ActorSystem.dfy`: each interleaving amounts to a schedule, the actor
  agrees with it, and the actor against the same tmux.
- `Commands.dfy`: the typed commands, read back from their lines.

Where the code and its comments or documents disagree, the model follows the code:

- `docs/reference/tmux-source-map.md:191` suggests matching replies by number; the code
  matches by position, as `docs/spec/overview.md:76-82` says. A closing guard's number is
  not looked at (`src/parser.rs:99-108`).
- The comment on `feed` says empty lines are skipped (`src/engine.rs:86`); only blank lines
  outside blocks are, and those inside are output (`src/engine.rs:94-96`,
  `Streams.BlankLine`).
- The comment on `on_eof` says the engine is left empty (`src/engine.rs:148`); it drains the
  FIFO and keeps the buffer, the open block and the last number.
- The comment on `Disconnected` names `%exit` (`src/engine.rs:42`); only the end of the
  stream or a failed write disconnects, and `%exit` is a notification like any other.

## Model

| member | source | states |
|---|---|---|
| Text.UnlinesOfLines | src/engine.rs:87-102 | Cutting a text into complete lines and an unfinished tail loses no byte. |
| Text.LinesAppend | src/engine.rs:87-102 | A stream cut anywhere has the lines of the uncut stream, the first part's tail carried over. |
| Text.DecimalOfValue | src/layout.rs:236-254 | A digit string is the decimal form of its value behind some zeros. |
| Text.ParseUintExactly | src/parser.rs:384-394 | Integer parsing accepts exactly the decimal numerals of the numbers that fit, with an optional `+` and any zeros in front. |
| Text.TrimExactly | src/parser.rs:369-374 | Trimming drops white space characters at both edges, all of them and nothing else. |
| Text.IsSpaceExactly | src/parser.rs:369-374 | The byte strings taken for white space are the UTF-8 forms of the characters with the Unicode property. |
| Text.HexDigitExactly | src/layout.rs:140-143 | The hexadecimal digits, in either case, and the number each stands for. |
| Text.JoinOfSplit | src/parser.rs:162-179 | Splitting at spaces loses nothing and leaves no space in a field. |
| Checksums.ComputeChecksum | src/layout.rs:124-131 | The accumulator loop computes the fold of the rotate-and-add step, on 16 bits. |
| Checksums.ChecksumSnoc | src/layout.rs:124-131 | The checksum of no text is 0; each byte is added, modulo 2^16, to the checksum so far with its bits rotated right by one. |
| Checksums.ReferenceChecksum | src/layout.rs:273-278 | tmux's reference text has the checksum bb62. |
| Checksums.StepIsBijection | src/layout.rs:126-129 | For each byte the step can be undone and hit: it is a bijection on 16-bit states. |
| Checksums.StatesStayApart | src/layout.rs:124-131 | Two different states stay different over any common text. |
| Checksums.SingleByteChangeDetected | src/layout.rs:124-131 | Changing any one byte of any text changes its checksum. |
| Layouts.WriteTree | src/layout.rs:88-101 | Appends exactly the tree's printed form to what was there. |
| Layouts.WriteChildren | src/layout.rs:104-113 | Appends the children, comma separated, between the two brackets. |
| Layouts.RunParseNode | src/layout.rs:154-201 | The recursive descent, with its depth test first, returns the tree and rest, or the error, of the grammar; it ends on every input. |
| Layouts.RunParseChildren | src/layout.rs:203-221 | The loop over siblings returns what the recursive grammar of siblings does; it ends on every input. |
| LayoutTheorems.RoundTrip | src/layout.rs:154-266 | A printed well-formed tree followed by any non-digit text parses to the tree and that text exactly when depth plus height is at most 128, and otherwise fails as too deep. |
| LayoutTheorems.Soundness | src/layout.rs:154-266 | Whatever parses is a tree with no empty split, within the depth bound, and what was consumed is its print up to leading zeros. |
| LayoutTheorems.ParseNodeCanonical | src/layout.rs:224-266 | Leading zeros in numbers make no difference to what is parsed or where parsing fails. |
| LayoutTheorems.CanonicalIdempotent | src/layout.rs:236-254 | Dropping leading zeros twice is dropping them once. |
| LayoutTheorems.ParseTreeExactly | src/layout.rs:154-266 | A bare string parses to a tree if and only if the tree is well formed, at most 128 deep, and the string is its print up to leading zeros. |
| LayoutTheorems.ParseExactly | src/layout.rs:45-63 | A string parses to a tree if and only if the tree is well formed, at most 128 deep, and the string is its print up to leading zeros, bare or behind four hex digits and a comma that give its checksum. |
| LayoutTheorems.ParseOfPrinted | src/layout.rs:45-77 | Both printed forms parse back to the tree exactly when it is well formed and at most 128 deep; a deeper one is refused as too deep. |
| LayoutTheorems.EmptySplitNeverParses | src/layout.rs:203-221 | No string at all parses to a split without children, though such a split prints. |
| LayoutTheorems.ParseRenderParse | src/layout.rs:45-77 | Printing what was parsed, with or without checksum, and parsing again gives the same tree. |
| LayoutTheorems.CorruptedBodyRejected | src/layout.rs:45-63 | Any one byte of a checksummed body altered: the string is refused for its checksum. |
| LayoutTheorems.ToLayoutStringLacks | src/parser.rs:281-283 | A printed layout has no space and no newline. |
| LayoutTheorems.SplitChecksumIs | src/layout.rs:133-146 | Exactly four hex digits and a comma in front are split off as a checksum, with their value. |
| LayoutTheorems.SplitChecksumOfRender | src/layout.rs:133-146 | A bare tree is never taken for a checksummed one. |
| LayoutTheorems.ReferenceSplits | src/layout.rs:16-39 | Printed splits spelled out: braces left-right, brackets top-bottom, width before height, column before row. |
| Output.ParseOctal | src/output.rs:38-47 | Three digits give their octal value when all are octal and it fits a byte, else nothing; the 16-bit accumulator cannot overflow. |
| Output.DecodeOutput | src/output.rs:14-34 | The index loop decodes as the left-to-right grammar of escapes and literal bytes does. |
| Output.DecodeEncode | src/output.rs:14-34 | Decoding undoes tmux's escaping of any bytes, whatever text follows. |
| Output.DecodeHead | src/output.rs:14-47 | At each character: a backslash and three octal digits of a byte decode to that byte; anything else, other backslashes included, stands for itself. |
| Output.EncodeHead | docs/spec/overview.md:95-99 | tmux's encoder: a byte below 0x20 or a backslash becomes a backslash and the three octal digits that decode to it, any other byte itself. |
| Output.EncodeHasNoControl | docs/spec/overview.md:95-99 | Escaped output holds no control character, so never a newline. |
| Output.EncodeDecode | src/output.rs:5-8 | Escaping again restores the payload exactly when it is one tmux could have sent. |
| Notifications.ParseWindowFlags | src/parser.rs:300-315 | The flag loop is the fold that sets known marks and keeps unknown characters in order. |
| NotificationTheorems.FlagsRoundTrip | src/parser.rs:300-315 | Printed window flags read back exactly when the unknown characters hold no space and no known mark. |
| NotificationTheorems.LayoutChangeRoundTrip | src/parser.rs:284-296 | A layout change with one or two checksummed layouts and flags reads back exactly when its layouts parse and its flags are plain and come with a second layout. |
| NotificationTheorems.SubscriptionRoundTrip | src/parser.rs:359-367 | A subscription line reads back its name and value exactly when the name has no space, even when the value holds the separator. |
| NotificationTheorems.ClientRoundTrip | src/parser.rs:336-344 | A client session change reads back exactly when the client name has no space; the session name may. |
| NotificationTheorems.OutputRoundTrip | src/parser.rs:241-250 | An output line carries its pane and exactly its bytes. |
| NotificationTheorems.ExtendedOutputRoundTrip | src/parser.rs:253-266 | The same under flow control, with bytes that may hold the separator. |
| NotificationTheorems.TextRoundTrip | src/parser.rs:187-222 | Each text notification's printed line parses back to it exactly when its fields are ones the line can carry. |
| NotificationTheorems.RoundTrip | src/parser.rs:187-266 | Printing then parsing is the identity on a notification if and only if its fields are ones the line can carry. |
| NotificationGrammar.FlagsExactly | src/parser.rs:300-315 | A flag is set exactly if its mark occurs, and the unknown characters are the others in order. |
| NotificationGrammar.ParseLineExactly | src/parser.rs:187-394 | A line parses to a notification if and only if it has that notification's own keyword, or output prefix, and arguments of its form, as a grammar stated without the parser. |
| NotificationGrammar.UnknownExactly | src/parser.rs:187-239 | A line is kept as it came exactly when that grammar gives it no meaning: an unknown keyword, malformed arguments, or no sign. |
| NotificationGrammar.GuardIsUnknown | src/parser.rs:79-97 | A guard outside a block, closing ones included, is kept as it came. |
| Parsers.Parser.constructor | src/parser.rs:52-54 | A new parser has no block open. |
| Parsers.Parser.Push | src/parser.rs:65-77 | Outside a block output lines go first, then the text path; inside one every line goes to the block. |
| Parsers.Parser.PushAtTopLevel | src/parser.rs:79-97 | Blank lines vanish, a `%begin` opens a block, anything else is a notification. |
| Parsers.Parser.PushWithinBlock | src/parser.rs:99-135 | Any closing guard ends the block whatever its number, a `%begin` fails it and opens the next, other lines are output. |
| Parsers.Parser.CloseBlock | src/parser.rs:137-145 | Yields the block's reply and leaves none open. |
| Engines.Engine.constructor | src/engine.rs:70-72 | A new engine has nothing buffered, open or outstanding. |
| Engines.Engine.RegisterCommand | src/engine.rs:76-81 | Hands out the next id and puts it at the end of the FIFO. |
| Engines.Engine.Feed | src/engine.rs:87-102 | The draining loop runs every line that buffer and chunk complete, in order, and keeps exactly the rest; it ends. |
| Engines.Engine.OnLine | src/engine.rs:108-113 | Passes notifications on and correlates replies. |
| Engines.Engine.Correlate | src/engine.rs:115-143 | A control reply records its number and resolves the front of the FIFO if there is one; any other changes nothing. |
| Engines.Engine.OnEof | src/engine.rs:149-157 | Resolves every outstanding id as disconnected, in order, and empties only the FIFO. |
| Streams.EngineIsScanThenBind | src/engine.rs:108-143 | On any lines the engine is the parser followed by binding: parsed events alone move the FIFO, and the FIFO never moves the parser. |
| Streams.BindIsPositional | src/engine.rs:133-142 | The k-th control reply goes to the k-th outstanding id, as far as both go. |
| Streams.BindKeepsNotices | src/engine.rs:108-113 | Notifications come through untouched and in order. |
| Streams.FeedTwice | src/engine.rs:87-102 | Feeding two chunks gives the outcomes and the state of feeding them as one. |
| Streams.ChunkInvariance | src/engine.rs:87-102 | Every chunking of a stream gives the same outcomes and state, with exactly the unfinished line buffered. |
| Streams.PushOutside | src/parser.rs:65-97 | Outside a block a line is a `%begin`, blank, or a notification, and never two of these. |
| Streams.Correspondence | src/parser.rs:65-145 | On any lines: blocks closed and then the open one are the `%begin` guards in order; their output taken together is the content lines, none lost or reordered; notifications are the remaining non-blank lines outside blocks, in order. |
| Blocks.BlocksExactly | src/parser.rs:99-145 | On any lines: each `%begin` becomes one reply holding exactly the lines up to the next guard of any kind, an error unless that guard is an `%end`; the open block is the one that got no guard. |
| Streams.BlankLine | src/engine.rs:94-96 | A blank line vanishes outside blocks and is a line of output inside one. |
| Streams.QuietExactly | src/engine.rs:120-131 | The desync assertion never fires exactly when control reply numbers increase strictly from the last one on. |
| Streams.QuietRunExactly | src/engine.rs:76-157 | Over any run of registrations, chunks and ends of stream the assertion stays quiet exactly when the numbers of the control replies in the bytes fed increase from the last one on, wherever the bytes are cut. |
| Streams.TripwireSound | src/engine.rs:120-131 | When control `%begin` numbers in the bytes fed increase strictly, it never fires in any run of a new engine, whatever is registered when, whatever other blocks appear and whichever closing guards are lost. |
| Streams.FeedAccounting | src/engine.rs:115-143 | Feeding resolves a front part of the FIFO in order and leaves the rest as it was. |
| Streams.OpsAccounting | src/engine.rs:76-157 | Under any registrations, chunks and ends of stream, outstanding ids stay the last ones handed out, and resolved and outstanding ids together are a contiguous range. |
| Streams.FifoAccounting | src/engine.rs:76-157 | From a new engine, ids resolved and then outstanding are 0, 1, 2, … with none repeated; after an end of stream all are resolved. |
| Guards.ParseGuardExactly | src/parser.rs:160-185 | A line is a guard if and only if it is `%begin`, `%end` or `%error` and exactly three more tokens: any one, a 64-bit numeral, and a 32-bit one that is not 0 exactly for our own commands. |
| Transcripts.GuardRoundTrip | src/parser.rs:162-185 | A printed guard reads back its kind, number and control flag, with any timestamp that has no space, the empty one included. |
| Transcripts.ScanTranscript | src/parser.rs:65-145 | Reading a session of any notification lines and blocks, closing guards lost or not, surfaces the expected events: a lost guard lets its block swallow lines until the next `%begin` fails it. |
| Transcripts.FeedTranscript | src/engine.rs:87-143 | The same through any chunking and the FIFO. |
| Transcripts.TranscriptRoundTrip | src/engine.rs:87-143 | A whole session in any chunks yields what its notification lines parse to, and tells the k-th outstanding command the output lines of the k-th block of ours, as a failure if that ended with `%error`; internal blocks are unseen and the engine ends idle. |
| LostGuards.Realign | src/parser.rs:109-126 | With closing guards lost anywhere, the control replies read, and the one left open, are exactly those meant, in order; one that lost its guard is an error holding its output and every line up to the next block. |
| LostGuards.OpenExactly | src/parser.rs:109-126 | A control block is open at the end exactly when the last control reply lost its guard and no block of any kind came after it; no other reply can be in that position. |
| LostGuards.LostGuardsRealign | src/parser.rs:109-126 | Delete any closing guards: under its own id each command is told its block's output or failure if its guard survived; otherwise, if any later block follows, the failure with exactly its output and the lines up to that block, and if none follows, a disconnect at the end. |
| TranscriptExactness.SayingLine | src/parser.rs:187-266 | A printed notification is never taken for a guard or a blank line, and reads back exactly when its fields are ones the line can carry. |
| TranscriptExactness.SessionExactly | src/parser.rs:65-145 | A printed session of one-line entries reads back as itself with no block left open if and only if its notifications are ones the grammar carries and no content line is shaped like a guard. |
| TranscriptExactness.SessionRoundTrip | src/engine.rs:87-143 | Any carried notifications among any reply blocks, printed, cut into any chunks and fed, come out as those notifications and control replies, in order and each to its own id. |
| TranscriptExactness.PaneOutputSurvives | src/parser.rs:228-279 | Any bytes a pane wrote, escaped, framed and cut into any chunks, come out as one notification with exactly those bytes and change nothing else. |
| Drivers.HandledClosed | src/blocking.rs:222-228 | Handling outcomes removes and answers exactly the waiters they name, in order, passes notifications on in order, and touches nothing else. |
| Drivers.Shared.constructor | src/blocking.rs:82-93 | A new client is connected, with no waiter. |
| Drivers.Shared.Resolve | src/blocking.rs:39-43 | Takes the waiter of the id out and sends it the result; without one nothing happens. |
| Drivers.Shared.Command | src/blocking.rs:114-134 | Refuses when disconnected; otherwise registers and writes, then waits, or on a failed write disconnects without a waiter. |
| Drivers.Shared.Dispatch | src/blocking.rs:213-229 | Feeds a chunk and handles all its outcomes. |
| Drivers.Shared.Handle | src/blocking.rs:222-228 | The loop over outcomes handles each in turn. |
| Drivers.Shared.Disconnect | src/blocking.rs:231-241 | Marks the client disconnected and answers everyone outstanding. |
| Drivers.Shared.ReadLoop | src/blocking.rs:194-211 | Chunks are dispatched, interruptions retried, anything else ends in the disconnect; it ends on any finite series of reads. |
| Drivers.HandleLocally | src/tokio_rt.rs:173-180 | The actor's loop over outcomes does to its local state what the shared one does. |
| Drivers.OwnerTask | src/tokio_rt.rs:140-195 | On any schedule of turns the actor's loop and teardown end in the state, deliveries, notifications and bytes of the schedule's run. |
| DriverTheorems.QueueConserved | src/blocking.rs:39-43 | Resolving the FIFO's front moves calls from waiting to answered in order, none lost, repeated or overtaken. |
| DriverTheorems.EveryCallAnsweredOnce | src/blocking.rs:114-241 | On every schedule, failed writes included, each accepted call is sent exactly one result, in call order, and no waiter is left. |
| DriverTheorems.ReadsAreOneChunk | src/blocking.rs:194-211 | How the stream is cut into reads, and interruptions, change nothing in what is delivered. |
| DriverTheorems.ReadsUntilStop | src/blocking.rs:200-210 | The reader delivers the chunks up to the first end of stream or failed read, retrying interruptions, and nothing after it. |
| DriverTheorems.ActorInStep | src/tokio_rt.rs:154-185 | At every turn of the actor's loop the waiters' ids are exactly the outstanding ones. |
| DriverTheorems.ActorAnswersOnce | src/smol_rt.rs:158-194 | On every schedule the actor sends each call it takes up exactly one result, the one whose write failed included, and teardown leaves no waiter. |
| DriverTheorems.DriversAgree | src/smol_rt.rs:144-198 | With no failed write and no interrupted read, both drivers send the same results to the same calls in the same order, the same notifications and the same lines, but for the actor's detach line. |
| DriverOutput.ActorWrites | src/tokio_rt.rs:154-188 | On every schedule and however its loop ends, the actor writes the lines of the requests it took up, then what a failed write put out if one ended the loop, then the empty detach line. |
| DriverOutput.ActorPasses | src/tokio_rt.rs:167-181 | It passes on exactly the notifications in the bytes read before its loop ended. |
| DriverOutput.ClientWrites | src/blocking.rs:121-130 | On every schedule the client writes a line for each call up to the first failed write, what that one put out, and then nothing. |
| DriverOutput.RefusedWrites | src/blocking.rs:121-123 | A disconnected client refuses every call without writing a byte. |
| DriverOutput.ClientPasses | src/blocking.rs:213-229 | It passes on exactly the notifications in all bytes that arrive, after a failed write too. |
| DriverDifferences.ActorCutShort | src/tokio_rt.rs:161-164 | On any schedule with a failed write the actor sends what the lock-based client sends up to some point, and from there disconnects: to the failing call and then to the same calls in order. |
| DriverDifferences.FailedWriteDiffers | src/blocking.rs:127-130 | A schedule on which they differ: after another caller's failed write the client still delivers the first caller's reply, the actor has disconnected it. |
| DriverDifferences.InterruptedReadDiffers | src/blocking.rs:204-207 | Another: the client retries an interrupted read and delivers the reply, the actor takes it for the end and disconnects the caller. |
| ActorSystem.SameAsTurns | src/tokio_rt.rs:154-185 | What the actor does against tmux is its run over its own turns alone. |
| ActorSystem.RunInLine | src/tokio_rt.rs:154-185 | At every turn against the serial tmux, wire, pipe, buffer, FIFO, waiters and deliveries line up. |
| ActorSystem.ActorNoCrossDelivery | src/tokio_rt.rs:154-191 | On any schedule against the serial tmux, failed writes and reads included, each result other than a disconnect that the actor sends is tmux's answer to the line of the very call it is sent to. |
| SystemInvariant.WireLines | src/blocking.rs:188-192 | The complete lines on the wire are the first commands registered, all but at most the last. |
| SystemInvariant.FedIsPrefix | src/engine.rs:87-143 | What the engine made of the bytes fed so far is a prefix of what tmux meant, and all of it once no byte is left. |
| SystemInvariant.DispatchKeeps | src/blocking.rs:213-229 | A dispatch sends the new replies to the owners of the next ids and keeps engine, waiters and deliveries in line. |
| SystemInvariant.DisconnectKeeps | src/blocking.rs:231-241 | The disconnect tells every remaining waiter, leaving none. |
| SystemInvariant.StepKeeps | src/blocking.rs:114-241 | Every step of callers, reader, pipe or tmux keeps the whole invariant. |
| SystemInvariant.EveryRunIsConsistent | src/blocking.rs:30-44 | Every reachable state satisfies it. |
| SystemTheorems.NoCrossDelivery | src/blocking.rs:114-134 | In every reachable state, a result other than a disconnect that a call came back with is tmux's answer to the very line that call wrote. |
| SystemTheorems.WireLog | src/blocking.rs:126-131 | The complete lines written are the registered commands in id order, and only the last can be incomplete. |
| SystemTheorems.WaitersMatchFifo | src/blocking.rs:114-134 | Outstanding ids are those with a waiter but for at most the last, whose call is still writing or whose write failed; after a failed write the client is disconnected. |
| SystemTheorems.ExactlyOnce | src/blocking.rs:39-43 | Results go to callers in id order, at most one to each, never to one still in the critical section, and never to one that still waits. |
| SystemTheorems.ReplyFindsWaiter | src/blocking.rs:116-131 | Each reply the reader dispatches finds its waiter, unless it answers the one command whose write failed. |
| SystemTheorems.NoStranded | src/blocking.rs:231-241 | After the disconnect no waiter and no outstanding id is left, and every call still blocked has its result ready. |
| SystemTheorems.NeverReconnects | src/blocking.rs:121-129 | From any state, a disconnected client stays so and a stopped reader stays stopped. |
| SystemTheorems.EventsInOrder | src/blocking.rs:222-226 | Notifications sent are always a prefix of tmux's, in order. |
| SystemTheorems.AllDelivered | src/blocking.rs:213-229 | Once all bytes are dispatched, all notifications went out and every answered command with a waiter was sent its answer. |
| SystemTheorems.BlockedOnlyOnTmux | src/blocking.rs:133 | In every reachable state, a call blocked on its reply has its result ready, or the reader has something to read, dispatch or disconnect, or its line is on the wire and tmux has yet to answer it; and whoever holds the lock can go on. |
| Progress.Drain | src/blocking.rs:194-229 | From any consistent state with the lock free the reader can read and dispatch everything in the pipe, with calls, ids, answers and lock as they were. |
| Progress.ReplyArrives | src/blocking.rs:213-229 | In any consistent state with the reader running, any waiting call has a run in which it comes back with tmux's answer to its line: the one already given, or else any reply of any length. |
| Progress.CallSucceeds | src/blocking.rs:114-134 | From any consistent state that is connected with the reader running, whoever holds the lock and whatever is unanswered or unread, every new command line and every reply have a run in which the caller comes back with exactly that outcome. |
| SystemTheorems.TripwireStaysQuiet | src/engine.rs:124-130 | If tmux numbers control blocks in increasing order, the desync assertion holds on every line of every chunk that any run dispatches, on the engine as it then is. |
| Linearization.StagedStep | src/blocking.rs:30-35 | Each step leaves the shared state at a serial state, or at one with the lock holder's call under way. |
| Linearization.Linearizable | src/blocking.rs:30-35 | Whenever the lock is free, the shared state is what the same calls and chunks, whole and one at a time, make of it. |
| Linearization.ActorAgreesWithThreads | src/tokio_rt.rs:140-195 | Given the calls and chunks of any finished run without a failed write, the actor sends every caller the same result and the same notifications. |
| Commands.FormatSendKeys | src/commands.rs:11-17 | The appending loop writes the command and one hex token a key. |
| Commands.ReferenceLines | src/commands.rs:11-48 | The four kinds of command line, spelled out. |
| Commands.KeysReadBack | src/commands.rs:11-17 | The hex tokens read back as exactly the keys. |
| Commands.LineIsFields | src/commands.rs:11-48 | Splitting a typed command's line at spaces gives its arguments, none broken up. |
| Commands.TypedRoundTrip | src/commands.rs:11-48 | Split at spaces and read argument by argument, a typed command's line gives back the command, except a layout selection, which does exactly when the layout is well formed and at most 128 deep. |
| Commands.TypedIsOneLine | src/commands.rs:11-48 | A typed command is one non-empty line without newline, so a free client can always take it up. |
| Commands.TypedCallIsAnswered | src/blocking.rs:138-166 | In every reachable state, a typed call that came back with anything but a disconnect holds tmux's answer to a line that reads back as that very command. |

## Left out

- Process spawning and reaping, the spawn options, and the drop of the blocking client with its detach line and thread join.
- Runtime internals: `select!`, `or`, channels and one-shot senders are a choice of the next step and a log of what was sent; what becomes of requests still queued when an actor ends is not claimed, since it rests on channel libraries.
- Lock poisoning and panics: the mutex is modelled as atomic steps between lock and unlock, and no thread panics.
- Text lines that are not UTF-8: `from_utf8_lossy` is taken as the identity and a string as its bytes; `%output` payloads are raw bytes throughout.
- Engines.Engine.RegisterCommand: does not model the wrap-around of the 64-bit id counter, which takes 2^64 commands to reach.
- Layout error texts: each is one error constructor; `parse` is total and its error kinds are kept apart, their wording is not.
- Drivers.Shared.ReadLoop: runs the reader thread with no caller in between; the interleavings are the steps of `System.dfy`.
- Drivers.OwnerTask: the two runtimes' actors are modelled once, and a schedule that runs out counts as all client handles dropped.
- Command text that is empty or holds a newline: one such string is not one command line, so the callers of `System.dfy` bring one non-empty line, as every typed command is.
- A tmux that misbehaves inside `System.dfy`: there it writes whole blocks, and the stream may end anywhere; lost closing guards are the subject of `LostGuards.LostGuardsRealign`.
- Layout geometry, floating-pane sections and tmux's own checks of a layout: the library leaves them to tmux.
- The session, window and pane fields of a subscription line, which the parser discards: they are printed as free text without a colon.
- tmux's command parser: `Commands.ReadLine` reads a line back by splitting it at spaces.
- Version detection, the `Display` of errors, derived code, and the cost of searching for newlines.
