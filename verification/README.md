# alpi: a verified model

alpi is a local agent daemon. This project models the parts of it whose guarantees hold only over
whole runs, and proves them:

- **The turn engine** (`Engine.dfy`): the step loop with tool batches, interrupts, deadlines, model
  fallback, relay mode, workgroup handoff and wrap-up, as a class whose methods change the history,
  the event stream and the flags. The model, the tools, the clock and the user are arbitrary.
- **The provider stream** (`Chunks.dfy`, `ToolCalls.dfy`, `Watchdog.dfy`, `Streaming.dfy`,
  `Transience.dfy`): a pump thread and a generator as interleaved steps under three deadlines, the
  retry protocol over it, and what a consumer of the two sees.
- **The memory store and its audit** (`EntryFormat.dfy`, `MemoryStore.dfy`, `MemoryEntries.dfy`,
  `MemoryRuns.dfy`, `MemoryCounters.dfy`, `MemorySize.dfy`, `Similarity.dfy`, `MemoryAudit.dfy`): the
  delimited text file character by character, shown to be a list of entries; the audit's union-find
  over the same similarity relation; what the two agree on, and how the file's size moves. For each
  of the last two the exact condition on what is added: `MemoryEscapes.dfy` and `MemoryCap.dfy` have a
  failing run for every content that does not meet it, `MemoryAgreement.dfy` and `MemorySlips.dfy` what
  is left of the agreement when entries come apart, `MemoryGaps.dfy` and `MemoryExamples.dfy` instances
  on both sides.
- **The spending ledger** (`Ledger.dfy`, `LedgerRuns.dfy`, `Budget.dfy`): buckets, day rollover,
  pruned history, cache summaries, threshold events and overshoot.
- **Context compaction and prefix diagnostics** (`Messages.dfy`, `Compaction.dfy`, `PrefixDiag.dfy`).
- **Smaller cores**: attention hysteresis (`Attention.dfy`), the authority fold (`Authority.dfy`),
  journal selection (`Journals.dfy`), reasoning spans (`Spans.dfy`). `Text.dfy` and `Sorting.dfy`
  hold the Python string and sorting primitives they use, `Common.dfy` the option type.

`dafny verify dfyconfig.toml` checks everything.

## How the model is set up

Each operation the source writes as a loop or an in-place update is a method, proved against a
function of its inputs or of the old state; the properties are lemmas about those functions. What
the model does not look into enters as a parameter: a provider is a function from the attempt number
to chunks and an ending, the tools are a function from a call and its number in the turn to a result, a
summariser is a function from messages and a budget to a text, hashes and Unicode folding are
arbitrary functions, dates are day numbers with an arbitrary text form that reads back. A locked
read-modify-write is one atomic step on the decoded value. Money is counted in millionths of a
dollar.

## Where the code and its stated rules part

Each of these is proved, with the exact condition where there is one.

- **Turn log.** A turn that fails its budget check, its workgroup context or its attachments before
  anything is recorded adds no turn to the session; every other turn adds exactly one.
- **Pairing after compaction.** The stub covers only the first tail message, and its made-up id is
  not the id of a reply that has none; nothing at all covers a head that ends inside a call group.
  Under the default policy the head is two messages, so a session in which the system prompt is
  followed by a question and a reply with tool calls loses the answers to those calls when compaction
  fires (`Compaction.DefaultHeadBreaksPairing`, for every window `Compaction.OrdinarySessionBreaks`).
  Pairing is kept exactly
  when compaction does not fire or its cuts are safe, both read off the history and the summariser's
  answer (`Compaction.CompactionPairing`); safe cuts suffice whatever the summariser answers. The
  engine's guarantee carries that condition.
- **Compaction size.** The stub's cost grows with the tool's name, so the bound on a fired result
  has the stub's tokens in it rather than a constant.
- **Watchdog.** A chunk is checked against the deadlines on one clock reading and handed out later.
  Whatever the configuration, some run hands a chunk out at a deadline, exactly when there is a chunk
  and the earliest deadline lies after the start (`Watchdog.HandedOutLate`).
- **Memory deduplication.** What is compared when a content comes in is the content stripped once; what
  later readers see is the content stripped with a comment behind it, and after a reinforcement the
  result stripped again. Where the three differ deduplication and the audit part: a content that leaves
  a comment open (`MemoryGaps.OpenerEscapesDedup`), one with a comment nested in a comment
  (`MemoryExamples.NestedEscapes`), one that stripping splits at a delimiter. Over runs of adds the
  condition is `MemoryEscapes.Agreeing`: with agreeing contents the two agree
  (`MemoryAgreement.AddsAgree`), and any other content, added at most four times to an empty file,
  leaves a duplicate for some oracles (`MemoryEscapes.UnstableEscapes`). With prunes as well
  stable contents do (`MemoryRuns.Stable`, `MemoryRuns.AuditFindsNothing`). Agreeing ones that come apart
  into entries showing nothing to compare may not: a prune trims the front of the file, and can join
  again what was split (`MemorySlips.PruneUndoes`, `MemoryExamples.SplittingEscapes`). A whole comment
  inside a line does no harm (`MemoryExamples.MarkedIsStable`).
- **Memory cap.** The limit is not looked at when an add reinforces. Rewriting an entry makes the
  visible text longer, by one character, exactly when the entry is not the first, begins with a whole
  comment and shows closed text: the comment had swallowed a line break of the delimiter before it
  (`MemorySize.ReinforceSize`, `MemorySize.CapExceeded`; `MemoryExamples.HeadedOverrunsHere` has four
  adds that do it at the caps of both files). The condition on contents is `MemorySize.Tame`: with tame
  contents the cap holds over any run (`MemorySize.NeverGrowsPastLimit`), and any other content in one
  piece overruns every cap from three times its own length and 8 on (`MemoryCap.UntameOverruns`). In a file written by hand
  one comment can span two entries, and an add of a full stop then brings more to light
  (`MemoryGaps.SpanningAddGrows`).
- **A content that normalises to nothing** counts as a duplicate of the first entry, whatever that
  is, and in an empty file leaves an entry without a body (`MemoryEntries.AddNothing`).
- **Budget events.** The call that takes the spend across the cap reports it only when its caller
  passed the budget along (`Budget.CapReported`). The gap is in the interface: every call that records
  spending in the repository passes it.
- **Cache summaries.** The history is pruned at 30 days, so a summary is short by exactly the calls of
  the window's days before those, wherever the window ends (`LedgerRuns.SummaryShort`); every window of
  32 days or more can be short (`LedgerRuns.WindowTooLong`).
- **Attention.** A failed filing is retried exactly when its key holds no comma, because failed keys
  are split at commas (`Attention.FailedIsForgotten`; a skill in a directory `a,b` has a key that is not,
  `Attention.CommaIsNeverRetriedHere`); and after a failure a memory file has to be
  nearly full again before it is retried (`Attention.RetryNeedsNearAgain`).
- **Clipped transcripts** exceed the budget by the elision marker, and can be longer than the
  original when less was dropped than the marker takes (`Compaction.ClipFits`).

## Model

| member | source | states |
|---|---|---|
| Engine.Turn.RunTurn | alpi/engine.py:560-1712 | One whole turn on any input: a normal exit has ended with done, interrupted or error, with at most one final reply and at most one done, the reply right before done and done last, and the reply is the one filed; a final reply is what the peer, as the last tool that succeeded, said, or the cleaned text of the last request made, which called no tool unless it was told to wrap up, and closes the history that request was made on; in relay mode it is the fixed reply, the reason of a decline, or such an answer once the peer has replied; a workgroup turn has none; without one nothing is filed but a text cut off by an interrupt; every log says what the tool gave to that very call, or why the call was not made, and none is skipped but by an interrupt; the history has grown by exactly the replies these logs stand for, in order; every log was reported in order; the session gains exactly one turn when preflight passed and none otherwise; at most max_steps + fallbacks + 1 model calls and that many times max_retries + 1 requests; from a paired history every provider call sees one reply per call in call order; in relay mode only the peer or decline ran, and never both |
| Engine.Turn.StepLoop | alpi/engine.py:806-929 | The loop descends on steps left and, within a step, on fallback models left, so the calls it makes are at most max_steps plus the fallbacks |
| Engine.Turn.Step | alpi/engine.py:806-1412 | One step keeps the history paired, costs one call plus one per fallback used up, and either ends the turn or leaves it open |
| Engine.Turn.CallModel | alpi/engine.py:834-929 | The same-step fallback loop: every retry uses up a fallback model; what a completed call returns is the text and the calls of the last request made, on the history as it stands, and with replay off what was shown in this step comes from that request and spells the text; running out of time is not a failure, and a workgroup turn fails only when no fallback is left |
| Engine.Turn.TryModel | alpi/engine.py:878-924 | A fallback takes over, or the turn fails, only after an error other than time running out; the turn fails once no fallback is left or the user has seen text |
| Engine.Turn.FallBack | alpi/engine.py:890-915 | The model taken over to is another one from the list; without one the list is used up |
| Engine.Turn.ModelTurn | alpi/engine.py:925-1027 | What is stored is the cleaned text of the last request this step made, whole, with one wire call per tool call assembled from that attempt's fragments; with replay off it is also the attempt shown; a batch past the deadline never enters the history; cut off by an interrupt with replay off, exactly what this step has shown is filed |
| Engine.Turn.Consume | alpi/engine.py:846-882 | The engine's chunk loop clears on a retry reset, so text shown, text held and calls agree with the attempt that finished |
| Engine.Turn.AnswerBatch | alpi/engine.py:1207-1373 | Whatever is skipped, refused, run in parallel or interrupted, a batch adds one log and one reply per call, in call order: the log is of that call, with what its own run gave or the parallel outcome held for its id, and the reply carries what the log says; whether a post was delivered is read off these logs |
| Engine.Turn.LogOf | alpi/engine.py:1236-1299 | A call reaches its tool exactly when its arguments decode and the mode of the turn allows it, and its log says what the tool gave |
| Engine.Turn.NoteResult | alpi/engine.py:1323-1346 | What a result does to the failures in a row and to the delivery of a workgroup post |
| Engine.Turn.RunParallel | alpi/engine.py:1181-1206 | The parallel path runs only outside relay mode, for two or more calls that all decode and are all of tools declared safe, and then holds for every call the result of the last call with its id |
| Engine.Turn.RunAll | alpi/core/tool_executor.py:86-109 | Each call runs once, with its own number; of two calls with one id the later result stays |
| Engine.Turn.NoteRelay | alpi/engine.py:1260-1302 | The relay flags after a call are those of the log so far |
| Engine.RelayMeaning | alpi/engine.py:1260-1302 | Read off the tool log alone: the flags mean that the configured peer was asked, that it replied and that a decline was accepted; no call of the model ran but those two tools, and never both |
| Engine.Turn.Settle | alpi/engine.py:1375-1412 | After a batch, in this order: an interrupt, an accepted decline, a delivered post and a peer reply each end the turn with the event and the text that is theirs; nothing else does, and the model is changed only after three failures in a row, once |
| Engine.LastPeerReplyIsSaid | alpi/engine.py:95-132 | A peer reply is what the last tool that did not fail said, which was the peer, without its usage footer |
| Engine.SaidIsLastPeerReply | alpi/engine.py:95-132 | And whatever the peer, as that tool, said is the peer reply |
| Engine.PeerReplyIsUnsigned | alpi/engine.py:95-98 | It is what stands before the last usage marker, or the whole payload when there is none |
| Engine.Turn.NoCalls | alpi/engine.py:1029-1137 | Without calls the model is asked again exactly for open todos, once for the peer it has to consult, and once for an empty reply |
| Engine.Turn.Conclude | alpi/engine.py:1105-1137 | The reply emitted and filed is what the model said; a workgroup turn leaves the loop with it instead, unless it may end at once |
| Engine.Turn.KeepPartial | alpi/engine.py:934-943 | What the model had said when the user interrupted closes the history and is filed |
| Engine.Turn.HandOff | alpi/engine.py:1426-1478 | The turn completes only with a post that went through: the closing text itself, or in a member turn one marked as a continuation |
| Engine.Turn.PostHandoff | alpi/engine.py:759-803 | A post of the engine's own is logged with what the tool gave to it, and without a reply in the history |
| Engine.Turn.AfterLoop | alpi/engine.py:1414-1662 | Leaving the loop without having ended the turn always ends it, with at most one more call, and with none once the turn has failed, hands off or never reached its peer |
| Engine.Turn.WrapUp | alpi/engine.py:1480-1658 | The one wrap-up call sees a paired history and ends the turn or leaves it open to the closing error |
| Engine.Turn.CloseWrap | alpi/engine.py:1549-1632 | A wrap-up that said something ends the turn with exactly that text as its reply |
| Engine.Turn.AutoCompactHistory | alpi/engine.py:1888-2045 | The engine replaces its history by the compacted one exactly when something was truncated or summarised |
| Engine.AutoCompactionPairing | alpi/engine.py:1888-1940 | Auto-compaction keeps a paired history paired unless its guard holds and its cuts are unsafe |
| Engine.Session | alpi/engine.py:560-1712 | Turns of any kind one on the other, each on the history and the log the last one left: every turn keeps its call bounds, its events, the relay rules, the ground of its reply and the truth of its logs and tool messages; the log grows by the entries of the turns that passed preflight; and up to the first turn that starts with an unsafe compaction every provider call of every turn was paired |
| Spans.Record | alpi/engine.py:183-230 | Over any run of steps, retries and closing events the stored spans spell exactly the reasoning of the attempts kept, in order |
| Spans.Recorder.Delta | alpi/engine.py:196-205 | The first span of a step counts from the model call, later ones from now; no stored span changes |
| Spans.Recorder.Close | alpi/engine.py:219-230 | Closing adds one span and one event when a span is open, with its text, the tools before it and the time since it began, never less than none; and nothing otherwise |
| Spans.Recorder.DiscardAttempt | alpi/engine.py:207-211 | A discarded attempt takes exactly its own spans and open text with it |
| Watchdog.Reachable | alpi/llm.py:361-450 | Every interleaving of pump and generator keeps the invariant from which the guarantees below follow |
| Watchdog.YieldsAreAPrefix | alpi/llm.py:361-450 | The chunks yielded are an in-order prefix of the provider's; a normal return, or the provider's own error, means all were delivered |
| Watchdog.NothingYieldedPastADeadline | alpi/llm.py:430-450 | Every chunk handed out was checked strictly before the absolute and the duration deadline |
| Watchdog.HandedOutLate | alpi/llm.py:430-450 | For every configuration: some run hands a chunk out at or past a deadline if and only if there is a chunk and the earliest deadline lies after the start |
| Watchdog.FailuresAreJustified | alpi/llm.py:415-446 | A failure blames a deadline only when that deadline has passed |
| Watchdog.DeadlineBlamed | alpi/llm.py:415-436 | A wait that is over fails for the turn's budget exactly when that deadline has been reached, and for the stream's duration exactly when only that has |
| Watchdog.WaitsUntil | alpi/llm.py:394-413 | On every run: the stall deadline is the first-byte timeout until the provider has said something and the idle timeout from then on, counted from the first wait and from the one after each active chunk, and left alone by keepalives; a wait ends at the earliest deadline |
| Chunks.ActiveUnlessSilent | alpi/llm.py:334-358 | Activity is anything but a chunk without choices or with nothing in them |
| Watchdog.KeepalivesDoNotExtend | alpi/llm.py:334-358 | Keepalives never push the stall deadline back, and none is yielded once it has passed |
| Watchdog.PumpStopsAfterExit | alpi/llm.py:369-386 | Once the generator is gone the pump pulls at most one more chunk and stops within three of its steps |
| ToolCalls.AbsorbChunk | alpi/llm.py:453-486 | The fragments of a chunk are added to the accumulator one by one, each to the entry of its index |
| ToolCalls.EntryIsItsFragments | alpi/llm.py:466-486 | An accumulated entry depends on the fragments of its own index alone |
| ToolCalls.WholeConcatenates | alpi/llm.py:466-486 | Its arguments are the concatenation of that index's fragments in order |
| ToolCalls.LastIdWins | alpi/llm.py:472-476 | Of several ids the last one that is not empty counts |
| ToolCalls.InterleavingIrrelevant | alpi/llm.py:495-519 | Streams with the same fragments per index give the same final tool calls, however they interleave |
| Streaming.Stream | alpi/llm.py:594-675 | The retry loop yields, attempt by attempt, exactly what the recursive account of the protocol says |
| Streaming.RequestsBounded | alpi/llm.py:594-675 | At most max_retries + 1 provider requests; every retry is announced by one reset |
| Streaming.RetriesAreEarned | alpi/llm.py:653-675 | Read off the provider alone: every attempt followed by another had failed in passing, in time, with retries left and with no text shown unless replaying; the last one had not; and the stream ends as the last attempt did |
| Streaming.AttemptsDelivered | alpi/llm.py:641-675 | Of every attempt made all chunks with choices are handed out, in order, and of no other attempt anything |
| Streaming.FinalSays | alpi/llm.py:495-519 | The final chunk's calls are assembled from the fragments handed out as the last attempt's, and its finish reason is the last one given there |
| Streaming.OneAttemptIsSeen | alpi/llm.py:641-675 | A consumer that clears on resets holds, wherever it stops, exactly the text of the attempt in progress; with replay off that is all the text ever emitted |
| Streaming.FinalClosesOneAttempt | alpi/llm.py:641-652 | A final chunk comes last, from a completed attempt, with tool calls assembled from that attempt's fragments alone |
| Streaming.FinishedStreamIsOneWholeAttempt | alpi/llm.py:361-675 | Watchdog, retries and consumer together: a finished stream leaves the text and calls of the whole of one provider attempt |
| Transience.IsTransient | alpi/llm.py:284-310 | True exactly when some exception on the cause chain is transient, on cyclic chains too |
| Transience.SingleMeans | alpi/llm.py:284-294 | Transient by itself: raised by the watchdog, status 429 or 500 and above, or one of the names unless it is an API error blamed on the request |
| Messages.PairingIgnoresContent | alpi/compaction.py:176-192 | Pairing depends on roles, ids and calls only, so truncating contents keeps it |
| Compaction.EstimateMessagesTokens | alpi/compaction.py:131-161 | The loop totals the per-message estimates |
| Compaction.EstimateIsAQuarter | alpi/compaction.py:131-149 | The estimate of any content is a quarter of its characters, up to less than one token for each text in it |
| Compaction.MessageCostsItsTexts | alpi/compaction.py:152-159 | A message costs what its content and the names and arguments of its calls cost, and at least one token |
| Compaction.TruncateOversizedTools | alpi/compaction.py:176-192 | In place, every oversized tool message is elided, no other changes, and the count is right |
| Compaction.TruncationShrinks | alpi/compaction.py:176-192 | Truncation strictly shrinks every message it touches and keeps its role, id and name |
| Compaction.TruncatedShows | alpi/compaction.py:176-192 | A tool message of 32,000 characters or more keeps its first 8,000 and last 4,000 around a line that counts the rest; any other message stays |
| Compaction.SecondPassStable | alpi/compaction.py:176-192 | A second pass changes nothing exactly when the elided count has fewer than 19,957 digits |
| Compaction.TruncationNeverCostsTokens | alpi/compaction.py:131-192 | The token estimate never rises through truncation |
| Compaction.Partition | alpi/compaction.py:195-227 | The pieces concatenate back to the input; the prefix is all the leading system messages; with a middle, head and tail have the sizes asked for |
| Compaction.UnfiredKeepsHistory | alpi/compaction.py:318-406 | A pass that does not summarise keeps length, roles, ids and calls and never raises the estimate |
| Compaction.FiresExactly | alpi/compaction.py:318-406 | It fires if and only if it is forced or over the trigger, the history has more messages than prefix, head and tail take, and the answer to the one summary request is not blank |
| Compaction.FailedSummaryDoesNotFire | alpi/compaction.py:360-384 | An empty or failed answer to the one request made leaves the history as truncation left it |
| Compaction.FiredShape | alpi/compaction.py:358-411 | When it fires, the whole new history: the messages before and behind the middle, truncated, and between them one system message with the header and the stripped answer to the one request, put about that middle with the larger of 800 and the target less what stays as its budget; and one made-up call where the tail opens with a reply |
| Compaction.Reported | alpi/compaction.py:340-411 | Fired or not, the figures reported are the estimates before and after, the messages truncated and the messages replaced |
| Compaction.TargetRounds | alpi/compaction.py:253-268 | The target is its share of the window, rounded toward zero |
| Compaction.CompactionPairing | alpi/compaction.py:230-250 | A paired history stays paired if and only if the guard does not hold or the cuts are safe |
| Compaction.SafeCutsSuffice | alpi/compaction.py:230-250 | Safe cuts keep pairing whatever the window, the trigger and the summariser |
| Compaction.UnsafeCutsBreak | alpi/compaction.py:230-250 | Unsafe cuts cost pairing whenever a forced compaction gets an answer |
| Compaction.DefaultHeadBreaksPairing | alpi/compaction.py:195-250 | Under the default policy, every paired session whose system messages are followed by a question and a reply with tool calls loses its pairing when compaction fires |
| Compaction.OrdinarySessionBreaks | alpi/compaction.py:195-250 | Such a session, worked out for every window: its last message fills the window, and any answer of the summariser breaks it |
| Compaction.AnchorSurvivesEveryRound | alpi/compaction.py:195-250 | The system prefix and the first keep_head messages survive any number of compactions with anything appended in between, up to truncation |
| Compaction.FiredSizeBound | alpi/compaction.py:253-268 | With 800 tokens or more to spare under the target, and a summariser that keeps to the budget it is told, the fired result is at most the target plus six tokens plus the stub |
| Compaction.StubCost | alpi/compaction.py:230-250 | The stub costs a token and what the tool's name costs: two exactly for names under eight characters |
| Compaction.ClipFits | alpi/compaction.py:53-65 | A clipped transcript keeps its two ends, exceeds the budget by the marker alone, and is shorter than the original exactly when more was dropped than the marker takes |
| PrefixDiag.FirstDivergence | alpi/prefix_diag.py:115-124 | Returns the first position at which the two compared slices differ, or none when they agree |
| PrefixDiag.RewriteReported | alpi/prefix_diag.py:70-112 | A rewrite is reported if and only if the history shrank or both windows show a difference |
| PrefixDiag.SilentWhenUnchanged | alpi/prefix_diag.py:89-112 | Nothing is reported if and only if the rest of the request is the same and no rewrite is seen |
| PrefixDiag.ReasonsOfRequests | alpi/prefix_diag.py:70-112 | From two requests to the reasons named: the model, the parameters, the tools and the first message each exactly when they differ, a rewrite exactly when the history shrank or one of the last 64 messages of both changed, and no change exactly when none of these |
| PrefixDiag.CaptureCovers | alpi/prefix_diag.py:70-82 | A captured shape covers the request's messages after the first |
| PrefixDiag.ExtensionIsNoRewrite | alpi/prefix_diag.py:89-112 | Appending is never reported as a rewrite, at any length |
| PrefixDiag.DivergenceOfRewrite | alpi/prefix_diag.py:115-124 | A rewrite reported without shrinkage: the histories differ at the index returned, the least difference both windows show |
| PrefixDiag.SilenceMeansAgreement | alpi/prefix_diag.py:89-112 | Silence means equal hashes on the common window |
| PrefixDiag.WindowRefinesFull | alpi/prefix_diag.py:70-112 | No report where the old body is a prefix of the new; within the window, and where hashes tell the differing messages apart, a report exactly where it is not |
| PrefixDiag.SaveShape | alpi/prefix_diag.py:167-194 | The written shape is last and at most twenty are kept |
| PrefixDiag.StoreIsMostRecent | alpi/prefix_diag.py:179-183 | After any run of saves the store is the most recently written twenty keys, in order of last write |
| PrefixDiag.LastWriteWins | alpi/prefix_diag.py:179-183 | A key's last written shape is the one remembered |
| EntryFormat.SplitJoin | alpi/memory.py:442-449 | Splitting undoes joining for entries that stay in one piece |
| EntryFormat.JoinSplit | alpi/memory.py:442-449 | Joining undoes splitting on any text |
| EntryFormat.StripBuilt | alpi/memory.py:416-423 | Stripping any text with a comment behind it leaves what `Shown` says of that text, and all of it if and only if it is closed |
| EntryFormat.FieldsReadBack | alpi/memory.py:426-432 | The values of an appended comment are read back whatever text it was appended to, even when an opening in that text swallows the comment |
| EntryFormat.MetaRoundTrip | alpi/memory.py:416-440 | Stripping and parsing undo building: the body comes back if and only if it is closed, and then the metadata are the three values alone |
| EntryFormat.ParseIntRoundTrip | alpi/memory.py:452-463 | A counter written as text reads back, whatever its sign |
| MemoryStore.CleanedIsSolid | alpi/memory.py:304-318 | A cleaned entry is trimmed and neither contains the delimiter nor completes one |
| MemoryStore.CleanKeeps | alpi/memory.py:304-318 | A content made of clean lines is kept whole |
| MemoryStore.CleanTwice | alpi/memory.py:304-318 | Cleaning twice is cleaning once |
| MemoryStore.CleanedLines | alpi/memory.py:304-318 | The lines left are exactly the stripped ones that are no heading, no seed text, no section sign and not empty |
| MemoryStore.FindDuplicateIndex | alpi/memory.py:335-356 | Finds the first entry similar to the needle; a needle that normalises to nothing matches the first entry |
| MemoryStore.SameMeans | alpi/memory.py:335-356 | Two contents are the same when one normal form holds the other, or when both have two words or more and share seven in ten of the shorter one's |
| MemoryStore.EssenceIs | alpi/memory.py:376-377 | What is compared is the stripped text without the punctuation at its end |
| MemoryStore.MemoryFile.Add | alpi/memory.py:205-252 | Reinforces the duplicate found, or appends a block that keeps the visible text within the limit, or changes nothing |
| MemoryStore.AddRefused | alpi/memory.py:205-252 | Exactly when an add is refused, and what it leaves otherwise |
| MemoryStore.MemoryFile.Append | alpi/memory.py:236-252 | An append that goes through leaves the visible text within the limit |
| MemoryStore.MemoryFile.Prune | alpi/memory.py:254-289 | The file becomes its kept entries; nothing removed means nothing changed |
| MemoryStore.PruneTest | alpi/memory.py:465-480 | Of any entry, however written: when it goes, and when the check raises |
| MemoryStore.MemoryFile.Mutate | alpi/memory.py:164-176 | An edit is written exactly when its visible text fits |
| MemoryStore.MemoryFile.Replace | alpi/memory.py:178-193 | It succeeds if and only if the text fits and the file is at the revision expected, if one is; the file is then the new text, and otherwise what it was |
| MemoryEntries.ShapeReads | alpi/memory.py:416-432 | An entry's text, whatever comments it holds, reads back as what is shown of it, its metadata and what deduplication sees |
| MemoryEntries.BumpReads | alpi/memory.py:452-463 | Reinforcing an entry writes back what was shown of it, keeps its date, counts one up and lifts low confidence at two |
| MemoryEntries.ReinforceHolds | alpi/memory.py:442-449 | Rewriting the file with one entry reinforced changes that entry alone |
| MemoryEntries.AppendHolds | alpi/memory.py:238-242 | Appending a block adds one entry at the end of the list |
| MemoryEntries.PruneReads | alpi/memory.py:466-480 | Exactly the low-confidence, never reinforced, old entries are dropped |
| MemoryEntries.PruneHolds | alpi/memory.py:254-289 | A prune of the file is a filter of the list; when it drops anything, the first entry left loses the space before it and nothing else changes |
| MemoryEntries.DuplicateFound | alpi/memory.py:335-356 | For any content, the search on the text finds what a search on the list would |
| MemoryEntries.AddHolds | alpi/memory.py:205-252 | An add of any content that keeps to one piece is refused and changes nothing, or does to the list what adding an entry means |
| MemoryExamples.NoSectionIsWhole | alpi/memory.py:416-463 | A content without the section sign keeps to one piece, whatever comments it holds |
| MemoryEntries.AddNothing | alpi/memory.py:335-338 | A content that normalises to nothing reinforces the first entry, or leaves one without a body |
| MemoryRuns.StepHolds | alpi/memory.py:164-289 | Every step on the text is a step on the list of entries |
| MemoryRuns.RunStaysApart | alpi/memory.py:205-289 | Any run of adds of stable contents and prunes from an empty file leaves no two entries similar at 0.7 |
| MemoryRuns.AuditFindsNothing | alpi/memory_audit.py:232-294 | Live deduplication agrees with the audit: after such a run the clusters at 0.7 or any higher threshold are none |
| MemoryAgreement.AddsAgree | alpi/memory_audit.py:232-294 | Over runs of adds alone the same for all agreeing contents, those included that a reinforcement splits into entries showing nothing to compare |
| MemoryEscapes.UnstableEscapes | alpi/memory.py:205-252 | The converse: for each content that is not agreeing, and every limit from twice its length and 115 on, there are oracles under which adding it up to four times to an empty file leaves a cluster |
| MemorySlips.PruneUndoes | alpi/memory.py:254-289 | An agreeing content that shows a delimiter with nothing to compare around it: three adds, a low-confidence note, and the prune of that note leave a cluster |
| MemorySlips.SlipsIsAgreeing | alpi/memory.py:416-463 | Such contents are agreeing and not stable |
| MemoryExamples.SplittingEscapes | alpi/memory.py:254-289 | A given content for which both hold, at a limit of 3000 |
| MemoryExamples.MarkedIsStable | alpi/memory.py:416-423 | A line with a whole comment in it is a stable content |
| MemoryExamples.NestedIsUnstable | alpi/memory.py:416-423 | A note followed by a comment within a comment is not even agreeing |
| MemoryExamples.NestedEscapes | alpi/memory.py:205-252 | Three adds with such a content, no comment left open, after which the audit finds a cluster |
| MemoryExamples.NestedEscapesHere | alpi/memory.py:205-252 | The same with three given contents |
| MemoryRuns.ReinforcedStays | alpi/memory.py:466-474 | However many adds and prunes follow, an entry reinforced once is still there, shows the same body and has at least that count |
| MemoryCounters.CounterStays | alpi/memory.py:442-480 | On any file text and whatever is added and pruned: some entry keeps at least the counter one had, though entries may split or merge |
| MemorySize.VisibleJoin | alpi/memory.py:416-423 | What is visible of the file is what is visible of its entries, and three characters per delimiter, two where the entry behind it begins with a whole comment |
| MemorySize.ReinforceSize | alpi/memory.py:442-463 | A reinforcement makes the visible text longer if and only if the entry is not the first, begins with a whole comment and shows closed text without a final line break; then by one character |
| MemorySize.PruneSize | alpi/memory.py:254-289 | A prune never makes it longer |
| MemorySize.CapExceeded | alpi/memory.py:226-252 | A step takes a file from within its cap to above it if and only if the file is full and the step reinforces such an entry |
| MemorySize.NeverGrowsPastLimit | alpi/memory.py:164-289 | Over any run of adds of tame contents, prunes, and mutations and replacements to calm files the visible size never goes from within the limit to above it |
| MemoryCap.UntameOverruns | alpi/memory.py:226-252 | The converse: for each content in one piece that is not tame, and every limit from three times its length and 8 on, there is a run of adds, of it and two fillers, that fills the file exactly to the limit, and adding it once more goes one character past |
| MemoryExamples.HeadedOverruns | alpi/memory.py:226-252 | Four adds, the second behind a whole comment and the fourth repeating it without, that pass the cap of the size of the three notes and 7 |
| MemoryExamples.HeadedOverrunsHere | alpi/memory.py:226-252 | The same with given contents, the third filling the file to 3000 and to 5000 characters |
| MemorySize.ReplaceOnlyWhatWasRead | alpi/memory.py:178-193 | With collision-free revisions a replacement with the revision read goes through exactly when it fits and the file is still what was read |
| MemorySize.FirstEditorWins | alpi/memory.py:178-193 | Of two editors who read the same file the second is turned away and the first one's text survives |
| MemoryGaps.ShownAsAdded | alpi/memory.py:234-246 | A new entry shows the content it was added with if and only if the content is closed |
| MemoryGaps.ComparedIsNotStored | alpi/memory.py:335-356 | A content ending in an open comment is compared whole, but its stored entry shows only the part before the opening |
| MemoryGaps.OpenerEscapesDedup | alpi/memory.py:205-252 | Two adds on an empty file after which the audit does find a cluster |
| MemoryGaps.NotesEscape | alpi/memory.py:304-318 | One line of letters and an initial part of it are contents for which that happens |
| MemoryGaps.SpanningCommentGrows | alpi/memory.py:442-463 | A reinforcement that makes the visible text eight characters longer, in a file where a comment spans entries |
| MemoryGaps.SpanningAddGrows | alpi/memory.py:205-252 | On such a file, full to its limit, an add of anything that normalises to nothing leaves it eight characters over |
| MemoryGaps.SpanningAddGrowsHere | alpi/memory.py:205-252 | A full stop added to 5000 visible characters makes 5008 |
| Similarity.SimilarSymmetric | alpi/memory.py:335-356 | Similarity does not depend on which entry came first |
| Similarity.SimilarAntitone | alpi/memory_audit.py:274-289 | What is similar at a higher threshold is similar at a lower one |
| MemoryAudit.Find | alpi/memory_audit.py:261-265 | Path halving terminates, keeps the parents a forest with the same roots, and returns the root |
| MemoryAudit.Union | alpi/memory_audit.py:267-270 | Union merges exactly the two trees |
| MemoryAudit.LinkPairs | alpi/memory_audit.py:272-289 | The double loop leaves two entries under one root exactly when similarity links them |
| MemoryAudit.GroupByRoot | alpi/memory_audit.py:291-294 | The groups are the members of each root, in order of first appearance |
| MemoryAudit.OverlapClusters | alpi/memory_audit.py:249-294 | The clusters are exactly the connected components of size above one, ascending, in order of their first member |
| MemoryAudit.ClustersUnique | alpi/memory_audit.py:249-294 | There is only one such list |
| MemoryAudit.ClustersDisjoint | alpi/memory_audit.py:249-294 | Clusters do not overlap |
| MemoryAudit.RaisingRefines | alpi/memory_audit.py:232-246 | A cluster at a higher threshold lies within one at a lower |
| MemoryAudit.NoClusterIffNoEdge | alpi/memory_audit.py:249-294 | There are no clusters if and only if no two entries are similar |
| MemoryAudit.Duplicates | alpi/memory_audit.py:232-246 | The sweep reports, for every threshold and file, that file's clusters |
| Ledger.LedgerFile.PruneHistory | alpi/ledger.py:113-125 | Keeps exactly the days from thirty before today on, whatever the order of iteration |
| Ledger.LedgerFile.Load | alpi/ledger.py:151-172 | Blank without a readable file, rolled over on a new day, as stored otherwise |
| Ledger.LedgerFile.Check | alpi/ledger.py:283-292 | Passes exactly when there is no cap or the day's spend is below it |
| Ledger.LedgerFile.Record | alpi/ledger.py:322-427 | The whole new file after a call, bucket by bucket, and the event it emits |
| Ledger.LedgerFile.CacheSummary | alpi/ledger.py:433-476 | The file is loaded by the clock and the window ends where asked: the sum over the calendar days of the window, though days are visited in any order and empty ones skipped |
| Ledger.SumAdd | alpi/ledger.py:367-381 | Adding to one bucket adds the same to the total of all |
| LedgerRuns.RunExact | alpi/ledger.py:322-403 | After any chronological run every live bucket and every day of the last thirty is the exact sum of its calls, per peer and per connection |
| LedgerRuns.LoadReady | alpi/ledger.py:128-148 | Rolling over loses no day inside the horizon |
| LedgerRuns.TodayAgrees | alpi/ledger.py:382-397 | Today's history entry equals the live counters, including its copy of the connections |
| LedgerRuns.RunConserves | alpi/ledger.py:360-381 | After any run at all the profile is the sum over peers and the sum over connections |
| LedgerRuns.SummaryExact | alpi/ledger.py:433-476 | A summary whose window begins within the last 31 days counts exactly the calls of its days |
| LedgerRuns.Summarize | alpi/ledger.py:433-476 | On the file a run of calls leaves, for a window that begins within the last 31 days: the summary counts the tokens, the cached ones, the measured ones and the discount of the calls themselves |
| LedgerRuns.LegacyDayFiled | alpi/ledger.py:128-148 | A file from before histories gets the day it shows filed when a later day begins; the live counters start over and days behind the horizon go |
| LedgerRuns.SummaryShort | alpi/ledger.py:113-125 | Whatever the window and its end, the cached figure falls short by exactly the cached tokens of the window's calls before the last 31 days |
| LedgerRuns.WindowTooLong | alpi/ledger.py:433-476 | For every window above 31 days there is a run on which the summary is less than the calls |
| Budget.EventMeans | alpi/ledger.py:404-414 | What a record emits, in terms of the money of the calls before it |
| Budget.ReportedOnce | alpi/ledger.py:404-414 | No level is reported twice in a day |
| Budget.NothingAfterTheCap | alpi/ledger.py:404-414 | After the cap is reported nothing else is |
| Budget.CapReported | alpi/ledger.py:404-414 | The cap is reported if and only if the spend reaches it and the call that got there was given the budget |
| Budget.CapReportedAlways | alpi/ledger.py:404-414 | With the budget given to every call, if and only if it is reached |
| Budget.VaultingReportsTheCap | alpi/ledger.py:409-413 | A single call past both marks reports only the cap |
| Budget.StepsAreCalls | alpi/ledger.py:283-292 | What a check compares is the money of the day's calls |
| Budget.OvershootBound | alpi/ledger.py:283-292 | At most k calls of at most m after each passed check keep the spend below cap + k * m |
| Budget.OvershootIsTight | alpi/ledger.py:283-292 | The bound is met to the last unit |
| Attention.Memory | alpi/attention.py:28-42 | Lists the capped files at or above their floor, which is lower while they are flagged |
| Attention.Tray.Reconcile | alpi/attention.py:173-211 | The new stored keys and the filings tried, of which there are at most three |
| Attention.FreshSpec | alpi/attention.py:191-195 | What is filed: the notifiable keys that are current and were not stored |
| Attention.KeysAre | alpi/attention.py:99-109 | The current keys: one for each capped file at 95 percent, or at 90 while flagged, one more when it is over its limit, one for each skill problem and each failed schedule; worth a warning are exactly the first and the third kind |
| Attention.StoredNext | alpi/attention.py:185-208 | What is stored afterwards, key by key: the current ones, less those of a filing that raised; what was stored before when the keys cannot be saved |
| Attention.FiledInOrder | alpi/attention.py:191-195 | The warnings go in the order of their keys |
| Attention.FiledOnceWhilePresent | alpi/attention.py:173-211 | While saves and filings succeed no key is filed twice while it stays current |
| Attention.WarnedAgainAfterClearing | alpi/attention.py:28-42 | Between two warnings about a file there is a tick at which it was below 90 percent |
| Attention.FiledMeansNear | alpi/attention.py:28-42 | A file is warned about only at 95 percent or more |
| Attention.FailedIsForgotten | alpi/attention.py:196-208 | With saves succeeding, a key whose filing raised is forgotten if and only if it holds no comma |
| Attention.CommaIsNeverRetried | alpi/attention.py:173-211 | A problem of a skill whose key holds a comma: its warning is filed, and when that fails no later tick files it again while nothing else changes |
| Attention.CommaIsNeverRetriedHere | alpi/attention.py:99-109 | A skill in a directory of that kind |
| Attention.ForgottenIsRetried | alpi/attention.py:191-206 | A forgotten key that is still current and notifiable is filed again |
| Attention.RetryNeedsNearAgain | alpi/attention.py:28-42 | After a failed filing a memory file is retried if and only if it is at 95 percent again |
| Authority.SanitizeIsWellFormed | alpi/authority.py:31-47 | Whatever was stored, what comes out is well formed |
| Authority.SanitizeNeverWidens | alpi/authority.py:38-47 | Malformed values come out with the strictest fence, and no value comes out with a laxer fence, fewer restrictions or other tools than it says |
| Authority.SanitizeReads | alpi/authority.py:38-47 | What a value comes out as, for each fence it may name and each thing its list may be: a list that is none permits nothing behind the fence of a peer |
| Authority.NamesAreLeast | alpi/authority.py:31-35 | Names kept are listed, stripped, of 1 to 128 characters and in order; a listed name is dropped only behind 256 smaller ones |
| Authority.DecodeEncode | alpi/authority.py:75-86 | Well-formed authorities are fixed points of sanitising and of encoding followed by decoding |
| Authority.Fold | alpi/authority.py:54-67 | The loop over fences and lists computes the meet of the origins |
| Authority.FoldIsMeet | alpi/authority.py:54-67 | The fold is well formed, restricts at least as much as each origin and no more than that takes; it is absent exactly without origins |
| Authority.FoldReads | alpi/authority.py:54-67 | The fold is fenced like a peer if one origin is, else like a member if one is, and permits exactly the tools that every list permits, once there is a list |
| Authority.FoldIgnoresOrder | alpi/authority.py:54-67 | Order and repetition of the origins do not matter |
| Authority.FoldAssociates | alpi/authority.py:54-67 | Folding in groups, or folding a fold again, changes nothing |
| Journals.Candidates | alpi/cleanup.py:88-129 | The selection is the least oldest-first prefix that takes the aged journals and leaves enough gone |
| Journals.AgedSplits | alpi/cleanup.py:113-117 | The aged ones at the old end are exactly those last written before the cutoff |
| Journals.SelectionIsUnique | alpi/cleanup.py:113-129 | Journals and clock determine it |
| Journals.AfterDeletion | alpi/cleanup.py:113-129 | Afterwards no aged journal is left, and what is left fits the cap or lies inside the settle window |
| Journals.SelectionIsMinimal | alpi/cleanup.py:123-128 | Putting the last size-selected journal back exceeds the cap |
| Journals.OldestFirst | alpi/cleanup.py:113-120 | Nothing newer is selected while something older is left |

## Left out

- Tools, MCP clients, the threads of `ToolExecutor` and everything under `alpi/alp`, `alpi/host` and `alpi/tools`: a tool is any function of a call and its number, decoding, the output budget and the markers around tool output are arbitrary functions too.
- Session, run and turn logs beyond one entry per turn, prompt texts, error wording (refusals of tool calls included), activity tracking and routing notes.
- Cost lookup, provider pricing and request parameters; the breadcrumbs and identities of the stream.
- The clock notes of a turn (`_TimeNotes`): an arbitrary user message before a model call.
- Events without a bearing on the guarantees (`tool_state`, `reasoning_done` in the engine's stream, usage details), and the UTF-8 clipping of peer replies for the log.
- `reset_session` and the other entry points of the engine; turns are taken one at a time.
- File locking, fsync, temp files, backups, JSON and YAML encoding, newline translation: each locked operation is one step on the decoded value.
- Hand-edited ledger, attention and shape files with missing or ill-typed fields; key forms older versions of the attention file used.
- Floating point: overlap ratios and compaction targets are exact reals, money is whole millionths of a dollar, the rounding of cache discounts and of span seconds is not modelled.
- Unicode folding, accent stripping and word extraction: arbitrary functions that empty text and white space at the ends do not disturb. The metadata pattern, its numbers and its case-insensitivity are ASCII.
- Cost-source histograms of the cache summary, the spend archive, the status line and reports built on them.
- Skill and schedule collectors: any list of problems; titles and bodies of filed warnings.
- `apply` and `current` of the authority, which hand it to contexts outside this model; a stored fence that cannot be compared with a string.
- How journals are recognised as completed; sessions, workgroups and the other cleanup categories.
- The AGENT.md stanza check and fuzzy entry lookup of the memory store; the stale, operational, promotion and pressure sections of the audit.
- MemoryRuns.AuditFindsNothing: assumes stable contents. For runs of adds the exact condition is `MemoryEscapes.Agreeing`; with prunes, of the contents that are agreeing and not stable some fail (`MemorySlips.PruneUndoes`), and for which of them that happens is not worked out.
- MemoryEntries.AddHolds: contents that stripping and rewriting split at a delimiter, which takes a line of a section sign and a comment, are not carried as one entry; of them the model says only what `MemoryCounters.CounterStays`, `MemoryAgreement.AddsAgree`, `MemoryEscapes.UnstableEscapes` and the lemmas on the text say.
- MemoryRuns.StepHolds: the same contents, and mutations or replacements that write a file which is not a list of entries.
- MemorySize.NeverGrowsPastLimit: contents that keep to one piece and are tame, and writes of files whose later entries are tame; `MemoryCap.UntameOverruns` shows that tameness is needed, `MemoryGaps.SpanningAddGrows` a written file where the cap fails. Contents that come apart and files of other forms have no exact condition here.
- MemoryRuns.ReinforcedStays: runs of adds of contents that keep to one piece and prunes, for an entry whose text is closed (`MemoryCounters.CounterStays` has neither restriction); a mutation or replacement may of course write a file without the entry.
- LedgerRuns.RunExact: starts from a profile without a ledger file and assumes that days do not go back.
- Watchdog.NothingYieldedPastADeadline: speaks of the clock reading the code checks, not of the moment the consumer gets the chunk.
- Engine.Turn.RunTurn: an exception escaping a workgroup post or the workgroup context leaves no promise about the event stream, since the caller handles it; exceptions from elsewhere (a failing disk, an error in the engine itself) are not modelled.
