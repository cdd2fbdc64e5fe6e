# A verified model of Jia's parsing, session, memory and terminal protocols

Dafny models of the parts of Jia whose correctness is not visible from any single function body: the tool-call
parser, the session runs that share locks, tokens and stored histories, the tables of pending questions, the memory
store's graph search, workspace identity and seed tiers, the rate limiter, the Telegram offset protocol, the terminal
client's wrapping, scrollback, stream rollback and input line, and the one-way tightening of policy results.

`dafny verify dfyconfig.toml` checks the project. There is one module for each component:

| module | component |
|---|---|
| `Text`, `TagBody`, `ToolParse`, `RoundTrip`, `Layers` | the tool-call parser, a printer it inverts, and container tags around what is printed |
| `SessionRuns` | agent runs of a session over socket, HTTP and I/O channels |
| `PendingReplies` | questions and confirmations waiting for the user |
| `GraphExpand`, `Workspaces`, `SeedTiers` | the memory store |
| `RateLimiter` | the token bucket in front of the agent endpoint |
| `Dedup`, `TelegramOffsets` | duplicate window and offset protocol of the Telegram bot |
| `Chat`, `Wrapping`, `Scrollback`, `StreamRetry`, `LiveTurn`, `Composer` | the terminal client |
| `Principles` | learned principles tightening a policy result |
| `Wrappers`, `Sets` | `Option`; the elements of a sequence |

Code that updates state in place is modelled by classes and by methods with loops. Each of these is proved equal to a
specification function, and the lemmas are about that function. Tables are maps; a SQL `LIMIT` without an order, and a
choice among equal keys, is an arbitrary choice (a function parameter constrained by a predicate). Clocks, random ids,
JSON decoding and network answers are parameters. A protocol with concurrency or crashes is a state machine whose
steps are the stretches of code that nothing can interrupt, and its theorems hold of every sequence of steps.

## What the proofs found

- A run that is the first of its session and is cancelled while it waits for the lock deletes the session row without
  holding the lock (`rin.rs:733-736`). If a later run of the session overtakes it, that run's saved history is lost
  (`SessionRuns.LateBailOutLosesHistory`).
- A run of an I/O channel that times out while a save is handed to a blocking thread gives up the lock first
  (`spawn.rs:361-373`, `async_store.rs:24-32`). The save lands later, over what other runs have saved meanwhile
  (`SessionRuns.LateSaveLosesHistory`). `SessionRuns.SerialIffNothingLost` says exactly when the stored history is what
  was saved under the lock, in lock order, and `SessionRuns.SerialHistories` that it is so as long as only empty rows are
  deleted and no save lands late.
- The token table is keyed by session. A cancel reaches a run if and only if the run is cancelled already or no later
  step registered, cancelled or removed its session's token (`CancelReachesIffTokenKept`). So of two unfinished runs
  of one session it can miss the earlier (`CancelMissesTheEarlierRun`), and it can miss the only unfinished one, whose
  token the guard of an earlier run removed (`CancelMissesTheOnlyRun`). With the runs of a session one at a time it
  always arrives, whatever other sessions do (`CancelReachesTheRun`).
- A call whose body quotes `</tool_calls>` is parsed on its own and lost inside a container
  (`Layers.QuotedClosingLosesCall`). `Layers.LayersKeepExactly` says which calls any number of layers leaves over, and
  `Layers.CallsKeptIffNoneHit` when that is all of them; closings in the text between calls do no harm
  (`Layers.LayersAreTransparent`), and a name that holds `<tool_calls` counts as an opening.
- The graph search's `LIMIT` counts rows that earlier hops already visited, so a hop can lose new triples although
  fewer than `limit` of them are new (`GraphExpand.VisitedRowsCount`; the plain case is `OneOfTwoIsLost`).
  `GraphExpand.ExactIfFits` and `InexactUnlessFits` are the two halves of the exact condition.
- Rows go to the scrollback with a 16-bit row count, so a single push of 65536 rows or more loses rows for good: an error
  message of that many lines does (`LiveTurn.HugeErrorLosesRows`).
- Rows are pushed for good while the lines they came from can still change. For every row builder and however the lines
  change, the scrollback ends as the rows of the finished turn if and only if every push was what they have at its place
  (`Scrollback.EndsWellIff`, `LiveTurn.LiveTurnEndsWellIff`). That holds of turns that only grow if a line's rows are
  settled but for its last two, as those of plain lines are (`RowsArePushedOnce`, `PlainRowsAreTwoStable`). The rows of
  markdown lines are not: in a line that begins with `**` and runs over more than fourteen rows, a closing `**` that
  arrives later takes the two asterisks out of the first row, which was pushed with them, and so it stays
  (`Scrollback.ChangedRowIsKept`).
- A retry takes back lines but not rows already pushed: if more of them were pushed than the next answer has, some stay
  (`LiveTurn.RolledBackRowsStay`, with `FortyLinesStay` as a case). None does if no row was pushed behind the settled
  rows of the lines the attempt began from (`Scrollback.RollbackLeavesNoTrace`).
- Promotion moves a seed one tier at a time, so a touch leaves an OnDemand seed with 8 accesses if and only if an Archive
  seed had 8 with it (`SeedTiers.TouchSettlesIff`). An insertion, a demotion, and a change of tier by name between two
  touches can bring that about (`InsertedSeedStaysRipe`, `DemotedSeedStaysRipe`, `RetieredSeedStaysRipe`); deleting,
  weakening and touching cannot (`PromotionSettles`).
- An Always seed leaves its tier by name: `set_tier_batch` takes it to OnDemand (`SeedTiers.AlwaysStays` is an
  if-and-only-if).
- Inserting a seed whose id exists leaves the table alone but adds a second entry to the text index
  (`SeedTiers.InsertInSyncIffNew`).
- Text appended to a line can change both of its last two rows, not only the last (`Wrapping.BothLastRowsCanChange`);
  the message area never has fewer than two rows, which is just enough (`Scrollback.OneRowIsNotEnough`).
- The comment on `find_tag_prefix` (`tool_parse.rs:211-213`) allows a newline behind `<tool_call`; `find_next_tag` rejects
  such a tag, and the model follows the code.

## Model

| member | source | states |
|---|---|---|
| TagBody.FindTagBody | kernel/src/stems/tool_parse.rs:240-277 | The tag-to-tag scanner stops on every input, never lets the depth fall below one, and splits the text where a character-by-character reading with nesting would |
| TagBody.ScanFindsBalance | kernel/src/stems/tool_parse.rs:240-277 | From any position and the depth that the counts give, the reading stops at the first close that brings openings minus closings to zero, and finds none if and only if no such close follows |
| TagBody.BodySplitsAtFirstBalance | kernel/src/stems/tool_parse.rs:236-277 | Either the text is body, close and rest with the close the first balancing one, or the body is the whole text, the rest is empty and no close balances |
| ToolParse.FindTagPrefix | kernel/src/stems/tool_parse.rs:214-234 | Returns the first occurrence of the prefix that no `s` follows, or none when every occurrence is plural |
| ToolParse.FindNextTag | kernel/src/stems/tool_parse.rs:153-199 | The search by nearest prefix, with a retry behind every invalid tag, finds what a position-by-position search for a recognised tag finds |
| ToolParse.NextTagIsNearest | kernel/src/stems/tool_parse.rs:153-199 | The tag found begins in one of the four recognised ways, which tells its kind, ends at its first `>`, has the name quoted in between, and nothing before it is recognised; none is found only if no recognised beginning has a `>` behind it |
| ToolParse.NameIsQuoted | kernel/src/stems/tool_parse.rs:202-209 | The name of a tag is exactly what the first `name="` in it quotes, up to the next quote; empty or unfinished ones count as none |
| ToolParse.NextTagInSuffix | kernel/src/stems/tool_parse.rs:182-187 | Retrying on the text behind a rejected tag and shifting the offsets is the same as searching on in the whole text |
| ToolParse.ParseToolCalls | kernel/src/stems/tool_parse.rs:37-127 | The consuming loop, with its recursion into containers and its fallbacks, returns the clean text and the calls of the recursive specification, for every text and every decoder |
| RoundTrip.AttrOfOpenTag | kernel/src/stems/tool_parse.rs:202-209 | The name read from a printed opening tag is the name printed, whatever characters other than `"` and `>` it holds |
| RoundTrip.ParseInvertsPrint | kernel/src/stems/tool_parse.rs:37-107 | Parsing printed blocks gives their calls back in order and the trimmed gaps and tail as clean text, for any number of named or nameless blocks |
| RoundTrip.PrintedCalls | kernel/src/stems/tool_parse.rs:37-127 | What each printed block contributes, said outright: a named one a call with no parameters for a blank body, with the fields of a decoded object and the body as `input` just if neither `tool` nor `name` is among them, and with `input` alone for any other body; a nameless one its decoded call or none. The calls come in order, the clean text is the gaps and the tail without the whitespace around them, and the fallbacks run exactly if no block yields a call |
| RoundTrip.YieldsOnce | kernel/src/stems/tool_parse.rs:69-102 | That reading of a block determines its calls |
| RoundTrip.TrimIsTrimmed | kernel/src/stems/tool_parse.rs:71-107 | Trimming leaves a slice with only whitespace around it and none at its ends |
| RoundTrip.TrimmedOnce | kernel/src/stems/tool_parse.rs:71-107 | There is only one such text |
| RoundTrip.FallbacksRun | kernel/src/stems/tool_parse.rs:106-126 | Calls found between tags stand; else the markdown calls are returned with the trimmed clean text; else, if tools are named and the raw reading finds any, its calls and its clean text; else none |
| RoundTrip.UnclosedIsText | kernel/src/stems/tool_parse.rs:60-66 | A call that nothing closes stays in the text, with all that follows, and only the fallbacks can yield calls |
| Layers.OneLayer | kernel/src/stems/tool_parse.rs:47-57 | The outermost of any number of openings closes at the first closing that brings the depth back to zero, names that look like openings counted, or takes all that follows; what it leaves is the calls of its body, then those behind it |
| Layers.ContainerLeavesNoText | kernel/src/stems/tool_parse.rs:43-57 | The text before a container and what is read behind it stay in the clean text, its own text does not, and the calls of its body, parsed with the fallbacks, come in its place |
| Layers.LayersAreTransparent | kernel/src/stems/tool_parse.rs:37-107 | Behind any number of openings and before any number of closings, with closings astray in gaps and tail, the blocks yield the same calls, provided the fallbacks find nothing in a piece in which the parser finds nothing; where none is astray and as many are opened as closed, the clean text is empty |
| Layers.StrayFreeIsQuiet | kernel/src/stems/tool_parse.rs:47-57 | With no closing astray that proviso always holds: every piece the layers carve out holds all the calls |
| Layers.LayersKeepExactly | kernel/src/stems/tool_parse.rs:47-57 | For any names, and bodies that may quote container closings: a block is lost exactly if a layer is closed in its body, and the calls of all others are kept in order |
| Layers.CallsKeptIffNoneHit | kernel/src/stems/tool_parse.rs:47-57 | Layers keep all calls if and only if none of them is closed in the body of a block that yields a call |
| Layers.QuotedClosingLosesCall | kernel/src/stems/tool_parse.rs:240-277 | A concrete call, parsed on its own and lost in one container, because its body quotes the closing tag |
| SessionRuns.SessionLocks.Take | kernel/src/palaces/dui_gateway/rin.rs:707-717 | Pruning by reference count and then looking up or creating the session's lock changes the table as the step of the protocol says, in the one place shared by all transports |
| SessionRuns.SessionTokens.Cancel | kernel/src/palaces/dui_gateway/mod.rs:75-81 | Cancels exactly the registered token of the session and forgets it; without one, nothing changes |
| SessionRuns.TokenTable | kernel/src/palaces/dui_gateway/mod.rs:54-87 | Every step of the protocol leaves the token table as the methods of the table would: registering at a start, removing at the end of a run under HTTP and with the guard of a socket run, and cancelling |
| SessionRuns.StepKeepsLocks | kernel/src/palaces/dui_gateway/rin.rs:707-795 | Every step of every transport keeps: live handles are on the lock in the table, sessions do not share locks, and whoever is past a lock holds it |
| SessionRuns.LocksAreShared | kernel/src/palaces/dui_gateway/agent.rs:216-230 | In every reachable state all live runs of a session hold the lock object in the map, so pruning never drops a lock in use and at most one run of a session is past it |
| SessionRuns.TableHoldsLiveLocks | kernel/src/palaces/dui_gateway/rin.rs:707-717 | Taking a handle leaves in the table the session's own lock and, of the others, exactly those that some run has a handle on, each unchanged |
| SessionRuns.StepKeepsHistory | kernel/src/palaces/dui_gateway/rin.rs:733-792 | Every step, late saves and deletions included, keeps: a stored history is its journal replayed, and a running run loaded what the journal stood for before its own entry |
| SessionRuns.StoredIsReplay | kernel/src/palaces/dui_gateway/rin.rs:745-792 | In every reachable state the stored history is what its journal stands for: the saves of the session's runs in lock order, from the last deletion or late save on that no save under the lock has written over |
| SessionRuns.RowAfterStep | kernel/src/palaces/dui_gateway/rin.rs:733-792 | Exactly a deletion and a cancelled new socket run that gives up waiting empty a session's row, exactly a save under the lock and a late one write it, and with what |
| SessionRuns.JournalIsComplete | kernel/src/palaces/dui_gateway/rin.rs:745-792 | In every reachable state each run that saved is in its session's journal, and none is there twice, so the serial history leaves nobody out |
| SessionRuns.SerialIffNothingLost | kernel/src/palaces/dui_gateway/rin.rs:733-792 | In every reachable state the stored history is what all runs saved under the lock, in lock order, if and only if no run that saved precedes a surviving deletion and nothing that landed late is left |
| SessionRuns.SerialHistories | kernel/src/palaces/dui_gateway/agent.rs:214-290 | Over any run in which rows are deleted only while they hold no history and no save lands after its run gave up the lock, the stored history is the saved runs applied one after another in lock order |
| SessionRuns.RunsApplyInLockOrder | kernel/src/palaces/dui_gateway/agent.rs:214-290 | Whatever functions from history to history the runs are, a session row holds the effect of all its runs that saved, applied one after another in lock order, unless one precedes a surviving deletion or a late save is left |
| SessionRuns.LateBailOutLosesHistory | kernel/src/palaces/dui_gateway/rin.rs:733-736 | A concrete run, without any deletion by the user, in which the unlocked deletion by a cancelled first run wipes the history a finished later run saved |
| SessionRuns.LateSaveLosesHistory | kernel/src/plates/tian_heaven/spawn.rs:359-373 | A concrete run in which the save of a timed-out I/O run lands behind the lock and wipes the history a finished later run saved |
| SessionRuns.CancelReachesIffTokenKept | kernel/src/palaces/dui_gateway/mod.rs:54-87 | For every run of events, run and session: a cancel reaches the run if and only if it is cancelled already, or its start is followed by no step that registers, cancels or removes the token of the session |
| SessionRuns.CancelledIff | kernel/src/palaces/dui_gateway/mod.rs:54-87 | Over every run of events, a run is cancelled if and only if its connection was dropped, or its session was cancelled at a time when no step since its start had registered, cancelled or removed the token of the session |
| SessionRuns.CancelReachesTheRun | kernel/src/palaces/dui_gateway/mod.rs:54-87 | If no run of the session starts while another of it is unfinished, whatever other sessions do, cancelling it cancels its unfinished socket or HTTP run |
| SessionRuns.CancelMissesTheEarlierRun | kernel/src/palaces/dui_gateway/mod.rs:54-87 | With two unfinished runs of one session, a cancel leaves the earlier one running |
| SessionRuns.CancelMissesTheOnlyRun | kernel/src/palaces/dui_gateway/rin.rs:101-110 | A concrete run of events after which the only unfinished run of the session is out of reach of a cancel, because the guard of the run before removed its token |
| PendingReplies.PendingTable.Add | kernel/src/palaces/zhen_tool/builtin/ask_user.rs:103-180 | Adding a question, or a confirmation after dropping stale ones, blocks its waiter and wakes exactly the waiters whose entries were dropped |
| PendingReplies.PendingTable.TakeForHttp | kernel/src/palaces/dui_gateway/confirm.rs:25-38 | The locked part of the HTTP handlers: the entry leaves the table whatever the token says, and is in flight with the message |
| PendingReplies.PendingTable.ReplyToHttp | kernel/src/palaces/dui_gateway/confirm.rs:39-60 | The part after the lock: the value is delivered only under the right token to a waiter that still waits, else the sender is dropped; the reply tells resolved, mismatch and missing apart |
| PendingReplies.PendingTable.HandleSocket | kernel/src/palaces/dui_gateway/rin.rs:858-929 | The socket handler, in one locked step by its own branches: removes, compares, sends or drops, and reports whether it resolved anything; an empty id is skipped in silence |
| PendingReplies.HttpRunsAreSocketRuns | kernel/src/palaces/dui_gateway/confirm.rs:25-103 | However the two parts of HTTP handlers are interleaved with each other and with time-outs, sweeps, insertions and socket messages, once none is in flight the tables, the waiters and the deliveries are those of a run with the same messages over the socket in the same order, where only a waiter that gives up may do so earlier |
| PendingReplies.StepKeepsInv | kernel/src/plates/ren_human/mod.rs:538-617 | Every step keeps: whoever is blocked has its sender in the table or with one handler in flight, under its own token, and every delivery is the one answer of an ask |
| PendingReplies.DeliveredOnceUnderOwnToken | kernel/src/palaces/dui_gateway/confirm.rs:25-103 | In every run from empty tables each id is delivered at most once, only with its own token, by a message of that run, and nobody is blocked whose sender is neither in the table nor in flight |
| PendingReplies.ReplySettlesTheWaiter | kernel/src/palaces/dui_gateway/rin.rs:866-882 | One message settles a blocked waiter: the right token answers it, a wrong one closes it, the id is then unknown to both transports and every other waiter is untouched |
| PendingReplies.LandingSettlesTheWaiter | kernel/src/palaces/dui_gateway/confirm.rs:39-60 | Whatever happened since its sender was taken, a waiter that still blocks is settled when the HTTP handler goes on, and one that gave up stays as it is |
| PendingReplies.SessionBus.SweepPendingForSessions | kernel/src/palaces/dui_gateway/rin.rs:45-94 | A disconnect sweeps both tables and the session's mode, approvals, criteria and checklist bucket, and leaves the steer queues alone |
| PendingReplies.SweepIsExact | kernel/src/palaces/dui_gateway/rin.rs:45-94 | A sweep removes exactly the entries of the named sessions, so anonymous ones stay, and wakes exactly the waiters blocked on those entries, delivering nothing; senders in flight are left to their handlers |
| PendingReplies.InsertIsExact | kernel/src/plates/ren_human/mod.rs:556-573 | The entries after an insertion are the new one and exactly those created after the cutoff, or all if there is none; their waiters stay as they were, exactly the blocked waiters of the dropped ones are closed, the new one blocks under its own token, session and time, and flights and deliveries are unchanged |
| PendingReplies.CleanUpIsExact | kernel/src/plates/ren_human/mod.rs:597-615 | A waiter that timed out or was cancelled takes its own entry along and changes nothing else |
| GraphExpand.TakeRows | kernel/src/palaces/gen_store/graph.rs:56-72 | The nested loops over rows and neighbours update visited triples, seen entities, next anchors and hits as the one-hop specification says |
| GraphExpand.GraphExpandMulti | kernel/src/palaces/gen_store/graph.rs:31-84 | For any answers the database may give, the list returned is ordered by hop and then descending strength with ties in the order found, is sound, and is exact if no hop loses a new row to the limit |
| GraphExpand.SortHits | kernel/src/palaces/gen_store/graph.rs:76-82 | The final sort ranks the hits, is a permutation of them, and keeps the order of ties |
| GraphExpand.FoundIffChain | kernel/src/palaces/gen_store/graph.rs:31-84 | The reference distance: a triple is within `h` hops if and only if a chain of at most `h + 1` triples with the predicate asked for, each sharing a non-empty entity with the next, leads to it from an anchor |
| GraphExpand.ExactIfFits | kernel/src/palaces/gen_store/graph.rs:31-139 | If at every hop the matching rows fit the limit or none of them is new, each filtered triple within the hops is returned exactly once under its shortest distance, and nothing else |
| GraphExpand.InexactUnlessFits | kernel/src/palaces/gen_store/graph.rs:87-139 | If some hop has more matching rows than the limit and a new one among them, there are database answers within the limit for which the result is not exact |
| GraphExpand.OneOfTwoIsLost | kernel/src/palaces/gen_store/graph.rs:87-139 | A concrete store, with two triples at one anchor and a limit of one, and a lawful engine for which the result is not exact |
| GraphExpand.VisitedRowsCount | kernel/src/palaces/gen_store/graph.rs:52-72 | A concrete store in which no hop has more new triples than the limit, and a lawful engine for which one is lost, because the limit counts visited rows |
| GraphExpand.HitsAreSound | kernel/src/palaces/gen_store/graph.rs:31-84 | Whatever the limit cuts off, no triple is returned twice and every label is the length of a real chain, hence an upper bound of the distance |
| Wrapping.WrapStyledLines | tui/src/wrapping.rs:14-82 | The nested loops over spans, lines, words and characters produce the rows of the specification, which reads the text from its front |
| Wrapping.WrapKeepsContent | tui/src/wrapping.rs:34-81 | The rows, joined, are the characters of the spans without newlines, in order and each in its own style |
| Wrapping.EmptyRowIsZero | tui/src/wrapping.rs:25-81 | Whatever the widths of characters, an empty current row is recorded as zero wide throughout |
| Wrapping.FeedSpansFits | tui/src/wrapping.rs:25-81 | If every character of the spans fits a row, the recorded width covers the current row and no row is wider than the maximum, throughout |
| Wrapping.RowsAreNarrow | tui/src/wrapping.rs:34-81 | No returned row is wider than the maximum when every character of the spans fits |
| Wrapping.RowsAreGreedy | tui/src/wrapping.rs:34-81 | The rows are the greedy layout of the text's pieces, for all widths and spans: words that fit a row stay whole and others are laid out by character; newlines end a row, and otherwise one ends only where the next piece would not fit; several pieces on a row fit it |
| Wrapping.LastTwoRowsChange | tui/src/wrapping.rs:34-81 | Appending text to the last span, and spans behind it, leaves all rows but the last two as they were |
| Wrapping.BothLastRowsCanChange | tui/src/wrapping.rs:44-75 | The bound of two is tight: a text whose second last row changes when text is appended |
| Scrollback.App.FlushStreamingOverflow | tui/src/app.rs:280-298 | Pushes the rows past the message area that were not pushed before, with their count cut to 16 bits |
| Scrollback.DrawnRowsFit | tui/src/app.rs:97-104 | Once the screen is drawn, the rows of the turn not in the scrollback fit into the 18-row viewport above input box and info line; nothing is pushed while they did so before, and no more than needed otherwise |
| Scrollback.App.FinalizeActiveTurn | tui/src/app.rs:255-274 | Pushes the rows left over, moves the turn to the history and starts the next with nothing inserted |
| Scrollback.App.ReflowOnResize | tui/src/app.rs:302-337 | After a resize the scrollback is the rows of welcome and history at the new width, with the active turn to be flushed from its first row again |
| Scrollback.PlainRowsAreTwoStable | tui/src/wrapping.rs:34-81 | The rows of plain-styled lines satisfy what the next row assumes of a row builder |
| Scrollback.EndsWellIff | tui/src/app.rs:255-298 | For every row builder and however the lines change: from any state of a turn on, with pushes below 65536 rows, the scrollback ends as the rows of the finished turn if and only if what had been pushed is the beginning of them and every push since was what they have at its place |
| Scrollback.RowsArePushedOnce | tui/src/app.rs:255-298 | Over a turn that only grows, with rows settled but for the last two of a line, the scrollback ends with every display row of the finished turn once and in order, if and only if no single push has 65536 rows or more |
| Scrollback.StablePushesMatch | tui/src/app.rs:280-298 | Under the same proviso every push is already what the finished turn has at its place, and no more rows are pushed than it has |
| Scrollback.ChangedRowIsKept | tui/src/app.rs:280-298 | A row builder that changes the first row of a line after it was pushed leaves the old row in the scrollback |
| Scrollback.RollbackLeavesNoTrace | tui/src/state.rs:780-803 | An attempt rolled back leaves no trace in the scrollback if nothing was pushed behind all but the last two rows of the lines it began from |
| Scrollback.OneRowIsNotEnough | tui/src/app.rs:99-103 | With a message area of one row the same fails: a concrete turn whose pushed row changes afterwards |
| RateLimiter.Limiter.CheckRequest | kernel/src/palaces/dui_gateway/auth.rs:46-91 | A request counts, cleans up every hundredth time, evicts an oldest bucket when the table is full and spends a token, as one step of the specification |
| RateLimiter.Limiter.Take | kernel/src/palaces/dui_gateway/auth.rs:74-90 | Creating, refilling, capping and decrementing the bucket in place spends from the client's level, a missing bucket counting as a full one |
| RateLimiter.CheckKeepsInv | kernel/src/palaces/dui_gateway/auth.rs:46-91 | Every check keeps tokens within zero and capacity and the table within its maximal size |
| RateLimiter.AdmissionBound | kernel/src/palaces/dui_gateway/auth.rs:46-91 | Over any interval and any traffic of other clients, a client is admitted at most capacity plus rate times seconds over 60 requests, plus one capacity for each time the size limit evicted its bucket |
| RateLimiter.CheckLevel | kernel/src/palaces/dui_gateway/auth.rs:74-90 | One check, as an equality: it admits exactly if the client has a whole token, which it then has less; a refusal, other clients' checks and clean-up change no level, and eviction fills it up |
| RateLimiter.CheckIsExact | kernel/src/palaces/dui_gateway/auth.rs:46-73 | Which buckets a check leaves: the client's, refilled to now, and all others unchanged but for those idle for 300 seconds at every hundredth check and for a longest-unused one where a new client meets a full table |
| RateLimiter.BurstIsAdmitted | kernel/src/palaces/dui_gateway/auth.rs:74-90 | From a full bucket, any requests of a client up to its rate are all admitted, at whatever times and among whatever others, as long as the size limit does not throw its bucket out |
| RateLimiter.PacedIsAdmitted | kernel/src/palaces/dui_gateway/auth.rs:74-90 | A client with a token that leaves 60/rate seconds between its requests is never refused, for however long, as long as its bucket is not thrown out |
| RateLimiter.SweepKeepsLevels | kernel/src/palaces/dui_gateway/auth.rs:53-60 | Dropping buckets idle for 300 seconds changes no client's level, now or later |
| RateLimiter.CleanUpIsInvisible | kernel/src/palaces/dui_gateway/auth.rs:53-89 | While fewer clients than the maximal table size appear, the limiter that cleans up answers every request sequence as one that never does |
| Workspaces.Store.EnsureWorkspace | kernel/src/palaces/gen_store/workspaces.rs:9-96 | The transaction, with its cascades, deletion and re-insertion, gives the tables of the specification, and nothing else changes |
| Workspaces.Store.UpdateWorkspaceMetadata | kernel/src/palaces/gen_store/workspaces.rs:100-114 | Changes name, description and tags of the one row and reports whether there was one |
| Workspaces.Store.ArchiveWorkspace | kernel/src/palaces/gen_store/workspaces.rs:194-208 | Flags the workspace and every session in it as archived |
| Workspaces.Store.UnarchiveWorkspace | kernel/src/palaces/gen_store/workspaces.rs:213-223 | Clears the workspace's flag only; its sessions stay archived |
| Workspaces.StepKeepsValid | kernel/src/palaces/gen_store/workspaces.rs:9-96 | Every operation keeps directories unique and every session's workspace present |
| Workspaces.RunsKeepIdentity | kernel/src/palaces/gen_store/workspaces.rs:9-96 | Over any run no session or seed is lost, and sessions and seeds that once share a workspace id share one ever after |
| Workspaces.MetadataOnly | kernel/src/palaces/gen_store/workspaces.rs:100-114 | New metadata change the one row, and of it neither directory, archive flag nor creation time |
| Workspaces.ArchivedTogether | kernel/src/palaces/gen_store/workspaces.rs:194-223 | Archiving flags the workspace and exactly its sessions besides those flagged before; unarchiving afterwards clears the flag of the workspace alone |
| Workspaces.InsertedOnce | kernel/src/palaces/gen_store/sessions.rs:24-43 | A session is created once, unarchived, in no workspace or in one that exists, and a seed is stamped once; existing rows stay as they are |
| Workspaces.EnsureLands | kernel/src/palaces/gen_store/workspaces.rs:9-96 | The named id ends at the named directory with the surviving row's description, tags, flag and age; only its own row and the one it replaces change |
| Workspaces.EnsureTakesOver | kernel/src/palaces/gen_store/workspaces.rs:34-92 | Exactly the sessions and seeds of the workspace that was at the directory move to the named id; no other one moves and none is lost |
| Workspaces.EnsureAgain | kernel/src/palaces/gen_store/workspaces.rs:9-96 | Repeating the call changes nothing but the timestamp |
| Dedup.DedupWindow.IsDuplicate | channels/src/dedup.rs:26-34 | The call prunes what is too old, and remembers the id if it was not remembered |
| Dedup.DuplicateIffRecent | channels/src/dedup.rs:26-34 | Over any sequence of calls in time order, a call is reported as duplicate if and only if the same id was accepted less than the time-to-live before |
| Dedup.AcceptedApart | channels/src/dedup.rs:26-34 | Two accepted calls of one id are at least the time-to-live apart |
| TelegramOffsets.TelegramBot.HandleUpdate | channels/src/telegram/mod.rs:113-185 | The offset rises before the duplicate check, and a wanted update is pushed unless the window knows it |
| TelegramOffsets.TelegramBot.HandleBatch | channels/src/telegram/mod.rs:113-185 | The loop over a batch handles each update once and in order |
| TelegramOffsets.StepKeepsInv | channels/src/telegram/mod.rs:65-193 | Every step, crashes included, keeps: all issued updates up to the offset on disk, and up to the one the server may be asked for, have been handled |
| TelegramOffsets.NothingIsLost | channels/src/telegram/mod.rs:65-193 | With crashes anywhere, saves and loads that fail freely and a server that discards any of the ids below the offset it is asked for, an update is discarded only after some incarnation handled it, which for a wanted one means pushed |
| TelegramOffsets.PushesAreExact | channels/src/telegram/mod.rs:113-185 | Over every run: the updates ever pushed are exactly the handled ones that are wanted, and the running incarnation has pushed, in the order handled, exactly the wanted ones that do not repeat an id it accepted less than 300 seconds before |
| TelegramOffsets.SavedIsNotRepeated | channels/src/telegram/mod.rs:65-193 | From a state with a saved offset on, no update up to it is handled again, over any number of crashes, as long as restarts can load the offset |
| TelegramOffsets.SaveSetsFloor | channels/src/telegram/mod.rs:186-193 | Finishing a batch with its save makes the highest id handled such an offset |
| TelegramOffsets.PushesAreApart | channels/src/telegram/mod.rs:65-193 | Within one incarnation no update is pushed twice less than 300 seconds apart |
| StreamRetry.App.HandleStreamEvent | tui/src/state.rs:608-703 | Deltas, retries, ends, errors and pushed lines change the lines and the anchor as the specification says, with the same branches for new bubbles, continued lines and skipped blanks |
| StreamRetry.AttemptLeaves | tui/src/state.rs:608-667 | What a stream leaves: the fragments without tool-call JSON, and without blank ones in front unless the assistant's text stands before them, joined and added to the last line if that is the assistant's, else on one line behind an empty one; then no anchor. An error line comes behind and a retry after it takes nothing back |
| StreamRetry.PushedLinesStay | tui/src/state.rs:608-703 | Lines pushed into a stream stay where they came, and what is streamed later is laid out behind them in the same way |
| StreamRetry.FailedLeaveNoTrace | tui/src/state.rs:610-663 | Any number of attempts that each stream something and are retried leave the lines and the anchor as they were |
| StreamRetry.RetriesAreInvisible | tui/src/state.rs:608-667 | Failed attempts followed by a successful one leave exactly what the successful one alone leaves, for a new bubble as for a continued line, and no anchor |
| StreamRetry.RetryRestores | tui/src/state.rs:775-795 | Once the stream has written, a retry restores the lines it began with, whatever was streamed or pushed behind since |
| StreamRetry.RolledBackLinesHaveGrown | tui/src/state.rs:780-795 | The lines a retry takes back are those it restores with text added at their end and lines behind |
| LiveTurn.LiveTurnEndsWellIff | tui/src/state.rs:608-803 | For every row builder, however the model streams, fails and is retried and lines are pushed meanwhile, with the screen drawn in between: the scrollback ends as the rows of the finished turn if and only if every push was what they have at its place |
| LiveTurn.HugeErrorLosesRows | tui/src/app.rs:280-298 | A concrete event, an error message of 65554 lines shown when it arrives, whose rows do not all reach the scrollback |
| LiveTurn.RolledBackRowsStay | tui/src/state.rs:780-803 | An attempt that is streamed, drawn, retried and answered shorter leaves rows in the scrollback that the finished turn does not have, for every builder that gives it enough of them |
| LiveTurn.FortyLinesStay | tui/src/state.rs:780-803 | A concrete stream of that kind, of forty lines and one, at any width |
| Composer.Editor.HandleKey | tui/src/composer.rs:103-163 | Every key acts on the byte-offset editor as the matching operation on a character zipper, the cursor stays on a character boundary, and Enter is ready exactly on a text that is not blank |
| Composer.Editor.StepLeft | tui/src/composer.rs:66-75 | The byte-by-byte walk to the left ends at the start of the character before the cursor, whatever its width |
| Composer.Editor.StepRight | tui/src/composer.rs:77-86 | The byte-by-byte walk to the right ends behind the character at the cursor |
| Composer.Editor.ClampByte | tui/src/composer.rs:58-64 | Yields the last boundary at or before the cursor within the text |
| Composer.Editor.HistoryPrev | tui/src/composer.rs:166-178 | Sets the draft aside on the first step into the history, and stays at the oldest input |
| Composer.Editor.HistoryNext | tui/src/composer.rs:180-193 | Moves to the next input, and past the newest brings the draft back |
| Composer.Editor.AddToHistory | tui/src/composer.rs:44-50 | Appends non-empty input and leaves the history browsing, dropping the draft |
| Composer.Editor.Clear | tui/src/composer.rs:39-42 | Empties the text and keeps history, position and draft |
| Composer.NoBoundaryInside | tui/src/composer.rs:58-86 | No byte offset strictly inside a character is a boundary |
| Composer.UpsThenDownsRestore | tui/src/composer.rs:166-193 | From outside the history, any number of Ups followed by at least as many Downs, or as many as there are inputs, restores the draft with the cursor at its end |
| Composer.CursorKeys | tui/src/composer.rs:103-163 | Left, Right, Home and End move the cursor by one character or to an end and leave text, history and draft |
| Composer.ErasingKeys | tui/src/composer.rs:103-163 | Backspace and Delete take out exactly the character before and behind the cursor, if there is one, and leave the history browsing |
| Composer.CharKeys | tui/src/composer.rs:103-163 | A character comes in before the cursor with all others kept in order; with the control key, p and n are Up and Down |
| Composer.TypedIsErased | tui/src/composer.rs:103-163 | Text typed anywhere stands before the cursor, and as many Backspaces, or Lefts and then Deletes, take it out again |
| Composer.RecalledInput | tui/src/composer.rs:166-193 | Any Ups and then any Downs show the input that many steps from the newest, not before the oldest, with the cursor behind it, until the Downs run past the newest and restore the draft |
| SeedTiers.Store.EnforceTierBudgets | kernel/src/palaces/gen_store/seeds.rs:358-460 | The transaction with its count, selection, demotion and deletion loops gives the table, index and report of the specification |
| SeedTiers.Store.TouchBatch | kernel/src/palaces/gen_store/seeds.rs:164-227 | Counts each named seed once however often it is named, and then promotes over the whole table; naming none changes nothing |
| SeedTiers.Store.WeakenSeeds | kernel/src/palaces/gen_store/seeds.rs:111-125 | Each naming of a seed weakens it once more |
| SeedTiers.Store.DeleteSeeds | kernel/src/palaces/gen_store/seeds.rs:127-140 | Removes the named seeds from table and index together |
| SeedTiers.Store.SetTierBatch | kernel/src/palaces/gen_store/seeds.rs:143-161 | Gives every named seed the tier, and changes nothing else |
| SeedTiers.Store.InsertSeed | kernel/src/palaces/gen_store/seeds.rs:7-63 | Ignores an id that exists in the table, and adds an index entry all the same |
| SeedTiers.EnforceIsExact | kernel/src/palaces/gen_store/seeds.rs:358-460 | Whatever ties the database breaks, the report counts both tiers, and exactly the smaller of excess and unprotected OnDemand seeds is demoted, weakest first, and then the same of the enlarged Archive deleted, from table and index |
| SeedTiers.PickerExists | kernel/src/palaces/gen_store/seeds.rs:378-393 | The database has an answer to every selection of the weakest unprotected seeds, so what holds for all answers is not void |
| SeedTiers.EnforceMeetsBudgets | kernel/src/palaces/gen_store/seeds.rs:358-460 | Seeds before are seeds after plus those reported deleted; OnDemand ends with at most 200 seeds and Archive with at most 1000, or with protected ones only: what users said, the soul's, handoffs and preferences |
| SeedTiers.EnforceSpares | kernel/src/palaces/gen_store/seeds.rs:376-450 | Protected and Always seeds come through unchanged; of any other nothing but the tier changes unless it is deleted |
| SeedTiers.WeakenIsExact | kernel/src/palaces/gen_store/seeds.rs:111-125 | A seed's strength is multiplied by the factor once for each time it is named, and nothing else changes |
| SeedTiers.TouchIsExact | kernel/src/palaces/gen_store/seeds.rs:164-227 | What becomes of each seed under a touch: one access and a hundredth of strength up to one if it is named, then Always from OnDemand with 8 accesses, and OnDemand but no further from Archive with 5 |
| SeedTiers.NamedSeedsOnly | kernel/src/palaces/gen_store/seeds.rs:7-161 | Deletion, change of tier and insertion, seed by seed: which rows and index entries there are afterwards, and that others stay as they are |
| SeedTiers.InsertInSyncIffNew | kernel/src/palaces/gen_store/seeds.rs:49-61 | An insertion keeps one index entry a row if and only if the id is new; the id sets agree in either case |
| SeedTiers.StepKeepsInv | kernel/src/palaces/gen_store/seeds.rs:7-227 | Each of the six operations that write seeds keeps index and table in step and all strengths between zero and one, for insertions of new ids |
| SeedTiers.AlwaysStays | kernel/src/palaces/gen_store/seeds.rs:111-227 | An Always seed keeps its tier and its row under an operation if and only if that does not delete it or give it another tier by name |
| SeedTiers.TouchSettlesIff | kernel/src/palaces/gen_store/seeds.rs:197-223 | After a non-empty touch no Archive seed has 5 accesses; and no OnDemand seed has 8 if and only if no Archive seed reached 8 with it |
| SeedTiers.PromotionSettles | kernel/src/palaces/gen_store/seeds.rs:143-227 | After a touch, any operations that bring no seed with 5 accesses or more into the Archive, by what they name or by the OnDemand tier being over its budget, and another touch, no Archive seed has 5 accesses and no OnDemand seed has 8 |
| SeedTiers.InsertedSeedStaysRipe | kernel/src/palaces/gen_store/seeds.rs:7-63 | A concrete insertion between two touches after which an OnDemand seed has 9 accesses |
| SeedTiers.RetieredSeedStaysRipe | kernel/src/palaces/gen_store/seeds.rs:143-161 | A concrete seed put into the Archive by name between two touches, after which it is OnDemand with 8 accesses |
| SeedTiers.DemotedSeedStaysRipe | kernel/src/palaces/gen_store/seeds.rs:396-403 | A seed demoted with 7 accesses and touched again is OnDemand with 8 |
| Principles.Judgement.Tighten | kernel/src/principles/mod.rs:138-193 | Changes the result as the specification says and reports true exactly when mode level, audit flag or gate kinds changed |
| Principles.Judgement.ApplyLayer4 | kernel/src/principles/mod.rs:202-232 | Applies the principles of the matching key in turn |
| Principles.TightenedIsJoin | kernel/src/principles/mod.rs:138-193 | One principle raises the safety to the join of what there was and what it demands |
| Principles.DemandsByName | kernel/src/principles/mod.rs:138-193 | What principles demand: four names of gates and three of modes are known, and any other name demands nothing |
| Principles.TightenedIsFrugal | kernel/src/principles/mod.rs:138-193 | One principle appends at most the one gate demanded, with its reason; name and retries stay; the layer becomes 4 exactly where the safety changes, and otherwise nothing does |
| Principles.LeastUpperBound | kernel/src/principles/mod.rs:202-232 | Below 0.50 the safety reached is the least one at or above the baseline and every matching demand |
| Principles.OrderAndRepetitionDoNotMatter | kernel/src/principles/mod.rs:138-232 | Two lists with the same set of matching principles lead to the same safety, which is never below the baseline |
| Principles.ClosedToCorrection | kernel/src/principles/mod.rs:138-141 | At or above 0.50 no list of principles changes anything |

## Left out

- JSON decoding, the calls of nameless blocks, and the markdown and raw-tag fallbacks are arbitrary functions
  (`ToolParse.Backend`); attribute parsing and entity unescaping of the raw fallback are not modelled.
- The random id of a parsed call, and the 32-bit width of the nesting counter.
- SessionRuns.RunsApplyInLockOrder: a run is a function from the history it loaded to what each of its saves stores;
  what the agent loop does in between, and what it writes besides the history, is not modelled.
- SessionRuns.CancelReachesIffTokenKept: says that the token is cancelled, not how soon the run notices. Runs of I/O
  channels have no token. Cron runs are left out.
- Steer messages: the queues are only shown to survive a sweep.
- PendingReplies.PendingTable.Add: ids and tokens are fresh random values there; here an id is one not used before.
- GraphExpand.GraphExpandMulti: SQL errors and rows that do not decode. `graph_expand`, contradiction search and seed
  text search are left out.
- Wrapping.RowsAreNarrow: the width of a word is the sum of the widths of its characters. The width library measures
  some emoji sequences as a whole, and less wide than their parts; that is not modelled.
- Scrollback.RowsArePushedOnce: markdown lines do not meet its proviso; the markdown parser itself is not modelled, and
  the theorems that hold of every builder take it as an arbitrary one. Width changes within a turn are not steps.
- StreamRetry.RetryRestores: lines are only added behind the stream meanwhile. The progress lines of sub-agents that
  replace the last line in place, and removals (Ctrl+L, loading a session, question panels), are not among its events;
  to `Scrollback.EndsWellIff` they are edits like any other. Offsets into a line count characters instead of bytes.
- Drawing, colours and the question panels of the terminal client; the composer's line count and rendering; the 32-bit
  width of its history position.
- RateLimiter.AdmissionBound: arithmetic is exact and times do not decrease; rounding of floating-point numbers and
  clocks read out of order are not modelled.
- TelegramOffsets.NothingIsLost: the server issues ids in increasing order from one and answers polls without gaps among
  the ids it still holds. Replies, back-off, what makes an update wanted, and the wrap-around of the highest 64-bit id are left out.
- Workspaces.RunsKeepIdentity: tables hold the columns that identity depends on; transactions do not fail halfway.
- SeedTiers.Store.SetTierBatch: the tier is one of the three; the store would take any text.
- Seed queries and statistics, triples in the seeds table, and migrations: they would only add reads.
- The pattern tables of the policy engine and the derivation of principles from feedback: finite tables and text
  matching.
- Principles.Judgement.Tighten: retries and reason texts do not count as safety; `is_stricter_than` compares numbers of
  gates, and the order used here their kinds.
- Configuration, skills, sandboxing, authentication, network transport and process handling.
