# Verification of the PoxChat core

Dafny models of the stateful parts of PoxChat, an IRC client, with proofs of
what its code and its comments promise. Run `dafny verify dfyconfig.toml` here
to check everything.

Every module has two layers. Functions on values say what an operation does;
classes and loop methods do the same in the program's own form, on fields,
buffers and lists, and are proved equal to those functions. The properties are
lemmas about the functions, most of them over every run or every input.

## What is modelled

**The chat-history engine** (`src/common/chathistory.c`, with the gap rows of
`src/common/scrollback.c`).

- `RequestQueue`: one request on the wire and one waiting behind it, by priority.
- `Dedup`: message keys, duplicate suppression, 50 entries at a time.
- `GapLedger`, `GapCoverage`: rows recording holes in the stored history, and
  what fill replies and catch-up pages do to them.
- `CatchUp`: the engine itself as functions: LATEST phase, paced BEFORE pages,
  adoption of batches the server sends unasked, FAIL handling, closing sessions.
- `ServerLog`: a server that keeps a channel's history as a log and answers each
  request with the entries nearest its reference.
- `CatchUpCalm`, `CatchUpWalk`, `CatchUpClosing`, `CatchUpLedger`: the ledger over
  whole runs of the engine against that server; `CatchUpLosses`, `CatchUpThefts`:
  concrete runs that lose a message.
- `CatchUpInvariants`, `CatchUpSlots`, `CatchUpBound`, `CatchUpReplay`,
  `CatchUpChunks`, `CatchUpShown`: queues, slots, termination, replays and
  showing once over its runs; `CatchUpExample`, `CatchUpExhausts`: concrete runs.
- `CatchUpAsks`, `CatchUpResting`, `CatchUpReceiving`, `CatchUpFinishing`,
  `CatchUpFailing`: what is asked for and when, what a batch is taken for, and
  what finished batches, empty answers and FAILs do, in the fields of the state.
- `ChatHistory`: class `ChatServer`, the engine in place, following the C
  functions statement by statement; `Run` ties every run of it to the theorems.

**Channel modes** (`ChannelModes`, `ModePacking`), **the friends list**
(`WatchPacking`), **FiSH encryption** (`FishBase64`, `FishCipher`, `FishLines`,
`Base64`, `CBytes`, `Dh1080`), **DCC** (`DccSums`, `DccTransfers`, `DccChat`), **BATCH
collection** (`Batches`, `BatchTable`), **scrollback salvage** (`SalvageMerge`,
`SalvagePages`) and **the input history** (`HistoryRing`, `HistoryBuffer`).

Clocks, preferences, the newest stored row, new transfer rates and random IVs
are parameters. A timer is an event that may happen when it is armed. The server
is arbitrary: any batch, any order, any FAIL. Blowfish is any permutation of
8-byte blocks per key, zstd any lossless codec.

## Where the code does not do what it says

Each of these is a theorem with the exact condition.

- An empty reply to a BEFORE page gives back a LATEST slot of another session
  (`src/common/chathistory.c:2285-2295` lacks the test that the other arm has).
  `SlotCountIff` is exact; `SlotLostInOrdinaryTraffic` is a five-event run.
- Closing a session whose LATEST is unanswered keeps its slot for good
  (`CloseBooks`), against the comment at `src/common/chathistory.c:2100-2104`.
- A catch-up page is asked for from the session's cursor, and any reply moves
  that cursor. When a user scrolls while LATEST is on its way, the scroll goes
  out as LATEST completes and its reply takes the cursor below the hole just
  recorded; the next page deletes the row unfetched (`ScrollLosesARow`, five
  events with truthful answers). A gap fill that ends while a hole is being
  walked does the same (`StolenCursorLosesARow`, five events).
  `PageIsHonestIffFromEnd` is exact: a page asked for below the row's end is
  dishonest. `LedgerStaysTrue` holds while every batch that moves the cursor
  leaves nothing unfetched between its oldest entry and the row's end.
- Recording a hole can give its row an id that another row had, whether that was
  folded into it or deleted before, exactly as `RecordReusesIdIff` says. A fill
  under way then acts on the new row: after folding, on the union, honestly
  exactly when that is no larger (`ReusedFillIsHonestIff`, `ShortReplyLoses`, and
  `ReusedIdLosesAMessage`, three events); after a deletion, on any row, even of
  another channel (`FreedIdLosesAMessage`: two fills of one row from either end,
  five events).
- The catch-up stop deletes a ledger row that a merged witness has stretched
  below the loop's lower bound (`MergedWitnessStopsEarly`, a two-event run); it is
  honest exactly when the page reached the row's own start
  (`StopIsHonestIffStartReached`), and a witness is unstretched exactly as
  `UnstretchedIff` says.
- A gap fill whose oldest message shares its second with the start bound closes
  the row early (`TieClosesEarlyIff`).
- The synchronous path looks at 50 entries but is chosen without counting
  context messages (`SyncPathCompleteIffOneChunk`).
- A message without a timestamp can look like another one's key, and then one of
  them is wrongly suppressed; `KeysAgreeIff` and `SuppressedIff` say exactly when.
- A server-driven batch can set the end-of-history flag after all, when its
  session turned to BEFORE paging while the batch was worked off
  (`UnsolicitedExhaustsIff`; `ReplayExhaustsHistory` is an eight-event run).
- MODE packing ends at the first nick too long for a line, dropping those behind
  it (`AllSentIff`); the friends list sends a line without names when its first
  name is over the budget (`EmptyLineIff`).
- A multiline batch inside a batch that is not collected is lost
  (`NestedMultilineHandedIff`).
- Closing an active DCC chat leaves its rate in the receive sum for good
  (`ClosingKeepsGetSumIff`; `GetSumIs` over every run, `ChatLeavesItsRate`).
- Text typed over the 98th line of the input history loses the cursor
  (`UpRefinesIff`, `LostCursor`).

## Model

| member | source | states |
|---|---|---|
| `RequestQueue.QueueInvariants` | src/common/chathistory.c:147-305 | Over every run of submissions, completions and drops: a waiting request implies an active one, the loading flag says exactly whether one is active, the slots hold no duplicates, each request handed in is freed once or sits in one slot, and none goes out twice |
| `RequestQueue.PendingDisplacedOnlyByHigher` | src/common/chathistory.c:258-271 | A waiting request is displaced by a submission only when that has strictly higher priority, and a submission never touches the active slot |
| `RequestQueue.AcceptedIsHeldUnlessUnsendable` | src/common/chathistory.c:167-178 | A submission reported as accepted is in a slot afterwards exactly unless the session was idle and nothing could be sent; a refused one is freed |
| `CatchUpInvariants.EngineInvariants` | src/common/chathistory.c:147-3000 | In every state of every run of the engine (user scrolls, parts, replays, FAILs, timers) each session's queue is one the queue invariants hold of, and the ledger's ids are distinct and its bounds never cross |
| `CatchUpInvariants.StepRuns` | src/common/chathistory.c:147-3000 | Every event but opening a session changes queues by queue operations alone, by none that sends when nothing may be sent, and keeps the ledger well formed |
| `CatchUpInvariants.OfflineIsSilent` | src/common/chathistory.c:167-178 | Once requests cannot be sent, as after four FAILs in a row, no event of any kind sends one, and it stays so |
| `Dedup.ChunkedEqualsWhole` | src/common/chathistory.c:1998-2078 | Working a list off 50 at a time shows the same messages, remembers the same keys and finds the same bounds as one pass |
| `CatchUpChunks.TicksEqualOnePass` | src/common/chathistory.c:1998-2078 | The chunk timer, tick after tick, leaves session and batch exactly as one pass over the whole sorted batch would |
| `Dedup.SyncPathCompleteIffOneChunk` | src/common/chathistory.c:2342-2366 | The synchronous path, chosen by the count of real entries, looks at the whole list for every list of a given length exactly when that length is at most 50 |
| `Dedup.TallyBounds` | src/common/chathistory.c:2008-2019 | The bounds found are the least and the greatest positive timestamp |
| `Dedup.ShownAtMostOnce` | src/common/chathistory.c:1219-1240 | Over any sequence of overlapping batches nothing with a msgid and a positive timestamp is shown twice |
| `Dedup.KeyInjective` | src/common/chathistory.c:2503-2526 | Keys with positive timestamps agree exactly for the same msgid and timestamp |
| `Dedup.KeysAgreeIff` | src/common/chathistory.c:2503-2526 | Any two keys agree exactly for the same msgid at the same second, for the same msgid twice without a timestamp, or when one is bare and its msgid is the other's msgid, an at-sign and its decimal timestamp |
| `Dedup.SuppressedIffSeenBefore` | src/common/chathistory.c:2578-2604 | With msgids and timestamps throughout, a message is suppressed exactly when that very message was shown or is stored |
| `Dedup.SuppressedIff` | src/common/chathistory.c:2578-2604 | With a timestamp or without, a message is suppressed exactly when it was shown before, is stored, or is mistaken for another whose key looks like its own |
| `CatchUpShown.ShownOnceInEveryRun` | src/common/chathistory.c:1998-2078 | Over every run of the engine, with ticks of several batches interleaved, nothing with a msgid and a positive timestamp is shown twice in a session while it is open |
| `GapLedger.RecordWellFormed` | src/common/scrollback.c:2922-3011 | Recording a hole keeps ids distinct and bounds uncrossed |
| `GapLedger.RecordKeepsCover` | src/common/scrollback.c:2922-3011 | Every row is still there or is spanned by the new row, which spans the recorded hole; dead rows are untouched |
| `GapLedger.RecordReusesIdIff` | src/common/scrollback.c:2922-3011 | A recorded hole gets any given id exactly when every row left alone has a smaller one and one of them the next smaller, or it is the first id of all; so ids freed by folding or by deletion are given out again |
| `GapLedger.RecordIs` | src/common/scrollback.c:2922-3011 | A hole without room between its bounds is refused. Otherwise the live rows of its channel that overlap or touch it are gone and all others left; the last row joins them with the hole, each bound the outermost of theirs with the msgid of the hole or else of the first row reaching so far, witnessed if one of them was, not yet asked for |
| `GapLedger.ShrinkIs` | src/common/scrollback.c:3120-3167 | A shrink takes the bounds it is given with their msgids, keeps the others, resets the attempts, deletes the row whose bounds meet or cross, and touches no other row |
| `GapLedger.ShrinkWellFormed` | src/common/scrollback.c:3120-3167 | A shrink keeps the table well formed: a row whose bounds would meet or cross is deleted |
| `GapCoverage.LedgerCoversHistory` | src/common/chathistory.c:1719-1986 | The ledger by itself: over every run of witnesses, genuine fill replies to what was asked about the row, and pages that leave nothing newer unfetched, each message strictly inside a recorded hole is stored, shares its second with the bound its own row was given, or lies strictly inside a row; bounds never cross; the run may stop anywhere |
| `GapCoverage.FillKeepsLedgerTrue` | src/common/chathistory.c:1918-1986 | A reply to a gap fill from either side keeps the ledger true, whether it shrinks or closes the row, if the row with its id lies in what was asked about |
| `GapCoverage.PageKeepsLedgerTrue` | src/common/chathistory.c:1719-1790 | A catch-up page that leaves nothing newer than itself unfetched keeps the ledger true, when the row is narrowed, marked dead, or deleted after the page reached its start |
| `GapCoverage.StopIsHonestIffStartReached` | src/common/chathistory.c:1754-1770 | The timestamp stop may delete the row for every server history exactly when the page reached the row's own start |
| `GapCoverage.PageIsHonestIffFromEnd` | src/common/chathistory.c:1719-1739 | A page asked for from some second on downwards narrows a row honestly, for every server history, exactly when that second is the row's end or later |
| `GapCoverage.FillIsHonestIffAsked` | src/common/chathistory.c:1926-1986 | A fill reply under a limit of at least two acts honestly on the row with its id, for every server history, exactly when the row lies in what was asked about |
| `GapCoverage.OneByOneIsHonestIff` | src/common/chathistory.c:1943-1986 | With a server limit of one, where no reply is short, a fill reply is honest for every server history exactly when what was asked about starts at the row's bound on the side approached, or beyond it |
| `GapCoverage.ReusedFillIsHonestIff` | src/common/chathistory.c:1926-1986 | When the row asked about was folded and its id given to the union, the reply is honest exactly when the union is no larger than the row was |
| `GapCoverage.ShortReplyLoses` | src/common/chathistory.c:1961-1981 | A reply below the limit loses every message that it did not bring, that is not stored and that no other row covers |
| `GapCoverage.TieClosesEarlyIff` | src/common/chathistory.c:1943-1955 | A fill from the end closes its row with messages unsent exactly when more than the limit remain and the oldest one sent shares its second with the start bound |
| `CatchUpLedger.LedgerStaysTrue` | src/common/chathistory.c:147-3000 | Over every run of the engine against a server that answers each request with what is nearest its reference, its history growing, while replays, FAILs, scrolls, fills, parts and closings go on: if every finished batch is safe to close, an entry that lay strictly inside a row at any point of the run is at its end known to the channel, tied to the bound its own row was given, or strictly inside a row; bounds never cross |
| `CatchUpLedger.StepKeepsScene` | src/common/chathistory.c:147-3000 | One event keeps the ledger true, the channel's walk linked to its row, and every batch in progress traced to what the server sent |
| `CatchUpClosing.OwnLinked` | src/common/chathistory.c:1685-1692 | After a batch that is safe to close, a loop with a live row has everything from its cursor up to the row's end stored, and a row that starts no lower than the loop stops |
| `CatchUpClosing.OwnTrue` | src/common/chathistory.c:1719-1986 | Such a batch, page, witness or fill, keeps the ledger true |
| `CatchUpClosing.PageIsLedgerEvent` | src/common/chathistory.c:1719-1827 | A page asked for from the cursor of a linked walk is a page event the ledger theorem allows, and does to the rows what that event does |
| `CatchUpClosing.FillIsLedgerEvent` | src/common/chathistory.c:1926-1986 | A finished fill whose id names a row within what it asked about is a fill event the ledger theorem allows, and does to the rows what that event does |
| `CatchUpWalk.ContinuedWalk` | src/common/chathistory.c:2960-2966 | A batch that lies above the row, or answers a request and reaches the row's end, or was asked for by BEFORE from the cursor or above or from the row's end or later, leaves nothing unfetched between its oldest entry and the row's end |
| `CatchUpWalk.OwnPageContinues` | src/common/chathistory.c:2960-2966 | The page the loop asks for from its own cursor is such a batch |
| `CatchUpWalk.UnstretchedIff` | src/common/chathistory.c:1848-1868 | A witnessed row is unstretched exactly when every row folded into it lies between the loop's lower bound and the oldest message of the batch |
| `CatchUpWalk.UntouchedWitnessStopsHonestly` | src/common/chathistory.c:1754-1770 | In a loop entered with a newest row later than second five, a witness that touches no row is recorded as seen, and the timestamp stop then comes only once a page reached the row's start |
| `CatchUpCalm.WordlessCalm` | src/common/chathistory.c:147-3000 | No event without messages moves a row, or gives a session that is closing a row another cursor |
| `ServerLog.FillAnswered` | src/common/chathistory.c:540-664 | An answer to BETWEEN, BEFORE or AFTER that asked about a row has everything of the row nearest the side approached, unless it is full |
| `CatchUpLosses.StolenCursorLosesARow` | src/common/chathistory.c:1685-1692 | Five events with truthful answers: a fill takes the cursor of a walk, the next page deletes the row, and a message inside it is neither known nor in a row |
| `CatchUpLosses.ReusedIdLosesAMessage` | src/common/chathistory.c:1926-1986 | Three events with a truthful answer: a fill's id is given to a larger row, and its short reply deletes that |
| `CatchUpLosses.MergedWitnessStopsEarly` | src/common/chathistory.c:1848-1868 | Two events with a truthful answer: the loop enters, its witness merges with an older row, and the stop deletes the union while a message in it is unfetched |
| `CatchUpThefts.ScrollLosesARow` | src/common/chathistory.c:1685-1692 | Five events with truthful answers and no gap fill: a scroll queued behind LATEST takes the cursor of the walk, and the next page deletes the row |
| `CatchUpThefts.FreedIdLosesAMessage` | src/common/chathistory.c:1926-1986 | Five events with truthful answers: the first of two fills of one row deletes it, another channel's hole gets the id, and the second fill's reply deletes that |
| `CatchUpSlots.SlotAccounting` | src/common/chathistory.c:1636-2975 | Over every run of catch-up traffic without the two upsetting events the pending counter equals the LATEST outcomes still owed, whether batches finish, fail, are abandoned or lose their session |
| `CatchUpSlots.SlotCountIff` | src/common/chathistory.c:1636-2975 | One step of catch-up traffic leaves the counter right exactly when it is neither an empty reply to a BEFORE page while slots are owed nor the closing of a session whose LATEST is unanswered |
| `CatchUpSlots.ForeignSlotMiscounts` | src/common/chathistory.c:2269-2295 | The empty reply to a BEFORE page gives back a slot that another session owes: the counter is one too low |
| `CatchUpSlots.CloseBooks` | src/common/chathistory.c:2081-2108 | Closing a session returns the slot of its batch in progress, and leaves the counter one too high exactly when its LATEST was unanswered |
| `CatchUpExample.SlotLostInOrdinaryTraffic` | src/common/chathistory.c:2285-2295 | A five-event run of ordinary traffic after which no slot is pending although one is owed |
| `CatchUpBound.CatchUpIsBounded` | src/common/chathistory.c:1714-1836 | Without user requests, whatever batches, empty replies or FAILs the server sends, before and after four FAILs in a row, the requests sent for a session are bounded by one pass's credit, a pass for each entry into the loop and two for the last tick of each leftover batch |
| `CatchUpBound.BoundedByEntries` | src/common/chathistory.c:1714-1836 | In catch-up traffic, where a request is answered once, there are no leftover batches, and the bound is the credit of the loop under way and one pass for each entry that is let in |
| `CatchUpBound.EachReplyLeavesOne` | src/common/chathistory.c:2310-2366 | A server that answers one request again and again leaves a leftover batch each time without any entry, so leftovers are not bounded by entries |
| `CatchUpBound.StepPays` | src/common/chathistory.c:1714-1836 | Each step pays for the requests it sends out of the credit made of the 5000-message limit, the stale count and the one retry by timestamp |
| `CatchUpBound.CreditBounded` | src/common/chathistory.c:1790-1813 | The credit never exceeds one pass |
| `CatchUpBound.BeforeOnlyAtZero` | src/common/chathistory.c:2920-2922 | As long as no user request is queued, a BEFORE request goes out only when no LATEST is pending |
| `CatchUpReplay.ReplayDoesNotDisturb` | src/common/chathistory.c:2191-2305 | Any unsolicited batch, adopted or not, leaves every session's in-flight request and its gap id in place, exhausts nobody, and changes the ledger at most by recording a witnessed hole |
| `CatchUpReplay.ReplayTickDoesNotDisturb` | src/common/chathistory.c:2031-2078 | Nor does any chunk tick of such a batch |
| `CatchUpReplay.TicksNeverDisturb` | src/common/chathistory.c:2031-2078 | Over every run of catch-up traffic without the two events that upset the slot count, no tick of an unsolicited batch disturbs anybody |
| `CatchUpReplay.BooksKeepServerDriven` | src/common/chathistory.c:2110-2150 | With the slot books in order every unsolicited batch in progress answers no fill and, if adopted, has its session in the LATEST phase |
| `CatchUpReplay.UnsolicitedTickKeepsRequests` | src/common/chathistory.c:1676-1683 | No tick of an unsolicited batch, in any state whatever, touches a request on the wire or what waits behind it |
| `CatchUpReplay.RowsSurvive` | src/common/chathistory.c:1848-1868 | Such a record never shrinks or kills a row: each stays or is spanned by the new one |
| `CatchUpReplay.UnsolicitedExhaustsIff` | src/common/chathistory.c:1776-1800 | Finishing a server-driven batch sets the end-of-history flag exactly when it was adopted, its session has turned to BEFORE paging, it showed nothing as the third page in a row to do so, and it did not reach below the lower bound |
| `CatchUpFinishing.EndIsDeclaredIff` | src/common/chathistory.c:1701-1800 | Finishing any batch sets its session's end-of-history flag exactly when it was set, when the batch answered a request other than a gap fill and carries the end mark, or when it is a BEFORE page, the third in a row that showed nothing, and does not reach below where the loop stops; no other session's flag changes |
| `CatchUpResting.ExhaustedIsLeftAlone` | src/common/chathistory.c:472-502 | Once the flag is set, with no fill in the queue and no BEFORE waiting, it stays set and no run of events, scrolls and background fetches included, sends another BEFORE for the session until the user asks for a hole to be filled or closes it |
| `CatchUpFinishing.PageGoesOnIff` | src/common/chathistory.c:1714-1836 | After a BEFORE page the loop goes on, its cursor at the page's oldest entry and the pacing timer armed, exactly when the page was not the last, did not reach below where the loop stops, was not the third that showed nothing, left budget and sanity limit and has a msgid; otherwise the loop ends and the session stands at its oldest stored row |
| `CatchUpFinishing.PageRowIs` | src/common/chathistory.c:1719-1810 | The row a page is about gets the page's oldest entry as its end, is deleted when nothing is left of it or the page reached below where the loop stops, is dead at the end of the history or at the third page that showed nothing; no other row is touched |
| `CatchUpFinishing.LatestIs` | src/common/chathistory.c:1838-1885 | A LATEST batch records the span from the newest stored row to its oldest entry, as witnessed, exactly when it opened the phase and stays above the lower bound; the loop then closes that row, and the batch gives back the slot it took |
| `CatchUpFinishing.LastLatestStartsPaging` | src/common/chathistory.c:1877-1884 | When the last LATEST outcome is in, the session in front is paged: BEFORE goes out from its cursor, or from the batch's oldest entry if the batch was its own |
| `CatchUpFinishing.EndedPageTurnsToFront` | src/common/chathistory.c:1744-1830 | When a loop ends with a page, the session in front that wants one is paged at once |
| `CatchUpFinishing.FillReplyIs` | src/common/chathistory.c:1926-1986 | A fill reply closes its row exactly when it reaches the bound opposite the side approached or brings less than the server's limit, and otherwise moves the bound it approached from to its far edge; no other row is touched |
| `CatchUpFinishing.PlainIs` | src/common/chathistory.c:1887-1916 | A batch outside catch-up moves the cursor alone, changes no row unless it answers a fill, and ends a background fetch exactly when it reaches below the age limit or showed nothing new |
| `CatchUpReceiving.BatchIsFiled` | src/common/chathistory.c:2151-2415 | Of a batch put aside for the timer it is remembered which request and fill it answers, whether it was adopted as a LATEST phase, whether it drives the loop, and whether it holds a slot, for every row of the table of batch shapes |
| `CatchUpReceiving.SmallBatchIsFinished` | src/common/chathistory.c:2342-2378 | A batch of at most fifty real entries is worked off and finished at once, as the chunk a larger one would become |
| `CatchUpReceiving.AnchorsAre` | src/common/chathistory.c:2310-2335 | The cursors of a batch are the msgids of its first and its last real entry that has one |
| `CatchUpFailing.FailRetires` | src/common/chathistory.c:1475-1520 | A FAIL retires the request of the session it names, or else of the first one in the list that is loading, and counts as its answer; every other session keeps its request and its answers; the fourth FAIL in a row stops the sending, and BETWEEN is given up exactly when a BETWEEN was not understood |
| `CatchUpFailing.FailAboutNobody` | src/common/chathistory.c:1475-1484 | A FAIL that names no open session while none is loading changes nothing |
| `CatchUpFailing.FailedLatestIs` | src/common/chathistory.c:1554-1580 | A FAIL in the loop makes the same be asked for by the newest stored second exactly when a msgid was used, such a second is known and sending goes on; otherwise the loop ends and a LATEST phase gives its slot back |
| `CatchUpFailing.FailedFillIs` | src/common/chathistory.c:1522-1552 | A FAIL of a fill that used a msgid makes the row forget its msgids and be asked for again by its seconds, unless it ended the use of BETWEEN; a row not asked for again is dead exactly at its third attempt |
| `CatchUpFailing.EmptyFillIs` | src/common/chathistory.c:2222-2264 | An empty answer to a fill makes the row be asked for again by its seconds, exactly when msgids may be at fault and the preferences, the row and the queue allow it; otherwise the row is dead. The end of the history is not declared |
| `CatchUpFailing.EmptyLatestIs` | src/common/chathistory.c:2266-2296 | An empty answer in the loop makes the same be asked for by second unless the end of the history is known; otherwise the loop ends and a slot is given back |
| `CatchUpFailing.EmptyScrollDeclares` | src/common/chathistory.c:2297-2306 | An empty answer to a request of ours outside the loop, fills apart, declares the end of the history |
| `CatchUpExhausts.ReplayExhaustsHistory` | src/common/chathistory.c:1776-1800 | Eight events of ordinary traffic at whose end a batch that answers no request has set the flag |
| `ChatHistory.ChatServer.SubmitRequest` | src/common/chathistory.c:228-272 | The queue fields become what the specification says, and the result says whether the request was taken |
| `ChatHistory.ChatServer.RequestComplete` | src/common/chathistory.c:274-293 | The active request is freed and the waiting one dispatched, as specified |
| `ChatHistory.ChatServer.FanOut` | src/common/chathistory.c:2803-2846 | The loop over the session list asks LATEST for the active tab first, then for every other session |
| `CatchUpAsks.FanOutAsks` | src/common/chathistory.c:2729-2800 | The fan-out asks exactly the channels that are neither loading, in the loop nor at the end of their history, and changes no other session; LATEST starts at the msgid of the newest stored row, else at its second, else nowhere, and the loop stops five seconds before it, else at the age limit |
| `CatchUpAsks.TargetsAskIff` | src/common/chathistory.c:856-889 | An entry of the TARGETS listing starts a loop exactly when catch-up is on and the session neither loads nor is in a loop, from the newest row known when the window was opened |
| `ChatHistory.ChatServer.CheckBefore` | src/common/chathistory.c:2911-2975 | The search loop and its effect: at most one session is set paging, and only at zero pending |
| `CatchUpAsks.FrontIsPaged` | src/common/chathistory.c:2928-2970 | When pages may be asked for, the session in front that is in the loop, idle and not at the end of its history is paged, whatever the preferences: BEFORE from its cursor is the last request sent for it and it is the one remembered as paging; without a cursor its loop ends |
| `CatchUpAsks.FirstInListIsPaged` | src/common/chathistory.c:2938-2950 | When the session in front wants no page and gaps are to be filled, the first in the list that wants one is paged |
| `CatchUpAsks.NobodyIsPaged` | src/common/chathistory.c:2952-2956 | When the session in front wants no page and gaps are not to be filled, or nobody else wants one, nobody is paged |
| `CatchUpAsks.NotYetPaged` | src/common/chathistory.c:2917-2926 | While LATEST outcomes are pending, a page is under way or the server is gone, nothing happens |
| `CatchUpAsks.EventsPageFront` | src/common/chathistory.c:2886-2998 | The pacing timer, the end of a replay and a tab switch page the session in front, which is the one switched to |
| `ChatHistory.ChatServer.RecordGap` | src/common/scrollback.c:2922-3011 | The fold over touching rows, their deletion and the insertion of the union |
| `ChatHistory.ChatServer.FinishBatch` | src/common/chathistory.c:1656-1995 | Every arm of the post-processing, statement by statement, equals the specified new state |
| `ChatHistory.ChatServer.ProcessChunkMessages` | src/common/chathistory.c:1998-2022 | The loop over at most 50 entries equals the fold |
| `ChatHistory.ChatServer.ChunkTick` | src/common/chathistory.c:2031-2078 | One timer tick, for a live session and for one that is gone |
| `ChatHistory.ChatServer.RequestGapFill` | src/common/chathistory.c:540-664 | The guards, the request built, and the ledger touched only when the request was taken |
| `CatchUpAsks.FillGoesOutIff` | src/common/chathistory.c:540-664 | A fill is accepted exactly when server and preferences allow it, the session is out of the loop, the row is alive and not behind the retention cutoff, was never tried or last tried five seconds per attempt ago, a minute at most, and the queue holds no such request and has a free slot or a waiting one of lower priority; then the row counts the attempt, otherwise no row changes |
| `CatchUpAsks.FillIsQueued` | src/common/chathistory.c:600-664 | An accepted fill asks for all between the row's bounds, or beyond the near one without BETWEEN, by msgid where there is one; it is on the wire at once from an idle session and waits otherwise |
| `CatchUpAsks.NoRowNoFill` | src/common/chathistory.c:566-569 | Nothing is asked about a row that is not there |
| `CatchUpAsks.ScrollAsksIff` | src/common/chathistory.c:472-502 | A scroll asks for what is below the cursor, or else below the oldest stored row, exactly when more may exist and one of them is known; it displaces anything automatic that waits, and only that |
| `CatchUpAsks.BackgroundAsksIff` | src/common/chathistory.c:2625-2658 | A background fetch asks for the page below the cursor at the lowest priority while the session is idle, has a cursor and may have more; otherwise it stops |
| `CatchUpAsks.PartForgets` | src/common/chathistory.c:894-904 | After a part nothing of the session is on the wire or waiting, each request given back once, and its loop and background fetch are over |
| `CatchUpAsks.OpenIs` | src/common/text.c:679-716 | An opened window is idle, in no loop, not at the end of its history, its cursor is the oldest row stored for it, and the newest one is known |
| `CatchUpAsks.CloseIs` | src/common/poxchat.c:634-745 | Closing a window takes it out of the list; if it was in front, the one the front end names is, if that is open |
| `ChatHistory.ChatServer.HandleFail` | src/common/chathistory.c:1469-1582 | Streak, BETWEEN latch, retry by timestamp, three strikes, and the slot given back only when no retry follows |
| `ChatHistory.ChatServer.CountBatch` | src/common/chathistory.c:2310-2335 | The counting loop: real entries only, first and last msgid as cursors |
| `ChatHistory.ChatServer.ProcessBatch` | src/common/chathistory.c:2151-2415 | The whole table of batch shapes equals the specified new state |
| `ChatHistory.ChatServer.Handle` | src/common/chathistory.c:147-3000 | One event changes the object's fields to the specified new state |
| `ChatHistory.ChatServer.Run` | src/common/chathistory.c:147-3000 | A whole run of events on the object is a run of the specification; from a state with sound queues and ledger it ends in one, and over legal catch-up traffic it keeps the slot books in order |
| `ChannelModes.ModeStringRefinesMap` | src/common/modes.c:241-369 | After any run of recorded changes with space-free arguments from a well-formed string, splitting the flat string yields exactly the ordered map that insertion, update and removal give |
| `ChannelModes.EditRefinesApply` | src/common/modes.c:241-369 | One edit of the flat string, by counting letters and spaces, is one change of the ordered map |
| `ChannelModes.ParseUndoesRender` | src/common/modes.c:241-369 | Splitting a rendered string gives each argument-taking letter its own argument, in letter order |
| `ChannelModes.ApplyIsMapUpdate` | src/common/modes.c:319-368 | On the underlying map a change is plain insertion, update or removal |
| `ChannelModes.ChannelSession.RecordChanMode` | src/common/modes.c:241-369 | The scanning loops, erasures and insertions leave exactly the specified text |
| `ChannelModes.ModeHasArg` | src/common/modes.c:578-603 | Whether a mode takes an argument, by PREFIX and CHANMODES |
| `ChannelModes.ModeChanmodeType` | src/common/modes.c:605-630 | Type of a mode: the commas before its first occurrence, -1 when there is none |
| `ChannelModes.ReplayerHasArg` | src/common/chathistory.c:911-947 | The history replayer's own argument test gives the same answer as mode_has_arg for every server, sign and mode |
| `ChannelModes.HasArgBySections` | src/common/modes.c:578-630 | With CHANMODES=A,B,C,D: nick modes, A and B always take an argument, C when set, D never |
| `ModePacking.SendChannelModes` | src/common/modes.c:65-126 | The packing loops send exactly the specified texts |
| `ModePacking.SentAreThosePriorToTooLong` | src/common/modes.c:84-125 | The nicks sent are, in order and once each, those before the first that does not fit a line of its own |
| `ModePacking.AllSentIff` | src/common/modes.c:99-103 | Every nick is sent exactly when each fits a line alone |
| `ModePacking.LinesFit` | src/common/modes.c:80-82 | Each line carries between one nick and the per-line limit and is at most 512 bytes with its line end |
| `ModePacking.LineReads` | src/common/modes.c:106-119 | Cut at its blanks, a line gives the sign with one letter for each nick, and then the nicks |
| `ModePacking.LinesAreFull` | src/common/modes.c:91-105 | A nick goes to the next line only when this one has its number of nicks or no room for one more |
| `WatchPacking.SendWatches` | src/common/notify.c:546-596 | The loop with its running length and restart pointer sends exactly the specified lines |
| `WatchPacking.NothingLost` | src/common/notify.c:570-593 | Every name goes out once, in list order |
| `WatchPacking.NoLineTruncated` | src/common/notify.c:522-543 | For names within the nick limit no line is cut by the buffer and none exceeds 510 bytes |
| `WatchPacking.EmptyLineIff` | src/common/notify.c:576-584 | A line without names goes out exactly when the first name alone is over the budget |
| `FishBase64.FishBase64Encode` | plugins/fishlim/fish.c:146-184 | The loops fill the allocated buffer exactly with the specified digits |
| `FishBase64.FishBase64Decode` | plugins/fishlim/fish.c:193-224 | The loops give the specified bytes, and nothing for a text of wrong length or alphabet |
| `FishBase64.DecodeUndoesEncode` | plugins/fishlim/fish.c:146-224 | Decoding undoes encoding on any whole number of 8-byte blocks, at 12 digits a block |
| `FishBase64.DigitIs` | plugins/fishlim/fish.c:146-184 | Each digit of the text is six bits of its block: the right word first, its lowest bits first, bytes taken highest first |
| `FishBase64.EncodeUndoesDecodeIff` | plugins/fishlim/fish.c:215-221 | A group of digits is re-encoded to itself exactly when the sixth digit of each word is below four: other texts lose bits |
| `FishCipher.RunCipher` | plugins/fishlim/fish.c:246-342 | Zero padding, chaining, and the IV sent ahead or taken from the message |
| `FishCipher.FishEncrypt` | plugins/fishlim/fish.c:355-384 | The text of a message in either mode |
| `FishCipher.FishDecrypt` | plugins/fishlim/fish.c:397-430 | The bytes of a text in either mode, nothing for anything malformed |
| `FishCipher.FishDecryptStr` | plugins/fishlim/fish.c:441-456 | The decrypted bytes as a C string, the key measured as one too |
| `FishCipher.CbcUndoes` | plugins/fishlim/fish.c:246-342 | CBC decryption undoes CBC encryption for every block permutation and IV |
| `FishCipher.CbcIs` | plugins/fishlim/fish.c:246-342 | In CBC mode each block is the encryption of the text block mixed with the block sent before it, the first with the IV |
| `FishCipher.EcbIs` | plugins/fishlim/fish.c:246-342 | In ECB mode each block is the encryption of its own text block |
| `FishCipher.DecryptUndoesEncrypt` | plugins/fishlim/fish.c:355-456 | What comes back from any message, in both modes, is the message up to its first zero byte |
| `FishCipher.RoundTripIff` | plugins/fishlim/fish.c:355-456 | A message survives exactly when it holds no zero byte |
| `FishLines.EncodedLenIs` | plugins/fishlim/utils.c:36-99 | The predicted length is the length of what an encryption gives |
| `FishLines.Base64LenIs` | plugins/fishlim/utils.c:36-40 | The length arithmetic is that of the standard base64 text |
| `FishLines.EncodedLenMonotone` | plugins/fishlim/utils.c:82-99 | Longer texts never encode shorter |
| `FishLines.MaxTextCommandLen` | plugins/fishlim/utils.c:108-113 | Given room for a block, the greatest text length whose encoding fits, at least eight |
| `FishLines.NextChunk` | plugins/fishlim/utils.c:123-151 | The chunk is the rest, a fixed cut when the text is not UTF-8, else the furthest character boundary |
| `FishLines.BoundaryIsClean` | plugins/fishlim/utils.c:138-150 | A cut on a boundary leaves valid UTF-8 on both sides |
| `FishLines.BoundaryIsFurthest` | plugins/fishlim/utils.c:138-150 | The character after the cut would not have fitted |
| `FishLines.ChunksPartition` | plugins/fishlim/fish.c:517-529 | The chunks put together give the text back |
| `FishLines.ChunksFit` | plugins/fishlim/fish.c:517-529 | No chunk is empty and none is longer than the maximum, so the loop ends |
| `FishLines.ChunksOnBoundaries` | plugins/fishlim/utils.c:138-150 | A text of valid UTF-8 is cut between characters only |
| `FishLines.EncryptForNick` | plugins/fishlim/fish.c:494-532 | The loop over the chunks gives the lines of the greatest chunk length that fits |
| `FishLines.LinesFit` | plugins/fishlim/fish.c:507-529 | With the command in front, no line is longer than 510 bytes |
| `FishLines.SentTextIsRead` | plugins/fishlim/fish.c:441-532 | A text sent in as many lines as it takes is read back whole by the other side |
| `Base64.DecodeUndoesEncode` | plugins/fishlim/fish.c:366-413 | Standard base64 decoding undoes encoding for byte strings of every length |
| `Dh1080.EncodeB64` | plugins/fishlim/dh1080.c:134-154 | The padding is cut off, or an 'A' appended where there is none |
| `Dh1080.DecodeB64` | plugins/fishlim/dh1080.c:117-132 | The 'A' is dropped and the padding restored before decoding |
| `Dh1080.DecodeKeyUndoesEncodeKey` | plugins/fishlim/dh1080.c:117-154 | Decoding a key text gives back the bytes encoded, for every length |
| `Dh1080.EncodedKeyShape` | plugins/fishlim/dh1080.c:134-154 | A key text is never padded, and its length modulo four tells the three cases apart |
| `DccSums.SendSumConserved` | src/common/dcc.c:113-288 | In every reachable state the send sum is the total rate of the active sends |
| `DccSums.GetSumConserved` | src/common/dcc.c:113-288 | In every state reached without DCC chats the receive sum is the total rate of the active receives |
| `DccSums.ClosingKeepsGetSumIff` | src/common/dcc.c:193-202 | Closing a transfer keeps the receive sum right exactly unless it is an active chat with a rate |
| `DccSums.GetSumIs` | src/common/dcc.c:113-288 | In every reachable state the receive sum is the rate of the active receives and chats, and on top the rates of the chats that were active when they were closed |
| `DccSums.ChatLeavesItsRate` | src/common/dcc.c:193-202 | A chat measured and then closed leaves an empty list and its rate in the receive sum |
| `DccSums.CalcExcess` | src/common/dcc.c:113-191 | A rate measurement leaves both sums right |
| `DccSums.ThrottledIff` | src/common/dcc.c:135-184 | After a measurement the throttle bit of the sends, or of everything else, says exactly whether that direction's sum has reached that direction's limit, and the other bit and sum stay; the transfer is held back by it unless exempt, and by its own limit exactly when its rate is over it |
| `DccSums.ClosedByClockIff` | src/common/dcc.c:228-288 | In one second a transfer is aborted exactly when it is an active file transfer that stalled and is not held back, or an offer of ours that expired; a finished one leaves the list exactly when the user wants that |
| `DccTransfers.DccTable.CalcCps` | src/common/dcc.c:113-191 | The rate, its difference in the sum, and the throttle bits of transfer and table |
| `DccTransfers.DccTable.Close` | src/common/dcc.c:357-424 | The rate leaves the sum before the status changes; the average is written only afterwards |
| `DccTransfers.DccTable.CheckTimeouts` | src/common/dcc.c:228-288 | The loop over the list, closing and removing as it goes, equals the specified pass |
| `DccChat.FragmentationDoesNotMatter` | src/common/dcc.c:559-620 | However the bytes are cut into reads, the lines delivered are the newline-split of the stream without carriage returns, each cut to 2047 bytes |
| `DccChat.ChatBuffer.Read` | src/common/dcc.c:588-619 | The loop over one read keeps the write index inside the line buffer and delivers the specified lines |
| `Batches.ClosedBatchHolds` | src/common/inbound.c:2457-2561 | A closing well-nested chathistory batch hands over exactly its own lines in wire order, each non-empty nested multiline batch as one message in its place, and leaves the open batches as they were |
| `Batches.NestedTraffic` | src/common/inbound.c:2175-2704 | Any well-nested traffic inside an open batch leaves it with exactly its contents; deeper batches are handed over first |
| `Batches.NothingLive` | src/common/inbound.c:2638-2643 | When every nested batch is of a collected kind nothing is handled before its batch closes |
| `Batches.OthersDoNotDisturb` | src/common/inbound.c:2577-2704 | Traffic about other batches does not touch an open batch |
| `Batches.ProjectionHolds` | src/common/inbound.c:2457-2704 | However the traffic of a family of batches is interleaved with other traffic, its batches hold what they would hold alone |
| `Batches.InterleavedTraffic` | src/common/inbound.c:2457-2704 | An open batch holds exactly its own lines and collapsed children in order, if its traffic is well nested once everything else is left out |
| `Batches.LinesUndoJoin` | src/common/inbound.c:2384-2414 | Splitting the joined text at its newlines gives the PRIVMSG lines back |
| `Batches.NestedMultilineHandedIff` | src/common/inbound.c:2486-2512 | Over the whole traffic of a batch of any kind that holds a non-empty multiline batch, the collapsed message is handed over when it closes exactly if its kind is collected; otherwise nothing is handed over but what the batches inside gave |
| `BatchTable.CollapseMultiline` | src/common/inbound.c:2368-2455 | The loop with its text buffer builds exactly the specified message, or none |
| `Batches.CollapsedIs` | src/common/inbound.c:2368-2455 | A collapsed message has sender and tags of its first PRIVMSG line, and its time and msgid unless the BATCH line has them, goes where the BATCH line says, and is missing exactly when there is no text |
| `Batches.TextsGrow` | src/common/inbound.c:2384-2414 | Its text lines are those of the PRIVMSG lines with a text, in order, each without one leading colon |
| `BatchTable.BatchServer.InboundBatchStart` | src/common/inbound.c:2175-2212 | A new batch is opened empty; a duplicate id changes nothing |
| `BatchTable.BatchServer.InboundBatchAddMessage` | src/common/inbound.c:2577-2704 | A line of a collected kind of batch is appended; any other is handled now |
| `BatchTable.BatchServer.InboundBatchEnd` | src/common/inbound.c:2457-2561 | The batch is handed over, collapsed into its parent or dropped, and removed |
| `SalvageMerge.MergeAllKeys` | tools/scrollback-salvage.py:266-344 | Merging any list of backups yields the union of (channel, msgid) and (channel, timestamp, text) keys |
| `SalvageMerge.OrderDoesNotMatter` | tools/scrollback-salvage.py:266-344 | The keys are the same for every order of the backups |
| `SalvageMerge.LiveRowsStay` | tools/scrollback-salvage.py:266-344 | Every live row stays, unchanged and in its place |
| `SalvageMerge.AddedRowsAre` | tools/scrollback-salvage.py:287-315 | A row with a msgid is added exactly when it says what a backup row says whose key is new and which is the first of the backup with it; a row without one is added as often as backup rows say it, unless its channel, second and text are there |
| `SalvageMerge.AddedRowsComeFrom` | tools/scrollback-salvage.py:287-315 | Every added row is a backup row with only its channel set, to the name its channel id stands for or else its own |
| `SalvageMerge.ChannelsAre` | tools/scrollback-salvage.py:283-285 | The channels afterwards are the live ones and those the backup names |
| `SalvageMerge.MergeAddsNothingIff` | tools/scrollback-salvage.py:289-315 | A merge adds no rows exactly when all keys of the backup are there |
| `SalvageMerge.MergeAgainAddsNothing` | tools/scrollback-salvage.py:266-344 | Merging a backup again, at any later time, adds no message rows |
| `SalvageMerge.MergeKeepsUnique` | tools/scrollback-salvage.py:289-315 | The unique index on channel and msgid is never violated |
| `SalvageMerge.LiveDatabase.MergeBackup` | tools/scrollback-salvage.py:266-344 | The statements in order give the specified rows and their count |
| `SalvagePages.WriteOuter` | tools/scrollback-salvage.py:347-397 | The page loop stores page 1 raw and every other page compressed unless that is no smaller |
| `SalvagePages.RowsAre` | tools/scrollback-salvage.py:347-397 | Every page has its row in order: the first one and any that compressing does not make smaller as it is, any other compressed, with the dictionary if that is not empty |
| `SalvagePages.ReadOuter` | tools/scrollback-salvage.py:54-127 | The row loop gives the page dictionary and the header facts, or an error |
| `SalvagePages.ReadIff` | tools/scrollback-salvage.py:86-127 | Reading succeeds exactly when the first row is page 1 stored as it is and every row is a page of the size in the header's bytes 16 and 17; the page count is in bytes 28 to 31 and counts exactly while bytes 24 to 27 equal bytes 92 to 95 |
| `SalvagePages.Reconstruct` | tools/scrollback-salvage.py:130-162 | The pages up to the count are written in order, or a missing page is an error |
| `SalvagePages.ReadUndoesWrite` | tools/scrollback-salvage.py:54-397 | With a lossless codec reading undoes writing page for page; an empty dictionary is not kept |
| `SalvagePages.RebuildUndoesWrite` | tools/scrollback-salvage.py:54-397 | The image comes back up to a trusted header count, and whole exactly when that count is stale, zero or no smaller than the image |
| `HistoryRing.RingRefinesList` | src/common/history.c:24-121 | Over every run in which no text is stashed from the line before the limit, the ring shows what a list with a cursor shows |
| `HistoryRing.UpRefinesIff` | src/common/history.c:85-121 | A step up keeps the ring standing for the list exactly unless text is stashed at distance 98 |
| `HistoryRing.LostCursor` | src/common/history.c:85-121 | There the ring stands on the empty line of the longer list, and down shows nothing |
| `HistoryRing.StashSparesShownLine` | src/common/history.c:100-117 | Stashing typed text never overwrites the line about to be shown |
| `HistoryRing.RingUpShowsNewestFirst` | src/common/history.c:85-121 | Repeated up with nothing typed shows the lines newest first, up to 99 |
| `HistoryRing.DownRetraces` | src/common/history.c:49-83 | Down retraces the lines back to the empty line |
| `HistoryRing.NeverComparesNull` | src/common/history.c:104-110 | Over every run no comparison meets a missing line |
| `HistoryBuffer.History.Add` | src/common/history.c:24-33 | The slot, the write position and the browsing position after a line is added |
| `HistoryBuffer.History.Up` | src/common/history.c:85-121 | The step up on the array equals the specified one, stash included |
| `HistoryBuffer.History.Down` | src/common/history.c:49-83 | The step down on the array equals the specified one |

## Left out

- CatchUpLedger.LedgerStaysTrue: the channel's entries have msgids and timestamps and no context entries come, and the channel has one session at a time; what is not safe to close is said by `CatchUpWalk.SafeClose`: a batch that moves the cursor of a walk and leaves something unfetched above it, a fill or page whose id names another row by then, a stretched witness, and a fill whose limit was raised before its reply. Whole seconds are all the ledger has, so a message in the second its own row's bound was moved to is set apart.
- GapCoverage.LedgerCoversHistory: takes from its events what `CatchUpLedger` derives from the engine's own requests.
- Sessions and batches in progress are records in map fields of `ChatServer`; aliasing is not modelled, and ids are never reused.
- A `chathistory_before_sess` that names a closed session counts as not loading; what the C struct then holds is not modelled.
- A parted session keeps its channel name here, so requests for it are still sent where the program has no name to ask about.
- CatchUpSlots.SlotAccounting: covers catch-up traffic only; parts, TARGETS catch-ups, user scrolls and requests under suppression do not keep the count (`src/common/chathistory.c:856-903`), so `Traffic` excludes them. They are in the engine, in `EngineInvariants`, in `LedgerStaysTrue` and in the queue theorems.
- CatchUpBound.StepPays: one step while requests can be sent; once they cannot, `OfflineIsSilent` says more.
- CatchUpBound.BeforeOnlyAtZero: a user's own BEFORE request goes out whenever the queue is free, so states with user requests queued are excluded.
- Disconnect and reconnect, the fan-out delay and the persistence gate on it; the gate only moves the fan-out event.
- Live messages outside batches, which also add keys and cursors to a session.
- ChatHistory.ChatServer.FanOut: the TARGETS request the timer also sends, with its listing, is left out; an entry of the listing is one event.
- ChatHistory.ChatServer.FinishBatch: arming the background timer is left out; the timer's event may come at any time.
- ChatHistory.ChatServer.ProcessBatch: finding the session by name, and opening a dialog for a replay leg, are left out.
- CHATHISTORY line syntax and target lookup.
- Lazy seeding of the gap table from stored timestamps, its reset commands and its display.
- Refusals by SQLite, such as a full disk, and the SQL text itself: statements are functions on rows.
- The display side of a batch: modes, redactions, reactions, separators and scroll positions.
- Printing of mode changes and their grouping; RecordChanMode needs no well-formed text, but the map is only claimed for one.
- GLib refuses to decode a text of fewer than two characters; the one such DH1080 text, that of no bytes at all, is decoded to nothing here.
- Key storage, key exchange arithmetic and Blowfish itself.
- FishBase64.FishBase64Encode: the program reads eight bytes at a time, so a message that is no whole number of blocks is not for it; its only caller passes cipher blocks.
- FishLines.MaxTextCommandLen: a room smaller than one cipher block is excluded; the splitting loop would not end there.
- FishLines.EncryptForNick: the same room is excluded.
- `dcc_calc_cps` smooths in floating point; the new rate is any integer. Sums are unbounded where the program has 64 bits.
- DccChat.ChatBuffer.Read: a line that makes a plugin close the chat ends the read early; Read models the lines that do not.
- DCC connection setup, proxies, resuming and file writing.
- BatchTable.BatchServer.InboundBatchStart: the hook of the replay wrapper is left out.
- BatchTable.BatchServer.InboundBatchAddMessage: the JOIN that a persistence batch consumes counts as handled at once.
- BatchTable.BatchServer.InboundBatchEnd: labels of BATCH replies and echo suppression of our own multiline messages are left out.
- BATCH lines while the capability is off count as handled at once.
- SalvageMerge.LiveDatabase.MergeBackup: only messages and channel names; reactions, replies and the schema migration are not modelled.
- SalvagePages.Reconstruct: the integrity verdict and the note about dropped pages are left out.
- The merge sort inside `g_slist_sort`: the batch is sorted stably, by insertion.
- Config, channel option and ignore files, plugins and the front end: easy or foreign.
