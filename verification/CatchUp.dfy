/**
 The chat-history engine as functions on values: the request API, the catch-up
 state machine and batch processing.  One function per C function; class
 `ChatServer` in ChatHistory.dfy does the same in place and is proved equal to them.
 */
module CatchUp {
  import opened Wrappers
  import opened RequestQueue
  import D = Dedup
  import G = GapLedger

  const DEFAULT_LIMIT := 50
  const MAX_LIMIT := 200
  const FUZZ_INTERVAL := 5
  const BEFORE_LIMIT := 50
  const SANITY_LIMIT := 5000
  const STALE_LIMIT := 3
  const FAIL_LIMIT := 4

  type SessionId = nat
  type ChunkId = nat

  /** Preferences, the clock, and the newest stored row of each channel. */
  datatype Env = Env(auto: bool, gapfill: bool, lines: int, budget: int, now: int, maxAge: int,
                     retentionCutoff: int, newest: nat -> (Option<string>, int))

  /** The catch-up loop of one session. */
  datatype Loop = Loop(inProgress: bool, isBefore: bool, stale: nat, retrieved: nat, gapId: int,
                       lowerBound: int, prevTime: int, prevMsgid: Option<string>)

  /** `channel` names the channel or nick in the scrollback database,
      `hasTarget` says that there is one to ask about, and `answered` counts
      the server's replies to the session's requests. */
  datatype Session = Session(channel: nat, isChannel: bool, hasTarget: bool, queue: Queue, answered: nat, loop: Loop,
                             exhausted: bool, background: bool, oldest: Option<string>,
                             sbOldest: Option<string>, sbNewest: Option<string>, sbNewestTime: int,
                             seen: D.Seen, chunk: Option<ChunkId>)

  /** A batch being worked off. */
  datatype Chunk = Chunk(sess: SessionId, remaining: seq<D.Message>, msgCount: nat, rawCount: nat,
                         oldest: int, newest: int, oldestMsgid: Option<string>, newestMsgid: Option<string>,
                         isCatchup: bool, ended: bool, unsolicited: bool, latestOwned: bool, slotOwed: bool,
                         gapId: int, gapDir: int)

  /** One server connection with its sessions, in list order, the batches still
      being worked off, and the network's gap ledger. */
  datatype State = State(haveChathistory: bool, connected: bool, suppressed: bool, limit: int, failStreak: nat,
                         betweenUnsupported: bool, latestPending: nat, beforeSess: Option<SessionId>,
                         beforeTimer: bool, current: Option<SessionId>, order: seq<SessionId>,
                         sessions: map<SessionId, Session>, chunks: map<ChunkId, Chunk>, nextChunk: ChunkId,
                         gaps: seq<G.Gap>)

  predicate HasText(s: Option<string>) {
    s.Some? && s.value != ""
  }

  function EffectiveLimit(st: State, requested: int): (limit: int)
    ensures 1 <= limit <= MAX_LIMIT
  {
    var wanted := if st.limit > 0 then st.limit else if requested > 0 then requested else DEFAULT_LIMIT;
    if wanted > MAX_LIMIT then MAX_LIMIT else wanted
  }

  function Put(st: State, s: SessionId, sess: Session): State {
    st.(sessions := st.sessions[s := sess])
  }

  function PutQueue(st: State, s: SessionId, q: Queue): State
    requires s in st.sessions
  {
    Put(st, s, st.sessions[s].(queue := q))
  }

  function PutLoop(st: State, s: SessionId, loop: Loop): State
    requires s in st.sessions
  {
    Put(st, s, st.sessions[s].(loop := loop))
  }

  // ----- request queue -----

  /** Requests can be sent. */
  predicate Online(st: State) {
    st.haveChathistory && st.connected && !st.suppressed
  }

  predicate CanSend(st: State, s: SessionId)
    requires s in st.sessions
  {
    st.sessions[s].hasTarget && Online(st)
  }

  function SubmitRequest(st: State, s: SessionId, req: Request): State
    requires s in st.sessions
  {
    PutQueue(st, s, Submit(st.sessions[s].queue, req, CanSend(st, s)))
  }

  function RequestComplete(st: State, s: SessionId): State
    requires s in st.sessions
  {
    PutQueue(st, s, Complete(st.sessions[s].queue, CanSend(st, s)))
  }

  function InferPriority(sess: Session): nat {
    if sess.background then BACKGROUND else if sess.loop.inProgress then CATCHUP else USER
  }

  /** LATEST, BEFORE, AFTER or AROUND from one reference. */
  function RequestFrom(st: State, s: SessionId, kind: Kind, reference: Option<Reference>, limit: int): State
    requires s in st.sessions
  {
    var sess := st.sessions[s];
    if !st.haveChathistory || !st.connected || !sess.hasTarget then st
    else
      var byMsgid := reference.Some? && reference.value.Msgid? && kind != Around;
      SubmitRequest(st, s, Request(kind, reference, None, limit, InferPriority(sess), byMsgid, 0, 0))
  }

  /** Where a LATEST request starts: after the newest stored row. */
  function LatestReference(sess: Session): Option<Reference> {
    if HasText(sess.sbNewest) then Some(Msgid(sess.sbNewest.value))
    else if sess.sbNewestTime > 0 then Some(Timestamp(sess.sbNewestTime))
    else None
  }

  // ----- catch-up loop -----

  function EndLoop(loop: Loop): Loop {
    loop.(inProgress := false, isBefore := false, stale := 0, retrieved := 0, gapId := 0)
  }

  function FinishCatchup(st: State, s: SessionId): State
    requires s in st.sessions
  {
    var sess := st.sessions[s];
    Put(st, s, sess.(loop := EndLoop(sess.loop), oldest := if HasText(sess.sbOldest) then sess.sbOldest else sess.oldest))
    .(beforeSess := if st.beforeSess == Some(s) then None else st.beforeSess)
  }

  function EnteredLoop(env: Env, loop: Loop, newest: Option<string>, newestTime: int): Loop {
    loop.(prevTime := newestTime, prevMsgid := newest, gapId := 0, inProgress := true, isBefore := false,
          lowerBound := if newestTime > FUZZ_INTERVAL then newestTime - FUZZ_INTERVAL
                        else if env.maxAge > 0 then env.now - env.maxAge * 3600
                        else 0)
  }

  /** Refresh the newest-stored anchors and start the loop; sends nothing. */
  function EnterLatestPhase(env: Env, st: State, s: SessionId): State
    requires s in st.sessions
  {
    var (newest, newestTime) := env.newest(st.sessions[s].channel);
    var sess := st.sessions[s];
    Put(st, s, sess.(sbNewest := newest, sbNewestTime := newestTime,
                     loop := EnteredLoop(env, sess.loop, newest, newestTime)))
  }

  predicate WantsLatest(sess: Session) {
    !sess.queue.loading && !sess.loop.inProgress && !sess.exhausted && sess.isChannel && sess.hasTarget
  }

  function SendDeferredLatest(env: Env, st: State, s: SessionId): State
    requires s in st.sessions
  {
    if !WantsLatest(st.sessions[s]) then st
    else
      var st1 := EnterLatestPhase(env, st, s);
      var st2 := RequestFrom(st1, s, Latest, LatestReference(st1.sessions[s]), env.lines);
      st2.(latestPending := st2.latestPending + 1)
  }

  function SendAll(env: Env, st: State, ids: seq<SessionId>): State
    decreases |ids|
  {
    if ids == [] then st
    else SendAll(env, if ids[0] in st.sessions then SendDeferredLatest(env, st, ids[0]) else st, ids[1..])
  }

  function Without(ids: seq<SessionId>, skip: Option<SessionId>): seq<SessionId> {
    if ids == [] then []
    else (if Some(ids[0]) == skip then [] else [ids[0]]) + Without(ids[1..], skip)
  }

  /** The active tab first, then every other session. */
  function FanOutOrder(st: State): seq<SessionId> {
    (if st.current.Some? then [st.current.value] else []) + Without(st.order, st.current)
  }

  function FanOut(env: Env, st: State): State {
    if !st.connected || !st.haveChathistory || !env.auto then st
    else SendAll(env, st.(latestPending := 0), FanOutOrder(st))
  }

  predicate NeedsBefore(st: State, s: SessionId) {
    s in st.sessions && st.sessions[s].loop.inProgress && !st.sessions[s].exhausted && !st.sessions[s].queue.loading
  }

  function FirstNeeding(st: State, ids: seq<SessionId>): Option<SessionId> {
    if ids == [] then None else if NeedsBefore(st, ids[0]) then Some(ids[0]) else FirstNeeding(st, ids[1..])
  }

  function PickBefore(env: Env, st: State): (r: Option<SessionId>)
  {
    if st.current.Some? && NeedsBefore(st, st.current.value) then st.current
    else if env.gapfill then FirstNeeding(st, st.order) else None
  }

  lemma {:induction false} FirstNeedingNeeds(st: State, ids: seq<SessionId>)
    ensures FirstNeeding(st, ids).Some? ==> NeedsBefore(st, FirstNeeding(st, ids).value)
  {
    if ids != [] {
      FirstNeedingNeeds(st, ids[1..]);
    }
  }

  lemma PickedNeeds(env: Env, st: State)
    ensures PickBefore(env, st).Some? ==> NeedsBefore(st, PickBefore(env, st).value)
  {
    FirstNeedingNeeds(st, st.order);
  }

  predicate BeforeBusy(st: State) {
    st.beforeSess.Some? && st.beforeSess.value in st.sessions && st.sessions[st.beforeSess.value].queue.loading
  }

  /** Start or resume BEFORE paging on the chosen session. */
  function StartBefore(st: State, t: SessionId): State
    requires t in st.sessions
  {
    var sess := st.sessions[t];
    var st1 := PutLoop(st.(beforeSess := Some(t)), t, sess.loop.(isBefore := true));
    if HasText(sess.oldest) then RequestFrom(st1, t, Before, Some(Msgid(sess.oldest.value)), BEFORE_LIMIT)
    else FinishCatchup(st1, t).(beforeSess := None)
  }

  function CheckBefore(env: Env, st: State): State {
    if !st.connected || !st.haveChathistory || st.latestPending > 0 || BeforeBusy(st) then st
    else
      var t := PickBefore(env, st);
      if t.Some? && t.value in st.sessions then StartBefore(st, t.value) else st.(beforeSess := None)
  }

  // ----- finishing a batch -----

  function PageOf(ch: Chunk): G.Page {
    G.Page(ch.rawCount, ch.oldest, ch.newest, ch.oldestMsgid, ch.newestMsgid)
  }

  /** The BEFORE page has been counted in; how does the loop go on? */
  datatype Verdict = NoMore | Bridged | Stale | Budget | Continue | NoCursor

  function JudgePage(env: Env, sess: Session, ch: Chunk): Verdict {
    var stale := if ch.msgCount == 0 then sess.loop.stale + 1 else 0;
    if ch.rawCount == 0 || sess.exhausted then NoMore
    else if sess.loop.lowerBound > 0 && ch.oldest > 0 && ch.oldest < sess.loop.lowerBound then Bridged
    else if stale >= STALE_LIMIT then Stale
    else if env.gapfill && env.budget > 0 && sess.loop.retrieved >= env.budget then Budget
    else if sess.loop.retrieved >= SANITY_LIMIT then Budget
    else if ch.oldestMsgid.Some? then Continue else NoCursor
  }

  /** What the verdict does to the row the loop is closing. */
  function CloseRow(gaps: seq<G.Gap>, gapId: int, verdict: Verdict): seq<G.Gap> {
    if gapId <= 0 then gaps
    else match verdict
      case NoMore => G.SetState(gaps, gapId, G.Dead)
      case Stale => G.SetState(gaps, gapId, G.Dead)
      case Bridged => G.Delete(gaps, gapId)
      case _ => gaps
  }

  function RowAfterPage(gaps: seq<G.Gap>, gapId: int, ch: Chunk, verdict: Verdict): seq<G.Gap> {
    CloseRow(G.PageReply(gaps, gapId, PageOf(ch)), gapId, verdict)
  }

  function CountPage(sess: Session, ch: Chunk): Session {
    sess.(loop := sess.loop.(retrieved := sess.loop.retrieved + ch.msgCount))
  }

  /** Go on with another page, or end the loop. */
  function ApplyVerdict(env: Env, st: State, s: SessionId, msgCount: nat, verdict: Verdict): State
    requires s in st.sessions
  {
    var sess := st.sessions[s];
    match verdict
    case Continue =>
      PutLoop(st, s, sess.loop.(stale := if msgCount == 0 then sess.loop.stale + 1 else 0))
      .(beforeSess := None, beforeTimer := true)
    case Stale => CheckBefore(env, FinishCatchup(Put(st, s, sess.(exhausted := true)), s))
    case _ => CheckBefore(env, FinishCatchup(st, s))
  }

  function FinishBefore(env: Env, st: State, ch: Chunk): State
    requires ch.sess in st.sessions
  {
    var sess := CountPage(st.sessions[ch.sess], ch);
    var verdict := JudgePage(env, sess, ch);
    var gaps := RowAfterPage(st.gaps, sess.loop.gapId, ch, verdict);
    ApplyVerdict(env, Put(st, ch.sess, sess).(gaps := gaps), ch.sess, ch.msgCount, verdict)
  }

  predicate SeesHole(env: Env, sess: Session, ch: Chunk) {
    ch.latestOwned && env.gapfill && ch.rawCount > 0 && sess.loop.prevTime > 0 && ch.oldest > 0 &&
    sess.loop.lowerBound > 0 && ch.oldest > sess.loop.lowerBound
  }

  /** The ledger and the loop's row id after the LATEST batch was looked at. */
  function Witnessed(env: Env, gaps: seq<G.Gap>, sess: Session, ch: Chunk): (seq<G.Gap>, int) {
    if !SeesHole(env, sess, ch) then (gaps, sess.loop.gapId)
    else G.Record(gaps, G.Hole(sess.channel, sess.loop.prevTime, sess.loop.prevMsgid, ch.oldest, ch.oldestMsgid))
  }

  function WitnessHole(env: Env, st: State, ch: Chunk): State
    requires ch.sess in st.sessions
  {
    var sess := st.sessions[ch.sess];
    var (gaps, id) := Witnessed(env, st.gaps, sess, ch);
    PutLoop(st.(gaps := gaps), ch.sess, sess.loop.(gapId := id))
  }

  function ReturnSlot(st: State, owned: bool): State {
    if owned && st.latestPending > 0 then st.(latestPending := st.latestPending - 1) else st
  }

  function CheckBeforeAtZero(env: Env, st: State): State {
    if st.latestPending == 0 then CheckBefore(env, st) else st
  }

  function FinishLatest(env: Env, st: State, ch: Chunk): State
    requires ch.sess in st.sessions
  {
    CheckBeforeAtZero(env, ReturnSlot(WitnessHole(env, st, ch), ch.latestOwned))
  }

  predicate BackgroundGoesOn(env: Env, sess: Session, ch: Chunk) {
    sess.background &&
    !(ch.oldest > 0 && env.maxAge > 0 && env.now - env.maxAge * 3600 > 0 && ch.oldest < env.now - env.maxAge * 3600) &&
    !(ch.rawCount > 0 && ch.msgCount == 0)
  }

  function FinishPlain(env: Env, st: State, ch: Chunk): State
    requires ch.sess in st.sessions
  {
    var sess := st.sessions[ch.sess];
    Put(st, ch.sess, sess.(background := BackgroundGoesOn(env, sess, ch)))
    .(gaps := if ch.gapId > 0 && ch.rawCount > 0
              then G.FillReply(st.gaps, ch.gapId, ch.gapDir, PageOf(ch), EffectiveLimit(st, env.lines))
              else st.gaps)
  }

  /** Pagination cursor and end-of-history flag after a batch. */
  function NoteBatch(sess: Session, ch: Chunk): Session {
    sess.(oldest := if ch.oldestMsgid.Some? && ch.rawCount > 0 && !(ch.unsolicited && !ch.latestOwned)
                    then ch.oldestMsgid else sess.oldest,
          exhausted := sess.exhausted || (ch.ended && ch.gapId == 0 && !ch.unsolicited))
  }

  /** The request is retired, unless the batch answers none, and the cursor moved. */
  function Noted(st: State, ch: Chunk): State
    requires ch.sess in st.sessions
  {
    var st1 := st.(failStreak := 0);
    var st2 := if ch.unsolicited then st1 else RequestComplete(st1, ch.sess);
    Put(st2, ch.sess, NoteBatch(st2.sessions[ch.sess], ch))
  }

  function FinishBatch(env: Env, st: State, ch: Chunk): State
    requires ch.sess in st.sessions
  {
    var st1 := Noted(st, ch);
    if !ch.isCatchup then FinishPlain(env, st1, ch)
    else if st1.sessions[ch.sess].loop.isBefore then FinishBefore(env, st1, ch)
    else FinishLatest(env, st1, ch)
  }

  // ----- working a batch off -----

  /** The first message remembered becomes the pagination cursor of a session
      that had none. */
  function FirstRemembered(shown: seq<D.Message>): Option<string> {
    if shown == [] then None
    else if HasText(shown[0].msgid) then shown[0].msgid
    else FirstRemembered(shown[1..])
  }

  /** Process one chunk's worth of messages on the session. */
  function TakeChunk(sess: Session, ch: Chunk): (Session, Chunk) {
    var n := D.ChunkLength(ch.remaining);
    var t := D.Fold(D.Tally(sess.seen, [], ch.oldest, ch.newest), ch.remaining[..n]);
    (sess.(seen := t.seen, oldest := if sess.oldest.Some? then sess.oldest else FirstRemembered(t.shown)),
     ch.(remaining := ch.remaining[n..], msgCount := ch.msgCount + |t.shown|, oldest := t.oldest, newest := t.newest))
  }

  function Unpointed(sessions: map<SessionId, Session>, s: SessionId, c: ChunkId): map<SessionId, Session> {
    if s in sessions && sessions[s].chunk == Some(c) then sessions[s := sessions[s].(chunk := None)] else sessions
  }

  function ForgetChunk(st: State, c: ChunkId): State
    requires c in st.chunks
  {
    st.(chunks := st.chunks - {c}, sessions := Unpointed(st.sessions, st.chunks[c].sess, c))
  }

  function ReleaseSlot(st: State, ch: Chunk): State {
    ReturnSlot(st, ch.slotOwed)
  }

  /** The chunk timer fires. */
  function ChunkTick(env: Env, st: State, c: ChunkId): State {
    if c !in st.chunks then st
    else if st.chunks[c].sess !in st.sessions then ForgetChunk(ReleaseSlot(st, st.chunks[c]), c)
    else
      var (sess, ch) := TakeChunk(st.sessions[st.chunks[c].sess], st.chunks[c]);
      var st1 := Put(st, ch.sess, sess);
      if ch.remaining != [] then st1.(chunks := st1.chunks[c := ch])
      else FinishBatch(env, ForgetChunk(st1, c), ch)
  }

  // ----- receiving a batch -----

  predicate Unsolicited(sess: Session, nested: bool) {
    nested || (sess.queue.active.None? && !sess.queue.loading)
  }

  predicate Adoptable(env: Env, st: State, sess: Session) {
    st.haveChathistory && env.auto && !st.suppressed && !sess.loop.inProgress && !sess.exhausted
  }

  function Adopt(env: Env, st: State, s: SessionId): State
    requires s in st.sessions
  {
    var st1 := EnterLatestPhase(env, st, s);
    st1.(latestPending := st1.latestPending + 1)
  }

  function CursorMsgids(msgs: seq<D.Message>): seq<string> {
    if msgs == [] then []
    else (if !msgs[0].context && msgs[0].msgid.Some? then [msgs[0].msgid.value] else []) + CursorMsgids(msgs[1..])
  }

  /** Stable insertion by timestamp, as the list sort of the batch. */
  function Insert(m: D.Message, msgs: seq<D.Message>): seq<D.Message> {
    if msgs == [] || m.ts <= msgs[0].ts then [m] + msgs else [msgs[0]] + Insert(m, msgs[1..])
  }

  function SortByTime(msgs: seq<D.Message>): seq<D.Message> {
    if msgs == [] then [] else Insert(msgs[0], SortByTime(msgs[1..]))
  }

  function NewChunk(st: State, s: SessionId, msgs: seq<D.Message>, ended: bool, isCatchup: bool,
                    unsolicited: bool, owned: bool, gapId: int, gapDir: int): Chunk
    requires s in st.sessions
  {
    var sorted := SortByTime(msgs);
    var cursors := CursorMsgids(sorted);
    Chunk(s, sorted, 0, D.RawCount(sorted), 0, 0,
          if cursors == [] then None else Some(cursors[0]),
          if cursors == [] then None else Some(cursors[|cursors| - 1]),
          isCatchup, ended, unsolicited, owned,
          isCatchup && owned && !st.sessions[s].loop.isBefore, gapId, gapDir)
  }

  /** A non-empty batch: at once when it is small, otherwise by timer. */
  function StartBatch(env: Env, st: State, ch: Chunk): State
    requires ch.sess in st.sessions
  {
    if ch.rawCount <= D.CHUNK_SIZE then
      var (sess, ch') := TakeChunk(st.sessions[ch.sess], ch);
      FinishBatch(env, Put(st, ch.sess, sess), ch')
    else
      Put(st, ch.sess, st.sessions[ch.sess].(chunk := Some(st.nextChunk)))
      .(chunks := st.chunks[st.nextChunk := ch], nextChunk := st.nextChunk + 1)
  }

  /** Re-ask an empty or failed fill on timestamps, once the msgids are dropped. */
  function RetryFill(env: Env, st: State, s: SessionId, gapId: int, dir: int): (State, bool)
    requires s in st.sessions
  {
    if gapId <= 0 || !st.sessions[s].queue.usedMsgid || st.suppressed || !G.HasMsgids(st.gaps, gapId) then (st, false)
    else RequestGapFill(env, st.(gaps := G.DropMsgids(st.gaps, gapId)), s, gapId, dir)
  }

  function EmptyFill(env: Env, st: State, s: SessionId, gapId: int, dir: int): State
    requires s in st.sessions
  {
    var (st1, retried) := RetryFill(env, st, s, gapId, dir);
    if retried then st1 else st1.(gaps := G.SetState(st1.gaps, gapId, G.Dead))
  }

  /** An empty batch taken for catch-up: fall back from a msgid reference to the
      timestamp, or end the loop and give a slot back. */
  function EmptyCatchup(env: Env, st: State, s: SessionId, usedMsgid: bool, unsolicited: bool, owned: bool): State
    requires s in st.sessions
  {
    var sess := st.sessions[s];
    if !unsolicited && !sess.exhausted && usedMsgid && sess.sbNewestTime > 0 then
      RequestFrom(st, s, Latest, Some(Timestamp(sess.sbNewestTime)), env.lines)
    else CheckBeforeAtZero(env, ReturnSlot(FinishCatchup(st, s), owned))
  }

  function MarkExhausted(st: State, s: SessionId, when: bool): State
    requires s in st.sessions
  {
    if when then Put(st, s, st.sessions[s].(exhausted := true)) else st
  }

  function EmptyBatch(env: Env, st: State, s: SessionId, ended: bool, isCatchup: bool, unsolicited: bool,
                      owned: bool, gapId: int, gapDir: int): State
    requires s in st.sessions
  {
    var usedMsgid := st.sessions[s].queue.usedMsgid;
    var st1 := MarkExhausted(st, s, ended && gapId == 0 && !unsolicited);
    var st2 := if unsolicited then st1 else RequestComplete(st1, s);
    if gapId > 0 then EmptyFill(env, st2, s, gapId, gapDir)
    else if isCatchup then EmptyCatchup(env, st2, s, usedMsgid, unsolicited, owned)
    else MarkExhausted(st2, s, !unsolicited)
  }

  /** A chathistory batch for this session has closed; `nested` when it is a
      leg of a bouncer-replay wrapper. */
  function ProcessBatch(env: Env, st: State, s: SessionId, nested: bool, msgs: seq<D.Message>, ended: bool): State
    requires s in st.sessions
  {
    var sess := st.sessions[s];
    var active := sess.queue.active;
    var gapId := if active.Some? && !nested then active.value.gapId else 0;
    var gapDir := if active.Some? && !nested then active.value.gapDir else 0;
    var unsolicited := Unsolicited(sess, nested);
    var adopted := unsolicited && Adoptable(env, st, sess);
    var st1 := if adopted then Adopt(env, st, s) else st;
    var owned := adopted || !unsolicited;
    var isCatchup := if unsolicited then adopted else sess.loop.inProgress && gapId == 0;
    if msgs == [] then EmptyBatch(env, st1, s, ended, isCatchup, unsolicited, owned, gapId, gapDir)
    else StartBatch(env, st1, NewChunk(st1, s, msgs, ended, isCatchup, unsolicited, owned, gapId, gapDir))
  }

  // ----- gap fill -----

  function FillReference(msgid: Option<string>, ts: int): Reference {
    if HasText(msgid) then Msgid(msgid.value) else Timestamp(ts)
  }

  function FillRequest(st: State, env: Env, g: G.Gap, dir: int): Request {
    var (nearId, nearTs) := if dir < 0 then (g.endMsgid, g.end) else (g.startMsgid, g.start);
    var (farId, farTs) := if dir < 0 then (g.startMsgid, g.start) else (g.endMsgid, g.end);
    if st.betweenUnsupported then
      Request(if dir < 0 then Before else After, Some(FillReference(nearId, nearTs)), None, env.lines,
              USER, HasText(nearId), g.id, dir)
    else
      Request(Between, Some(FillReference(nearId, nearTs)), Some(FillReference(farId, farTs)), env.lines,
              USER, HasText(nearId) || HasText(farId), g.id, dir)
  }

  predicate BackedOff(env: Env, g: G.Gap) {
    var wait := if 5 * g.attempts > 60 then 60 else 5 * g.attempts;
    g.lastAttempt > 0 && env.now - g.lastAttempt < wait
  }

  predicate Fillable(env: Env, st: State, s: SessionId, gapId: int)
    requires s in st.sessions
  {
    st.haveChathistory && !st.suppressed && env.gapfill && gapId > 0 && !st.sessions[s].loop.inProgress &&
    var g := G.Find(st.gaps, gapId);
    g.Some? && g.value.state != G.Dead && !(env.retentionCutoff > 0 && g.value.end < env.retentionCutoff) &&
    !BackedOff(env, g.value)
  }

  function RequestGapFill(env: Env, st: State, s: SessionId, gapId: int, dir: int): (State, bool)
    requires s in st.sessions
  {
    if !Fillable(env, st, s, gapId) then (st, false)
    else
      var req := FillRequest(st, env, G.Find(st.gaps, gapId).value, dir);
      var st1 := SubmitRequest(st, s, req);
      if Accepts(st.sessions[s].queue, req) then (st1.(gaps := G.Touch(st1.gaps, gapId, env.now)), true)
      else (st1, false)
  }

  // ----- FAIL -----

  function FirstLoading(st: State, ids: seq<SessionId>): Option<SessionId> {
    if ids == [] then None
    else if ids[0] in st.sessions && st.sessions[ids[0]].queue.loading then Some(ids[0])
    else FirstLoading(st, ids[1..])
  }

  /** The session a FAIL is about: the one it names, or the first one loading. */
  function FailTarget(st: State, context: Option<SessionId>): Option<SessionId> {
    if context.Some? && context.value in st.sessions then context else FirstLoading(st, st.order)
  }

  function NoteFail(st: State, s: SessionId, badCommand: bool): State
    requires s in st.sessions
  {
    var active := st.sessions[s].queue.active;
    st.(failStreak := st.failStreak + 1,
        suppressed := st.suppressed || st.failStreak + 1 >= FAIL_LIMIT,
        betweenUnsupported := st.betweenUnsupported || LatchesBetween(st.sessions[s], badCommand))
  }

  predicate LatchesBetween(sess: Session, badCommand: bool) {
    sess.queue.active.Some? && sess.queue.active.value.kind == Between && badCommand
  }

  function FailedFill(env: Env, st: State, s: SessionId, gapId: int, dir: int, latched: bool): State
    requires s in st.sessions
  {
    var (st1, retried) := if latched then (st, false) else RetryFill(env, st, s, gapId, dir);
    var g := G.Find(st1.gaps, gapId);
    if !retried && g.Some? && g.value.attempts >= 3
    then st1.(gaps := G.SetState(st1.gaps, gapId, G.Dead)) else st1
  }

  function FailedCatchup(env: Env, st: State, s: SessionId, usedMsgid: bool, wasLatest: bool): State
    requires s in st.sessions
  {
    var sess := st.sessions[s];
    if !st.suppressed && usedMsgid && sess.sbNewestTime > 0 then
      RequestFrom(st, s, Latest, Some(Timestamp(sess.sbNewestTime)), env.lines)
    else CheckBeforeAtZero(env, FinishCatchup(ReturnSlot(st, wasLatest), s))
  }

  /** `badCommand` when the FAIL code says that BETWEEN was not understood. */
  function HandleFail(env: Env, st: State, s: SessionId, badCommand: bool): State
    requires s in st.sessions
  {
    var sess := st.sessions[s];
    var active := sess.queue.active;
    var gapId := if active.Some? then active.value.gapId else 0;
    var gapDir := if active.Some? then active.value.gapDir else 0;
    var st1 := RequestComplete(NoteFail(st, s, badCommand), s);
    if gapId > 0 then FailedFill(env, st1, s, gapId, gapDir, LatchesBetween(sess, badCommand))
    else if st1.sessions[s].loop.inProgress then
      FailedCatchup(env, st1, s, sess.queue.usedMsgid, sess.loop.inProgress && !sess.loop.isBefore)
    else st1
  }

  // ----- leaving -----

  /** chathistory_cancel_chunk_processing: give up the batch the session points to. */
  function AbandonChunk(st: State, s: SessionId): State
    requires s in st.sessions
  {
    var c := st.sessions[s].chunk;
    if c.Some? && c.value in st.chunks then ForgetChunk(ReleaseSlot(st, st.chunks[c.value]), c.value) else st
  }

  /** session_free: abandon the batch being worked off, then the queue; the
      front end shows `next` when the closed session was in front. */
  function CloseSession(st: State, s: SessionId, next: Option<SessionId>): State
    requires s in st.sessions
  {
    var st1 := AbandonChunk(st, s);
    st1.(sessions := st1.sessions - {s}, order := Without(st1.order, Some(s)),
         current := if st1.current != Some(s) then st1.current
                   else if next.Some? && next.value in st1.sessions && next.value != s then next else None)
  }

  /** chathistory_cancel_catchup, on part. */
  function CancelCatchup(st: State, s: SessionId): State
    requires s in st.sessions
  {
    var sess := st.sessions[s];
    Put(st, s, sess.(queue := Drop(sess.queue), loop := sess.loop.(inProgress := false), background := false))
  }

  // ----- user and background requests -----

  function StartCatchup(env: Env, st: State, s: SessionId): State
    requires s in st.sessions
  {
    var sess := st.sessions[s];
    if !env.auto || !st.haveChathistory || sess.queue.loading || sess.loop.inProgress then st
    else RequestFrom(PutLoop(st, s, sess.loop.(inProgress := true)), s, Latest, LatestReference(sess), env.lines)
  }

  function RequestOlder(env: Env, st: State, s: SessionId): State
    requires s in st.sessions
  {
    var sess := st.sessions[s];
    var cursor := if HasText(sess.oldest) then sess.oldest else sess.sbOldest;
    if !st.haveChathistory || sess.exhausted || !HasText(cursor) then st
    else SubmitRequest(st, s, Request(Before, Some(Msgid(cursor.value)), None, env.lines, USER, true, 0, 0))
  }

  function BackgroundTimer(env: Env, st: State, s: SessionId): State
    requires s in st.sessions
  {
    var sess := st.sessions[s];
    if !sess.background then st
    else if !st.haveChathistory || sess.exhausted || sess.queue.loading || !HasText(sess.oldest)
    then Put(st, s, sess.(background := false))
    else RequestFrom(st, s, Before, Some(Msgid(sess.oldest.value)), env.lines)
  }

  // ----- events -----

  datatype Event =
    | FanOutTimer
    | Reply(s: SessionId, msgs: seq<D.Message>, ended: bool)
    | Unasked(s: SessionId, msgs: seq<D.Message>, ended: bool)
    | Replay(s: SessionId, msgs: seq<D.Message>, ended: bool)
    | Fail(context: Option<SessionId>, badCommand: bool)
    | Tick(c: ChunkId)
    | BeforeTimer
    | TabSwitch(to: SessionId)
    | WrapperEnd
    | Open(s: SessionId, channel: nat, isChannel: bool, oldest: Option<string>, seen: D.Seen)
    | Close(s: SessionId, next: Option<SessionId>)
    | Part(s: SessionId)
    | TargetsEntry(s: SessionId)
    | ScrollUp(s: SessionId)
    | FillGap(s: SessionId, gapId: int, dir: int)
    | Background(s: SessionId)

  function Answered(st: State, s: SessionId): State
    requires s in st.sessions
  {
    Put(st, s, st.sessions[s].(answered := st.sessions[s].answered + 1))
  }

  function Fresh(channel: nat, isChannel: bool, oldest: Option<string>, seen: D.Seen): Session {
    Session(channel, isChannel, true, EMPTY_QUEUE, 0, Loop(false, false, 0, 0, 0, 0, 0, None), false, false,
            oldest, oldest, None, 0, seen, None)
  }

  /** scrollback_load, when a window is opened: the newest row stored is looked up. */
  function Opened(env: Env, channel: nat, isChannel: bool, oldest: Option<string>, seen: D.Seen): Session {
    var (newest, newestTime) := env.newest(channel);
    Fresh(channel, isChannel, oldest, seen).(sbNewest := newest, sbNewestTime := newestTime)
  }

  function Step(env: Env, st: State, e: Event): State {
    match e
    case FanOutTimer => FanOut(env, st)
    case Reply(s, msgs, ended) =>
      if s in st.sessions then ProcessBatch(env, Answered(st, s), s, false, msgs, ended) else st
    case Unasked(s, msgs, ended) => if s in st.sessions then ProcessBatch(env, st, s, false, msgs, ended) else st
    case Replay(s, msgs, ended) => if s in st.sessions then ProcessBatch(env, st, s, true, msgs, ended) else st
    case Fail(context, badCommand) =>
      var s := FailTarget(st, context);
      if s.Some? && s.value in st.sessions then HandleFail(env, Answered(st, s.value), s.value, badCommand) else st
    case Tick(c) => ChunkTick(env, st, c)
    case BeforeTimer => if st.beforeTimer then CheckBefore(env, st.(beforeTimer := false)) else st
    case TabSwitch(to) =>
      if to !in st.sessions then st
      else
        var st1 := st.(current := Some(to));
        if st.haveChathistory && st.beforeSess != Some(to) && st.latestPending == 0 then CheckBefore(env, st1) else st1
    case WrapperEnd => CheckBeforeAtZero(env, st)
    case Open(s, channel, isChannel, oldest, seen) =>
      if s in st.sessions then st
      else Put(st, s, Opened(env, channel, isChannel, oldest, seen)).(order := st.order + [s])
    case Close(s, next) => if s in st.sessions then CloseSession(st, s, next) else st
    case Part(s) => if s in st.sessions then CancelCatchup(st, s) else st
    case TargetsEntry(s) => if s in st.sessions then StartCatchup(env, st, s) else st
    case ScrollUp(s) => if s in st.sessions then RequestOlder(env, st, s) else st
    case FillGap(s, gapId, dir) => if s in st.sessions then RequestGapFill(env, st, s, gapId, dir).0 else st
    case Background(s) => if s in st.sessions then BackgroundTimer(env, st, s) else st
  }

  /** One event, under the preferences and the clock of the moment. */
  datatype Input = Input(env: Env, event: Event)

  function AfterRun(st: State, run: seq<Input>): State
    decreases |run|
  {
    if run == [] then st else AfterRun(Step(run[0].env, st, run[0].event), run[1..])
  }
}
