/**
 Whatever the engine does to a request queue is a run of queue operations, and
 whatever it does to the ledger keeps it well formed, so the invariants of both
 hold in every reachable state of the engine: user scrolls, parts, tab
 switches, replays, FAILs and timers included.
 */
module CatchUpInvariants {
  import opened Wrappers
  import opened RequestQueue
  import opened CatchUp
  import D = Dedup
  import G = GapLedger

  /** The operation may put a request on the wire. */
  predicate MaySend(op: Op) {
    (op.OpSubmit? && op.canSend) || (op.OpComplete? && op.canSend)
  }

  predicate Mute(ops: seq<Op>) {
    forall op <- ops :: !MaySend(op)
  }

  /** One queue becomes the other by queue operations alone; by mute ones when
      nothing may be sent. */
  ghost predicate Reaches(q: Queue, q': Queue, online: bool) {
    exists ops: seq<Op> :: ApplyAll(q, ops) == q' && (online || Mute(ops))
  }

  lemma ReachesNone(q: Queue, online: bool)
    ensures Reaches(q, q, online)
  {
    assert ApplyAll(q, []) == q && Mute([]);
  }

  lemma ReachesOne(q: Queue, op: Op, online: bool)
    requires MaySend(op) ==> online
    ensures Reaches(q, Apply(q, op), online)
  {
    assert ApplyAll(q, [op][..0]) == q;
    assert ApplyAll(q, [op]) == Apply(q, op);
    assert online || Mute([op]);
  }

  /** Mute operations send nothing. */
  lemma {:induction false} MuteSendsNothing(q: Queue, ops: seq<Op>)
    requires Mute(ops)
    ensures ApplyAll(q, ops).sent == q.sent
  {
    if ops != [] {
      MuteSendsNothing(q, ops[..|ops| - 1]);
      assert ops[|ops| - 1] in ops;
    }
  }

  lemma {:induction false} ApplyAllAppend(q: Queue, a: seq<Op>, b: seq<Op>)
    ensures ApplyAll(ApplyAll(q, a), b) == ApplyAll(q, a + b)
  {
    if b == [] {
      assert a + b == a;
    } else {
      ApplyAllAppend(q, a, b[..|b| - 1]);
      assert (a + b)[..|a + b| - 1] == a + b[..|b| - 1];
    }
  }

  lemma ReachesTrans(a: Queue, b: Queue, c: Queue, online: bool, later: bool)
    requires Reaches(a, b, online) && Reaches(b, c, later) && (later ==> online)
    ensures Reaches(a, c, online)
  {
    var ops1: seq<Op> :| ApplyAll(a, ops1) == b && (online || Mute(ops1));
    var ops2: seq<Op> :| ApplyAll(b, ops2) == c && (later || Mute(ops2));
    ApplyAllAppend(a, ops1, ops2);
    assert online || Mute(ops1 + ops2);
  }

  /** A ledger whose bounds do not cross and whose ids are distinct stays so. */
  predicate LedgerKept(gaps: seq<G.Gap>, gaps': seq<G.Gap>) {
    G.WellFormed(gaps) ==> G.WellFormed(gaps')
  }

  /** Every session that is left has been there, its queue only went through
      queue operations, mute ones when nothing may be sent; what cannot send
      stays so; and the ledger stays well formed. */
  ghost predicate Runs(st: State, st': State) {
    LedgerKept(st.gaps, st'.gaps) && (Online(st') ==> Online(st)) &&
    forall s | s in st'.sessions ::
      s in st.sessions && Reaches(st.sessions[s].queue, st'.sessions[s].queue, Online(st))
  }

  lemma RunsThen(a: State, b: State, c: State)
    requires Runs(a, b) && Runs(b, c)
    ensures Runs(a, c)
  {
    hide Reaches, Online;
    forall s | s in c.sessions
      ensures s in a.sessions && Reaches(a.sessions[s].queue, c.sessions[s].queue, Online(a))
    {
      ReachesTrans(a.sessions[s].queue, b.sessions[s].queue, c.sessions[s].queue, Online(a), Online(b));
    }
  }

  predicate SameQueues(st: State, st': State) {
    LedgerKept(st.gaps, st'.gaps) && (Online(st') ==> Online(st)) &&
    forall s | s in st'.sessions :: s in st.sessions && st'.sessions[s].queue == st.sessions[s].queue
  }

  lemma SameRuns(st: State, st': State)
    requires SameQueues(st, st')
    ensures Runs(st, st')
  {
    hide Online, Reaches;
    forall s | s in st'.sessions ensures Reaches(st.sessions[s].queue, st'.sessions[s].queue, Online(st)) {
      ReachesNone(st.sessions[s].queue, Online(st));
    }
  }

  lemma SameThenRuns(a: State, b: State, c: State)
    requires SameQueues(a, b) && Runs(b, c)
    ensures Runs(a, c)
  {
    SameRuns(a, b);
    RunsThen(a, b, c);
  }

  lemma PutQueueRuns(st: State, s: SessionId, op: Op)
    requires s in st.sessions && (MaySend(op) ==> Online(st))
    ensures Runs(st, PutQueue(st, s, Apply(st.sessions[s].queue, op)))
  {
    hide Reaches, Apply;
    ReachesOne(st.sessions[s].queue, op, Online(st));
    forall t | t in st.sessions ensures Reaches(st.sessions[t].queue, st.sessions[t].queue, Online(st)) {
      ReachesNone(st.sessions[t].queue, Online(st));
    }
  }

  lemma SubmitRuns(st: State, s: SessionId, req: Request)
    requires s in st.sessions
    ensures Runs(st, SubmitRequest(st, s, req))
  {
    PutQueueRuns(st, s, OpSubmit(req, CanSend(st, s)));
  }

  lemma CompleteRuns(st: State, s: SessionId)
    requires s in st.sessions
    ensures Runs(st, RequestComplete(st, s))
  {
    PutQueueRuns(st, s, OpComplete(CanSend(st, s)));
  }

  lemma RequestRuns(st: State, s: SessionId, kind: Kind, reference: Option<Reference>, limit: int)
    requires s in st.sessions
    ensures Runs(st, RequestFrom(st, s, kind, reference, limit))
  {
    hide SubmitRequest, Runs;
    SameRuns(st, st);
    var sess := st.sessions[s];
    var byMsgid := reference.Some? && reference.value.Msgid? && kind != Around;
    SubmitRuns(st, s, Request(kind, reference, None, limit, InferPriority(sess), byMsgid, 0, 0));
  }

  // ----- the ledger -----

  lemma SetStateKept(gaps: seq<G.Gap>, id: int, state: G.GapState)
    ensures LedgerKept(gaps, G.SetState(gaps, id, state))
  {
    if G.WellFormed(gaps) {
      G.InPlaceWellFormed(gaps, id, (g: G.Gap) => g.(state := state));
    }
  }

  lemma TouchKept(gaps: seq<G.Gap>, id: int, now: int)
    ensures LedgerKept(gaps, G.Touch(gaps, id, now))
  {
    if G.WellFormed(gaps) {
      G.InPlaceWellFormed(gaps, id, (g: G.Gap) => g.(attempts := g.attempts + 1, lastAttempt := now));
    }
  }

  lemma DropKept(gaps: seq<G.Gap>, id: int)
    ensures LedgerKept(gaps, G.DropMsgids(gaps, id))
  {
    if G.WellFormed(gaps) {
      G.InPlaceWellFormed(gaps, id, (g: G.Gap) => g.(startMsgid := None, endMsgid := None, attempts := 0, lastAttempt := 0));
    }
  }

  lemma PageKept(gaps: seq<G.Gap>, gapId: int, ch: Chunk, verdict: Verdict)
    ensures LedgerKept(gaps, RowAfterPage(gaps, gapId, ch, verdict))
  {
    hide G.WellFormed, G.SetState, G.Delete, G.PageReply;
    if G.WellFormed(gaps) {
      G.PageWellFormed(gaps, gapId, PageOf(ch));
      var narrowed := G.PageReply(gaps, gapId, PageOf(ch));
      SetStateKept(narrowed, gapId, G.Dead);
      G.DeleteWellFormed(narrowed, gapId);
    }
  }

  lemma WitnessKept(env: Env, gaps: seq<G.Gap>, sess: Session, ch: Chunk)
    ensures LedgerKept(gaps, Witnessed(env, gaps, sess, ch).0)
  {
    hide G.WellFormed, G.Record;
    if G.WellFormed(gaps) {
      G.RecordWellFormed(gaps, G.Hole(sess.channel, sess.loop.prevTime, sess.loop.prevMsgid, ch.oldest, ch.oldestMsgid));
    }
  }

  lemma FillKept(gaps: seq<G.Gap>, ch: Chunk, limit: int)
    ensures LedgerKept(gaps, G.FillReply(gaps, ch.gapId, ch.gapDir, PageOf(ch), limit))
  {
    hide G.WellFormed, G.FillReply;
    if G.WellFormed(gaps) {
      G.FillWellFormed(gaps, ch.gapId, ch.gapDir, PageOf(ch), limit);
    }
  }

  // ----- the catch-up loop -----

  lemma SendDeferredRuns(env: Env, st: State, s: SessionId)
    requires s in st.sessions
    ensures Runs(st, SendDeferredLatest(env, st, s))
  {
    hide RequestFrom, Runs, EnteredLoop, LatestReference;
    SameRuns(st, st);
    var st1 := EnterLatestPhase(env, st, s);
    var st2 := RequestFrom(st1, s, Latest, LatestReference(st1.sessions[s]), env.lines);
    RequestRuns(st1, s, Latest, LatestReference(st1.sessions[s]), env.lines);
    SameThenRuns(st, st1, st2);
    SameRuns(st2, st2.(latestPending := st2.latestPending + 1));
    RunsThen(st, st2, st2.(latestPending := st2.latestPending + 1));
  }

  lemma {:induction false} SendAllRuns(env: Env, st: State, ids: seq<SessionId>)
    ensures Runs(st, SendAll(env, st, ids))
    decreases |ids|
  {
    hide SendDeferredLatest, Runs;
    SameRuns(st, st);
    if ids != [] {
      var st1 := if ids[0] in st.sessions then SendDeferredLatest(env, st, ids[0]) else st;
      if ids[0] in st.sessions {
        SendDeferredRuns(env, st, ids[0]);
      }
      SendAllRuns(env, st1, ids[1..]);
      RunsThen(st, st1, SendAll(env, st, ids));
    }
  }

  lemma FanOutRuns(env: Env, st: State)
    ensures Runs(st, FanOut(env, st))
  {
    hide SendAll, Runs;
    SameRuns(st, st);
    SendAllRuns(env, st.(latestPending := 0), FanOutOrder(st));
    SameThenRuns(st, st.(latestPending := 0), SendAll(env, st.(latestPending := 0), FanOutOrder(st)));
  }

  lemma FinishSame(st: State, s: SessionId)
    requires s in st.sessions
    ensures SameQueues(st, FinishCatchup(st, s))
  {
  }

  lemma StartBeforeRuns(st: State, t: SessionId)
    requires t in st.sessions
    ensures Runs(st, StartBefore(st, t))
  {
    hide RequestFrom, FinishCatchup, Runs;
    var sess := st.sessions[t];
    var st1 := PutLoop(st.(beforeSess := Some(t)), t, sess.loop.(isBefore := true));
    if HasText(sess.oldest) {
      RequestRuns(st1, t, Before, Some(Msgid(sess.oldest.value)), BEFORE_LIMIT);
      SameThenRuns(st, st1, StartBefore(st, t));
    } else {
      FinishSame(st1, t);
      SameRuns(st, StartBefore(st, t));
    }
  }

  lemma CheckBeforeRuns(env: Env, st: State)
    ensures Runs(st, CheckBefore(env, st))
  {
    hide StartBefore, PickBefore, Runs;
    SameRuns(st, st);
    SameRuns(st, st.(beforeSess := None));
    var t := PickBefore(env, st);
    if t.Some? && t.value in st.sessions {
      StartBeforeRuns(st, t.value);
    }
  }

  lemma AtZeroRuns(env: Env, st: State)
    ensures Runs(st, CheckBeforeAtZero(env, st))
  {
    hide CheckBefore, Runs;
    SameRuns(st, st);
    CheckBeforeRuns(env, st);
  }

  // ----- finishing a batch -----

  lemma CompleteKeeps(st: State, s: SessionId)
    requires s in st.sessions
    ensures s in RequestComplete(st, s).sessions
  {
  }

  lemma NotedRuns(st: State, ch: Chunk)
    requires ch.sess in st.sessions
    ensures Runs(st, Noted(st, ch))
  {
    hide RequestComplete, Runs, NoteBatch;
    var st1 := st.(failStreak := 0);
    SameRuns(st, st1);
    CompleteRuns(st1, ch.sess);
    CompleteKeeps(st1, ch.sess);
    var st2 := if ch.unsolicited then st1 else RequestComplete(st1, ch.sess);
    RunsThen(st, st1, RequestComplete(st1, ch.sess));
    NoteKeepsQueue(st2.sessions[ch.sess], ch);
    SameRuns(st2, Noted(st, ch));
    RunsThen(st, st2, Noted(st, ch));
  }

  lemma NoteKeepsQueue(sess: Session, ch: Chunk)
    ensures NoteBatch(sess, ch).queue == sess.queue
  {
  }

  lemma EndWalkRuns(env: Env, a: State, b: State, s: SessionId)
    requires s in b.sessions && SameQueues(a, b)
    ensures Runs(a, CheckBefore(env, FinishCatchup(b, s)))
  {
    hide CheckBefore, FinishCatchup, Runs;
    FinishSame(b, s);
    CheckBeforeRuns(env, FinishCatchup(b, s));
    SameThenRuns(a, FinishCatchup(b, s), CheckBefore(env, FinishCatchup(b, s)));
  }

  lemma VerdictRuns(env: Env, a: State, b: State, s: SessionId, msgCount: nat, verdict: Verdict)
    requires s in b.sessions && SameQueues(a, b)
    ensures Runs(a, ApplyVerdict(env, b, s, msgCount, verdict))
  {
    hide CheckBefore, FinishCatchup, Runs;
    if verdict == Continue {
      SameRuns(a, ApplyVerdict(env, b, s, msgCount, verdict));
    } else {
      EndWalkRuns(env, a, b, s);
      EndWalkRuns(env, a, Put(b, s, b.sessions[s].(exhausted := true)), s);
    }
  }

  lemma FinishBeforeRuns(env: Env, st: State, ch: Chunk)
    requires ch.sess in st.sessions
    ensures Runs(st, FinishBefore(env, st, ch))
  {
    hide ApplyVerdict, JudgePage, RowAfterPage, Runs;
    var sess := CountPage(st.sessions[ch.sess], ch);
    var verdict := JudgePage(env, sess, ch);
    var gaps := RowAfterPage(st.gaps, sess.loop.gapId, ch, verdict);
    PageKept(st.gaps, sess.loop.gapId, ch, verdict);
    VerdictRuns(env, st, Put(st, ch.sess, sess).(gaps := gaps), ch.sess, ch.msgCount, verdict);
  }

  lemma ReturnAtZeroRuns(env: Env, a: State, b: State, owned: bool)
    requires SameQueues(a, b)
    ensures Runs(a, CheckBeforeAtZero(env, ReturnSlot(b, owned)))
  {
    hide CheckBeforeAtZero, Runs;
    AtZeroRuns(env, ReturnSlot(b, owned));
    SameThenRuns(a, ReturnSlot(b, owned), CheckBeforeAtZero(env, ReturnSlot(b, owned)));
  }

  lemma FinishLatestRuns(env: Env, st: State, ch: Chunk)
    requires ch.sess in st.sessions
    ensures Runs(st, FinishLatest(env, st, ch))
  {
    hide CheckBeforeAtZero, ReturnSlot, Witnessed, Runs;
    WitnessKept(env, st.gaps, st.sessions[ch.sess], ch);
    ReturnAtZeroRuns(env, st, WitnessHole(env, st, ch), ch.latestOwned);
  }

  lemma FinishPlainRuns(env: Env, st: State, ch: Chunk)
    requires ch.sess in st.sessions
    ensures Runs(st, FinishPlain(env, st, ch))
  {
    hide BackgroundGoesOn, EffectiveLimit, G.FillReply, Runs;
    FillKept(st.gaps, ch, EffectiveLimit(st, env.lines));
    SameRuns(st, FinishPlain(env, st, ch));
  }

  lemma NotedKeeps(st: State, ch: Chunk)
    requires ch.sess in st.sessions
    ensures ch.sess in Noted(st, ch).sessions
  {
  }

  lemma FinishBatchRuns(env: Env, st: State, ch: Chunk)
    requires ch.sess in st.sessions
    ensures Runs(st, FinishBatch(env, st, ch))
  {
    hide Noted, FinishBefore, FinishLatest, FinishPlain, Runs;
    NotedKeeps(st, ch);
    NotedRuns(st, ch);
    var st1 := Noted(st, ch);
    FinishBeforeRuns(env, st1, ch);
    FinishLatestRuns(env, st1, ch);
    FinishPlainRuns(env, st1, ch);
    RunsThen(st, st1, FinishBatch(env, st, ch));
  }

  // ----- chunks and batches -----

  lemma TakeKeepsQueue(sess: Session, ch: Chunk)
    ensures TakeChunk(sess, ch).0.queue == sess.queue && TakeChunk(sess, ch).1.sess == ch.sess
  {
  }

  lemma ShownSame(st: State, c: ChunkId)
    requires c in st.chunks && st.chunks[c].sess in st.sessions
    ensures var (x, ch) := TakeChunk(st.sessions[st.chunks[c].sess], st.chunks[c]);
      ch.sess == st.chunks[c].sess && SameQueues(st, Put(st, ch.sess, x))
  {
    hide TakeChunk, LedgerKept;
    TakeKeepsQueue(st.sessions[st.chunks[c].sess], st.chunks[c]);
    GapsAsTheyWere(st.gaps);
  }

  lemma TickRuns(env: Env, st: State, c: ChunkId)
    ensures Runs(st, ChunkTick(env, st, c))
  {
    hide TakeChunk, FinishBatch, ForgetChunk, ReleaseSlot, SameQueues, Runs;
    StillRuns(st);
    if c in st.chunks {
      if st.chunks[c].sess !in st.sessions {
        GoneRuns(st, c);
      } else {
        ShownSame(st, c);
        var (sess, ch) := TakeChunk(st.sessions[st.chunks[c].sess], st.chunks[c]);
        var st1 := Put(st, ch.sess, sess);
        if ch.remaining != [] {
          PartTickRuns(st, st1, c, ch);
        } else {
          LastTickRuns(env, st, st1, c, ch);
        }
      }
    }
  }

  lemma StillRuns(st: State)
    ensures Runs(st, st)
  {
    hide Runs;
    SameRuns(st, st);
  }

  lemma GoneRuns(st: State, c: ChunkId)
    requires c in st.chunks
    ensures c in ReleaseSlot(st, st.chunks[c]).chunks
    ensures Runs(st, ForgetChunk(ReleaseSlot(st, st.chunks[c]), c))
  {
    ReleaseSame(st, st.chunks[c]);
    hide Runs, ReleaseSlot, LedgerKept, SameQueues;
    var st1 := ReleaseSlot(st, st.chunks[c]);
    GapsAsTheyWere(st.gaps);
    ForgetSame(st1, c);
    SlotSame(st, st1.latestPending);
    SameRuns(st1, ForgetChunk(st1, c));
    SameThenRuns(st, st1, ForgetChunk(st1, c));
  }

  lemma SlotSame(st: State, pending: nat)
    ensures SameQueues(st, st.(latestPending := pending))
  {
    hide LedgerKept;
    GapsAsTheyWere(st.gaps);
  }

  lemma ForgetSame(st: State, c: ChunkId)
    requires c in st.chunks
    ensures SameQueues(st, ForgetChunk(st, c))
  {
    hide LedgerKept;
    GapsAsTheyWere(st.gaps);
  }

  lemma PartTickRuns(st: State, st1: State, c: ChunkId, ch: Chunk)
    requires SameQueues(st, st1)
    ensures Runs(st, st1.(chunks := st1.chunks[c := ch]))
  {
    hide Runs;
    SameRuns(st, st1.(chunks := st1.chunks[c := ch]));
  }

  lemma LastTickRuns(env: Env, st: State, st1: State, c: ChunkId, ch: Chunk)
    requires c in st1.chunks && ch.sess in st1.sessions && SameQueues(st, st1)
    ensures Runs(st, FinishBatch(env, ForgetChunk(st1, c), ch))
  {
    hide FinishBatch, Runs;
    FinishBatchRuns(env, ForgetChunk(st1, c), ch);
    SameThenRuns(st, ForgetChunk(st1, c), FinishBatch(env, ForgetChunk(st1, c), ch));
  }

  lemma StartBatchRuns(env: Env, st: State, ch: Chunk)
    requires ch.sess in st.sessions
    ensures Runs(st, StartBatch(env, st, ch))
  {
    hide TakeChunk, FinishBatch, Runs;
    if ch.rawCount <= D.CHUNK_SIZE {
      TakeKeepsQueue(st.sessions[ch.sess], ch);
      var (sess, ch') := TakeChunk(st.sessions[ch.sess], ch);
      FinishBatchRuns(env, Put(st, ch.sess, sess), ch');
      SameThenRuns(st, Put(st, ch.sess, sess), StartBatch(env, st, ch));
    } else {
      SameRuns(st, StartBatch(env, st, ch));
    }
  }

  lemma GapFillRuns(env: Env, st: State, s: SessionId, gapId: int, dir: int)
    requires s in st.sessions
    ensures Runs(st, RequestGapFill(env, st, s, gapId, dir).0)
  {
    hide SubmitRequest, FillRequest, Fillable, Accepts, G.Touch, Runs;
    SameRuns(st, st);
    if Fillable(env, st, s, gapId) {
      hide Fillable;
      FillableFound(env, st, s, gapId);
      var req := FillRequest(st, env, G.Find(st.gaps, gapId).value, dir);
      var st1 := SubmitRequest(st, s, req);
      SubmitRuns(st, s, req);
      TouchKept(st1.gaps, gapId, env.now);
    SameRuns(st1, st1.(gaps := G.Touch(st1.gaps, gapId, env.now)));
      RunsThen(st, st1, st1.(gaps := G.Touch(st1.gaps, gapId, env.now)));
    }
  }

  lemma FillableFound(env: Env, st: State, s: SessionId, gapId: int)
    requires s in st.sessions && Fillable(env, st, s, gapId)
    ensures G.Find(st.gaps, gapId).Some?
  {
  }

  lemma RetryRuns(env: Env, st: State, s: SessionId, gapId: int, dir: int)
    requires s in st.sessions
    ensures Runs(st, RetryFill(env, st, s, gapId, dir).0)
  {
    hide RequestGapFill, G.HasMsgids, G.DropMsgids, Runs;
    SameRuns(st, st);
    var st1 := st.(gaps := G.DropMsgids(st.gaps, gapId));
    DropKept(st.gaps, gapId);
    GapFillRuns(env, st1, s, gapId, dir);
    SameThenRuns(st, st1, RequestGapFill(env, st1, s, gapId, dir).0);
  }

  lemma EmptyFillRuns(env: Env, st: State, s: SessionId, gapId: int, dir: int)
    requires s in st.sessions
    ensures Runs(st, EmptyFill(env, st, s, gapId, dir))
  {
    hide RetryFill, Runs;
    RetryRuns(env, st, s, gapId, dir);
    var st1 := RetryFill(env, st, s, gapId, dir).0;
    var st2 := st1.(gaps := G.SetState(st1.gaps, gapId, G.Dead));
    SetStateKept(st1.gaps, gapId, G.Dead);
    SameRuns(st1, st2);
    RunsThen(st, st1, st2);
  }

  lemma EmptyCatchupRuns(env: Env, st: State, s: SessionId, usedMsgid: bool, unsolicited: bool, owned: bool)
    requires s in st.sessions
    ensures Runs(st, EmptyCatchup(env, st, s, usedMsgid, unsolicited, owned))
  {
    hide RequestFrom, CheckBeforeAtZero, ReturnSlot, FinishCatchup, Runs;
    RequestRuns(st, s, Latest, Some(Timestamp(st.sessions[s].sbNewestTime)), env.lines);
    FinishSame(st, s);
    ReturnAtZeroRuns(env, st, FinishCatchup(st, s), owned);
  }

  lemma MarkedSame(st: State, s: SessionId, when: bool)
    requires s in st.sessions
    ensures SameQueues(st, MarkExhausted(st, s, when)) && s in MarkExhausted(st, s, when).sessions
  {
    hide LedgerKept;
    GapsAsTheyWere(st.gaps);
  }

  lemma EmptyBatchRuns(env: Env, st: State, s: SessionId, ended: bool, isCatchup: bool, unsolicited: bool,
                       owned: bool, gapId: int, gapDir: int)
    requires s in st.sessions
    ensures Runs(st, EmptyBatch(env, st, s, ended, isCatchup, unsolicited, owned, gapId, gapDir))
  {
    hide RequestComplete, EmptyFill, EmptyCatchup, MarkExhausted, SameQueues, Runs;
    var usedMsgid := st.sessions[s].queue.usedMsgid;
    var st1 := MarkExhausted(st, s, ended && gapId == 0 && !unsolicited);
    MarkedSame(st, s, ended && gapId == 0 && !unsolicited);
    SameRuns(st, st1);
    CompleteRuns(st1, s);
    var st2 := if unsolicited then st1 else RequestComplete(st1, s);
    RunsThen(st, st1, RequestComplete(st1, s));
    CompleteKeeps(st1, s);
    EmptyFillRuns(env, st2, s, gapId, gapDir);
    EmptyCatchupRuns(env, st2, s, usedMsgid, unsolicited, owned);
    MarkedSame(st2, s, !unsolicited);
    SameRuns(st2, MarkExhausted(st2, s, !unsolicited));
    RunsThen(st, st2, EmptyBatch(env, st, s, ended, isCatchup, unsolicited, owned, gapId, gapDir));
  }

  lemma AdoptSame(env: Env, st: State, s: SessionId)
    requires s in st.sessions
    ensures SameQueues(st, Adopt(env, st, s)) && s in Adopt(env, st, s).sessions
  {
  }

  lemma ReceivedRuns(env: Env, st: State, s: SessionId, msgs: seq<D.Message>, ended: bool, isCatchup: bool,
                     unsolicited: bool, owned: bool, gapId: int, gapDir: int)
    requires s in st.sessions
    ensures Runs(st, if msgs == [] then EmptyBatch(env, st, s, ended, isCatchup, unsolicited, owned, gapId, gapDir)
                     else StartBatch(env, st, NewChunk(st, s, msgs, ended, isCatchup, unsolicited, owned, gapId, gapDir)))
  {
    hide EmptyBatch, StartBatch, SortByTime, CursorMsgids, D.RawCount, Runs;
    EmptyBatchRuns(env, st, s, ended, isCatchup, unsolicited, owned, gapId, gapDir);
    StartBatchRuns(env, st, NewChunk(st, s, msgs, ended, isCatchup, unsolicited, owned, gapId, gapDir));
  }

  lemma ProcessRuns(env: Env, a: State, st: State, s: SessionId, nested: bool, msgs: seq<D.Message>, ended: bool)
    requires s in st.sessions && SameQueues(a, st)
    ensures Runs(a, ProcessBatch(env, st, s, nested, msgs, ended))
  {
    hide Adopt, Adoptable, EmptyBatch, StartBatch, NewChunk, Runs;
    var sess := st.sessions[s];
    var active := sess.queue.active;
    var gapId := if active.Some? && !nested then active.value.gapId else 0;
    var gapDir := if active.Some? && !nested then active.value.gapDir else 0;
    var unsolicited := Unsolicited(sess, nested);
    var adopted := unsolicited && Adoptable(env, st, sess);
    AdoptSame(env, st, s);
    var st1 := if adopted then Adopt(env, st, s) else st;
    var owned := adopted || !unsolicited;
    var isCatchup := if unsolicited then adopted else sess.loop.inProgress && gapId == 0;
    ReceivedRuns(env, st1, s, msgs, ended, isCatchup, unsolicited, owned, gapId, gapDir);
    SameThenRuns(a, st1, ProcessBatch(env, st, s, nested, msgs, ended));
  }

  // ----- FAIL -----

  lemma FailedFillRuns(env: Env, st: State, s: SessionId, gapId: int, dir: int, latched: bool)
    requires s in st.sessions
    ensures Runs(st, FailedFill(env, st, s, gapId, dir, latched))
  {
    hide RetryFill, Runs;
    SameRuns(st, st);
    RetryRuns(env, st, s, gapId, dir);
    var st1 := if latched then st else RetryFill(env, st, s, gapId, dir).0;
    var st2 := st1.(gaps := G.SetState(st1.gaps, gapId, G.Dead));
    SetStateKept(st1.gaps, gapId, G.Dead);
    SameRuns(st1, st2);
    RunsThen(st, st1, st2);
  }

  lemma FailedCatchupRuns(env: Env, st: State, s: SessionId, usedMsgid: bool, wasLatest: bool)
    requires s in st.sessions
    ensures Runs(st, FailedCatchup(env, st, s, usedMsgid, wasLatest))
  {
    hide RequestFrom, CheckBeforeAtZero, FinishCatchup, Runs;
    RequestRuns(st, s, Latest, Some(Timestamp(st.sessions[s].sbNewestTime)), env.lines);
    var st1 := ReturnSlot(st, wasLatest);
    FinishSame(st1, s);
    AtZeroRuns(env, FinishCatchup(st1, s));
    SameThenRuns(st, FinishCatchup(st1, s), CheckBeforeAtZero(env, FinishCatchup(st1, s)));
  }

  lemma FailRuns(env: Env, a: State, st: State, s: SessionId, badCommand: bool)
    requires s in st.sessions && SameQueues(a, st)
    ensures Runs(a, HandleFail(env, st, s, badCommand))
  {
    hide RequestComplete, FailedFill, FailedCatchup, Runs;
    var sess := st.sessions[s];
    var active := sess.queue.active;
    var gapId := if active.Some? then active.value.gapId else 0;
    var gapDir := if active.Some? then active.value.gapDir else 0;
    var st0 := NoteFail(st, s, badCommand);
    CompleteRuns(st0, s);
    CompleteKeeps(st0, s);
    var st1 := RequestComplete(st0, s);
    SameThenRuns(a, st0, st1);
    FailedFillRuns(env, st1, s, gapId, gapDir, LatchesBetween(sess, badCommand));
    FailedCatchupRuns(env, st1, s, sess.queue.usedMsgid, sess.loop.inProgress && !sess.loop.isBefore);
    SameRuns(st1, st1);
    RunsThen(a, st1, HandleFail(env, st, s, badCommand));
  }

  // ----- the user -----

  lemma CancelRuns(st: State, s: SessionId)
    requires s in st.sessions
    ensures Runs(st, CancelCatchup(st, s))
  {
    hide Drop, Runs;
    PutQueueRuns(st, s, OpDrop);
    var st1 := PutQueue(st, s, Drop(st.sessions[s].queue));
    SameRuns(st1, CancelCatchup(st, s));
    RunsThen(st, st1, CancelCatchup(st, s));
  }

  lemma StartCatchupRuns(env: Env, st: State, s: SessionId)
    requires s in st.sessions
    ensures Runs(st, StartCatchup(env, st, s))
  {
    hide RequestFrom, LatestReference, Runs;
    SameRuns(st, st);
    var sess := st.sessions[s];
    var st1 := PutLoop(st, s, sess.loop.(inProgress := true));
    RequestRuns(st1, s, Latest, LatestReference(sess), env.lines);
    SameThenRuns(st, st1, RequestFrom(st1, s, Latest, LatestReference(sess), env.lines));
  }

  lemma OlderRuns(env: Env, st: State, s: SessionId)
    requires s in st.sessions
    ensures Runs(st, RequestOlder(env, st, s))
  {
    hide SubmitRequest, Runs;
    SameRuns(st, st);
    var sess := st.sessions[s];
    var cursor := if HasText(sess.oldest) then sess.oldest else sess.sbOldest;
    if HasText(cursor) {
      SubmitRuns(st, s, Request(Before, Some(Msgid(cursor.value)), None, env.lines, USER, true, 0, 0));
    }
  }

  lemma BackgroundRuns(env: Env, st: State, s: SessionId)
    requires s in st.sessions
    ensures Runs(st, BackgroundTimer(env, st, s))
  {
    hide RequestFrom, Runs;
    SameRuns(st, st);
    SameRuns(st, Put(st, s, st.sessions[s].(background := false)));
    if HasText(st.sessions[s].oldest) {
      RequestRuns(st, s, Before, Some(Msgid(st.sessions[s].oldest.value)), env.lines);
    }
  }

  lemma AskedRuns(env: Env, st: State, e: Event)
    requires (e.ScrollUp? || e.FillGap? || e.Background?) && e.s in st.sessions
    ensures Runs(st, Step(env, st, e))
  {
    match e {
      case ScrollUp(s) => OlderRuns(env, st, s);
      case FillGap(s, gapId, dir) => GapFillRuns(env, st, s, gapId, dir);
      case Background(s) => BackgroundRuns(env, st, s);
    }
    hide RequestOlder, RequestGapFill, BackgroundTimer, Runs;
  }

  lemma PartRuns(env: Env, st: State, e: Event)
    requires (e.Part? || e.TargetsEntry?) && e.s in st.sessions
    ensures Runs(st, Step(env, st, e))
  {
    match e {
      case Part(s) => CancelRuns(st, s);
      case TargetsEntry(s) => StartCatchupRuns(env, st, s);
    }
    hide CancelCatchup, StartCatchup, Runs;
  }

  /** An event about a session that is not there does nothing. */
  lemma NobodyRuns(env: Env, st: State, e: Event)
    requires e.ScrollUp? || e.FillGap? || e.Background? || e.Part? || e.TargetsEntry?
    requires e.s !in st.sessions
    ensures Runs(st, Step(env, st, e))
  {
    hide Runs;
    StillRuns(st);
  }

  lemma BatchRuns(env: Env, st: State, e: Event)
    requires e.Reply? || e.Unasked? || e.Replay?
    ensures Runs(st, Step(env, st, e))
  {
    hide ProcessBatch, Runs;
    SameRuns(st, st);
    if e.s in st.sessions {
      ProcessRuns(env, st, Answered(st, e.s), e.s, false, e.msgs, e.ended);
      ProcessRuns(env, st, st, e.s, e.Replay?, e.msgs, e.ended);
    }
  }

  lemma FailEventRuns(env: Env, st: State, e: Event)
    requires e.Fail?
    ensures Runs(st, Step(env, st, e))
  {
    hide HandleFail, FailTarget, Runs;
    SameRuns(st, st);
    var s := FailTarget(st, e.context);
    if s.Some? && s.value in st.sessions {
      FailRuns(env, st, Answered(st, s.value), s.value, e.badCommand);
    }
  }

  lemma TimerRuns(env: Env, st: State, e: Event)
    requires e.BeforeTimer? || e.TabSwitch? || e.WrapperEnd? || e.FanOutTimer? || e.Tick?
    ensures Runs(st, Step(env, st, e))
  {
    hide CheckBefore, FanOut, ChunkTick, CheckBeforeAtZero, Runs;
    SameRuns(st, st);
    match e
    case FanOutTimer => FanOutRuns(env, st);
    case Tick(c) => TickRuns(env, st, c);
    case WrapperEnd => AtZeroRuns(env, st);
    case BeforeTimer =>
      CheckBeforeRuns(env, st.(beforeTimer := false));
      SameThenRuns(st, st.(beforeTimer := false), CheckBefore(env, st.(beforeTimer := false)));
    case TabSwitch(to) =>
      SameRuns(st, st.(current := Some(to)));
      CheckBeforeRuns(env, st.(current := Some(to)));
      SameThenRuns(st, st.(current := Some(to)), CheckBefore(env, st.(current := Some(to))));
  }

  lemma CloseSame(st: State, s: SessionId, next: Option<SessionId>)
    requires s in st.sessions
    ensures SameQueues(st, CloseSession(st, s, next))
  {
    hide Without, AbandonChunk, LedgerKept;
    AbandonSame(st, s);
    assert LedgerKept(st.gaps, st.gaps) by {
      GapsAsTheyWere(st.gaps);
    }
  }

  lemma GapsAsTheyWere(gaps: seq<G.Gap>)
    ensures LedgerKept(gaps, gaps)
  {
  }

  lemma AbandonSame(st: State, s: SessionId)
    requires s in st.sessions
    ensures AbandonChunk(st, s).gaps == st.gaps && (Online(AbandonChunk(st, s)) <==> Online(st))
    ensures forall t | t in AbandonChunk(st, s).sessions ::
      t in st.sessions && AbandonChunk(st, s).sessions[t].queue == st.sessions[t].queue
  {
    hide ReturnSlot;
    var c := st.sessions[s].chunk;
    if c.Some? && c.value in st.chunks {
      ReleaseSame(st, st.chunks[c.value]);
    }
  }

  lemma ReleaseSame(st: State, ch: Chunk)
    ensures ReleaseSlot(st, ch) == st.(latestPending := ReleaseSlot(st, ch).latestPending)
  {
  }

  /** Every event but the opening of a session acts on queues by queue
      operations alone. */
  lemma StepRuns(env: Env, st: State, e: Event)
    requires !e.Open?
    ensures Runs(st, Step(env, st, e))
  {
    hide Step, Runs;
    match e
    case Reply(_, _, _) => BatchRuns(env, st, e);
    case Unasked(_, _, _) => BatchRuns(env, st, e);
    case Replay(_, _, _) => BatchRuns(env, st, e);
    case Fail(_, _) => FailEventRuns(env, st, e);
    case FanOutTimer => TimerRuns(env, st, e);
    case Tick(_) => TimerRuns(env, st, e);
    case BeforeTimer => TimerRuns(env, st, e);
    case TabSwitch(_) => TimerRuns(env, st, e);
    case WrapperEnd => TimerRuns(env, st, e);
    case Close(s, next) => CloseRuns(env, st, e);
    case Part(s) => if s in st.sessions { PartRuns(env, st, e); } else { NobodyRuns(env, st, e); }
    case TargetsEntry(s) => if s in st.sessions { PartRuns(env, st, e); } else { NobodyRuns(env, st, e); }
    case ScrollUp(s) => if s in st.sessions { AskedRuns(env, st, e); } else { NobodyRuns(env, st, e); }
    case FillGap(s, _, _) => if s in st.sessions { AskedRuns(env, st, e); } else { NobodyRuns(env, st, e); }
    case Background(s) => if s in st.sessions { AskedRuns(env, st, e); } else { NobodyRuns(env, st, e); }
  }

  lemma CloseRuns(env: Env, st: State, e: Event)
    requires e.Close?
    ensures Runs(st, Step(env, st, e))
  {
    hide CloseSession, Runs;
    SameRuns(st, st);
    if e.s in st.sessions {
      CloseSame(st, e.s, e.next);
      SameRuns(st, CloseSession(st, e.s, e.next));
    }
  }

  // ----- every reachable state -----

  /** The queue invariants: a waiting request implies an active one, the
      loading flag says whether one is active, the slots hold no duplicates,
      every request handed in sits in one place, and none goes out twice. */
  ghost predicate SoundQueue(q: Queue) {
    exists ops: seq<Op> :: ApplyAll(EMPTY_QUEUE, ops) == q && Inv(q) &&
      Conserved(q, Submitted(ops)) && SentOnce(q, Submitted(ops))
  }

  ghost predicate Sound(st: State) {
    G.WellFormed(st.gaps) &&
    forall s | s in st.sessions :: SoundQueue(st.sessions[s].queue)
  }

  lemma ReachableIsSound(q: Queue)
    requires Reaches(EMPTY_QUEUE, q, true)
    ensures SoundQueue(q)
  {
    var ops: seq<Op> :| ApplyAll(EMPTY_QUEUE, ops) == q;
    QueueInvariants(ops);
  }

  lemma SoundReaches(q: Queue, q': Queue, online: bool)
    requires SoundQueue(q) && Reaches(q, q', online)
    ensures SoundQueue(q')
  {
    hide Inv, Conserved, SentOnce;
    assert Reaches(EMPTY_QUEUE, q, true);
    ReachesTrans(EMPTY_QUEUE, q, q', true, online);
    ReachableIsSound(q');
  }

  lemma StepKeepsSound(env: Env, st: State, e: Event)
    requires Sound(st)
    ensures Sound(Step(env, st, e))
  {
    hide SoundQueue, Reaches, G.WellFormed;
    var st' := Step(env, st, e);
    if e.Open? {
      ReachesNone(EMPTY_QUEUE, true);
      ReachableIsSound(EMPTY_QUEUE);
    } else {
      hide Step;
      StepRuns(env, st, e);
      forall s | s in st'.sessions ensures SoundQueue(st'.sessions[s].queue) {
        SoundReaches(st.sessions[s].queue, st'.sessions[s].queue, Online(st));
      }
    }
  }

  /** When requests cannot be sent, as after four FAILs in a row, no event of
      any kind sends one, and it stays so. */
  lemma OfflineIsSilent(env: Env, st: State, e: Event, s: SessionId)
    requires !Online(st) && s in st.sessions && s in Step(env, st, e).sessions
    ensures !Online(Step(env, st, e))
    ensures Step(env, st, e).sessions[s].queue.sent == st.sessions[s].queue.sent
  {
    if !e.Open? {
      hide Step, LedgerKept;
      StepRuns(env, st, e);
      var q, q' := st.sessions[s].queue, Step(env, st, e).sessions[s].queue;
      var ops: seq<Op> :| ApplyAll(q, ops) == q' && (Online(st) || Mute(ops));
      MuteSendsNothing(q, ops);
    }
  }

  /** Over every run of the engine, whatever the server, the user and the
      timers do, every session's queue satisfies all the queue invariants and
      the ledger's ids stay distinct and its bounds never cross. */
  lemma {:induction false} EngineInvariants(st: State, run: seq<Input>)
    requires Sound(st)
    ensures Sound(AfterRun(st, run))
    decreases |run|
  {
    hide Step, Sound;
    if run != [] {
      StepKeepsSound(run[0].env, st, run[0].event);
      EngineInvariants(Step(run[0].env, st, run[0].event), run[1..]);
    }
  }
}
