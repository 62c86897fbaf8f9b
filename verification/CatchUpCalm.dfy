/**
 What most of the engine does leaves the ledger's bounds and every catch-up
 walk alone: requests come and go, loops start and end, but no row moves, and
 no session that is closing a row gets another cursor.
 */
module CatchUpCalm {
  import opened Wrappers
  import opened RequestQueue
  import opened CatchUp
  import D = Dedup
  import G = GapLedger
  import S = ServerLog

  /** Fills in the queue are the kind of request a fill makes. */
  predicate Shaped(q: Queue) {
    (q.active.Some? && q.active.value.gapId > 0 ==> S.FillShape(q.active.value)) &&
    (q.pending.Some? && q.pending.value.gapId > 0 ==> S.FillShape(q.pending.value))
  }

  /** The session closes the same row from the same cursor, or none any more;
      it knows at least what it knew. */
  predicate SameWalk(x: Session, x': Session) {
    x'.channel == x.channel && S.KnowsMore(x.seen, x'.seen) && (Shaped(x.queue) ==> Shaped(x'.queue)) &&
    (x'.loop.gapId == 0 ||
     (x'.loop.gapId == x.loop.gapId && x'.loop.lowerBound == x.loop.lowerBound &&
      (x.oldest.Some? ==> x'.oldest == x.oldest)))
  }

  /** The rows stand where they stood. */
  predicate InPlace(gaps: seq<G.Gap>, gaps': seq<G.Gap>) {
    |gaps'| == |gaps| &&
    forall i | 0 <= i < |gaps| :: SameBounds(gaps[i], gaps'[i])
  }

  predicate SameBounds(g: G.Gap, g': G.Gap) {
    g'.id == g.id && g'.channel == g.channel && g'.start == g.start && g'.end == g.end
  }

  predicate WalksOn(sessions: map<SessionId, Session>, sessions': map<SessionId, Session>) {
    forall s <- sessions' :: s in sessions && SameWalk(sessions[s], sessions'[s])
  }

  predicate ChunksStay(chunks: map<ChunkId, Chunk>, chunks': map<ChunkId, Chunk>) {
    forall c <- chunks' :: c in chunks && chunks'[c] == chunks[c]
  }

  predicate Calm(st: State, st': State) {
    InPlace(st.gaps, st'.gaps) && WalksOn(st.sessions, st'.sessions) &&
    ChunksStay(st.chunks, st'.chunks) && st'.nextChunk == st.nextChunk
  }

  lemma InPlaceThen(a: seq<G.Gap>, b: seq<G.Gap>, c: seq<G.Gap>)
    requires InPlace(a, b) && InPlace(b, c)
    ensures InPlace(a, c)
  {
    forall i | 0 <= i < |a| ensures SameBounds(a[i], c[i]) {
      assert SameBounds(a[i], b[i]) && SameBounds(b[i], c[i]);
    }
  }

  lemma WalksThen(a: map<SessionId, Session>, b: map<SessionId, Session>, c: map<SessionId, Session>)
    requires WalksOn(a, b) && WalksOn(b, c)
    ensures WalksOn(a, c)
  {
    hide Shaped;
    forall s | s in c ensures s in a && SameWalk(a[s], c[s]) {
      assert SameWalk(b[s], c[s]) && SameWalk(a[s], b[s]);
    }
  }

  lemma CalmThen(a: State, b: State, c: State)
    requires Calm(a, b) && Calm(b, c)
    ensures Calm(a, c)
  {
    hide SameWalk, SameBounds, WalksOn, InPlace;
    InPlaceThen(a.gaps, b.gaps, c.gaps);
    WalksThen(a.sessions, b.sessions, c.sessions);
  }

  lemma Still(st: State)
    ensures Calm(st, st)
  {
    hide Shaped;
  }

  /** A step that changes one session only. */
  lemma OneWalksOn(st: State, st': State, s: SessionId, x: Session)
    requires s in st.sessions && SameWalk(st.sessions[s], x)
    requires st'.sessions == st.sessions[s := x] && st'.gaps == st.gaps
    requires st'.chunks == st.chunks && st'.nextChunk == st.nextChunk
    ensures Calm(st, st')
  {
    hide Shaped;
  }

  /** A step that leaves sessions, rows and batches alone. */
  lemma NothingMoves(st: State, st': State)
    requires st'.sessions == st.sessions && st'.gaps == st.gaps
    requires st'.chunks == st.chunks && st'.nextChunk == st.nextChunk
    ensures Calm(st, st')
  {
    hide Shaped;
  }

  // ----- requests -----

  lemma SubmitShaped(q: Queue, req: Request, canSend: bool)
    requires req.gapId > 0 ==> S.FillShape(req)
    ensures Shaped(q) ==> Shaped(Submit(q, req, canSend))
  {
  }

  lemma CompleteShaped(q: Queue, canSend: bool)
    ensures Shaped(q) ==> Shaped(Complete(q, canSend))
  {
  }

  lemma QueueWalks(x: Session, q: Queue)
    requires Shaped(x.queue) ==> Shaped(q)
    ensures SameWalk(x, x.(queue := q))
  {
    hide Shaped;
  }

  lemma SubmitCalm(st: State, s: SessionId, req: Request)
    requires s in st.sessions && (req.gapId > 0 ==> S.FillShape(req))
    ensures Calm(st, SubmitRequest(st, s, req))
  {
    hide Submit, Shaped, SameWalk, Calm;
    var q := Submit(st.sessions[s].queue, req, CanSend(st, s));
    SubmitShaped(st.sessions[s].queue, req, CanSend(st, s));
    QueueWalks(st.sessions[s], q);
    OneWalksOn(st, SubmitRequest(st, s, req), s, st.sessions[s].(queue := q));
  }

  lemma CompleteCalm(st: State, s: SessionId)
    requires s in st.sessions
    ensures Calm(st, RequestComplete(st, s))
  {
    hide Complete, Shaped, SameWalk, Calm;
    var q := Complete(st.sessions[s].queue, CanSend(st, s));
    CompleteShaped(st.sessions[s].queue, CanSend(st, s));
    QueueWalks(st.sessions[s], q);
    OneWalksOn(st, RequestComplete(st, s), s, st.sessions[s].(queue := q));
  }

  lemma RequestCalm(st: State, s: SessionId, kind: Kind, reference: Option<Reference>, limit: int)
    requires s in st.sessions
    ensures Calm(st, RequestFrom(st, s, kind, reference, limit))
  {
    hide SubmitRequest, Calm;
    Still(st);
    var sess := st.sessions[s];
    var byMsgid := reference.Some? && reference.value.Msgid? && kind != Around;
    SubmitCalm(st, s, Request(kind, reference, None, limit, InferPriority(sess), byMsgid, 0, 0));
  }

  // ----- the loop -----

  lemma LoopWalks(x: Session, x': Session)
    requires x'.channel == x.channel && x'.seen == x.seen && x'.queue == x.queue
    requires x'.loop.gapId == 0 || (x'.loop.gapId == x.loop.gapId && x'.loop.lowerBound == x.loop.lowerBound &&
                                    (x.oldest.Some? ==> x'.oldest == x.oldest))
    ensures SameWalk(x, x')
  {
    hide Shaped;
  }

  lemma EnterCalm(env: Env, st: State, s: SessionId)
    requires s in st.sessions
    ensures Calm(st, EnterLatestPhase(env, st, s)) && s in EnterLatestPhase(env, st, s).sessions
  {
    hide Calm, SameWalk;
    var st' := EnterLatestPhase(env, st, s);
    LoopWalks(st.sessions[s], st'.sessions[s]);
    OneWalksOn(st, st', s, st'.sessions[s]);
  }

  lemma SendDeferredCalm(env: Env, st: State, s: SessionId)
    requires s in st.sessions
    ensures Calm(st, SendDeferredLatest(env, st, s))
  {
    hide RequestFrom, EnterLatestPhase, LatestReference, WantsLatest, Calm;
    Still(st);
    EnterCalm(env, st, s);
    var st1 := EnterLatestPhase(env, st, s);
    var st2 := RequestFrom(st1, s, Latest, LatestReference(st1.sessions[s]), env.lines);
    RequestCalm(st1, s, Latest, LatestReference(st1.sessions[s]), env.lines);
    CalmThen(st, st1, st2);
    NothingMoves(st2, st2.(latestPending := st2.latestPending + 1));
    CalmThen(st, st2, st2.(latestPending := st2.latestPending + 1));
  }

  lemma {:induction false} SendAllCalm(env: Env, st: State, ids: seq<SessionId>)
    ensures Calm(st, SendAll(env, st, ids))
    decreases |ids|
  {
    hide SendDeferredLatest, Calm;
    Still(st);
    if ids != [] {
      var st1 := if ids[0] in st.sessions then SendDeferredLatest(env, st, ids[0]) else st;
      if ids[0] in st.sessions {
        SendDeferredCalm(env, st, ids[0]);
      }
      SendAllCalm(env, st1, ids[1..]);
      CalmThen(st, st1, SendAll(env, st, ids));
    }
  }

  lemma FanOutCalm(env: Env, st: State)
    ensures Calm(st, FanOut(env, st))
  {
    hide SendAll, Calm;
    Still(st);
    var st1 := st.(latestPending := 0);
    NothingMoves(st, st1);
    SendAllCalm(env, st1, FanOutOrder(st));
    CalmThen(st, st1, SendAll(env, st1, FanOutOrder(st)));
  }

  lemma FinishCatchupCalm(st: State, s: SessionId)
    requires s in st.sessions
    ensures Calm(st, FinishCatchup(st, s)) && s in FinishCatchup(st, s).sessions
  {
    hide Calm, SameWalk;
    var st' := FinishCatchup(st, s);
    LoopWalks(st.sessions[s], st'.sessions[s]);
    OneWalksOn(st, st', s, st'.sessions[s]);
  }

  lemma StartBeforeCalm(st: State, t: SessionId)
    requires t in st.sessions
    ensures Calm(st, StartBefore(st, t))
  {
    hide RequestFrom, FinishCatchup, Calm, SameWalk;
    var sess := st.sessions[t];
    var st1 := PutLoop(st.(beforeSess := Some(t)), t, sess.loop.(isBefore := true));
    LoopWalks(sess, st1.sessions[t]);
    OneWalksOn(st, st1, t, st1.sessions[t]);
    if HasText(sess.oldest) {
      RequestCalm(st1, t, Before, Some(Msgid(sess.oldest.value)), BEFORE_LIMIT);
      CalmThen(st, st1, StartBefore(st, t));
    } else {
      var st2 := FinishCatchup(st1, t);
      FinishCatchupCalm(st1, t);
      CalmThen(st, st1, st2);
      NothingMoves(st2, st2.(beforeSess := None));
      CalmThen(st, st2, st2.(beforeSess := None));
    }
  }

  lemma CheckBeforeCalm(env: Env, st: State)
    ensures Calm(st, CheckBefore(env, st))
  {
    hide StartBefore, PickBefore, BeforeBusy, Calm;
    Still(st);
    NothingMoves(st, st.(beforeSess := None));
    var t := PickBefore(env, st);
    if t.Some? && t.value in st.sessions {
      StartBeforeCalm(st, t.value);
    }
  }

  lemma AtZeroCalm(env: Env, st: State)
    ensures Calm(st, CheckBeforeAtZero(env, st))
  {
    hide CheckBefore, Calm;
    Still(st);
    CheckBeforeCalm(env, st);
  }

  lemma ReturnSlotCalm(st: State, owned: bool)
    ensures Calm(st, ReturnSlot(st, owned))
    ensures ReturnSlot(st, owned) == st.(latestPending := ReturnSlot(st, owned).latestPending)
  {
    hide Calm;
    NothingMoves(st, ReturnSlot(st, owned));
  }

  lemma ReturnAtZeroCalm(env: Env, st: State, owned: bool)
    ensures Calm(st, CheckBeforeAtZero(env, ReturnSlot(st, owned)))
  {
    hide CheckBeforeAtZero, ReturnSlot, Calm;
    ReturnSlotCalm(st, owned);
    AtZeroCalm(env, ReturnSlot(st, owned));
    CalmThen(st, ReturnSlot(st, owned), CheckBeforeAtZero(env, ReturnSlot(st, owned)));
  }

  lemma EndWalkCalm(env: Env, st: State, s: SessionId)
    requires s in st.sessions
    ensures Calm(st, CheckBefore(env, FinishCatchup(st, s)))
  {
    hide CheckBefore, FinishCatchup, Calm;
    FinishCatchupCalm(st, s);
    CheckBeforeCalm(env, FinishCatchup(st, s));
    CalmThen(st, FinishCatchup(st, s), CheckBefore(env, FinishCatchup(st, s)));
  }

  lemma MarkedCalm(st: State, s: SessionId, when: bool)
    requires s in st.sessions
    ensures Calm(st, MarkExhausted(st, s, when)) && s in MarkExhausted(st, s, when).sessions
  {
    hide Calm, SameWalk;
    var st' := MarkExhausted(st, s, when);
    Still(st);
    LoopWalks(st.sessions[s], st.sessions[s].(exhausted := true));
    OneWalksOn(st, Put(st, s, st.sessions[s].(exhausted := true)), s, st.sessions[s].(exhausted := true));
  }

  /** However the loop goes on after a page, the rows stay where the page left them. */
  lemma VerdictCalm(env: Env, st: State, s: SessionId, msgCount: nat, verdict: Verdict)
    requires s in st.sessions
    ensures Calm(st, ApplyVerdict(env, st, s, msgCount, verdict))
  {
    hide CheckBefore, FinishCatchup, Calm, SameWalk;
    var sess := st.sessions[s];
    match verdict {
      case Continue =>
        var x := sess.(loop := sess.loop.(stale := if msgCount == 0 then sess.loop.stale + 1 else 0));
        LoopWalks(sess, x);
        OneWalksOn(st, ApplyVerdict(env, st, s, msgCount, verdict), s, x);
      case Stale =>
        var st1 := Put(st, s, sess.(exhausted := true));
        LoopWalks(sess, sess.(exhausted := true));
        OneWalksOn(st, st1, s, sess.(exhausted := true));
        EndWalkCalm(env, st1, s);
        CalmThen(st, st1, CheckBefore(env, FinishCatchup(st1, s)));
      case _ => EndWalkCalm(env, st, s);
    }
  }

  // ----- what moves no row at all -----

  lemma CheckKeepsRows(env: Env, st: State)
    ensures CheckBefore(env, st).gaps == st.gaps
  {
    hide PickBefore;
    var t := PickBefore(env, st);
    if t.Some? && t.value in st.sessions {
      StartKeepsRows(st, t.value);
    }
  }

  lemma StartKeepsRows(st: State, t: SessionId)
    requires t in st.sessions
    ensures StartBefore(st, t).gaps == st.gaps
  {
    hide RequestFrom, FinishCatchup;
    var sess := st.sessions[t];
    var st1 := PutLoop(st.(beforeSess := Some(t)), t, sess.loop.(isBefore := true));
    FinishKeepsRows(st1, t);
    if HasText(sess.oldest) {
      RequestKeepsRows(st1, t, Before, Some(Msgid(sess.oldest.value)), BEFORE_LIMIT);
    }
  }

  lemma FinishKeepsRows(st: State, s: SessionId)
    requires s in st.sessions
    ensures FinishCatchup(st, s).gaps == st.gaps
  {
  }

  lemma RequestKeepsRows(st: State, s: SessionId, kind: Kind, reference: Option<Reference>, limit: int)
    requires s in st.sessions
    ensures RequestFrom(st, s, kind, reference, limit).gaps == st.gaps
  {
    hide Submit;
  }

  lemma VerdictKeepsRows(env: Env, st: State, s: SessionId, msgCount: nat, verdict: Verdict)
    requires s in st.sessions
    ensures ApplyVerdict(env, st, s, msgCount, verdict).gaps == st.gaps
  {
    hide CheckBefore;
    var done := Put(st, s, st.sessions[s].(exhausted := true));
    CheckKeepsRows(env, FinishCatchup(st, s));
    CheckKeepsRows(env, FinishCatchup(done, s));
  }

  // ----- batches -----

  lemma ForgetCalm(st: State, c: ChunkId)
    requires c in st.chunks
    ensures Calm(st, ForgetChunk(st, c))
  {
    hide Shaped;
  }

  lemma AdoptCalm(env: Env, st: State, s: SessionId)
    requires s in st.sessions
    ensures Calm(st, Adopt(env, st, s)) && s in Adopt(env, st, s).sessions
  {
    hide Calm, EnterLatestPhase;
    EnterCalm(env, st, s);
    var st1 := EnterLatestPhase(env, st, s);
    NothingMoves(st1, Adopt(env, st, s));
    CalmThen(st, st1, Adopt(env, st, s));
  }

  lemma AnsweredCalm(st: State, s: SessionId)
    requires s in st.sessions
    ensures Calm(st, Answered(st, s)) && s in Answered(st, s).sessions
  {
    hide Calm, SameWalk;
    LoopWalks(st.sessions[s], Answered(st, s).sessions[s]);
    OneWalksOn(st, Answered(st, s), s, Answered(st, s).sessions[s]);
  }

  // ----- rows changed in place -----

  lemma {:induction false} UpdateInPlace(gaps: seq<G.Gap>, id: int, f: G.Gap -> G.Gap)
    requires forall g: G.Gap :: SameBounds(g, f(g))
    ensures InPlace(gaps, G.Update(gaps, id, f))
  {
    if gaps != [] {
      UpdateInPlace(gaps[1..], id, f);
      var a, b := gaps[1..], G.Update(gaps[1..], id, f);
      forall i | 0 <= i < |gaps| ensures SameBounds(gaps[i], G.Update(gaps, id, f)[i]) {
        if i > 0 {
          assert SameBounds(a[i - 1], b[i - 1]);
        }
      }
    }
  }

  lemma RowsCalm(st: State, gaps: seq<G.Gap>)
    requires InPlace(st.gaps, gaps)
    ensures Calm(st, st.(gaps := gaps))
  {
    hide Shaped, InPlace;
  }

  lemma SetStateCalm(st: State, id: int, state: G.GapState)
    ensures Calm(st, st.(gaps := G.SetState(st.gaps, id, state)))
  {
    UpdateInPlace(st.gaps, id, (g: G.Gap) => g.(state := state));
    RowsCalm(st, G.SetState(st.gaps, id, state));
  }

  lemma TouchCalm(st: State, id: int, now: int)
    ensures Calm(st, st.(gaps := G.Touch(st.gaps, id, now)))
  {
    UpdateInPlace(st.gaps, id, (g: G.Gap) => g.(attempts := g.attempts + 1, lastAttempt := now));
    RowsCalm(st, G.Touch(st.gaps, id, now));
  }

  lemma DropMsgidsCalm(st: State, id: int)
    ensures Calm(st, st.(gaps := G.DropMsgids(st.gaps, id)))
  {
    UpdateInPlace(st.gaps, id, (g: G.Gap) => g.(startMsgid := None, endMsgid := None, attempts := 0, lastAttempt := 0));
    RowsCalm(st, G.DropMsgids(st.gaps, id));
  }

  lemma FillRequestShaped(st: State, env: Env, g: G.Gap, dir: int)
    ensures S.FillShape(FillRequest(st, env, g, dir))
  {
  }

  lemma GapFillCalm(env: Env, st: State, s: SessionId, gapId: int, dir: int)
    requires s in st.sessions
    ensures Calm(st, RequestGapFill(env, st, s, gapId, dir).0)
  {
    hide SubmitRequest, FillRequest, Accepts, G.Touch, Calm;
    Still(st);
    if Fillable(env, st, s, gapId) {
      hide BackedOff;
      assert G.Find(st.gaps, gapId).Some?;
      hide Fillable;
      var req := FillRequest(st, env, G.Find(st.gaps, gapId).value, dir);
      FillRequestShaped(st, env, G.Find(st.gaps, gapId).value, dir);
      var st1 := SubmitRequest(st, s, req);
      SubmitCalm(st, s, req);
      TouchCalm(st1, gapId, env.now);
      CalmThen(st, st1, st1.(gaps := G.Touch(st1.gaps, gapId, env.now)));
    }
  }

  lemma RetryCalm(env: Env, st: State, s: SessionId, gapId: int, dir: int)
    requires s in st.sessions
    ensures Calm(st, RetryFill(env, st, s, gapId, dir).0)
  {
    hide RequestGapFill, G.HasMsgids, G.DropMsgids, Calm;
    Still(st);
    var st1 := st.(gaps := G.DropMsgids(st.gaps, gapId));
    DropMsgidsCalm(st, gapId);
    GapFillCalm(env, st1, s, gapId, dir);
    CalmThen(st, st1, RequestGapFill(env, st1, s, gapId, dir).0);
  }

  lemma EmptyFillCalm(env: Env, st: State, s: SessionId, gapId: int, dir: int)
    requires s in st.sessions
    ensures Calm(st, EmptyFill(env, st, s, gapId, dir))
  {
    hide RetryFill, G.SetState, Calm;
    RetryCalm(env, st, s, gapId, dir);
    var st1 := RetryFill(env, st, s, gapId, dir).0;
    SetStateCalm(st1, gapId, G.Dead);
    CalmThen(st, st1, st1.(gaps := G.SetState(st1.gaps, gapId, G.Dead)));
  }

  lemma EmptyCatchupCalm(env: Env, st: State, s: SessionId, usedMsgid: bool, unsolicited: bool, owned: bool)
    requires s in st.sessions
    ensures Calm(st, EmptyCatchup(env, st, s, usedMsgid, unsolicited, owned))
  {
    hide RequestFrom, CheckBeforeAtZero, ReturnSlot, FinishCatchup, Calm;
    RequestCalm(st, s, Latest, Some(Timestamp(st.sessions[s].sbNewestTime)), env.lines);
    FinishCatchupCalm(st, s);
    ReturnAtZeroCalm(env, FinishCatchup(st, s), owned);
    CalmThen(st, FinishCatchup(st, s), CheckBeforeAtZero(env, ReturnSlot(FinishCatchup(st, s), owned)));
  }

  lemma CompleteKeeps(st: State, s: SessionId)
    requires s in st.sessions
    ensures s in RequestComplete(st, s).sessions
  {
  }

  lemma EmptyBatchCalm(env: Env, st: State, s: SessionId, ended: bool, isCatchup: bool, unsolicited: bool,
                       owned: bool, gapId: int, gapDir: int)
    requires s in st.sessions
    ensures Calm(st, EmptyBatch(env, st, s, ended, isCatchup, unsolicited, owned, gapId, gapDir))
  {
    hide RequestComplete, EmptyFill, EmptyCatchup, MarkExhausted, Calm;
    var usedMsgid := st.sessions[s].queue.usedMsgid;
    var st1 := MarkExhausted(st, s, ended && gapId == 0 && !unsolicited);
    MarkedCalm(st, s, ended && gapId == 0 && !unsolicited);
    CompleteCalm(st1, s);
    CompleteKeeps(st1, s);
    var st2 := if unsolicited then st1 else RequestComplete(st1, s);
    CalmThen(st, st1, RequestComplete(st1, s));
    EmptyFillCalm(env, st2, s, gapId, gapDir);
    EmptyCatchupCalm(env, st2, s, usedMsgid, unsolicited, owned);
    MarkedCalm(st2, s, !unsolicited);
    CalmThen(st, st2, EmptyBatch(env, st, s, ended, isCatchup, unsolicited, owned, gapId, gapDir));
  }

  lemma EmptyArrivesCalm(env: Env, st: State, s: SessionId, nested: bool, ended: bool)
    requires s in st.sessions
    ensures Calm(st, ProcessBatch(env, st, s, nested, [], ended))
  {
    hide Adopt, Adoptable, EmptyBatch, StartBatch, NewChunk, Calm;
    var sess := st.sessions[s];
    var active := sess.queue.active;
    var gapId := if active.Some? && !nested then active.value.gapId else 0;
    var gapDir := if active.Some? && !nested then active.value.gapDir else 0;
    var unsolicited := Unsolicited(sess, nested);
    var adopted := unsolicited && Adoptable(env, st, sess);
    Still(st);
    AdoptCalm(env, st, s);
    var st1 := if adopted then Adopt(env, st, s) else st;
    var isCatchup := if unsolicited then adopted else sess.loop.inProgress && gapId == 0;
    EmptyBatchCalm(env, st1, s, ended, isCatchup, unsolicited, adopted || !unsolicited, gapId, gapDir);
    CalmThen(st, st1, ProcessBatch(env, st, s, nested, [], ended));
  }

  // ----- FAIL -----

  lemma FailedFillCalm(env: Env, st: State, s: SessionId, gapId: int, dir: int, latched: bool)
    requires s in st.sessions
    ensures Calm(st, FailedFill(env, st, s, gapId, dir, latched))
  {
    hide RetryFill, G.SetState, Calm;
    Still(st);
    RetryCalm(env, st, s, gapId, dir);
    var st1 := if latched then st else RetryFill(env, st, s, gapId, dir).0;
    SetStateCalm(st1, gapId, G.Dead);
    CalmThen(st, st1, st1.(gaps := G.SetState(st1.gaps, gapId, G.Dead)));
  }

  lemma FailedCatchupCalm(env: Env, st: State, s: SessionId, usedMsgid: bool, wasLatest: bool)
    requires s in st.sessions
    ensures Calm(st, FailedCatchup(env, st, s, usedMsgid, wasLatest))
  {
    hide RequestFrom, CheckBeforeAtZero, ReturnSlot, FinishCatchup, Calm;
    RequestCalm(st, s, Latest, Some(Timestamp(st.sessions[s].sbNewestTime)), env.lines);
    var st1 := ReturnSlot(st, wasLatest);
    ReturnSlotCalm(st, wasLatest);
    FinishCatchupCalm(st1, s);
    CalmThen(st, st1, FinishCatchup(st1, s));
    AtZeroCalm(env, FinishCatchup(st1, s));
    CalmThen(st, FinishCatchup(st1, s), CheckBeforeAtZero(env, FinishCatchup(st1, s)));
  }

  lemma FailCalm(env: Env, st: State, s: SessionId, badCommand: bool)
    requires s in st.sessions
    ensures Calm(st, HandleFail(env, st, s, badCommand))
  {
    hide RequestComplete, FailedFill, FailedCatchup, Calm;
    var sess := st.sessions[s];
    var active := sess.queue.active;
    var gapId := if active.Some? then active.value.gapId else 0;
    var gapDir := if active.Some? then active.value.gapDir else 0;
    var st0 := NoteFail(st, s, badCommand);
    NothingMoves(st, st0);
    CompleteCalm(st0, s);
    CompleteKeeps(st0, s);
    var st1 := RequestComplete(st0, s);
    CalmThen(st, st0, st1);
    FailedFillCalm(env, st1, s, gapId, gapDir, LatchesBetween(sess, badCommand));
    FailedCatchupCalm(env, st1, s, sess.queue.usedMsgid, sess.loop.inProgress && !sess.loop.isBefore);
    Still(st1);
    CalmThen(st, st1, HandleFail(env, st, s, badCommand));
  }

  // ----- the user -----

  lemma CancelCalm(st: State, s: SessionId)
    requires s in st.sessions
    ensures Calm(st, CancelCatchup(st, s))
  {
    hide Calm;
    OneWalksOn(st, CancelCatchup(st, s), s, CancelCatchup(st, s).sessions[s]);
  }

  lemma StartCatchupCalm(env: Env, st: State, s: SessionId)
    requires s in st.sessions
    ensures Calm(st, StartCatchup(env, st, s))
  {
    hide RequestFrom, LatestReference, Calm, SameWalk;
    Still(st);
    var sess := st.sessions[s];
    var st1 := PutLoop(st, s, sess.loop.(inProgress := true));
    LoopWalks(sess, st1.sessions[s]);
    OneWalksOn(st, st1, s, st1.sessions[s]);
    RequestCalm(st1, s, Latest, LatestReference(sess), env.lines);
    CalmThen(st, st1, RequestFrom(st1, s, Latest, LatestReference(sess), env.lines));
  }

  lemma OlderCalm(env: Env, st: State, s: SessionId)
    requires s in st.sessions
    ensures Calm(st, RequestOlder(env, st, s))
  {
    hide SubmitRequest, Calm;
    Still(st);
    var sess := st.sessions[s];
    var cursor := if HasText(sess.oldest) then sess.oldest else sess.sbOldest;
    if HasText(cursor) {
      SubmitCalm(st, s, Request(Before, Some(Msgid(cursor.value)), None, env.lines, USER, true, 0, 0));
    }
  }

  lemma BackgroundCalm(env: Env, st: State, s: SessionId)
    requires s in st.sessions
    ensures Calm(st, BackgroundTimer(env, st, s))
  {
    hide RequestFrom, Calm, SameWalk;
    Still(st);
    var x := st.sessions[s].(background := false);
    LoopWalks(st.sessions[s], x);
    OneWalksOn(st, Put(st, s, x), s, x);
    if HasText(st.sessions[s].oldest) {
      RequestCalm(st, s, Before, Some(Msgid(st.sessions[s].oldest.value)), env.lines);
    }
  }

  lemma GoneCalm(st: State, c: ChunkId)
    requires c in st.chunks
    ensures c in ReleaseSlot(st, st.chunks[c]).chunks
    ensures Calm(st, ForgetChunk(ReleaseSlot(st, st.chunks[c]), c))
  {
    hide ForgetChunk, Calm, ReturnSlot;
    ReturnSlotCalm(st, st.chunks[c].slotOwed);
    var st1 := ReleaseSlot(st, st.chunks[c]);
    ForgetCalm(st1, c);
    CalmThen(st, st1, ForgetChunk(st1, c));
  }

  lemma CloseCalm(st: State, s: SessionId, next: Option<SessionId>)
    requires s in st.sessions
    ensures Calm(st, CloseSession(st, s, next))
  {
    hide Calm, ForgetChunk, ReleaseSlot;
    var st1 := AbandonChunk(st, s);
    var c := st.sessions[s].chunk;
    Still(st);
    if c.Some? && c.value in st.chunks {
      GoneCalm(st, c.value);
    }
    RemovedCalm(st1, CloseSession(st, s, next), s);
    CalmThen(st, st1, CloseSession(st, s, next));
  }

  lemma RemovedCalm(st: State, st': State, s: SessionId)
    requires st'.sessions == st.sessions - {s} && st'.gaps == st.gaps
    requires st'.chunks == st.chunks && st'.nextChunk == st.nextChunk
    ensures Calm(st, st')
  {
    hide Shaped;
  }

  // ----- all of them -----

  /** Events that bring no messages. */
  predicate Wordless(st: State, e: Event) {
    !e.Open? && !e.Tick? && ((e.Reply? || e.Unasked? || e.Replay?) ==> e.msgs == [] || e.s !in st.sessions)
  }

  lemma EmptyEventCalm(env: Env, st: State, e: Event)
    requires (e.Reply? || e.Unasked? || e.Replay?) && (e.msgs == [] || e.s !in st.sessions)
    ensures Calm(st, Step(env, st, e))
  {
    hide ProcessBatch, Calm;
    Still(st);
    if e.s in st.sessions {
      EmptyArrivesCalm(env, st, e.s, e.Replay?, e.ended);
      AnsweredCalm(st, e.s);
      EmptyArrivesCalm(env, Answered(st, e.s), e.s, false, e.ended);
      CalmThen(st, Answered(st, e.s), ProcessBatch(env, Answered(st, e.s), e.s, false, [], e.ended));
    }
  }

  lemma FailEventCalm(env: Env, st: State, e: Event)
    requires e.Fail?
    ensures Calm(st, Step(env, st, e))
  {
    hide HandleFail, FailTarget, Calm;
    Still(st);
    var s := FailTarget(st, e.context);
    if s.Some? && s.value in st.sessions {
      AnsweredCalm(st, s.value);
      FailCalm(env, Answered(st, s.value), s.value, e.badCommand);
      CalmThen(st, Answered(st, s.value), HandleFail(env, Answered(st, s.value), s.value, e.badCommand));
    }
  }

  lemma TimerCalm(env: Env, st: State, e: Event)
    requires e.BeforeTimer? || e.TabSwitch? || e.WrapperEnd? || e.FanOutTimer?
    ensures Calm(st, Step(env, st, e))
  {
    hide CheckBefore, FanOut, CheckBeforeAtZero, Calm;
    Still(st);
    match e
    case FanOutTimer => FanOutCalm(env, st);
    case WrapperEnd => AtZeroCalm(env, st);
    case BeforeTimer =>
      var st1 := st.(beforeTimer := false);
      NothingMoves(st, st1);
      CheckBeforeCalm(env, st1);
      CalmThen(st, st1, CheckBefore(env, st1));
    case TabSwitch(to) =>
      var st1 := st.(current := Some(to));
      NothingMoves(st, st1);
      CheckBeforeCalm(env, st1);
      CalmThen(st, st1, CheckBefore(env, st1));
  }

  lemma UserCalm(env: Env, st: State, e: Event)
    requires e.ScrollUp? || e.FillGap? || e.Background?
    ensures Calm(st, Step(env, st, e))
  {
    hide RequestOlder, RequestGapFill, BackgroundTimer, Calm;
    Still(st);
    if e.s in st.sessions {
      match e
      case ScrollUp(s) => OlderCalm(env, st, s);
      case FillGap(s, gapId, dir) => GapFillCalm(env, st, s, gapId, dir);
      case Background(s) => BackgroundCalm(env, st, s);
    }
  }

  lemma SessionCalm(env: Env, st: State, e: Event)
    requires e.Close? || e.Part? || e.TargetsEntry?
    ensures Calm(st, Step(env, st, e))
  {
    hide CancelCatchup, StartCatchup, CloseSession, Calm;
    Still(st);
    if e.s in st.sessions {
      match e
      case Close(s, next) => CloseCalm(st, s, next);
      case Part(s) => CancelCalm(st, s);
      case TargetsEntry(s) => StartCatchupCalm(env, st, s);
    }
  }

  /** Every event that brings no messages leaves rows and walks alone. */
  lemma WordlessCalm(env: Env, st: State, e: Event)
    requires Wordless(st, e)
    ensures Calm(st, Step(env, st, e))
  {
    hide Step, Calm;
    match e
    case Reply(_, _, _) => EmptyEventCalm(env, st, e);
    case Unasked(_, _, _) => EmptyEventCalm(env, st, e);
    case Replay(_, _, _) => EmptyEventCalm(env, st, e);
    case Fail(_, _) => FailEventCalm(env, st, e);
    case FanOutTimer => TimerCalm(env, st, e);
    case BeforeTimer => TimerCalm(env, st, e);
    case TabSwitch(_) => TimerCalm(env, st, e);
    case WrapperEnd => TimerCalm(env, st, e);
    case Close(_, _) => SessionCalm(env, st, e);
    case Part(_) => SessionCalm(env, st, e);
    case TargetsEntry(_) => SessionCalm(env, st, e);
    case _ => UserCalm(env, st, e);
  }
}
