/**
 A session whose history is known to its end is left alone: no event but the
 user's wish to fill a hole sends another BEFORE for it.
 */
module CatchUpResting {
  import opened Wrappers
  import opened RequestQueue
  import opened CatchUp
  import B = CatchUpBound
  import R = CatchUpReplay
  import D = Dedup
  import G = GapLedger

  /** No fill is under way or waiting, and no BEFORE is waiting. */
  predicate AtRest(q: Queue) {
    (q.active.Some? ==> q.active.value.gapId <= 0) &&
    (q.pending.Some? ==> q.pending.value.gapId <= 0 && q.pending.value.kind != Before)
  }

  /** The end of the history is known, and nothing is left to be paged. */
  predicate Settled(x: Session) {
    x.exhausted && AtRest(x.queue)
  }

  predicate QueueRests(q: Queue, q': Queue) {
    AtRest(q) ==> AtRest(q') && B.Befores(q'.sent) == B.Befores(q.sent)
  }

  /** A settled session stays so, without another BEFORE. */
  predicate Rests(x: Session, x': Session) {
    Settled(x) ==> Settled(x') && B.Befores(x'.queue.sent) == B.Befores(x.queue.sent)
  }

  predicate Resting(st: State, st': State) {
    st'.sessions.Keys == st.sessions.Keys && forall s <- st.sessions :: Rests(st.sessions[s], st'.sessions[s])
  }

  lemma RestingThen(a: State, b: State, c: State)
    requires Resting(a, b) && Resting(b, c)
    ensures Resting(a, c)
  {
    hide Settled, B.Befores;
  }

  lemma SameRests(st: State, st': State)
    requires st'.sessions == st.sessions
    ensures Resting(st, st')
  {
  }

  /** Only session `t` changes. */
  predicate OnlyAt(st: State, st': State, t: SessionId) {
    t in st.sessions && st'.sessions.Keys == st.sessions.Keys &&
    forall s <- st.sessions | s != t :: st'.sessions[s] == st.sessions[s]
  }

  lemma OneRests(st: State, st': State, t: SessionId)
    requires OnlyAt(st, st', t) && Rests(st.sessions[t], st'.sessions[t])
    ensures Resting(st, st')
  {
    hide Settled, B.Befores;
  }

  // ----- the queue -----

  lemma SubmitRests(q: Queue, req: Request, canSend: bool)
    requires req.kind != Before && req.gapId <= 0
    ensures QueueRests(q, Submit(q, req, canSend))
  {
    B.BeforesAppend(q.sent, req);
  }

  lemma CompleteRests(q: Queue, canSend: bool)
    ensures QueueRests(q, Complete(q, canSend))
  {
    if q.pending.Some? {
      B.BeforesAppend(q.sent, q.pending.value);
    }
  }

  lemma DropRests(q: Queue)
    ensures QueueRests(q, Drop(q))
  {
  }

  // ----- requests -----

  lemma RequestRests(st: State, t: SessionId, kind: Kind, reference: Option<Reference>, limit: int)
    requires t in st.sessions && kind != Before
    ensures Resting(st, RequestFrom(st, t, kind, reference, limit))
  {
    hide Submit, AtRest;
    var x := st.sessions[t];
    var st' := RequestFrom(st, t, kind, reference, limit);
    if st' != st {
      var byMsgid := reference.Some? && reference.value.Msgid? && kind != Around;
      SubmitRests(x.queue, Request(kind, reference, None, limit, InferPriority(x), byMsgid, 0, 0), CanSend(st, t));
      OneRests(st, st', t);
    }
  }

  lemma RequestOnlyAt(st: State, t: SessionId, kind: Kind, reference: Option<Reference>, limit: int)
    requires t in st.sessions
    ensures OnlyAt(st, RequestFrom(st, t, kind, reference, limit), t)
  {
    hide Submit;
  }

  lemma CompleteAtRests(st: State, t: SessionId)
    requires t in st.sessions
    ensures Resting(st, RequestComplete(st, t)) && OnlyAt(st, RequestComplete(st, t), t)
  {
    hide Complete, AtRest;
    CompleteRests(st.sessions[t].queue, CanSend(st, t));
    OneRests(st, RequestComplete(st, t), t);
  }

  lemma FinishRests(st: State, t: SessionId)
    requires t in st.sessions
    ensures Resting(st, FinishCatchup(st, t)) && OnlyAt(st, FinishCatchup(st, t), t)
  {
    OneRests(st, FinishCatchup(st, t), t);
  }

  lemma EnterRests(env: Env, st: State, t: SessionId)
    requires t in st.sessions
    ensures Resting(st, EnterLatestPhase(env, st, t))
  {
    OneRests(st, EnterLatestPhase(env, st, t), t);
  }

  lemma DeferredRests(env: Env, st: State, t: SessionId)
    requires t in st.sessions
    ensures Resting(st, SendDeferredLatest(env, st, t))
  {
    hide EnterLatestPhase, RequestFrom, Settled;
    SameRests(st, st);
    if WantsLatest(st.sessions[t]) {
      EnterRests(env, st, t);
      var st1 := EnterLatestPhase(env, st, t);
      RequestRests(st1, t, Latest, LatestReference(st1.sessions[t]), env.lines);
      RestingThen(st, st1, RequestFrom(st1, t, Latest, LatestReference(st1.sessions[t]), env.lines));
    }
  }

  lemma {:induction false} SendAllRests(env: Env, st: State, ids: seq<SessionId>)
    ensures Resting(st, SendAll(env, st, ids))
    decreases |ids|
  {
    hide SendDeferredLatest, Rests;
    SameRests(st, st);
    if ids != [] {
      var st1 := if ids[0] in st.sessions then SendDeferredLatest(env, st, ids[0]) else st;
      if ids[0] in st.sessions {
        DeferredRests(env, st, ids[0]);
      }
      SendAllRests(env, st1, ids[1..]);
      RestingThen(st, st1, SendAll(env, st1, ids[1..]));
    }
  }

  // ----- the BEFORE phase -----

  lemma PagingRests(env: Env, st: State)
    ensures Resting(st, CheckBefore(env, st))
  {
    hide StartBefore, B.Befores, AtRest;
    SameRests(st, CheckBefore(env, st).(sessions := st.sessions));
    PickedNeeds(env, st);
    var t := PickBefore(env, st);
    if t.Some? {
      StartOnlyAt(st, t.value);
      OneRests(st, StartBefore(st, t.value), t.value);
    }
  }

  lemma StartOnlyAt(st: State, t: SessionId)
    requires NeedsBefore(st, t)
    ensures OnlyAt(st, StartBefore(st, t), t)
  {
    hide RequestFrom, FinishCatchup;
    var st1 := PutLoop(st.(beforeSess := Some(t)), t, st.sessions[t].loop.(isBefore := true));
    FinishRests(st1, t);
    if HasText(st.sessions[t].oldest) {
      RequestOnlyAt(st1, t, Before, Some(Msgid(st.sessions[t].oldest.value)), BEFORE_LIMIT);
    }
  }

  lemma AtZeroRests(env: Env, st: State)
    ensures Resting(st, CheckBeforeAtZero(env, st))
  {
    hide CheckBefore, Rests;
    SameRests(st, st);
    PagingRests(env, st);
  }

  /** A change that rests, a slot given back, and a look at who is next. */
  lemma ThenAtZero(env: Env, a: State, b: State, owned: bool)
    requires Resting(a, b)
    ensures Resting(a, CheckBeforeAtZero(env, ReturnSlot(b, owned)))
  {
    var c := ReturnSlot(b, owned);
    SameRests(b, c);
    hide CheckBeforeAtZero, Rests, ReturnSlot;
    AtZeroRests(env, c);
    RestingThen(a, b, c);
    RestingThen(a, c, CheckBeforeAtZero(env, c));
  }

  // ----- a batch is finished -----

  lemma NotedRests(st: State, ch: Chunk)
    requires ch.sess in st.sessions
    ensures Resting(st, Noted(st, ch)) && Noted(st, ch).sessions.Keys == st.sessions.Keys
  {
    hide Complete, AtRest;
    CompleteRests(st.sessions[ch.sess].queue, CanSend(st, ch.sess));
    OneRests(st, Noted(st, ch), ch.sess);
  }

  lemma VerdictRests(env: Env, st: State, t: SessionId, msgCount: nat, verdict: Verdict)
    requires t in st.sessions
    ensures Resting(st, ApplyVerdict(env, st, t, msgCount, verdict))
  {
    hide CheckBefore, FinishCatchup, AtRest, B.Befores;
    var st1 := if verdict == Stale then Put(st, t, st.sessions[t].(exhausted := true)) else st;
    OneRests(st, st1, t);
    if verdict == Continue {
      OneRests(st, ApplyVerdict(env, st, t, msgCount, verdict), t);
    } else {
      FinishRests(st1, t);
      PagingRests(env, FinishCatchup(st1, t));
      RestingThen(st, st1, FinishCatchup(st1, t));
      RestingThen(st, FinishCatchup(st1, t), CheckBefore(env, FinishCatchup(st1, t)));
    }
  }

  lemma PageRests(env: Env, st: State, ch: Chunk)
    requires ch.sess in st.sessions
    ensures Resting(st, FinishBefore(env, st, ch))
  {
    hide JudgePage, RowAfterPage, ApplyVerdict, AtRest, B.Befores;
    var x := CountPage(st.sessions[ch.sess], ch);
    var verdict := JudgePage(env, x, ch);
    var st1 := Put(st, ch.sess, x).(gaps := RowAfterPage(st.gaps, x.loop.gapId, ch, verdict));
    OneRests(st, st1, ch.sess);
    VerdictRests(env, st1, ch.sess, ch.msgCount, verdict);
    RestingThen(st, st1, ApplyVerdict(env, st1, ch.sess, ch.msgCount, verdict));
  }

  lemma LatestRests(env: Env, st: State, ch: Chunk)
    requires ch.sess in st.sessions
    ensures Resting(st, FinishLatest(env, st, ch))
  {
    hide Witnessed, CheckBeforeAtZero, ReturnSlot, AtRest, B.Befores;
    var st1 := WitnessHole(env, st, ch);
    OneRests(st, st1, ch.sess);
    ThenAtZero(env, st, st1, ch.latestOwned);
  }

  lemma PlainRests(env: Env, st: State, ch: Chunk)
    requires ch.sess in st.sessions
    ensures Resting(st, FinishPlain(env, st, ch))
  {
    hide BackgroundGoesOn, G.FillReply, EffectiveLimit;
    OneRests(st, FinishPlain(env, st, ch), ch.sess);
  }

  lemma BatchRests(env: Env, st: State, ch: Chunk)
    requires ch.sess in st.sessions
    ensures Resting(st, FinishBatch(env, st, ch))
  {
    NotedRests(st, ch);
    hide Noted, FinishPlain, FinishBefore, FinishLatest, Rests;
    var st1 := Noted(st, ch);
    if !ch.isCatchup {
      PlainRests(env, st1, ch);
    } else if st1.sessions[ch.sess].loop.isBefore {
      PageRests(env, st1, ch);
    } else {
      LatestRests(env, st1, ch);
    }
    RestingThen(st, st1, FinishBatch(env, st, ch));
  }

  // ----- a batch is worked off -----

  lemma TakenRests(st: State, ch: Chunk)
    requires ch.sess in st.sessions
    ensures var (x, ch') := TakeChunk(st.sessions[ch.sess], ch);
      ch'.sess == ch.sess && Resting(st, Put(st, ch.sess, x))
  {
    hide D.Fold, FirstRemembered;
    var (x, ch') := TakeChunk(st.sessions[ch.sess], ch);
    OneRests(st, Put(st, ch.sess, x), ch.sess);
  }

  lemma ForgetRests(st: State, c: ChunkId)
    requires c in st.chunks
    ensures Resting(st, ForgetChunk(st, c)) && ForgetChunk(st, c).sessions.Keys == st.sessions.Keys
  {
  }

  lemma TickRests(env: Env, st: State, c: ChunkId)
    ensures Resting(st, ChunkTick(env, st, c))
  {
    hide FinishBatch, ForgetChunk, TakeChunk, Rests;
    SameRests(st, st);
    if c in st.chunks {
      var ch := st.chunks[c];
      if ch.sess !in st.sessions {
        GoneRests(st, c);
      } else {
        TakenRests(st, ch);
        var (x, ch') := TakeChunk(st.sessions[ch.sess], ch);
        var st1 := Put(st, ch'.sess, x);
        if ch'.remaining == [] {
          ForgetRests(st1, c);
          BatchRests(env, ForgetChunk(st1, c), ch');
          RestingThen(st, st1, ForgetChunk(st1, c));
          RestingThen(st, ForgetChunk(st1, c), FinishBatch(env, ForgetChunk(st1, c), ch'));
        }
      }
    }
  }

  lemma GoneRests(st: State, c: ChunkId)
    requires c in st.chunks
    ensures var st1 := ReleaseSlot(st, st.chunks[c]); c in st1.chunks && Resting(st, ForgetChunk(st1, c))
  {
    var st1 := ReleaseSlot(st, st.chunks[c]);
    SameRests(st, st1);
    hide ForgetChunk, Rests;
    ForgetRests(st1, c);
    RestingThen(st, st1, ForgetChunk(st1, c));
  }

  lemma StartRests(env: Env, st: State, ch: Chunk)
    requires ch.sess in st.sessions
    ensures Resting(st, StartBatch(env, st, ch))
  {
    hide FinishBatch, TakeChunk, AtRest, B.Befores;
    if ch.rawCount <= D.CHUNK_SIZE {
      TakenRests(st, ch);
      var (x, ch') := TakeChunk(st.sessions[ch.sess], ch);
      var st1 := Put(st, ch.sess, x);
      BatchRests(env, st1, ch');
      RestingThen(st, st1, FinishBatch(env, st1, ch'));
    } else {
      OneRests(st, StartBatch(env, st, ch), ch.sess);
    }
  }

  // ----- gap fills -----

  lemma OnlyAtThen(a: State, b: State, c: State, t: SessionId)
    requires OnlyAt(a, b, t) && OnlyAt(b, c, t)
    ensures OnlyAt(a, c, t)
  {
  }

  lemma FillOnlyAt(env: Env, st: State, t: SessionId, gapId: int, dir: int)
    requires t in st.sessions
    ensures OnlyAt(st, RequestGapFill(env, st, t, gapId, dir).0, t)
  {
    hide Submit, Fillable, FillRequest, G.Touch, Accepts;
  }

  lemma RetryOnlyAt(env: Env, st: State, t: SessionId, gapId: int, dir: int)
    requires t in st.sessions
    ensures OnlyAt(st, RetryFill(env, st, t, gapId, dir).0, t)
  {
    hide RequestGapFill, G.DropMsgids, G.HasMsgids;
    var st1 := st.(gaps := G.DropMsgids(st.gaps, gapId));
    FillOnlyAt(env, st1, t, gapId, dir);
    OnlyAtThen(st, st1, RequestGapFill(env, st1, t, gapId, dir).0, t);
  }

  lemma EmptyFillOnlyAt(env: Env, st: State, t: SessionId, gapId: int, dir: int)
    requires t in st.sessions
    ensures OnlyAt(st, EmptyFill(env, st, t, gapId, dir), t)
  {
    hide RetryFill, G.SetState;
    RetryOnlyAt(env, st, t, gapId, dir);
  }

  lemma FailedFillOnlyAt(env: Env, st: State, t: SessionId, gapId: int, dir: int, latched: bool)
    requires t in st.sessions
    ensures OnlyAt(st, FailedFill(env, st, t, gapId, dir, latched), t)
  {
    hide RetryFill, G.SetState;
    RetryOnlyAt(env, st, t, gapId, dir);
  }

  /** A session with a fill under way is not settled, and no other one is touched. */
  lemma FillRests(st: State, st': State, t: SessionId)
    requires OnlyAt(st, st', t)
    requires st.sessions[t].queue.active.Some? && st.sessions[t].queue.active.value.gapId > 0
    ensures Resting(st, st')
  {
    OneRests(st, st', t);
  }

  // ----- an empty batch, a FAIL -----

  lemma MarkRests(st: State, t: SessionId, when: bool)
    requires t in st.sessions
    ensures Resting(st, MarkExhausted(st, t, when)) && OnlyAt(st, MarkExhausted(st, t, when), t)
  {
    OneRests(st, MarkExhausted(st, t, when), t);
  }

  lemma EmptyCatchupRests(env: Env, st: State, t: SessionId, usedMsgid: bool, unsolicited: bool, owned: bool)
    requires t in st.sessions
    ensures Resting(st, EmptyCatchup(env, st, t, usedMsgid, unsolicited, owned))
  {
    hide RequestFrom, FinishCatchup, CheckBeforeAtZero, ReturnSlot, Rests;
    RequestRests(st, t, Latest, Some(Timestamp(st.sessions[t].sbNewestTime)), env.lines);
    FinishRests(st, t);
    ThenAtZero(env, st, FinishCatchup(st, t), owned);
  }

  /** The request is retired and the flag set, as the empty batch says. */
  function Retired(st: State, t: SessionId, ended: bool, unsolicited: bool): State
    requires t in st.sessions
  {
    var st1 := MarkExhausted(st, t, ended);
    if unsolicited then st1 else RequestComplete(st1, t)
  }

  lemma RetiredRests(st: State, t: SessionId, ended: bool, unsolicited: bool)
    requires t in st.sessions
    ensures Resting(st, Retired(st, t, ended, unsolicited)) && OnlyAt(st, Retired(st, t, ended, unsolicited), t)
  {
    hide RequestComplete, MarkExhausted, Rests;
    var st1 := MarkExhausted(st, t, ended);
    MarkRests(st, t, ended);
    if !unsolicited {
      CompleteAtRests(st1, t);
      RestingThen(st, st1, RequestComplete(st1, t));
      OnlyAtThen(st, st1, RequestComplete(st1, t), t);
    }
  }

  lemma EmptyRests(env: Env, st: State, t: SessionId, ended: bool, isCatchup: bool, unsolicited: bool,
                   owned: bool, gapId: int, gapDir: int)
    requires t in st.sessions
    requires gapId > 0 ==> st.sessions[t].queue.active.Some? && st.sessions[t].queue.active.value.gapId == gapId
    ensures Resting(st, EmptyBatch(env, st, t, ended, isCatchup, unsolicited, owned, gapId, gapDir))
  {
    hide EmptyFill, EmptyCatchup, MarkExhausted, RequestComplete, Rests;
    var st2 := Retired(st, t, ended && gapId == 0 && !unsolicited, unsolicited);
    RetiredRests(st, t, ended && gapId == 0 && !unsolicited, unsolicited);
    if gapId > 0 {
      EmptyFillOnlyAt(env, st2, t, gapId, gapDir);
      OnlyAtThen(st, st2, EmptyFill(env, st2, t, gapId, gapDir), t);
      FillRests(st, EmptyFill(env, st2, t, gapId, gapDir), t);
    } else if isCatchup {
      EmptyCatchupRests(env, st2, t, st.sessions[t].queue.usedMsgid, unsolicited, owned);
      RestingThen(st, st2, EmptyCatchup(env, st2, t, st.sessions[t].queue.usedMsgid, unsolicited, owned));
    } else {
      MarkRests(st2, t, !unsolicited);
      RestingThen(st, st2, MarkExhausted(st2, t, !unsolicited));
    }
  }

  lemma AdoptRests(env: Env, st: State, t: SessionId)
    requires t in st.sessions
    ensures Resting(st, Adopt(env, st, t)) && OnlyAt(st, Adopt(env, st, t), t)
    ensures Adopt(env, st, t).sessions[t].queue == st.sessions[t].queue
  {
    EnterRests(env, st, t);
    SameRests(EnterLatestPhase(env, st, t), Adopt(env, st, t));
    RestingThen(st, EnterLatestPhase(env, st, t), Adopt(env, st, t));
  }

  lemma ProcessRests(env: Env, st: State, t: SessionId, nested: bool, msgs: seq<D.Message>, ended: bool)
    requires t in st.sessions
    ensures Resting(st, ProcessBatch(env, st, t, nested, msgs, ended))
  {
    hide EmptyBatch, StartBatch, NewChunk, Adopt, Adoptable, Rests;
    var adopted := Unsolicited(st.sessions[t], nested) && Adoptable(env, st, st.sessions[t]);
    var st1 := if adopted then Adopt(env, st, t) else st;
    SameRests(st, st);
    if adopted {
      AdoptRests(env, st, t);
    }
    ReceivedRests(env, st, st1, t, nested, msgs, ended, adopted);
    RestingThen(st, st1, ProcessBatch(env, st, t, nested, msgs, ended));
  }

  lemma ReceivedRests(env: Env, st: State, st1: State, t: SessionId, nested: bool, msgs: seq<D.Message>, ended: bool, adopted: bool)
    requires t in st.sessions && t in st1.sessions && st1.sessions[t].queue == st.sessions[t].queue
    requires adopted == (Unsolicited(st.sessions[t], nested) && Adoptable(env, st, st.sessions[t]))
    requires st1 == if adopted then Adopt(env, st, t) else st
    ensures Resting(st1, ProcessBatch(env, st, t, nested, msgs, ended))
  {
    hide EmptyBatch, StartBatch, NewChunk, Adopt, Adoptable, Resting, Unsolicited;
    var active := st.sessions[t].queue.active;
    var gapId := if active.Some? && !nested then active.value.gapId else 0;
    var gapDir := if active.Some? && !nested then active.value.gapDir else 0;
    var unsolicited := Unsolicited(st.sessions[t], nested);
    var owned := adopted || !unsolicited;
    var isCatchup := if unsolicited then adopted else st.sessions[t].loop.inProgress && gapId == 0;
    if msgs == [] {
      EmptyRests(env, st1, t, ended, isCatchup, unsolicited, owned, gapId, gapDir);
    } else {
      ForSession(st1, t, msgs, ended, isCatchup, unsolicited, owned, gapId, gapDir);
      StartRests(env, st1, NewChunk(st1, t, msgs, ended, isCatchup, unsolicited, owned, gapId, gapDir));
    }
  }

  lemma ForSession(st: State, t: SessionId, msgs: seq<D.Message>, ended: bool, isCatchup: bool,
                   unsolicited: bool, owned: bool, gapId: int, gapDir: int)
    requires t in st.sessions
    ensures NewChunk(st, t, msgs, ended, isCatchup, unsolicited, owned, gapId, gapDir).sess == t
  {
    hide SortByTime, CursorMsgids, D.RawCount;
  }

  lemma FailedCatchupRests(env: Env, st: State, t: SessionId, usedMsgid: bool, wasLatest: bool)
    requires t in st.sessions
    ensures Resting(st, FailedCatchup(env, st, t, usedMsgid, wasLatest))
  {
    hide RequestFrom, FinishCatchup, CheckBeforeAtZero, Rests;
    RequestRests(st, t, Latest, Some(Timestamp(st.sessions[t].sbNewestTime)), env.lines);
    var st1 := ReturnSlot(st, wasLatest);
    SameRests(st, st1);
    FinishRests(st1, t);
    RestingThen(st, st1, FinishCatchup(st1, t));
    ThenAtZero(env, st, FinishCatchup(st1, t), false);
  }

  lemma NotedFailRests(st: State, t: SessionId, bad: bool)
    requires t in st.sessions
    ensures var st1 := RequestComplete(NoteFail(st, t, bad), t);
      Resting(st, st1) && OnlyAt(st, st1, t)
  {
    var st0 := NoteFail(st, t, bad);
    SameRests(st, st0);
    hide RequestComplete, NoteFail, Rests;
    CompleteAtRests(st0, t);
    RestingThen(st, st0, RequestComplete(st0, t));
  }

  lemma FailRests(env: Env, st: State, t: SessionId, bad: bool)
    requires t in st.sessions
    ensures Resting(st, HandleFail(env, st, t, bad))
  {
    hide RequestComplete, FailedFill, FailedCatchup, LatchesBetween, Rests;
    var x := st.sessions[t];
    NotedFailRests(st, t, bad);
    var st1 := RequestComplete(NoteFail(st, t, bad), t);
    var gapId := if x.queue.active.Some? then x.queue.active.value.gapId else 0;
    var gapDir := if x.queue.active.Some? then x.queue.active.value.gapDir else 0;
    if gapId > 0 {
      FailedFillOnlyAt(env, st1, t, gapId, gapDir, LatchesBetween(x, bad));
      OnlyAtThen(st, st1, FailedFill(env, st1, t, gapId, gapDir, LatchesBetween(x, bad)), t);
      FillRests(st, FailedFill(env, st1, t, gapId, gapDir, LatchesBetween(x, bad)), t);
    } else if st1.sessions[t].loop.inProgress {
      FailedCatchupRests(env, st1, t, x.queue.usedMsgid, x.loop.inProgress && !x.loop.isBefore);
      RestingThen(st, st1, FailedCatchup(env, st1, t, x.queue.usedMsgid, x.loop.inProgress && !x.loop.isBefore));
    }
  }

  // ----- the user, and timers -----

  lemma PartRests(st: State, t: SessionId)
    requires t in st.sessions
    ensures Resting(st, CancelCatchup(st, t))
  {
    hide B.Befores;
    DropRests(st.sessions[t].queue);
    OneRests(st, CancelCatchup(st, t), t);
  }

  lemma TargetsRests(env: Env, st: State, t: SessionId)
    requires t in st.sessions
    ensures Resting(st, StartCatchup(env, st, t))
  {
    hide RequestFrom, LatestReference, B.Befores, AtRest;
    SameRests(st, st);
    var x := st.sessions[t];
    var st1 := PutLoop(st, t, x.loop.(inProgress := true));
    OneRests(st, st1, t);
    RequestRests(st1, t, Latest, LatestReference(x), env.lines);
    RestingThen(st, st1, RequestFrom(st1, t, Latest, LatestReference(x), env.lines));
  }

  lemma ScrollRests(env: Env, st: State, t: SessionId)
    requires t in st.sessions
    ensures Resting(st, RequestOlder(env, st, t))
  {
    hide Submit, AtRest, B.Befores;
    SameRests(st, st);
    if !st.sessions[t].exhausted {
      OneRests(st, RequestOlder(env, st, t), t);
    }
  }

  lemma BackgroundRests(env: Env, st: State, t: SessionId)
    requires t in st.sessions
    ensures Resting(st, BackgroundTimer(env, st, t))
  {
    hide RequestFrom, AtRest, B.Befores;
    SameRests(st, st);
    var x := st.sessions[t];
    if x.background {
      if HasText(x.oldest) {
        RequestOnlyAt(st, t, Before, Some(Msgid(x.oldest.value)), env.lines);
      }
      OneRests(st, BackgroundTimer(env, st, t), t);
    }
  }

  lemma AnsweredRests(st: State, t: SessionId)
    requires t in st.sessions
    ensures Resting(st, Answered(st, t))
  {
    hide B.Befores, AtRest;
    OneRests(st, Answered(st, t), t);
  }

  lemma AbandonRests(st: State, t: SessionId)
    requires t in st.sessions
    ensures Resting(st, AbandonChunk(st, t))
  {
    hide ForgetChunk, ReleaseSlot, Rests;
    SameRests(st, st);
    var c := st.sessions[t].chunk;
    if c.Some? && c.value in st.chunks {
      GoneRests(st, c.value);
    }
  }

  // ----- every event, every run -----

  /** Session `s` of both states stays settled. */
  predicate StaysSettled(st: State, st': State, s: SessionId) {
    s in st.sessions && s in st'.sessions && Rests(st.sessions[s], st'.sessions[s])
  }

  lemma RestingAt(st: State, st': State, s: SessionId)
    requires Resting(st, st') && s in st.sessions
    ensures StaysSettled(st, st', s)
  {
    hide Rests;
  }

  lemma BatchEventRests(env: Env, st: State, e: Event)
    requires e.Reply? || e.Unasked? || e.Replay? || e.Tick? || e.Fail?
    ensures Resting(st, Step(env, st, e))
  {
    hide ProcessBatch, Answered, ChunkTick, HandleFail, FailTarget, Rests;
    SameRests(st, st);
    match e {
      case Reply(s, msgs, ended) =>
        if s in st.sessions {
          AnsweredRests(st, s);
          ProcessRests(env, Answered(st, s), s, false, msgs, ended);
          RestingThen(st, Answered(st, s), ProcessBatch(env, Answered(st, s), s, false, msgs, ended));
        }
      case Unasked(s, msgs, ended) => if s in st.sessions { ProcessRests(env, st, s, false, msgs, ended); }
      case Replay(s, msgs, ended) => if s in st.sessions { ProcessRests(env, st, s, true, msgs, ended); }
      case Tick(c) => TickRests(env, st, c);
      case Fail(context, bad) =>
        var s := FailTarget(st, context);
        if s.Some? && s.value in st.sessions {
          AnsweredRests(st, s.value);
          FailRests(env, Answered(st, s.value), s.value, bad);
          RestingThen(st, Answered(st, s.value), HandleFail(env, Answered(st, s.value), s.value, bad));
        }
    }
  }

  lemma TimerEventRests(env: Env, st: State, e: Event)
    requires e.FanOutTimer? || e.BeforeTimer? || e.TabSwitch? || e.WrapperEnd?
    ensures Resting(st, Step(env, st, e))
  {
    hide CheckBefore, SendAll, Rests, FanOutOrder;
    SameRests(st, st);
    var st1 := match e
      case FanOutTimer => st.(latestPending := 0)
      case BeforeTimer => st.(beforeTimer := false)
      case TabSwitch(to) => st.(current := Some(to))
      case _ => st;
    SameRests(st, st1);
    PagingRests(env, st1);
    RestingThen(st, st1, CheckBefore(env, st1));
    SendAllRests(env, st1, FanOutOrder(st));
    RestingThen(st, st1, SendAll(env, st1, FanOutOrder(st)));
  }

  lemma UserEventRests(env: Env, st: State, e: Event, s: SessionId)
    requires e.Part? || e.TargetsEntry? || e.ScrollUp? || e.Background? || e.FillGap?
    requires s in st.sessions && !(e.FillGap? && e.s == s)
    ensures StaysSettled(st, Step(env, st, e), s)
  {
    hide CancelCatchup, StartCatchup, RequestOlder, BackgroundTimer, RequestGapFill, Resting, Settled, B.Befores;
    SameRests(st, st);
    RestingAt(st, st, s);
    match e {
      case Part(t) => if t in st.sessions { PartRests(st, t); RestingAt(st, CancelCatchup(st, t), s); }
      case TargetsEntry(t) => if t in st.sessions { TargetsRests(env, st, t); RestingAt(st, StartCatchup(env, st, t), s); }
      case ScrollUp(t) => if t in st.sessions { ScrollRests(env, st, t); RestingAt(st, RequestOlder(env, st, t), s); }
      case Background(t) => if t in st.sessions { BackgroundRests(env, st, t); RestingAt(st, BackgroundTimer(env, st, t), s); }
      case FillGap(t, gapId, dir) => if t in st.sessions { FillOnlyAt(env, st, t, gapId, dir); }
    }
  }

  lemma SessionEventRests(env: Env, st: State, e: Event, s: SessionId)
    requires e.Open? || e.Close?
    requires s in st.sessions && !(e.Close? && e.s == s)
    ensures StaysSettled(st, Step(env, st, e), s)
  {
    hide AbandonChunk, Settled, B.Befores;
    SameRests(st, st);
    if e.Close? && e.s in st.sessions {
      AbandonRests(st, e.s);
    }
  }

  lemma StepRests(env: Env, st: State, e: Event, s: SessionId)
    requires s in st.sessions && !(e.Close? && e.s == s) && !(e.FillGap? && e.s == s)
    ensures StaysSettled(st, Step(env, st, e), s)
  {
    hide Step, StaysSettled, Resting;
    if e.Open? || e.Close? {
      SessionEventRests(env, st, e, s);
    } else if e.Reply? || e.Unasked? || e.Replay? || e.Tick? || e.Fail? {
      BatchEventRests(env, st, e);
      RestingAt(st, Step(env, st, e), s);
    } else if e.FanOutTimer? || e.BeforeTimer? || e.TabSwitch? || e.WrapperEnd? {
      TimerEventRests(env, st, e);
      RestingAt(st, Step(env, st, e), s);
    } else {
      UserEventRests(env, st, e, s);
    }
  }

  /** Once the end of a history is known, with no fill in the queue and no BEFORE
      waiting there, it stays known, and no run of events, scrolls and background
      fetches included, sends another BEFORE for the session: not until the user
      asks for a hole in it to be filled, or closes it. */
  lemma {:induction false} ExhaustedIsLeftAlone(st: State, run: seq<Input>, s: SessionId)
    requires s in st.sessions && st.sessions[s].exhausted && AtRest(st.sessions[s].queue)
    requires forall i <- run :: i.event.Close? || i.event.FillGap? ==> i.event.s != s
    ensures var st' := AfterRun(st, run);
      s in st'.sessions && st'.sessions[s].exhausted &&
      B.Befores(st'.sessions[s].queue.sent) == B.Befores(st.sessions[s].queue.sent)
    decreases |run|
  {
    hide Step, AtRest, B.Befores;
    if run != [] {
      assert run[0] in run;
      StepRests(run[0].env, st, run[0].event, s);
      ExhaustedIsLeftAlone(Step(run[0].env, st, run[0].event), run[1..], s);
    }
  }
}
