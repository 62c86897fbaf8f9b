/**
 Batches the server sends on its own.  A leg of the bouncer replay, or a batch
 nobody asked for, must not disturb a request of ours that is on the wire: the
 request and its gap id stay, no history is declared exhausted, and no ledger
 row is narrowed or killed.
 */
module CatchUpReplay {
  import opened Wrappers
  import opened RequestQueue
  import opened CatchUp
  import D = Dedup
  import G = GapLedger
  import S = CatchUpSlots

  /** A request of ours is on the wire for session `s`. */
  predicate InFlight(st: State, s: SessionId) {
    s in st.sessions && Inv(st.sessions[s].queue) && st.sessions[s].queue.active.Some?
  }

  /** The request on the wire and whatever waits behind it stay as they are. */
  predicate RequestStays(st: State, st': State, s: SessionId) {
    InFlight(st, s) ==> s in st'.sessions && st'.sessions[s].queue == st.sessions[s].queue
  }

  predicate NothingExhausted(st: State, st': State) {
    st.sessions.Keys == st'.sessions.Keys &&
    forall s <- st.sessions :: st'.sessions[s].exhausted == st.sessions[s].exhausted
  }

  /** The ledger is the same but perhaps for one newly witnessed hole. */
  ghost predicate OnlyWitnessed(gaps: seq<G.Gap>, gaps': seq<G.Gap>) {
    gaps' == gaps || exists hole: G.Gap :: G.Recordable(hole) && gaps' == G.Record(gaps, hole).0
  }

  ghost predicate Undisturbed(st: State, st': State, s: SessionId) {
    RequestStays(st, st', s) && NothingExhausted(st, st') && OnlyWitnessed(st.gaps, st'.gaps)
  }

  /** Then every row still covers what it covered, and a dead row is as it was. */
  lemma RowsSurvive(gaps: seq<G.Gap>, gaps': seq<G.Gap>)
    requires OnlyWitnessed(gaps, gaps')
    ensures forall g <- gaps :: exists g' <- gaps' :: G.Spans(g', g) && (g.state == G.Dead ==> g' == g)
  {
    if gaps' != gaps {
      var hole :| G.Recordable(hole) && gaps' == G.Record(gaps, hole).0;
      G.RecordKeepsCover(gaps, hole);
    } else {
      forall g | g in gaps ensures exists g' <- gaps' :: G.Spans(g', g) && (g.state == G.Dead ==> g' == g) {
        assert G.Spans(g, g);
      }
    }
  }

  // ----- starting BEFORE disturbs nobody -----

  /** Sessions with a request on the wire are left alone; nobody is exhausted. */
  predicate Harmless(st: State, st': State) {
    st'.sessions.Keys == st.sessions.Keys && st'.gaps == st.gaps &&
    forall s <- st.sessions ::
      st'.sessions[s].exhausted == st.sessions[s].exhausted &&
      (InFlight(st, s) ==> st'.sessions[s].queue == st.sessions[s].queue)
  }

  /** Only session `t` changes, and not in its exhausted flag. */
  predicate OnlyAt(st: State, st': State, t: SessionId) {
    t in st.sessions && st'.gaps == st.gaps && st'.sessions.Keys == st.sessions.Keys &&
    (forall s <- st.sessions | s != t :: st'.sessions[s] == st.sessions[s]) &&
    st'.sessions[t].exhausted == st.sessions[t].exhausted
  }

  lemma OnlyAtThen(a: State, b: State, c: State, t: SessionId)
    requires OnlyAt(a, b, t) && OnlyAt(b, c, t)
    ensures OnlyAt(a, c, t)
  {
  }

  lemma RequestOnlyAt(st: State, t: SessionId, kind: Kind, reference: Option<Reference>, limit: int)
    requires t in st.sessions
    ensures OnlyAt(st, RequestFrom(st, t, kind, reference, limit), t)
  {
  }

  lemma FinishOnlyAt(st: State, t: SessionId)
    requires t in st.sessions
    ensures OnlyAt(st, FinishCatchup(st, t).(beforeSess := None), t)
  {
  }

  lemma StartBeforeHarmless(st: State, t: SessionId)
    requires NeedsBefore(st, t)
    ensures Harmless(st, StartBefore(st, t))
  {
    var sess := st.sessions[t];
    var st1 := PutLoop(st.(beforeSess := Some(t)), t, sess.loop.(isBefore := true));
    assert OnlyAt(st, st1, t);
    assert !InFlight(st, t);
    hide RequestFrom, FinishCatchup;
    if HasText(sess.oldest) {
      RequestOnlyAt(st1, t, Before, Some(Msgid(sess.oldest.value)), BEFORE_LIMIT);
    } else {
      FinishOnlyAt(st1, t);
    }
    OnlyAtThen(st, st1, StartBefore(st, t), t);
  }

  lemma CheckBeforeHarmless(env: Env, st: State)
    ensures Harmless(st, CheckBefore(env, st))
  {
    hide StartBefore;
    PickedNeeds(env, st);
    var t := PickBefore(env, st);
    if t.Some? {
      StartBeforeHarmless(st, t.value);
    }
  }

  lemma HarmlessThen(a: State, b: State, c: State, s: SessionId)
    requires Undisturbed(a, b, s) && Harmless(b, c)
    requires InFlight(a, s) ==> InFlight(b, s)
    ensures Undisturbed(a, c, s)
  {
  }

  lemma AtZeroHarmless(env: Env, st: State)
    ensures Harmless(st, CheckBeforeAtZero(env, st))
  {
    hide CheckBefore;
    CheckBeforeHarmless(env, st);
  }

  // ----- finishing an unsolicited batch -----

  /** An unsolicited batch answers no gap fill; when it was adopted, its session
      is in the LATEST phase it opened.  (`BooksKeepServerDriven`: in catch-up
      traffic it always is.) */
  predicate ServerDriven(st: State, ch: Chunk) {
    ch.sess in st.sessions && ch.unsolicited && ch.gapId == 0 &&
    (ch.isCatchup ==> !st.sessions[ch.sess].loop.isBefore)
  }

  lemma NotedUndisturbed(st: State, ch: Chunk, s: SessionId)
    requires ServerDriven(st, ch) && s in st.sessions
    ensures Undisturbed(st, Noted(st, ch), s) && ServerDriven(Noted(st, ch), ch)
    ensures Noted(st, ch).gaps == st.gaps
    ensures InFlight(st, s) ==> InFlight(Noted(st, ch), s)
  {
  }

  lemma WitnessUndisturbed(env: Env, st: State, ch: Chunk, s: SessionId)
    requires ch.sess in st.sessions && s in st.sessions
    ensures var st' := ReturnSlot(WitnessHole(env, st, ch), ch.latestOwned);
      Undisturbed(st, st', s) && (InFlight(st, s) ==> InFlight(st', s))
  {
    hide Witnessed, OnlyWitnessed;
    WitnessedRecords(env, st.gaps, st.sessions[ch.sess], ch);
  }

  lemma WitnessedRecords(env: Env, gaps: seq<G.Gap>, sess: Session, ch: Chunk)
    ensures OnlyWitnessed(gaps, Witnessed(env, gaps, sess, ch).0)
  {
    if SeesHole(env, sess, ch) {
      var hole := G.Hole(sess.channel, sess.loop.prevTime, sess.loop.prevMsgid, ch.oldest, ch.oldestMsgid);
      assert Witnessed(env, gaps, sess, ch).0 == G.Record(gaps, hole).0;
      assert !G.Recordable(hole) ==> G.Record(gaps, hole).0 == gaps;
    }
  }

  lemma PlainUndisturbed(env: Env, st: State, ch: Chunk, s: SessionId)
    requires ServerDriven(st, ch) && s in st.sessions
    ensures Undisturbed(st, FinishPlain(env, st, ch), s)
  {
  }

  lemma UndisturbedThen(a: State, b: State, c: State, s: SessionId)
    requires Undisturbed(a, b, s) && b.gaps == a.gaps && Undisturbed(b, c, s)
    requires InFlight(a, s) ==> InFlight(b, s)
    ensures Undisturbed(a, c, s)
  {
  }

  lemma FinishUndisturbed(env: Env, st: State, ch: Chunk, s: SessionId)
    requires ServerDriven(st, ch) && s in st.sessions
    ensures Undisturbed(st, FinishBatch(env, st, ch), s)
  {
    NotedUndisturbed(st, ch, s);
    NotedStaysLatest(st, ch);
    var st1 := Noted(st, ch);
    assert s in st1.sessions;
    hide Noted, FinishPlain, WitnessHole, ReturnSlot, CheckBeforeAtZero, Undisturbed, InFlight;
    if !ch.isCatchup {
      PlainUndisturbed(env, st1, ch, s);
      UndisturbedThen(st, st1, FinishPlain(env, st1, ch), s);
    } else {
      var st2 := ReturnSlot(WitnessHole(env, st1, ch), ch.latestOwned);
      WitnessUndisturbed(env, st1, ch, s);
      AtZeroHarmless(env, st2);
      HarmlessThen(st1, st2, CheckBeforeAtZero(env, st2), s);
      UndisturbedThen(st, st1, CheckBeforeAtZero(env, st2), s);
    }
  }

  lemma NotedStaysLatest(st: State, ch: Chunk)
    requires ServerDriven(st, ch)
    ensures Noted(st, ch).sessions.Keys == st.sessions.Keys
    ensures Noted(st, ch).sessions[ch.sess].loop == st.sessions[ch.sess].loop
  {
  }

  /** Finishing an unsolicited batch declares its session's history exhausted
      exactly when it is stepped as a BEFORE page, its session having moved on
      to that phase meanwhile, and is the third page in a row that showed
      nothing, without reaching below the loop's lower bound. */
  lemma UnsolicitedExhaustsIff(env: Env, st: State, ch: Chunk)
    requires ch.sess in st.sessions && ch.unsolicited && !st.sessions[ch.sess].exhausted
    ensures
      var loop := st.sessions[ch.sess].loop;
      FinishBatch(env, st, ch).sessions.Keys == st.sessions.Keys &&
      (FinishBatch(env, st, ch).sessions[ch.sess].exhausted <==>
        ch.isCatchup && loop.isBefore && ch.rawCount > 0 && ch.msgCount == 0 && loop.stale + 1 >= STALE_LIMIT &&
        !(0 < ch.oldest < loop.lowerBound))
  {
    var st1 := Noted(st, ch);
    NotedLikewise(st, ch);
    if ch.isCatchup && st1.sessions[ch.sess].loop.isBefore {
      StaleIff(env, st1.sessions[ch.sess], ch);
    }
    hide Noted, FinishPlain, FinishLatest, FinishBefore;
    if !ch.isCatchup {
      PlainExhausts(env, st1, ch);
    } else if st1.sessions[ch.sess].loop.isBefore {
      PageExhausts(env, st1, ch);
    } else {
      LatestExhausts(env, st1, ch);
    }
  }

  lemma StaleIff(env: Env, x: Session, ch: Chunk)
    requires !x.exhausted
    ensures JudgePage(env, CountPage(x, ch), ch) == Stale <==>
            ch.rawCount > 0 && ch.msgCount == 0 && x.loop.stale + 1 >= STALE_LIMIT && !(0 < ch.oldest < x.loop.lowerBound)
  {
  }

  lemma NotedLikewise(st: State, ch: Chunk)
    requires ch.sess in st.sessions && ch.unsolicited
    ensures Noted(st, ch).sessions.Keys == st.sessions.Keys
    ensures Noted(st, ch).sessions[ch.sess].exhausted == st.sessions[ch.sess].exhausted
    ensures Noted(st, ch).sessions[ch.sess].loop == st.sessions[ch.sess].loop
  {
  }

  lemma PlainExhausts(env: Env, st: State, ch: Chunk)
    requires ch.sess in st.sessions
    ensures FinishPlain(env, st, ch).sessions.Keys == st.sessions.Keys
    ensures FinishPlain(env, st, ch).sessions[ch.sess].exhausted == st.sessions[ch.sess].exhausted
  {
  }

  lemma LatestExhausts(env: Env, st: State, ch: Chunk)
    requires ch.sess in st.sessions
    ensures FinishLatest(env, st, ch).sessions.Keys == st.sessions.Keys
    ensures FinishLatest(env, st, ch).sessions[ch.sess].exhausted == st.sessions[ch.sess].exhausted
  {
    var st1 := ReturnSlot(WitnessHole(env, st, ch), ch.latestOwned);
    hide CheckBeforeAtZero, Witnessed;
    AtZeroHarmless(env, st1);
  }

  lemma EndExhausts(env: Env, st: State, t: SessionId)
    requires t in st.sessions
    ensures CheckBefore(env, FinishCatchup(st, t)).sessions.Keys == st.sessions.Keys
    ensures CheckBefore(env, FinishCatchup(st, t)).sessions[t].exhausted == st.sessions[t].exhausted
  {
    hide CheckBefore;
    CheckBeforeHarmless(env, FinishCatchup(st, t));
  }

  lemma PageExhausts(env: Env, st: State, ch: Chunk)
    requires ch.sess in st.sessions && !st.sessions[ch.sess].exhausted
    ensures FinishBefore(env, st, ch).sessions.Keys == st.sessions.Keys
    ensures FinishBefore(env, st, ch).sessions[ch.sess].exhausted <==>
            JudgePage(env, CountPage(st.sessions[ch.sess], ch), ch) == Stale
  {
    var t := ch.sess;
    var sess := CountPage(st.sessions[t], ch);
    hide JudgePage, RowAfterPage, ApplyVerdict;
    VerdictExhausts(env, Put(st, t, sess).(gaps := RowAfterPage(st.gaps, sess.loop.gapId, ch, JudgePage(env, sess, ch))),
                    t, ch.msgCount, JudgePage(env, sess, ch));
  }

  lemma VerdictExhausts(env: Env, st: State, t: SessionId, msgCount: nat, verdict: Verdict)
    requires t in st.sessions && !st.sessions[t].exhausted
    ensures ApplyVerdict(env, st, t, msgCount, verdict).sessions.Keys == st.sessions.Keys
    ensures ApplyVerdict(env, st, t, msgCount, verdict).sessions[t].exhausted <==> verdict == Stale
  {
    hide CheckBefore, FinishCatchup;
    EndExhausts(env, st, t);
    EndExhausts(env, Put(st, t, st.sessions[t].(exhausted := true)), t);
  }

  // ----- receiving and working off -----

  lemma ShowUndisturbed(st: State, t: SessionId, x: Session, s: SessionId)
    requires t in st.sessions && s in st.sessions && x == st.sessions[t].(seen := x.seen, oldest := x.oldest, chunk := x.chunk)
    ensures Undisturbed(st, Put(st, t, x), s) && Put(st, t, x).gaps == st.gaps
    ensures InFlight(st, s) ==> InFlight(Put(st, t, x), s)
  {
  }

  lemma StartUndisturbed(env: Env, st: State, ch: Chunk, s: SessionId)
    requires ServerDriven(st, ch) && s in st.sessions
    ensures Undisturbed(st, StartBatch(env, st, ch), s)
  {
    if ch.rawCount <= D.CHUNK_SIZE {
      var (x, ch') := TakeChunk(st.sessions[ch.sess], ch);
      var st1 := Put(st, ch.sess, x);
      ShowUndisturbed(st, ch.sess, x, s);
      hide FinishBatch, Undisturbed, InFlight;
      FinishUndisturbed(env, st1, ch', s);
      UndisturbedThen(st, st1, FinishBatch(env, st1, ch'), s);
    } else {
      ShowUndisturbed(st, ch.sess, st.sessions[ch.sess].(chunk := Some(st.nextChunk)), s);
    }
  }

  lemma AdoptUndisturbed(env: Env, st: State, t: SessionId, s: SessionId)
    requires t in st.sessions && s in st.sessions
    ensures var st' := Adopt(env, st, t);
      t in st'.sessions && s in st'.sessions && Undisturbed(st, st', s) && st'.gaps == st.gaps &&
      (InFlight(st, s) ==> InFlight(st', s)) && !st'.sessions[t].loop.isBefore
  {
  }

  lemma FinishCatchupUndisturbed(st: State, t: SessionId, owned: bool, s: SessionId)
    requires t in st.sessions && s in st.sessions
    ensures var st' := ReturnSlot(FinishCatchup(st, t), owned);
      Undisturbed(st, st', s) && (InFlight(st, s) ==> InFlight(st', s))
  {
  }

  lemma EmptyAdoptedUndisturbed(env: Env, st: State, t: SessionId, ended: bool, s: SessionId)
    requires t in st.sessions && s in st.sessions
    ensures Undisturbed(st, EmptyBatch(env, st, t, ended, true, true, true, 0, 0), s)
  {
    var st1 := ReturnSlot(FinishCatchup(st, t), true);
    FinishCatchupUndisturbed(st, t, true, s);
    hide CheckBeforeAtZero, FinishCatchup, Undisturbed, InFlight, RequestFrom, EmptyFill;
    AtZeroHarmless(env, st1);
    HarmlessThen(st, st1, CheckBeforeAtZero(env, st1), s);
  }

  lemma EmptyIgnoredUndisturbed(env: Env, st: State, t: SessionId, ended: bool, s: SessionId)
    requires t in st.sessions && s in st.sessions
    ensures Undisturbed(st, EmptyBatch(env, st, t, ended, false, true, false, 0, 0), s)
  {
    hide EmptyCatchup, EmptyFill;
  }

  function Received(env: Env, st: State, t: SessionId, msgs: seq<D.Message>, ended: bool, adopted: bool): State
    requires t in st.sessions
  {
    if msgs == [] then EmptyBatch(env, st, t, ended, adopted, true, adopted, 0, 0)
    else StartBatch(env, st, NewChunk(st, t, msgs, ended, adopted, true, adopted, 0, 0))
  }

  lemma UnsolicitedIs(env: Env, st: State, t: SessionId, nested: bool, msgs: seq<D.Message>, ended: bool)
    requires t in st.sessions && Unsolicited(st.sessions[t], nested)
    ensures ProcessBatch(env, st, t, nested, msgs, ended) ==
            if Adoptable(env, st, st.sessions[t]) then Received(env, Adopt(env, st, t), t, msgs, ended, true)
            else Received(env, st, t, msgs, ended, false)
  {
    hide EmptyBatch, StartBatch, NewChunk;
  }

  lemma ReceivedUndisturbed(env: Env, st: State, t: SessionId, msgs: seq<D.Message>, ended: bool, adopted: bool, s: SessionId)
    requires t in st.sessions && s in st.sessions && (adopted ==> !st.sessions[t].loop.isBefore)
    ensures Undisturbed(st, Received(env, st, t, msgs, ended, adopted), s)
  {
    if msgs != [] {
      ChunkIsServerDriven(st, t, msgs, ended, adopted);
      hide EmptyBatch, StartBatch, NewChunk, Undisturbed;
      StartUndisturbed(env, st, NewChunk(st, t, msgs, ended, adopted, true, adopted, 0, 0), s);
    } else {
      hide EmptyBatch, Undisturbed;
      if adopted {
        EmptyAdoptedUndisturbed(env, st, t, ended, s);
      } else {
        EmptyIgnoredUndisturbed(env, st, t, ended, s);
      }
    }
  }

  lemma ChunkIsServerDriven(st: State, t: SessionId, msgs: seq<D.Message>, ended: bool, adopted: bool)
    requires t in st.sessions && (adopted ==> !st.sessions[t].loop.isBefore)
    ensures ServerDriven(st, NewChunk(st, t, msgs, ended, adopted, true, adopted, 0, 0))
  {
    hide SortByTime, CursorMsgids;
  }

  /** Receiving any unsolicited batch, adopted or not, empty or not, in any
      state whatever, leaves the requests of every session in place with their
      gap ids, exhausts nobody, and touches the ledger only to record a
      witnessed hole. */
  lemma ReplayDoesNotDisturb(env: Env, st: State, t: SessionId, nested: bool, msgs: seq<D.Message>, ended: bool, s: SessionId)
    requires t in st.sessions && Unsolicited(st.sessions[t], nested) && s in st.sessions
    ensures Undisturbed(st, ProcessBatch(env, st, t, nested, msgs, ended), s)
  {
    UnsolicitedIs(env, st, t, nested, msgs, ended);
    hide ProcessBatch, Received, Adopt, Adoptable, Undisturbed, InFlight;
    if Adoptable(env, st, st.sessions[t]) {
      AdoptUndisturbed(env, st, t, s);
      var st1 := Adopt(env, st, t);
      ReceivedUndisturbed(env, st1, t, msgs, ended, true, s);
      UndisturbedThen(st, st1, Received(env, st1, t, msgs, ended, true), s);
    } else {
      ReceivedUndisturbed(env, st, t, msgs, ended, false, s);
    }
  }

  lemma ForgetUndisturbed(st: State, c: ChunkId, s: SessionId)
    requires c in st.chunks && s in st.sessions
    ensures var st' := ForgetChunk(st, c);
      Undisturbed(st, st', s) && st'.gaps == st.gaps && st'.sessions.Keys == st.sessions.Keys &&
      (InFlight(st, s) ==> InFlight(st', s)) &&
      (forall t <- st.sessions :: st'.sessions[t].loop == st.sessions[t].loop)
  {
  }

  /** Nor does any tick of such a batch while it is worked off by timer. */
  lemma ReplayTickDoesNotDisturb(env: Env, st: State, c: ChunkId, s: SessionId)
    requires c in st.chunks && ServerDriven(st, st.chunks[c]) && s in st.sessions
    ensures Undisturbed(st, ChunkTick(env, st, c), s)
  {
    TakenUndisturbed(st, c, s);
    var ch := st.chunks[c];
    hide TakeChunk, ForgetChunk, FinishBatch, Undisturbed, InFlight, ServerDriven;
    var (x, ch') := TakeChunk(st.sessions[ch.sess], ch);
    var st1 := Put(st, ch.sess, x);
    if ch'.remaining == [] {
      LastTickUndisturbed(env, st1, c, ch', s);
      UndisturbedThen(st, st1, FinishBatch(env, ForgetChunk(st1, c), ch'), s);
    } else {
      FiledUndisturbed(st, st1, st1.(chunks := st1.chunks[c := ch']), s);
    }
  }

  lemma FiledUndisturbed(st: State, st1: State, st2: State, s: SessionId)
    requires Undisturbed(st, st1, s) && st2.sessions == st1.sessions && st2.gaps == st1.gaps
    ensures Undisturbed(st, st2, s)
  {
    hide OnlyWitnessed, InFlight;
  }

  lemma TakenUndisturbed(st: State, c: ChunkId, s: SessionId)
    requires c in st.chunks && ServerDriven(st, st.chunks[c]) && s in st.sessions
    ensures st.chunks[c].sess in st.sessions
    ensures var (x, ch') := TakeChunk(st.sessions[st.chunks[c].sess], st.chunks[c]);
      var st1 := Put(st, ch'.sess, x);
      ch'.sess == st.chunks[c].sess && Undisturbed(st, st1, s) && st1.gaps == st.gaps && ServerDriven(st1, ch') &&
      c in st1.chunks && s in st1.sessions && (InFlight(st, s) ==> InFlight(st1, s))
  {
    hide D.Fold, Undisturbed, InFlight, FirstRemembered;
    var (x, ch') := TakeChunk(st.sessions[st.chunks[c].sess], st.chunks[c]);
    ShowUndisturbed(st, st.chunks[c].sess, x, s);
  }

  lemma LastTickUndisturbed(env: Env, st: State, c: ChunkId, ch: Chunk, s: SessionId)
    requires c in st.chunks && ServerDriven(st, ch) && s in st.sessions
    ensures ch.sess in ForgetChunk(st, c).sessions
    ensures Undisturbed(st, FinishBatch(env, ForgetChunk(st, c), ch), s)
  {
    hide ForgetChunk, FinishBatch, Undisturbed, InFlight;
    var st1 := ForgetChunk(st, c);
    ForgetUndisturbed(st, c, s);
    FinishUndisturbed(env, st1, ch, s);
    UndisturbedThen(st, st1, FinishBatch(env, st1, ch), s);
  }

  /** While the slot books are in order, every unsolicited batch being worked
      off is one the tick theorem speaks of. */
  lemma BooksKeepServerDriven(st: State, c: ChunkId)
    requires S.Books(st) && c in st.chunks && st.chunks[c].unsolicited && st.chunks[c].sess in st.sessions
    ensures ServerDriven(st, st.chunks[c])
  {
    hide S.SessionsOk, S.OneOwn, S.Balanced;
    assert S.ChunkShape(st.chunks[c]) && S.Fits(st.chunks[c], st.sessions[st.chunks[c].sess]);
  }

  /** So over every run of catch-up traffic without the two events that upset
      the slot count, no tick of such a batch disturbs anybody. */
  lemma TicksNeverDisturb(env: Env, st: State, run: seq<Input>, c: ChunkId, s: SessionId)
    requires S.Books(st) && S.LegalRun(st, run)
    requires var st1 := AfterRun(st, run);
      c in st1.chunks && st1.chunks[c].unsolicited && st1.chunks[c].sess in st1.sessions && s in st1.sessions
    ensures var st1 := AfterRun(st, run); Undisturbed(st1, ChunkTick(env, st1, c), s)
  {
    hide S.Books, S.LegalRun, Undisturbed, ServerDriven, ChunkTick;
    S.SlotAccounting(st, run);
    BooksKeepServerDriven(AfterRun(st, run), c);
    ReplayTickDoesNotDisturb(env, AfterRun(st, run), c, s);
  }

  // ----- requests stay, whatever phase the session is in -----

  lemma UnsolicitedFinishHarmless(env: Env, st: State, ch: Chunk, s: SessionId)
    requires ch.sess in st.sessions && ch.unsolicited && s in st.sessions
    ensures RequestStays(st, FinishBatch(env, st, ch), s)
  {
    hide FinishPlain, FinishBefore, FinishLatest, InFlight;
    NotedQueues(st, ch, s);
    var st1 := Noted(st, ch);
    FinishedQueues(env, st1, ch, s);
  }

  lemma NotedQueues(st: State, ch: Chunk, s: SessionId)
    requires ch.sess in st.sessions && ch.unsolicited && s in st.sessions
    ensures Noted(st, ch).sessions.Keys == st.sessions.Keys && Noted(st, ch).sessions[s].queue == st.sessions[s].queue
    ensures InFlight(st, s) <==> InFlight(Noted(st, ch), s)
  {
  }

  lemma FinishedQueues(env: Env, st: State, ch: Chunk, s: SessionId)
    requires ch.sess in st.sessions && s in st.sessions
    ensures RequestStays(st, FinishPlain(env, st, ch), s)
    ensures RequestStays(st, FinishBefore(env, st, ch), s)
    ensures RequestStays(st, FinishLatest(env, st, ch), s)
  {
    PageQueues(env, st, ch, s);
    LatestQueues(env, st, ch, s);
    hide FinishBefore, FinishLatest, BackgroundGoesOn, G.FillReply, InFlight;
  }

  lemma PageQueues(env: Env, st: State, ch: Chunk, s: SessionId)
    requires ch.sess in st.sessions && s in st.sessions
    ensures RequestStays(st, FinishBefore(env, st, ch), s)
  {
    hide ApplyVerdict, RowAfterPage, JudgePage, InFlight;
    var sess := CountPage(st.sessions[ch.sess], ch);
    var verdict := JudgePage(env, sess, ch);
    var st1 := Put(st, ch.sess, sess).(gaps := RowAfterPage(st.gaps, sess.loop.gapId, ch, verdict));
    SameQueueInFlight(st, st1, s);
    VerdictQueues(env, st1, ch.sess, ch.msgCount, verdict, s);
  }

  lemma LatestQueues(env: Env, st: State, ch: Chunk, s: SessionId)
    requires ch.sess in st.sessions && s in st.sessions
    ensures RequestStays(st, FinishLatest(env, st, ch), s)
  {
    hide CheckBeforeAtZero, Witnessed, InFlight;
    var st2 := ReturnSlot(WitnessHole(env, st, ch), ch.latestOwned);
    SameQueueInFlight(st, st2, s);
    AtZeroHarmless(env, st2);
  }

  lemma SameQueueInFlight(st: State, st': State, s: SessionId)
    requires s in st.sessions && s in st'.sessions && st'.sessions[s].queue == st.sessions[s].queue
    ensures InFlight(st, s) <==> InFlight(st', s)
  {
  }

  lemma EndQueues(env: Env, st: State, t: SessionId, s: SessionId)
    requires t in st.sessions && s in st.sessions
    ensures RequestStays(st, CheckBefore(env, FinishCatchup(st, t)), s)
  {
    hide CheckBefore, InFlight;
    SameQueueInFlight(st, FinishCatchup(st, t), s);
    CheckBeforeHarmless(env, FinishCatchup(st, t));
  }

  lemma VerdictQueues(env: Env, st: State, t: SessionId, msgCount: nat, verdict: Verdict, s: SessionId)
    requires t in st.sessions && s in st.sessions
    ensures RequestStays(st, ApplyVerdict(env, st, t, msgCount, verdict), s)
  {
    hide CheckBefore, FinishCatchup, InFlight;
    var st1 := Put(st, t, st.sessions[t].(exhausted := true));
    EndQueues(env, st, t, s);
    EndQueues(env, st1, t, s);
    SameQueueInFlight(st, st1, s);
  }

  lemma TakenQueues(st: State, c: ChunkId, s: SessionId)
    requires c in st.chunks && st.chunks[c].sess in st.sessions && s in st.sessions
    ensures var (x, ch') := TakeChunk(st.sessions[st.chunks[c].sess], st.chunks[c]);
      var st1 := Put(st, ch'.sess, x);
      ch'.sess == st.chunks[c].sess && ch'.unsolicited == st.chunks[c].unsolicited && s in st1.sessions &&
      st1.sessions[s].queue == st.sessions[s].queue
  {
    hide D.Fold;
  }

  lemma ForgotQueues(st: State, c: ChunkId, s: SessionId)
    requires c in st.chunks && s in st.sessions
    ensures var st1 := ForgetChunk(st, c);
      st1.sessions.Keys == st.sessions.Keys && st1.sessions[s].queue == st.sessions[s].queue
  {
  }

  /** No tick of an unsolicited batch, in any state whatever, touches a request
      that is on the wire, or what waits behind it. */
  lemma UnsolicitedTickKeepsRequests(env: Env, st: State, c: ChunkId, s: SessionId)
    requires c in st.chunks && st.chunks[c].unsolicited && s in st.sessions
    ensures RequestStays(st, ChunkTick(env, st, c), s)
  {
    hide FinishBatch, TakeChunk, ForgetChunk, InFlight, ReturnSlot;
    var ch := st.chunks[c];
    if ch.sess in st.sessions {
      TakenQueues(st, c, s);
      var (x, ch') := TakeChunk(st.sessions[ch.sess], ch);
      var st1 := Put(st, ch'.sess, x);
      if ch'.remaining == [] {
        var st2 := ForgetChunk(st1, c);
        ForgotQueues(st1, c, s);
        SameQueueInFlight(st, st2, s);
        UnsolicitedFinishHarmless(env, st2, ch', s);
      }
    } else {
      GoneQueues(st, c, s);
    }
  }

  lemma GoneQueues(st: State, c: ChunkId, s: SessionId)
    requires c in st.chunks && s in st.sessions
    ensures var st1 := ReleaseSlot(st, st.chunks[c]);
      c in st1.chunks && RequestStays(st, ForgetChunk(st1, c), s)
  {
  }
}
