/**
 Slot accounting.  `latestPending` gates the BEFORE phase of a server: it is
 meant to count the LATEST outcomes still owed.  In catch-up traffic it does,
 except when a BEFORE page comes back empty while slots are owed, and when a
 session is closed with its LATEST request unanswered.
 */
module CatchUpSlots {
  import opened Wrappers
  import opened RequestQueue
  import opened CatchUp
  import D = Dedup

  // ----- what is owed -----

  predicate Unanswered(x: Session) {
    |x.queue.sent| > x.answered
  }

  /** The session's LATEST phase waits for the server's answer. */
  predicate Waiting(x: Session) {
    Unanswered(x) && x.loop.inProgress && !x.loop.isBefore
  }

  function WaitingIn(sessions: map<SessionId, Session>): set<SessionId> {
    set s <- sessions | Waiting(sessions[s])
  }

  function SlotsIn(chunks: map<ChunkId, Chunk>): set<ChunkId> {
    set c <- chunks | chunks[c].slotOwed
  }

  /** LATEST outcomes still owed: requests unanswered, and batches in progress. */
  function Owed(st: State): nat {
    |WaitingIn(st.sessions)| + |SlotsIn(st.chunks)|
  }

  function One(b: bool): nat {
    if b then 1 else 0
  }

  lemma SetsDifferAt<T>(a: set<T>, b: set<T>, e: T)
    requires a - {e} == b - {e}
    ensures |a| + One(e in b) == |b| + One(e in a)
  {
    var rest := a - {e};
    assert a == if e in a then rest + {e} else rest;
    assert b == if e in b then rest + {e} else rest;
  }

  lemma WaitingPut(sessions: map<SessionId, Session>, s: SessionId, x: Session)
    ensures |WaitingIn(sessions[s := x])| + One(s in sessions && Waiting(sessions[s]))
         == |WaitingIn(sessions)| + One(Waiting(x))
  {
    hide Waiting;
    SetsDifferAt(WaitingIn(sessions[s := x]), WaitingIn(sessions), s);
  }

  lemma SlotsPut(chunks: map<ChunkId, Chunk>, c: ChunkId, ch: Chunk)
    ensures |SlotsIn(chunks[c := ch])| + One(c in chunks && chunks[c].slotOwed) == |SlotsIn(chunks)| + One(ch.slotOwed)
  {
    SetsDifferAt(SlotsIn(chunks[c := ch]), SlotsIn(chunks), c);
  }

  lemma SlotsRemove(chunks: map<ChunkId, Chunk>, c: ChunkId)
    requires c in chunks
    ensures |SlotsIn(chunks - {c})| + One(chunks[c].slotOwed) == |SlotsIn(chunks)|
  {
    SetsDifferAt(SlotsIn(chunks - {c}), SlotsIn(chunks), c);
  }

  lemma WaitingRemove(sessions: map<SessionId, Session>, s: SessionId)
    requires s in sessions
    ensures |WaitingIn(sessions - {s})| + One(Waiting(sessions[s])) == |WaitingIn(sessions)|
  {
    hide Waiting;
    SetsDifferAt(WaitingIn(sessions - {s}), WaitingIn(sessions), s);
  }

  // ----- orderly states -----

  predicate SessionOk(x: Session) {
    Inv(x.queue) && x.queue.pending.None? && x.hasTarget && !x.background &&
    (x.queue.active.Some? ==> x.loop.inProgress && x.queue.active.value.gapId == 0) &&
    x.answered <= |x.queue.sent| <= x.answered + 1 &&
    (Unanswered(x) ==> x.queue.active.Some?) &&
    (x.loop.isBefore ==> x.loop.inProgress)
  }

  /** The batch belongs to the session's catch-up: a reply, or an adopted replay. */
  predicate Own(ch: Chunk) {
    !ch.unsolicited || ch.slotOwed
  }

  predicate ChunkShape(ch: Chunk) {
    ch.gapId == 0 &&
    if ch.unsolicited then ch.isCatchup == ch.latestOwned == ch.slotOwed else ch.isCatchup && ch.latestOwned
  }

  /** How a batch in progress and its session go together. */
  predicate Fits(ch: Chunk, x: Session) {
    (!ch.unsolicited ==> x.queue.active.Some? && !Unanswered(x) && (ch.slotOwed <==> !x.loop.isBefore)) &&
    (ch.unsolicited && ch.slotOwed ==> x.queue.active.None? && x.loop.inProgress && !x.loop.isBefore)
  }

  predicate SessionsOk(sessions: map<SessionId, Session>) {
    forall s <- sessions :: SessionOk(sessions[s])
  }

  predicate ChunksOk(sessions: map<SessionId, Session>, chunks: map<ChunkId, Chunk>, nextChunk: ChunkId) {
    forall c <- chunks ::
      c < nextChunk && ChunkShape(chunks[c]) &&
      (chunks[c].sess in sessions ==> Fits(chunks[c], sessions[chunks[c].sess]))
  }

  predicate OneOwn(sessions: map<SessionId, Session>, chunks: map<ChunkId, Chunk>) {
    forall c, c' | c in chunks && c' in chunks && c != c' && Own(chunks[c]) && Own(chunks[c']) ::
      chunks[c].sess == chunks[c'].sess ==> chunks[c].sess !in sessions
  }

  predicate Orderly(st: State) {
    SessionsOk(st.sessions) && ChunksOk(st.sessions, st.chunks, st.nextChunk) && OneOwn(st.sessions, st.chunks)
  }

  predicate Balanced(st: State) {
    st.latestPending == Owed(st)
  }

  /** The books are in order. */
  predicate Books(st: State) {
    Orderly(st) && Balanced(st)
  }

  predicate NoOwn(st: State, s: SessionId) {
    forall c <- st.chunks :: st.chunks[c].sess == s ==> !Own(st.chunks[c])
  }

  lemma IdleHasNoOwn(st: State, s: SessionId)
    requires Orderly(st) && s in st.sessions
    requires st.sessions[s].queue.active.None? && (!st.sessions[s].loop.inProgress || SlotsIn(st.chunks) == {})
    ensures NoOwn(st, s)
  {
    forall c | c in st.chunks && st.chunks[c].sess == s ensures !Own(st.chunks[c]) {
      assert st.chunks[c].slotOwed ==> c in SlotsIn(st.chunks);
    }
  }

  /** `st'` differs from `st`, as far as the books go, in session `s` only. */
  predicate OnlySession(st: State, st': State, s: SessionId, x: Session) {
    st'.sessions == st.sessions[s := x] && st'.chunks == st.chunks && st'.nextChunk == st.nextChunk
  }

  lemma SessionKeepsOrderly(st: State, st': State, s: SessionId, x: Session)
    requires Orderly(st) && NoOwn(st, s) && SessionOk(x) && OnlySession(st, st', s, x)
    requires s in st.sessions
    ensures Orderly(st')
  {
  }

  // ----- BEFORE phase -----

  /** What a request by an idle session does to its queue. */
  predicate Asked(q: Queue, q': Queue, kind: Kind) {
    Inv(q') && q'.pending.None? &&
    if q'.active.None? then q'.sent == q.sent
    else q'.active.value.kind == kind && q'.active.value.gapId == 0 && q'.sent == q.sent + [q'.active.value]
  }

  lemma IdleRequest(st: State, s: SessionId, kind: Kind, reference: Option<Reference>, limit: int) returns (q': Queue)
    requires s in st.sessions && Inv(st.sessions[s].queue)
    requires st.sessions[s].queue.active.None? && st.sessions[s].queue.pending.None?
    ensures Asked(st.sessions[s].queue, q', kind)
    ensures RequestFrom(st, s, kind, reference, limit).sessions == st.sessions[s := st.sessions[s].(queue := q')]
    ensures RequestFrom(st, s, kind, reference, limit) == st.(sessions := st.sessions[s := st.sessions[s].(queue := q')])
    ensures q'.active.None? ==> !CanSend(st, s)
  {
    q' := RequestFrom(st, s, kind, reference, limit).sessions[s].queue;
    assert st.sessions == st.sessions[s := st.sessions[s]];
  }

  /** What StartBefore makes of its session. */
  lemma StartBeforeEffect(st: State, t: SessionId) returns (x: Session)
    requires t in st.sessions && SessionOk(st.sessions[t]) && NeedsBefore(st, t)
    ensures SessionOk(x) && !Waiting(x) && !Waiting(st.sessions[t])
    ensures OnlySession(st, StartBefore(st, t), t, x)
    ensures StartBefore(st, t).latestPending == st.latestPending
  {
    var sess := st.sessions[t];
    var y := sess.(loop := sess.loop.(isBefore := true));
    var st1 := PutLoop(st.(beforeSess := Some(t)), t, y.loop);
    if HasText(sess.oldest) {
      var q' := IdleRequest(st1, t, Before, Some(Msgid(sess.oldest.value)), BEFORE_LIMIT);
      x := y.(queue := q');
    } else {
      x := FinishCatchup(st1, t).sessions[t];
    }
    assert st1.sessions[t := x] == st.sessions[t := x];
  }

  predicate Same(st: State, st': State) {
    st'.sessions == st.sessions && st'.chunks == st.chunks && st'.nextChunk == st.nextChunk
  }

  /** CheckBefore either leaves the sessions alone or starts paging on one. */
  lemma CheckBeforeEffect(env: Env, st: State) returns (t: Option<SessionId>, x: Session)
    requires SessionsOk(st.sessions)
    ensures CheckBefore(env, st).latestPending == st.latestPending
    ensures t.None? ==> Same(st, CheckBefore(env, st))
    ensures t.Some? ==>
      t.value in st.sessions && st.latestPending == 0 && NeedsBefore(st, t.value) && SessionOk(x) && !Waiting(x) &&
      !Waiting(st.sessions[t.value]) && OnlySession(st, CheckBefore(env, st), t.value, x)
  {
    hide StartBefore;
    t := PickBefore(env, st);
    PickedNeeds(env, st);
    if !st.connected || !st.haveChathistory || st.latestPending > 0 || BeforeBusy(st) {
      t := None;
    }
    x := Fresh(0, false, None, D.Seen({}, {}));
    if t.Some? {
      x := StartBeforeEffect(st, t.value);
    }
  }

  lemma CheckBeforeOwed(env: Env, st: State)
    requires SessionsOk(st.sessions)
    ensures Owed(CheckBefore(env, st)) == Owed(st)
    ensures CheckBefore(env, st).latestPending == st.latestPending
  {
    hide CheckBefore, Waiting;
    var t, x := CheckBeforeEffect(env, st);
    if t.Some? {
      WaitingPut(st.sessions, t.value, x);
    }
  }

  lemma CheckBeforeBooks(env: Env, st: State)
    requires Books(st)
    ensures Books(CheckBefore(env, st))
  {
    hide CheckBefore;
    CheckBeforeOwed(env, st);
    var t, x := CheckBeforeEffect(env, st);
    if t.Some? {
      NothingOwedNoSlots(st);
      IdleHasNoOwn(st, t.value);
      SessionKeepsOrderly(st, CheckBefore(env, st), t.value, x);
    }
  }

  lemma NothingOwedNoSlots(st: State)
    requires Owed(st) == 0
    ensures SlotsIn(st.chunks) == {} && WaitingIn(st.sessions) == {}
  {
  }

  lemma CheckBeforeAtZeroBooks(env: Env, st: State)
    requires Books(st)
    ensures Books(CheckBeforeAtZero(env, st))
  {
    hide CheckBefore, Books;
    if st.latestPending == 0 {
      CheckBeforeBooks(env, st);
    }
  }

  // ----- finishing a batch -----

  /** The books are in order but for `k` slots held by a batch being finished. */
  predicate BooksOff(st: State, k: nat) {
    Orderly(st) && st.latestPending == Owed(st) + k
  }

  /** A session without a request of its own, in the catch-up loop. */
  predicate Idle(x: Session) {
    SessionOk(x) && x.queue.active.None? && x.loop.inProgress
  }

  lemma IdleIsQuiet(x: Session)
    requires Idle(x)
    ensures !Unanswered(x) && !Waiting(x)
  {
  }

  lemma SessionKeepsBooksOff(st: State, st': State, s: SessionId, x: Session, k: nat)
    requires BooksOff(st, k) && NoOwn(st, s) && s in st.sessions
    requires SessionOk(x) && OnlySession(st, st', s, x) && Waiting(x) == Waiting(st.sessions[s])
    requires st'.latestPending == st.latestPending
    ensures BooksOff(st', k) && NoOwn(st', s)
  {
    SessionKeepsOrderly(st, st', s, x);
    hide Orderly, Waiting;
    WaitingPut(st.sessions, s, x);
  }

  lemma FinishCatchupBooks(st: State, s: SessionId, k: nat)
    requires BooksOff(st, k) && s in st.sessions && NoOwn(st, s) && Idle(st.sessions[s])
    ensures BooksOff(FinishCatchup(st, s), k)
  {
    SessionKeepsBooksOff(st, FinishCatchup(st, s), s, FinishCatchup(st, s).sessions[s], k);
  }

  lemma ContinueBooks(env: Env, st: State, s: SessionId, msgCount: nat)
    requires s in st.sessions && Books(st) && NoOwn(st, s) && Idle(st.sessions[s])
    ensures Books(ApplyVerdict(env, st, s, msgCount, Continue))
  {
    var x := st.sessions[s];
    var x' := x.(loop := x.loop.(stale := if msgCount == 0 then x.loop.stale + 1 else 0));
    SessionKeepsBooksOff(st, ApplyVerdict(env, st, s, msgCount, Continue), s, x', 0);
  }

  lemma EndLoopBooks(env: Env, st: State, s: SessionId)
    requires s in st.sessions && Books(st) && NoOwn(st, s) && Idle(st.sessions[s])
    ensures Books(CheckBefore(env, FinishCatchup(st, s)))
  {
    hide CheckBefore, FinishCatchup, Books, BooksOff, NoOwn, Idle;
    BooksOffZero(st);
    FinishCatchupBooks(st, s, 0);
    BooksOffZero(FinishCatchup(st, s));
    CheckBeforeBooks(env, FinishCatchup(st, s));
  }

  lemma ExhaustBooks(st: State, s: SessionId)
    requires s in st.sessions && Books(st) && NoOwn(st, s) && Idle(st.sessions[s])
    ensures var st' := Put(st, s, st.sessions[s].(exhausted := true));
      Books(st') && NoOwn(st', s) && Idle(st'.sessions[s])
  {
    var x := st.sessions[s].(exhausted := true);
    SessionKeepsBooksOff(st, Put(st, s, x), s, x, 0);
  }

  lemma ApplyVerdictBooks(env: Env, st: State, s: SessionId, msgCount: nat, verdict: Verdict)
    requires s in st.sessions && Books(st) && NoOwn(st, s) && Idle(st.sessions[s])
    ensures Books(ApplyVerdict(env, st, s, msgCount, verdict))
  {
    hide CheckBefore, FinishCatchup, Books, NoOwn, Idle;
    match verdict {
      case Continue => ContinueBooks(env, st, s, msgCount);
      case Stale =>
        ExhaustBooks(st, s);
        EndLoopBooks(env, Put(st, s, st.sessions[s].(exhausted := true)), s);
      case _ => EndLoopBooks(env, st, s);
    }
  }

  lemma FinishBeforeBooks(env: Env, st: State, ch: Chunk)
    requires ch.sess in st.sessions && Books(st) && NoOwn(st, ch.sess)
    requires Idle(st.sessions[ch.sess])
    ensures Books(FinishBefore(env, st, ch))
  {
    var sess := CountPage(st.sessions[ch.sess], ch);
    var verdict := JudgePage(env, sess, ch);
    hide ApplyVerdict, JudgePage, RowAfterPage;
    var st1 := Put(st, ch.sess, sess).(gaps := RowAfterPage(st.gaps, sess.loop.gapId, ch, verdict));
    SessionKeepsBooksOff(st, st1, ch.sess, sess, 0);
    ApplyVerdictBooks(env, st1, ch.sess, ch.msgCount, verdict);
  }

  lemma WitnessBooks(env: Env, st: State, ch: Chunk, k: nat)
    requires ch.sess in st.sessions && BooksOff(st, k) && NoOwn(st, ch.sess) && Idle(st.sessions[ch.sess])
    ensures BooksOff(WitnessHole(env, st, ch), k)
  {
    var st' := WitnessHole(env, st, ch);
    assert st.sessions == st.sessions[ch.sess := st.sessions[ch.sess]];
    SessionKeepsBooksOff(st, st', ch.sess, st'.sessions[ch.sess], k);
  }

  lemma FinishLatestBooks(env: Env, st: State, ch: Chunk)
    requires ch.sess in st.sessions && BooksOff(st, 1) && NoOwn(st, ch.sess)
    requires Idle(st.sessions[ch.sess]) && ch.latestOwned
    ensures Books(FinishLatest(env, st, ch))
  {
    WitnessBooks(env, st, ch, 1);
    var st1 := WitnessHole(env, st, ch);
    hide WitnessHole;
    assert Orderly(ReturnSlot(st1, true));
    CheckBeforeAtZeroBooks(env, ReturnSlot(st1, true));
  }

  /** The batch, no longer listed, and its session. */
  predicate Attached(st: State, ch: Chunk) {
    ChunkShape(ch) && ch.sess in st.sessions && Fits(ch, st.sessions[ch.sess]) && (Own(ch) ==> NoOwn(st, ch.sess))
  }

  lemma NotedBooks(st: State, ch: Chunk, k: nat)
    requires Attached(st, ch) && Own(ch) && BooksOff(st, k)
    ensures ch.sess in Noted(st, ch).sessions
    ensures BooksOff(Noted(st, ch), k) && NoOwn(Noted(st, ch), ch.sess)
    ensures Idle(Noted(st, ch).sessions[ch.sess])
    ensures Noted(st, ch).sessions[ch.sess].loop == st.sessions[ch.sess].loop
  {
    var x := Noted(st, ch).sessions[ch.sess];
    assert Idle(x);
    SessionKeepsBooksOff(st, Noted(st, ch), ch.sess, x, k);
  }

  lemma FinishPlainBooks(env: Env, st: State, ch: Chunk)
    requires Attached(st, ch) && !Own(ch) && Books(st)
    ensures Books(FinishBatch(env, st, ch))
  {
    var x := st.sessions[ch.sess];
    assert SessionOk(x);
    assert NoteBatch(x, ch) == x && x.(background := BackgroundGoesOn(env, x, ch)) == x;
    hide BackgroundGoesOn, NoteBatch, SessionOk, Fits, OneOwn, NoOwn;
    var st1 := Noted(st, ch);
    assert st1.sessions == st.sessions;
    var st' := FinishPlain(env, st1, ch);
    assert st'.sessions == st.sessions && st'.chunks == st.chunks;
  }

  /** Finishing a batch hands back exactly the slot it held. */
  lemma FinishBatchBooks(env: Env, st: State, ch: Chunk)
    requires Attached(st, ch) && BooksOff(st, One(ch.slotOwed))
    ensures Books(FinishBatch(env, st, ch))
  {
    hide Noted, FinishBefore, FinishLatest, Books, BooksOff, Idle, NoOwn, SessionOk;
    if !Own(ch) {
      BooksOffZero(st);
      FinishPlainBooks(env, st, ch);
    } else {
      NotedBooks(st, ch, One(ch.slotOwed));
      if ch.slotOwed {
        FinishLatestBooks(env, Noted(st, ch), ch);
      } else {
        BooksOffZero(Noted(st, ch));
        FinishBeforeBooks(env, Noted(st, ch), ch);
      }
    }
  }

  lemma BooksOffZero(st: State)
    ensures BooksOff(st, 0) <==> Books(st)
  {
  }

  // ----- batches in progress -----

  /** `x'` is `x` but for what it has shown and the batch it points to. */
  predicate Alike(x: Session, x': Session) {
    x' == x.(seen := x'.seen, oldest := x'.oldest, chunk := x'.chunk)
  }

  lemma AlikeKeepsBooksOff(st: State, st': State, s: SessionId, k: nat)
    requires BooksOff(st, k) && s in st.sessions && s in st'.sessions && Alike(st.sessions[s], st'.sessions[s])
    requires OnlySession(st, st', s, st'.sessions[s]) && st'.latestPending == st.latestPending
    ensures BooksOff(st', k)
  {
    hide Waiting;
    assert Waiting(st'.sessions[s]) == Waiting(st.sessions[s]) by { AlikeWaits(st.sessions[s], st'.sessions[s]); }
    WaitingPut(st.sessions, s, st'.sessions[s]);
  }

  lemma AlikeWaits(x: Session, x': Session)
    requires Alike(x, x')
    ensures Waiting(x) == Waiting(x')
  {
  }

  /** Taking a batch off the list leaves the books off by the slot it holds. */
  lemma UnlistBooks(st: State, c: ChunkId)
    requires Books(st) && c in st.chunks
    ensures BooksOff(st.(chunks := st.chunks - {c}), One(st.chunks[c].slotOwed))
    ensures st.chunks[c].sess in st.sessions ==> Attached(st.(chunks := st.chunks - {c}), st.chunks[c])
  {
    SlotsRemove(st.chunks, c);
  }

  lemma ForgetBooks(st: State, c: ChunkId)
    requires Books(st) && c in st.chunks
    ensures BooksOff(ForgetChunk(st, c), One(st.chunks[c].slotOwed))
    ensures st.chunks[c].sess in st.sessions ==> Attached(ForgetChunk(st, c), st.chunks[c])
  {
    hide Books, BooksOff;
    UnlistBooks(st, c);
    var s, st1 := st.chunks[c].sess, st.(chunks := st.chunks - {c});
    if s in st.sessions && st.sessions[s].chunk == Some(c) {
      AlikeKeepsBooksOff(st1, ForgetChunk(st, c), s, One(st.chunks[c].slotOwed));
    }
  }

  /** `ch'` is `ch` further along. */
  predicate Advanced(ch: Chunk, ch': Chunk) {
    ch' == ch.(remaining := ch'.remaining, msgCount := ch'.msgCount, oldest := ch'.oldest, newest := ch'.newest)
  }

  lemma ReplaceChunkBooks(st: State, c: ChunkId, ch': Chunk)
    requires Books(st) && c in st.chunks && Advanced(st.chunks[c], ch')
    ensures Books(st.(chunks := st.chunks[c := ch']))
  {
    SlotsPut(st.chunks, c, ch');
  }

  lemma ShowBooks(st: State, s: SessionId, sess: Session, k: nat)
    requires BooksOff(st, k) && s in st.sessions && Alike(st.sessions[s], sess)
    ensures BooksOff(Put(st, s, sess), k)
  {
    AlikeKeepsBooksOff(st, Put(st, s, sess), s, k);
  }

  lemma AdvancedAttached(st: State, s: SessionId, sess: Session, ch: Chunk, ch': Chunk)
    requires Attached(st, ch) && ch.sess == s && Alike(st.sessions[s], sess) && Advanced(ch, ch')
    ensures Attached(Put(st, s, sess), ch')
  {
  }

  lemma TickBooks(env: Env, st: State, c: ChunkId)
    requires Books(st)
    ensures Books(ChunkTick(env, st, c))
  {
    if c in st.chunks {
      var ch := st.chunks[c];
      hide FinishBatch, Books, BooksOff, Attached, ForgetChunk;
      BooksOffZero(st);
      if ch.sess !in st.sessions {
        AbandonBooks(st, c);
      } else {
        var (sess, ch') := TakeChunk(st.sessions[ch.sess], ch);
        var st1 := Put(st, ch.sess, sess);
        ShowBooks(st, ch.sess, sess, 0);
        BooksOffZero(st1);
        if ch'.remaining != [] {
          ReplaceChunkBooks(st1, c, ch');
        } else {
          ForgetBooks(st1, c);
          FurtherAttached(ForgetChunk(st1, c), ch, ch');
          FinishBatchBooks(env, ForgetChunk(st1, c), ch');
        }
      }
    }
  }

  lemma FurtherAttached(st: State, ch: Chunk, ch': Chunk)
    requires Attached(st, ch) && Advanced(ch, ch')
    ensures Attached(st, ch')
  {
  }

  lemma SlotMeansPending(st: State, c: ChunkId)
    requires Balanced(st) && c in st.chunks && st.chunks[c].slotOwed
    ensures st.latestPending > 0
  {
    assert c in SlotsIn(st.chunks);
  }

  lemma ReleaseCommutes(st: State, c: ChunkId)
    requires c in st.chunks
    ensures ForgetChunk(ReleaseSlot(st, st.chunks[c]), c)
         == ForgetChunk(st, c).(latestPending := ReleaseSlot(st, st.chunks[c]).latestPending)
    ensures ForgetChunk(st, c).latestPending == st.latestPending
  {
  }

  /** Abandoning a batch gives its slot back. */
  lemma AbandonBooks(st: State, c: ChunkId)
    requires Books(st) && c in st.chunks
    ensures Books(ForgetChunk(ReleaseSlot(st, st.chunks[c]), c))
  {
    hide Books, BooksOff, ForgetChunk, SlotsIn;
    ForgetBooks(st, c);
    ReleaseCommutes(st, c);
    if st.chunks[c].slotOwed {
      BalancedOf(st);
      SlotMeansPending(st, c);
    }
    SameBooks(ForgetChunk(st, c), ForgetChunk(ReleaseSlot(st, st.chunks[c]), c), One(st.chunks[c].slotOwed));
  }

  lemma BalancedOf(st: State)
    requires Books(st)
    ensures Balanced(st)
  {
  }

  lemma SameBooks(st: State, st': State, k: nat)
    requires BooksOff(st, k) && Same(st, st') && st'.latestPending + k == st.latestPending
    ensures Books(st')
  {
  }

  // ----- a batch arrives -----

  lemma ListBooks(st: State, ch: Chunk)
    requires Attached(st, ch) && BooksOff(st, One(ch.slotOwed))
    ensures Books(st.(chunks := st.chunks[st.nextChunk := ch], nextChunk := st.nextChunk + 1))
  {
    SlotsPut(st.chunks, st.nextChunk, ch);
  }

  lemma StartBatchBooks(env: Env, st: State, ch: Chunk)
    requires Attached(st, ch) && BooksOff(st, One(ch.slotOwed))
    ensures Books(StartBatch(env, st, ch))
  {
    var s := ch.sess;
    if ch.rawCount <= D.CHUNK_SIZE {
      var (sess, ch') := TakeChunk(st.sessions[s], ch);
      hide FinishBatch, Books;
      ShowBooks(st, s, sess, One(ch.slotOwed));
      AdvancedAttached(st, s, sess, ch, ch');
      FinishBatchBooks(env, Put(st, s, sess), ch');
    } else {
      var sess := st.sessions[s].(chunk := Some(st.nextChunk));
      hide Books;
      ShowBooks(st, s, sess, One(ch.slotOwed));
      AdvancedAttached(st, s, sess, ch, ch);
      ListBooks(Put(st, s, sess), ch);
    }
  }

  lemma AdoptBooks(env: Env, st: State, s: SessionId)
    requires Books(st) && s in st.sessions && !st.sessions[s].loop.inProgress
    ensures s in Adopt(env, st, s).sessions
    ensures BooksOff(Adopt(env, st, s), 1) && NoOwn(Adopt(env, st, s), s) && Idle(Adopt(env, st, s).sessions[s])
    ensures !Adopt(env, st, s).sessions[s].loop.isBefore
  {
    assert SessionOk(st.sessions[s]);
    IdleHasNoOwn(st, s);
    var st1 := EnterLatestPhase(env, st, s);
    var x := st1.sessions[s];
    SessionKeepsBooksOff(st, st1, s, x, 0);
    assert Same(st1, Adopt(env, st, s));
  }

  /** An idle session asks; with the wire open it now waits for the answer. */
  lemma AskBooks(st: State, s: SessionId, reference: Option<Reference>, limit: int, k: nat)
    requires BooksOff(st, k) && s in st.sessions && NoOwn(st, s) && Idle(st.sessions[s]) && Online(st)
    requires k == One(!st.sessions[s].loop.isBefore)
    ensures Books(RequestFrom(st, s, Latest, reference, limit))
    ensures Online(RequestFrom(st, s, Latest, reference, limit))
  {
    var q' := IdleRequest(st, s, Latest, reference, limit);
    var x := st.sessions[s].(queue := q');
    assert SessionOk(x) && Waiting(x) == !x.loop.isBefore;
    IdleIsQuiet(st.sessions[s]);
    SessionKeepsOrderly(st, RequestFrom(st, s, Latest, reference, limit), s, x);
    hide Waiting, RequestFrom, Orderly;
    WaitingPut(st.sessions, s, x);
  }

  // ----- the fan-out -----

  lemma SendDeferredBooks(env: Env, st: State, s: SessionId)
    requires Books(st) && Online(st) && s in st.sessions
    ensures Books(SendDeferredLatest(env, st, s)) && Online(SendDeferredLatest(env, st, s))
  {
    if WantsLatest(st.sessions[s]) {
      AdoptBooks(env, st, s);
      var st1 := EnterLatestPhase(env, st, s);
      var a := Adopt(env, st, s);
      hide EnterLatestPhase, LatestReference, RequestFrom, Books, BooksOff, NoOwn, Idle;
      AskBooks(a, s, LatestReference(st1.sessions[s]), env.lines, 1);
      RequestIgnoresPending(st1, a, s, LatestReference(st1.sessions[s]), env.lines);
    }
  }

  lemma RequestIgnoresPending(st: State, st': State, s: SessionId, reference: Option<Reference>, limit: int)
    requires s in st.sessions && st' == st.(latestPending := st.latestPending + 1)
    ensures RequestFrom(st', s, Latest, reference, limit)
         == RequestFrom(st, s, Latest, reference, limit).(latestPending := st.latestPending + 1)
    ensures RequestFrom(st, s, Latest, reference, limit).latestPending == st.latestPending
  {
  }

  lemma {:induction false} SendAllBooks(env: Env, st: State, ids: seq<SessionId>)
    requires Books(st) && Online(st)
    ensures Books(SendAll(env, st, ids))
    decreases |ids|
  {
    hide SendDeferredLatest, Books;
    if ids != [] {
      if ids[0] in st.sessions {
        SendDeferredBooks(env, st, ids[0]);
      }
      SendAllBooks(env, if ids[0] in st.sessions then SendDeferredLatest(env, st, ids[0]) else st, ids[1..]);
    }
  }

  lemma FanOutBooks(env: Env, st: State)
    requires Books(st) && Online(st) && st.latestPending == 0
    ensures Books(FanOut(env, st))
  {
    assert st.(latestPending := 0) == st;
    hide Books;
    SendAllBooks(env, st, FanOutOrder(st));
  }

  // ----- a batch or a FAIL arrives -----

  /** The server has answered: the slot is now held by the answer. */
  predicate AnswerInHand(st: State, s: SessionId) {
    s in st.sessions && SessionOk(st.sessions[s]) && st.sessions[s].queue.active.Some? &&
    !Unanswered(st.sessions[s]) && NoOwn(st, s) && BooksOff(st, One(!st.sessions[s].loop.isBefore))
  }

  lemma AnsweredBooks(st: State, s: SessionId)
    requires Books(st) && s in st.sessions && Unanswered(st.sessions[s])
    ensures AnswerInHand(Answered(st, s), s)
  {
    var x := st.sessions[s].(answered := st.sessions[s].answered + 1);
    assert SessionOk(st.sessions[s]) && SessionOk(x);
    SessionKeepsOrderly(st, Answered(st, s), s, x);
    WaitingPut(st.sessions, s, x);
  }

  lemma RetireBooks(st: State, s: SessionId)
    requires AnswerInHand(st, s)
    ensures var st' := RequestComplete(st, s);
      s in st'.sessions && Idle(st'.sessions[s]) && NoOwn(st', s) &&
      st'.sessions[s].loop == st.sessions[s].loop && BooksOff(st', One(!st.sessions[s].loop.isBefore))
  {
    var st' := RequestComplete(st, s);
    var x := st'.sessions[s];
    assert Idle(x);
    SessionKeepsBooksOff(st, st', s, x, One(!st.sessions[s].loop.isBefore));
  }

  lemma ReturnBooks(env: Env, st: State, s: SessionId, k: nat)
    requires BooksOff(st, k) && s in st.sessions && NoOwn(st, s) && Idle(st.sessions[s])
    requires k == 1 || (k == 0 && st.latestPending == 0)
    ensures Books(CheckBeforeAtZero(env, ReturnSlot(FinishCatchup(st, s), true)))
  {
    hide CheckBeforeAtZero, FinishCatchup, NoOwn, Idle;
    FinishCatchupBooks(st, s, k);
    FinishKeepsPending(st, s);
    var st1 := FinishCatchup(st, s);
    SameBooks(st1, ReturnSlot(st1, true), k);
    hide Books;
    CheckBeforeAtZeroBooks(env, ReturnSlot(st1, true));
  }

  lemma FinishKeepsPending(st: State, s: SessionId)
    requires s in st.sessions
    ensures FinishCatchup(st, s).latestPending == st.latestPending
  {
  }

  /** The fallback from a msgid reference to the timestamp is taken. */
  predicate Retries(x: Session, usedMsgid: bool) {
    !x.exhausted && usedMsgid && x.sbNewestTime > 0
  }

  lemma EmptyCatchupBooks(env: Env, st: State, s: SessionId, usedMsgid: bool, unsolicited: bool, k: nat)
    requires BooksOff(st, k) && s in st.sessions && NoOwn(st, s) && Idle(st.sessions[s]) && Online(st)
    requires k == One(!st.sessions[s].loop.isBefore)
    requires k == 1 || st.latestPending == 0 || (!unsolicited && Retries(st.sessions[s], usedMsgid))
    ensures Books(EmptyCatchup(env, st, s, usedMsgid, unsolicited, true))
  {
    hide BooksOff, NoOwn, Idle, CheckBeforeAtZero, FinishCatchup, RequestFrom, Books;
    if !unsolicited && Retries(st.sessions[s], usedMsgid) {
      AskBooks(st, s, Some(Timestamp(st.sessions[s].sbNewestTime)), env.lines, k);
    } else {
      ReturnBooks(env, st, s, k);
    }
  }

  lemma MarkBooks(st: State, s: SessionId, when: bool)
    requires AnswerInHand(st, s)
    ensures AnswerInHand(MarkExhausted(st, s, when), s)
    ensures MarkExhausted(st, s, when).sessions[s] == st.sessions[s].(exhausted := st.sessions[s].exhausted || when)
    ensures MarkExhausted(st, s, when).latestPending == st.latestPending && (Online(st) ==> Online(MarkExhausted(st, s, when)))
  {
    if when {
      var x := st.sessions[s].(exhausted := true);
      SessionKeepsBooksOff(st, Put(st, s, x), s, x, One(!st.sessions[s].loop.isBefore));
    }
  }

  /** The empty reply to a BEFORE page takes a slot that is not its own. */
  predicate TakesForeignSlot(st: State, s: SessionId, msgs: seq<D.Message>, ended: bool) {
    s in st.sessions && msgs == [] && st.sessions[s].loop.isBefore && st.latestPending > 0 &&
    (ended || !Retries(st.sessions[s], st.sessions[s].queue.usedMsgid))
  }

  lemma EmptyReplyBooks(env: Env, st: State, s: SessionId, ended: bool, dir: int)
    requires AnswerInHand(st, s) && Online(st) && !TakesForeignSlot(st, s, [], ended)
    ensures Books(EmptyBatch(env, st, s, ended, true, false, true, 0, dir))
  {
    hide AnswerInHand, EmptyCatchup, RequestComplete, MarkExhausted, Books, BooksOff, NoOwn, Idle;
    InHandHasSession(st, s);
    MarkBooks(st, s, ended);
    var st1 := MarkExhausted(st, s, ended);
    InHandHasSession(st1, s);
    RetireBooks(st1, s);
    CompleteKeeps(st1, s);
    var st2 := RequestComplete(st1, s);
    EmptyCatchupBooks(env, st2, s, st.sessions[s].queue.usedMsgid, false, One(!st.sessions[s].loop.isBefore));
  }

  lemma InHandHasSession(st: State, s: SessionId)
    requires AnswerInHand(st, s)
    ensures s in st.sessions
  {
  }

  lemma CompleteKeeps(st: State, s: SessionId)
    requires s in st.sessions
    ensures var st' := RequestComplete(st, s);
      s in st'.sessions && st'.latestPending == st.latestPending && (Online(st) ==> Online(st')) &&
      st'.sessions[s].exhausted == st.sessions[s].exhausted && st'.sessions[s].sbNewestTime == st.sessions[s].sbNewestTime
  {
  }

  lemma ReplyChunkAttached(st: State, s: SessionId, msgs: seq<D.Message>, ended: bool, dir: int)
    requires AnswerInHand(st, s)
    ensures var ch := NewChunk(st, s, msgs, ended, true, false, true, 0, dir);
      ch.sess == s && Attached(st, ch) && BooksOff(st, One(ch.slotOwed))
  {
    hide SortByTime, CursorMsgids;
  }

  lemma InHandIsCatchup(st: State, s: SessionId)
    requires AnswerInHand(st, s)
    ensures !Unsolicited(st.sessions[s], false) && st.sessions[s].loop.inProgress
    ensures st.sessions[s].queue.active.Some? && st.sessions[s].queue.active.value.gapId == 0
  {
  }

  /** A reply to a catch-up request of ours is processed as catch-up. */
  lemma SolicitedBatch(env: Env, st: State, s: SessionId, msgs: seq<D.Message>, ended: bool)
    requires s in st.sessions && !Unsolicited(st.sessions[s], false) && st.sessions[s].loop.inProgress
    requires st.sessions[s].queue.active.Some? && st.sessions[s].queue.active.value.gapId == 0
    ensures ProcessBatch(env, st, s, false, msgs, ended) ==
            if msgs == [] then EmptyBatch(env, st, s, ended, true, false, true, 0, st.sessions[s].queue.active.value.gapDir)
            else StartBatch(env, st, NewChunk(st, s, msgs, ended, true, false, true, 0,
                                              st.sessions[s].queue.active.value.gapDir))
  {
    hide EmptyBatch, StartBatch, NewChunk, Adopt, Adoptable;
  }

  lemma ReplyBooks(env: Env, st: State, s: SessionId, msgs: seq<D.Message>, ended: bool)
    requires Books(st) && Online(st) && s in st.sessions && Unanswered(st.sessions[s])
    requires !TakesForeignSlot(st, s, msgs, ended)
    ensures Books(ProcessBatch(env, Answered(st, s), s, false, msgs, ended))
  {
    hide ProcessBatch, Books, AnswerInHand, Attached, BooksOff, EmptyBatch, StartBatch, NewChunk, Unsolicited;
    AnsweredBooks(st, s);
    var st0 := Answered(st, s);
    InHandIsCatchup(st0, s);
    SolicitedBatch(env, st0, s, msgs, ended);
    var dir := st0.sessions[s].queue.active.value.gapDir;
    if msgs == [] {
      EmptyReplyBooks(env, st0, s, ended, dir);
    } else {
      ReplyChunkAttached(st0, s, msgs, ended, dir);
      StartBatchBooks(env, st0, NewChunk(st0, s, msgs, ended, true, false, true, 0, dir));
    }
  }

  /** What an unsolicited batch is processed as. */
  lemma UnsolicitedBatch(env: Env, st: State, s: SessionId, nested: bool, msgs: seq<D.Message>, ended: bool)
    requires s in st.sessions && Unsolicited(st.sessions[s], nested)
    ensures
      var adopted := Adoptable(env, st, st.sessions[s]);
      var st1 := if adopted then Adopt(env, st, s) else st;
      ProcessBatch(env, st, s, nested, msgs, ended) ==
        if msgs == [] then EmptyBatch(env, st1, s, ended, adopted, true, adopted, 0, 0)
        else StartBatch(env, st1, NewChunk(st1, s, msgs, ended, adopted, true, adopted, 0, 0))
  {
    hide EmptyBatch, StartBatch, NewChunk;
  }

  lemma AdoptedChunkAttached(st: State, s: SessionId, msgs: seq<D.Message>, ended: bool, dir: int)
    requires s in st.sessions && BooksOff(st, 1) && NoOwn(st, s) && Idle(st.sessions[s]) && !st.sessions[s].loop.isBefore
    ensures var ch := NewChunk(st, s, msgs, ended, true, true, true, 0, dir);
      ch.sess == s && Attached(st, ch) && BooksOff(st, One(ch.slotOwed))
  {
    hide SortByTime, CursorMsgids;
  }

  lemma PlainChunkAttached(st: State, s: SessionId, msgs: seq<D.Message>, ended: bool, dir: int)
    requires s in st.sessions && Books(st)
    ensures var ch := NewChunk(st, s, msgs, ended, false, true, false, 0, dir);
      ch.sess == s && Attached(st, ch) && BooksOff(st, One(ch.slotOwed))
  {
    hide SortByTime, CursorMsgids;
  }

  lemma EmptyUnsolicited(env: Env, st: State, s: SessionId, ended: bool, adopted: bool, dir: int)
    requires s in st.sessions
    ensures EmptyBatch(env, st, s, ended, adopted, true, adopted, 0, dir) ==
            if adopted then EmptyCatchup(env, st, s, st.sessions[s].queue.usedMsgid, true, true) else st
  {
    hide EmptyCatchup, EmptyFill;
  }

  lemma UnaskedBooks(env: Env, st: State, s: SessionId, nested: bool, msgs: seq<D.Message>, ended: bool)
    requires Books(st) && Online(st) && s in st.sessions
    requires nested || st.sessions[s].queue.active.None?
    ensures Books(ProcessBatch(env, st, s, nested, msgs, ended))
  {
    assert SessionOk(st.sessions[s]);
    hide ProcessBatch, Books, Attached, BooksOff, NoOwn, Idle, EmptyBatch, EmptyCatchup, StartBatch, NewChunk, Adopt;
    UnsolicitedBatch(env, st, s, nested, msgs, ended);
    if Adoptable(env, st, st.sessions[s]) {
      AdoptBooks(env, st, s);
      AdoptOnline(env, st, s);
      var st1 := Adopt(env, st, s);
      if msgs == [] {
        EmptyUnsolicited(env, st1, s, ended, true, 0);
        EmptyCatchupBooks(env, st1, s, st1.sessions[s].queue.usedMsgid, true, 1);
      } else {
        AdoptedChunkAttached(st1, s, msgs, ended, 0);
        StartBatchBooks(env, st1, NewChunk(st1, s, msgs, ended, true, true, true, 0, 0));
      }
    } else if msgs == [] {
      EmptyUnsolicited(env, st, s, ended, false, 0);
    } else {
      PlainChunkAttached(st, s, msgs, ended, 0);
      StartBatchBooks(env, st, NewChunk(st, s, msgs, ended, false, true, false, 0, 0));
    }
  }

  lemma AdoptOnline(env: Env, st: State, s: SessionId)
    requires s in st.sessions && Online(st)
    ensures Online(Adopt(env, st, s))
  {
  }

  // ----- FAIL -----

  lemma NoteFailInHand(st: State, s: SessionId, badCommand: bool)
    requires AnswerInHand(st, s)
    ensures AnswerInHand(NoteFail(st, s, badCommand), s)
    ensures NoteFail(st, s, badCommand).sessions == st.sessions
  {
    var st' := NoteFail(st, s, badCommand);
    assert st'.sessions == st.sessions && st'.chunks == st.chunks && st'.nextChunk == st.nextChunk;
    assert Owed(st') == Owed(st);
  }

  lemma FailedBatch(env: Env, st: State, s: SessionId, badCommand: bool)
    requires s in st.sessions && st.sessions[s].loop.inProgress
    requires st.sessions[s].queue.active.Some? && st.sessions[s].queue.active.value.gapId == 0
    ensures HandleFail(env, st, s, badCommand) ==
            FailedCatchup(env, RequestComplete(NoteFail(st, s, badCommand), s), s, st.sessions[s].queue.usedMsgid,
                          !st.sessions[s].loop.isBefore)
  {
    hide FailedCatchup, FailedFill;
  }

  lemma FailedCatchupBooks(env: Env, st: State, s: SessionId, usedMsgid: bool)
    requires s in st.sessions && BooksOff(st, One(!st.sessions[s].loop.isBefore))
    requires NoOwn(st, s) && Idle(st.sessions[s]) && st.haveChathistory && st.connected
    ensures Books(FailedCatchup(env, st, s, usedMsgid, !st.sessions[s].loop.isBefore))
  {
    var k := !st.sessions[s].loop.isBefore;
    hide RequestFrom, CheckBeforeAtZero, FinishCatchup, Orderly, Waiting;
    if !st.suppressed && usedMsgid && st.sessions[s].sbNewestTime > 0 {
      AskBooks(st, s, Some(Timestamp(st.sessions[s].sbNewestTime)), env.lines, One(k));
    } else {
      var st1 := ReturnSlot(st, k);
      SameOrderly(st, st1);
      FinishCatchupBooks(st1, s, 0);
      CheckBeforeAtZeroBooks(env, FinishCatchup(st1, s));
    }
  }

  lemma SameOrderly(st: State, st': State)
    requires Orderly(st) && Same(st, st')
    ensures Orderly(st') && Owed(st') == Owed(st)
  {
  }

  lemma FailBooks(env: Env, st: State, s: SessionId, badCommand: bool)
    requires Books(st) && Online(st) && s in st.sessions && Unanswered(st.sessions[s])
    ensures Books(HandleFail(env, Answered(st, s), s, badCommand))
  {
    hide HandleFail, Books, BooksOff, NoOwn, Idle, AnswerInHand, FailedCatchup, NoteFail, RequestComplete, Unsolicited;
    AnsweredBooks(st, s);
    var st0 := Answered(st, s);
    InHandIsCatchup(st0, s);
    FailedBatch(env, st0, s, badCommand);
    NoteFailInHand(st0, s, badCommand);
    var st1 := NoteFail(st0, s, badCommand);
    RetireBooks(st1, s);
    CompleteStaysConnected(st0, s, badCommand);
    FailedCatchupBooks(env, RequestComplete(st1, s), s, st0.sessions[s].queue.usedMsgid);
  }

  lemma CompleteStaysConnected(st: State, s: SessionId, badCommand: bool)
    requires s in st.sessions && Online(st)
    ensures var st' := RequestComplete(NoteFail(st, s, badCommand), s); st'.haveChathistory && st'.connected
  {
  }

  // ----- sessions come and go -----

  lemma OpenBooks(st: State, s: SessionId, x: Session)
    requires Books(st) && s !in st.sessions && SessionOk(x) && !Waiting(x)
    requires forall c <- st.chunks :: st.chunks[c].sess != s
    ensures Books(Put(st, s, x).(order := st.order + [s]))
  {
    WaitingPut(st.sessions, s, x);
  }

  lemma AbandonChunkBooks(st: State, s: SessionId)
    requires Books(st) && s in st.sessions
    ensures Books(AbandonChunk(st, s)) && s in AbandonChunk(st, s).sessions
    ensures Waiting(AbandonChunk(st, s).sessions[s]) == Waiting(st.sessions[s])
  {
    hide Waiting, Books;
    var c := st.sessions[s].chunk;
    if c.Some? && c.value in st.chunks {
      AbandonBooks(st, c.value);
      ForgottenWaits(st, c.value, s);
    }
  }

  /** Closing a session: its batch's slot comes back, an unanswered LATEST's does not. */
  lemma CloseBooks(st: State, s: SessionId, next: Option<SessionId>)
    requires Books(st) && s in st.sessions
    ensures Orderly(CloseSession(st, s, next))
    ensures CloseSession(st, s, next).latestPending == Owed(CloseSession(st, s, next)) + One(Waiting(st.sessions[s]))
  {
    hide Waiting, Books, AbandonChunk, Orderly, Owed;
    AbandonChunkBooks(st, s);
    RemoveBooks(AbandonChunk(st, s), s, CloseSession(st, s, next));
  }

  lemma ForgottenWaits(st: State, c: ChunkId, s: SessionId)
    requires c in st.chunks && s in st.sessions
    ensures var st' := ForgetChunk(ReleaseSlot(st, st.chunks[c]), c);
      s in st'.sessions && Waiting(st'.sessions[s]) == Waiting(st.sessions[s])
  {
    hide ReleaseSlot, Waiting;
    ReleaseKeeps(st, st.chunks[c]);
    var st' := ForgetChunk(ReleaseSlot(st, st.chunks[c]), c);
    assert Alike(st.sessions[s], st'.sessions[s]);
    AlikeWaits(st.sessions[s], st'.sessions[s]);
  }

  lemma ReleaseKeeps(st: State, ch: Chunk)
    ensures ReleaseSlot(st, ch) == st.(latestPending := ReleaseSlot(st, ch).latestPending)
  {
  }

  lemma RemoveBooks(st: State, s: SessionId, st': State)
    requires Books(st) && s in st.sessions
    requires st'.sessions == st.sessions - {s} && st'.chunks == st.chunks && st'.nextChunk == st.nextChunk
    requires st'.latestPending == st.latestPending
    ensures Orderly(st')
    ensures st'.latestPending == Owed(st') + One(Waiting(st.sessions[s]))
  {
    WaitingRemove(st.sessions, s);
  }

  // ----- every run of catch-up traffic -----

  /** Catch-up traffic: requests can be sent, every request is answered once,
      the fan-out starts with nothing outstanding, and nothing else asks.
      Session ids are not reused while a batch still names one. */
  predicate Traffic(st: State, e: Event) {
    Online(st) &&
    match e
    case FanOutTimer => st.latestPending == 0
    case Reply(s, msgs, ended) => s in st.sessions && Unanswered(st.sessions[s])
    case Unasked(s, msgs, ended) => s in st.sessions ==> st.sessions[s].queue.active.None?
    case Fail(context, badCommand) =>
      var s := FailTarget(st, context); s.Some? && s.value in st.sessions && Unanswered(st.sessions[s.value])
    case Open(s, channel, isChannel, oldest, seen) => forall c <- st.chunks :: st.chunks[c].sess != s
    case Replay(s, msgs, ended) => true
    case Tick(c) => true
    case BeforeTimer => true
    case TabSwitch(to) => true
    case WrapperEnd => true
    case Close(s, next) => true
    case _ => false
  }

  /** The two events that upset the count: an empty reply to a BEFORE page while
      slots are owed, and closing a session whose LATEST is unanswered. */
  predicate Upsets(st: State, e: Event) {
    (e.Reply? && TakesForeignSlot(st, e.s, e.msgs, e.ended)) ||
    (e.Close? && e.s in st.sessions && Waiting(st.sessions[e.s]))
  }

  lemma TabBooks(env: Env, st: State, to: SessionId)
    requires Books(st)
    ensures Books(Step(env, st, TabSwitch(to)))
  {
    hide CheckBefore;
    var st1 := st.(current := Some(to));
    assert Books(st1);
    CheckBeforeBooks(env, st1);
  }

  lemma TimerBooks(env: Env, st: State)
    requires Books(st)
    ensures Books(Step(env, st, BeforeTimer))
  {
    hide CheckBefore;
    var st1 := st.(beforeTimer := false);
    assert Books(st1);
    CheckBeforeBooks(env, st1);
  }

  lemma OpenEventBooks(env: Env, st: State, e: Event)
    requires Books(st) && Traffic(st, e) && e.Open?
    ensures Books(Step(env, st, e))
  {
    if e.s !in st.sessions {
      OpenBooks(st, e.s, Opened(env, e.channel, e.isChannel, e.oldest, e.seen));
    }
  }

  /** One step of catch-up traffic that does not upset the count keeps the books. */
  lemma StepBooks(env: Env, st: State, e: Event)
    requires Books(st) && Traffic(st, e) && !Upsets(st, e)
    ensures Books(Step(env, st, e))
  {
    hide Books, FanOut, ProcessBatch, HandleFail, ChunkTick, CheckBefore, CheckBeforeAtZero, CloseSession,
         Unanswered, Waiting, Answered, FailTarget, TakesForeignSlot, Opened;
    match e {
      case FanOutTimer => FanOutBooks(env, st);
      case Reply(s, msgs, ended) => ReplyBooks(env, st, s, msgs, ended);
      case Unasked(s, msgs, ended) =>
        if s in st.sessions { UnaskedBooks(env, st, s, false, msgs, ended); }
      case Replay(s, msgs, ended) =>
        if s in st.sessions { UnaskedBooks(env, st, s, true, msgs, ended); }
      case Fail(context, badCommand) => FailBooks(env, st, FailTarget(st, context).value, badCommand);
      case Tick(c) => TickBooks(env, st, c);
      case BeforeTimer => TimerBooks(env, st);
      case TabSwitch(to) => TabBooks(env, st, to);
      case WrapperEnd => CheckBeforeAtZeroBooks(env, st);
      case Open(s, channel, isChannel, oldest, seen) => OpenEventBooks(env, st, e);
      case Close(s, next) =>
        if s in st.sessions { CloseKeepsBooks(st, s, next); }
    }
  }

  lemma CloseKeepsBooks(st: State, s: SessionId, next: Option<SessionId>)
    requires Books(st) && s in st.sessions && !Waiting(st.sessions[s])
    ensures Books(CloseSession(st, s, next))
  {
    hide Orderly, Owed, CloseSession;
    CloseBooks(st, s, next);
  }

  /** The upsetting events do upset it: the counter is one too low after the
      empty page, one too high after the close. */
  lemma ForeignSlotMiscounts(env: Env, st: State, s: SessionId, ended: bool)
    requires Books(st) && Online(st) && s in st.sessions && Unanswered(st.sessions[s]) && TakesForeignSlot(st, s, [], ended)
    ensures var st' := ProcessBatch(env, Answered(st, s), s, false, [], ended);
      st'.latestPending + 1 == Owed(st')
  {
    hide ProcessBatch, Books, AnswerInHand, BooksOff, EmptyBatch, NoOwn, Idle, Unsolicited, RequestComplete, FinishCatchup,
         CheckBeforeAtZero, MarkExhausted, Unanswered;
    AnsweredBooks(st, s);
    var st0 := Answered(st, s);
    InHandIsCatchup(st0, s);
    SolicitedBatch(env, st0, s, [], ended);
    MarkBooks(st0, s, ended);
    var st1 := MarkExhausted(st0, s, ended);
    InHandHasSession(st1, s);
    RetireBooks(st1, s);
    CompleteKeeps(st1, s);
    var st2 := RequestComplete(st1, s);
    EmptyReplyEnds(env, st0, s, ended, st0.sessions[s].queue.active.value.gapDir);
    FinishCatchupBooks(st2, s, 0);
    FinishKeepsPending(st2, s);
    TakenSlot(env, FinishCatchup(st2, s));
  }

  lemma EmptyReplyEnds(env: Env, st: State, s: SessionId, ended: bool, dir: int)
    requires s in st.sessions && (ended || !Retries(st.sessions[s], st.sessions[s].queue.usedMsgid))
    ensures EmptyBatch(env, st, s, ended, true, false, true, 0, dir) ==
            CheckBeforeAtZero(env, ReturnSlot(FinishCatchup(RequestComplete(MarkExhausted(st, s, ended), s), s), true))
  {
    hide CheckBeforeAtZero, FinishCatchup, RequestFrom;
  }

  lemma TakenSlot(env: Env, st: State)
    requires BooksOff(st, 0) && st.latestPending > 0
    ensures var st' := CheckBeforeAtZero(env, ReturnSlot(st, true)); st'.latestPending + 1 == Owed(st')
  {
    hide CheckBefore;
    var st1 := ReturnSlot(st, true);
    assert Owed(st1) == Owed(st);
    hide Owed;
    CheckBeforeOwed(env, st1);
  }

  /** In catch-up traffic the counter equals the LATEST outcomes still owed
      after a step exactly when the step is not one of the two upsetting ones. */
  lemma SlotCountIff(env: Env, st: State, e: Event)
    requires Books(st) && Traffic(st, e)
    ensures Balanced(Step(env, st, e)) <==> !Upsets(st, e)
  {
    if !Upsets(st, e) {
      hide Books, Traffic, Upsets, Step;
      StepBooks(env, st, e);
      BalancedOf(Step(env, st, e));
    } else if e.Close? {
      hide Books, CloseSession, Owed, Orderly;
      CloseBooks(st, e.s, e.next);
    } else {
      hide Books, ProcessBatch, Owed, Answered, Unanswered;
      ForeignSlotMiscounts(env, st, e.s, e.ended);
    }
  }

  predicate LegalRun(st: State, run: seq<Input>)
    decreases |run|
  {
    run == [] ||
    (Traffic(st, run[0].event) && !Upsets(st, run[0].event) && LegalRun(Step(run[0].env, st, run[0].event), run[1..]))
  }

  /** Over every such run, whatever the server sends, the counter equals the
      number of LATEST outcomes still owed, so each slot taken is given back once. */
  lemma {:induction false} SlotAccounting(st: State, run: seq<Input>)
    requires Books(st) && LegalRun(st, run)
    ensures Books(AfterRun(st, run))
    decreases |run|
  {
    hide Books, Step, Traffic, Upsets;
    if run != [] {
      StepBooks(run[0].env, st, run[0].event);
      SlotAccounting(Step(run[0].env, st, run[0].event), run[1..]);
    }
  }
}
