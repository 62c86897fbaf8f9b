/**
 One batch is finished.  When it is safe to close it, the walk it belongs to
 stays linked to its row, and the ledger stays true.
 */
module CatchUpClosing {
  import opened Wrappers
  import opened RequestQueue
  import opened CatchUp
  import opened CatchUpCalm
  import opened CatchUpWalk
  import opened ServerLog
  import D = Dedup
  import G = GapLedger
  import K = GapCoverage
  import I = CatchUpInvariants

  /** Only session `s` may get another walk. */
  predicate Turn(st: State, st': State, s: SessionId) {
    ChunksStay(st.chunks, st'.chunks) && st'.nextChunk == st.nextChunk &&
    forall t <- st'.sessions ::
      t in st.sessions &&
      if t == s then SameSelf(st.sessions[t], st'.sessions[t]) else SameWalk(st.sessions[t], st'.sessions[t])
  }

  predicate SameSelf(x: Session, x': Session) {
    x'.channel == x.channel && KnowsMore(x.seen, x'.seen) && (Shaped(x.queue) ==> Shaped(x'.queue))
  }

  lemma CalmIsTurn(st: State, st': State, s: SessionId)
    requires Calm(st, st')
    ensures Turn(st, st', s)
  {
    hide Shaped;
    forall t | t in st'.sessions ensures t in st.sessions && SameWalk(st.sessions[t], st'.sessions[t]) {
    }
  }

  lemma TurnThen(a: State, b: State, c: State, s: SessionId)
    requires Turn(a, b, s) && Turn(b, c, s)
    ensures Turn(a, c, s)
  {
    hide Shaped;
    forall t | t in c.sessions
      ensures t in a.sessions &&
              if t == s then SameSelf(a.sessions[t], c.sessions[t]) else SameWalk(a.sessions[t], c.sessions[t])
    {
      assert t in b.sessions;
    }
  }

  lemma OneTurns(st: State, st': State, s: SessionId, x: Session)
    requires s in st.sessions && SameSelf(st.sessions[s], x) && st'.sessions == st.sessions[s := x]
    requires st'.chunks == st.chunks && st'.nextChunk == st.nextChunk
    ensures Turn(st, st', s)
  {
    hide Shaped;
  }

  // ----- what finishing does -----

  /** The cursor after the batch. */
  function Cursor(x: Session, ch: Chunk): Option<string> {
    if MovesCursor(ch) then ch.oldestMsgid else x.oldest
  }

  function NotedQueue(st: State, ch: Chunk): Queue
    requires ch.sess in st.sessions
  {
    var q := st.sessions[ch.sess].queue;
    if ch.unsolicited then q else Complete(q, CanSend(st, ch.sess))
  }

  lemma NotedIs(st: State, ch: Chunk)
    requires ch.sess in st.sessions
    ensures var x := NoteBatch(st.sessions[ch.sess].(queue := NotedQueue(st, ch)), ch);
      Noted(st, ch) == Put(st, ch.sess, x).(failStreak := 0)
  {
    hide Complete, NoteBatch;
    var x := st.sessions[ch.sess].(queue := NotedQueue(st, ch));
    assert st.sessions[ch.sess := st.sessions[ch.sess]] == st.sessions;
    assert st.sessions[ch.sess := x][ch.sess := NoteBatch(x, ch)] == st.sessions[ch.sess := NoteBatch(x, ch)];
  }

  lemma NoteMoves(x: Session, ch: Chunk)
    ensures var x' := NoteBatch(x, ch);
      x'.oldest == Cursor(x, ch) && x'.loop == x.loop && x'.channel == x.channel && x'.seen == x.seen && x'.queue == x.queue
  {
  }

  lemma NotedTurns(st: State, ch: Chunk)
    requires ch.sess in st.sessions
    ensures var st1 := Noted(st, ch);
      Turn(st, st1, ch.sess) && st1.gaps == st.gaps && st1.limit == st.limit && ch.sess in st1.sessions &&
      st1.sessions[ch.sess].loop == st.sessions[ch.sess].loop &&
      st1.sessions[ch.sess].channel == st.sessions[ch.sess].channel &&
      st1.sessions[ch.sess].oldest == Cursor(st.sessions[ch.sess], ch)
  {
    hide Noted, NoteBatch, Complete, Shaped, Turn, Cursor;
    var x := st.sessions[ch.sess].(queue := NotedQueue(st, ch));
    NotedIs(st, ch);
    NoteMoves(x, ch);
    SameCursor(st.sessions[ch.sess], x, ch);
    CompleteShaped(st.sessions[ch.sess].queue, CanSend(st, ch.sess));
    OneTurns(st, Noted(st, ch), ch.sess, NoteBatch(x, ch));
  }

  lemma SameCursor(x: Session, x': Session, ch: Chunk)
    requires x'.oldest == x.oldest
    ensures Cursor(x', ch) == Cursor(x, ch)
  {
  }

  function VerdictOn(env: Env, st: State, ch: Chunk): Verdict
    requires ch.sess in st.sessions
  {
    JudgePage(env, CountPage(st.sessions[ch.sess], ch), ch)
  }

  /** The session and the rows as the page leaves them, before the loop goes on. */
  function Paged(env: Env, st: State, ch: Chunk): State
    requires ch.sess in st.sessions
  {
    var x := CountPage(st.sessions[ch.sess], ch);
    Put(st, ch.sess, x).(gaps := RowAfterPage(st.gaps, x.loop.gapId, ch, VerdictOn(env, st, ch)))
  }

  lemma BeforeTurns(env: Env, st: State, ch: Chunk)
    requires ch.sess in st.sessions
    ensures var st1, st' := Paged(env, st, ch), FinishBefore(env, st, ch);
      Turn(st, st1, ch.sess) && Calm(st1, st') && st'.gaps == st1.gaps
  {
    hide ApplyVerdict, RowAfterPage, JudgePage, Calm, Shaped;
    var st1 := Paged(env, st, ch);
    OneTurns(st, st1, ch.sess, CountPage(st.sessions[ch.sess], ch));
    VerdictCalm(env, st1, ch.sess, ch.msgCount, VerdictOn(env, st, ch));
    VerdictKeepsRows(env, st1, ch.sess, ch.msgCount, VerdictOn(env, st, ch));
  }

  lemma LatestTurns(env: Env, st: State, ch: Chunk)
    requires ch.sess in st.sessions
    ensures var st1, st' := WitnessHole(env, st, ch), FinishLatest(env, st, ch);
      Turn(st, st1, ch.sess) && Calm(st1, st') && st'.gaps == st1.gaps
  {
    hide CheckBefore, Witnessed, Calm, Shaped;
    var st1 := WitnessHole(env, st, ch);
    OneTurns(st, st1, ch.sess, st1.sessions[ch.sess]);
    ReturnAtZeroCalm(env, st1, ch.latestOwned);
    CheckKeepsRows(env, ReturnSlot(st1, ch.latestOwned));
  }

  lemma PlainTurns(env: Env, st: State, ch: Chunk)
    requires ch.sess in st.sessions
    ensures Turn(st, FinishPlain(env, st, ch), ch.sess)
  {
    hide BackgroundGoesOn, G.FillReply, Shaped;
    var st' := FinishPlain(env, st, ch);
    OneTurns(st, st', ch.sess, st'.sessions[ch.sess]);
  }

  lemma FinishTurns(env: Env, st: State, ch: Chunk)
    requires ch.sess in st.sessions
    ensures Turn(st, FinishBatch(env, st, ch), ch.sess)
  {
    hide Turn, Noted, FinishPlain, FinishBefore, FinishLatest, Calm, Paged, WitnessHole;
    NotedTurns(st, ch);
    var st1, st' := Noted(st, ch), FinishBatch(env, st, ch);
    PlainTurns(env, st1, ch);
    BeforeTurns(env, st1, ch);
    LatestTurns(env, st1, ch);
    CalmIsTurn(Paged(env, st1, ch), FinishBefore(env, st1, ch), ch.sess);
    TurnThen(st1, Paged(env, st1, ch), FinishBefore(env, st1, ch), ch.sess);
    CalmIsTurn(WitnessHole(env, st1, ch), FinishLatest(env, st1, ch), ch.sess);
    TurnThen(st1, WitnessHole(env, st1, ch), FinishLatest(env, st1, ch), ch.sess);
    TurnThen(st, st1, st', ch.sess);
  }

  /** The rows after the batch. */
  function RowsAfter(env: Env, st: State, ch: Chunk): seq<G.Gap>
    requires ch.sess in st.sessions
  {
    var x := st.sessions[ch.sess];
    if !ch.isCatchup then
      if ch.gapId > 0 && ch.rawCount > 0
      then G.FillReply(st.gaps, ch.gapId, ch.gapDir, PageOf(ch), EffectiveLimit(st, env.lines)) else st.gaps
    else if x.loop.isBefore then RowAfterPage(st.gaps, x.loop.gapId, ch, VerdictOn(env, Noted(st, ch), ch))
    else Witnessed(env, st.gaps, x, ch).0
  }

  lemma FinishRows(env: Env, st: State, ch: Chunk)
    requires ch.sess in st.sessions
    ensures ch.sess in Noted(st, ch).sessions
    ensures FinishBatch(env, st, ch).gaps == RowsAfter(env, st, ch)
  {
    hide Noted, FinishBefore, FinishLatest, RowAfterPage, JudgePage, G.FillReply, G.Record, Turn, Calm;
    NotedTurns(st, ch);
    BeforeTurns(env, Noted(st, ch), ch);
    LatestTurns(env, Noted(st, ch), ch);
  }

  lemma RowsWellFormed(env: Env, st: State, ch: Chunk)
    requires ch.sess in st.sessions && G.WellFormed(st.gaps)
    ensures G.WellFormed(FinishBatch(env, st, ch).gaps)
  {
    hide FinishBatch, I.Reaches, G.WellFormed;
    I.FinishBatchRuns(env, st, ch);
  }

  // ----- the walk stays linked -----

  /** The row under the loop's id stands where it stood. */
  lemma {:induction false} FindInPlace(gaps: seq<G.Gap>, gaps': seq<G.Gap>, id: int)
    requires InPlace(gaps, gaps')
    ensures G.Find(gaps, id).Some? == G.Find(gaps', id).Some?
    ensures G.Find(gaps, id).Some? ==> SameBounds(G.Find(gaps, id).value, G.Find(gaps', id).value)
  {
    if gaps != [] {
      assert SameBounds(gaps[0], gaps'[0]);
      forall i | 0 <= i < |gaps[1..]| ensures SameBounds(gaps[1..][i], gaps'[1..][i]) {
        assert SameBounds(gaps[i + 1], gaps'[i + 1]);
      }
      FindInPlace(gaps[1..], gaps'[1..], id);
    }
  }

  lemma SameWalkLinked(log: Log, channel: nat, stored: set<K.Msg>, stored': set<K.Msg>, gaps: seq<G.Gap>, gaps': seq<G.Gap>,
                       x: Session, x': Session)
    requires Linked(log, channel, stored, gaps, x) && SameWalk(x, x') && InPlace(gaps, gaps') && stored <= stored'
    ensures Linked(log, channel, stored', gaps', x')
  {
    hide InPlace, Shaped;
    FindInPlace(gaps, gaps', x.loop.gapId);
    var g, g' := LoopRow(gaps, x, channel), LoopRow(gaps', x', channel);
    if g'.Some? {
      assert g.Some? && SameBounds(g.value, g'.value);
      CursorKeeps(log, stored, stored', x.oldest, g.value.end);
    }
  }

  lemma CursorKeeps(log: Log, stored: set<K.Msg>, stored': set<K.Msg>, cursor: Option<string>, end: int)
    requires CursorAt(log, stored, cursor, end) && stored <= stored'
    ensures CursorAt(log, stored', cursor, end)
  {
    var p: nat :| p < |log| && log[p].msgid == cursor.value && FetchedFrom(log, stored, p, end);
    assert FetchedFrom(log, stored', p, end);
  }

  /** What closing a batch of the walk's own channel starts from. */
  ghost predicate Closable(log: Log, channel: nat, stored: set<K.Msg>, env: Env, st: State, ch: Chunk, a: Answer) {
    ValidLog(log) && G.WellFormed(st.gaps) && ch.sess in st.sessions &&
    Comes(log, a) && Origin(ch, a) && WorkedOff(ch, a) && (forall b <- a.batch :: b in stored) &&
    SafeClose(log, channel, env, st, ch, a)
  }

  lemma EdgesOf(log: Log, ch: Chunk, a: Answer)
    requires ValidLog(log) && Comes(log, a) && WorkedOff(ch, a)
    ensures ch.rawCount == |a.batch| > 0 && ch.oldestMsgid == Some(a.batch[0].msgid)
    ensures ch.oldest == a.batch[0].ts > 0 && ch.newest == a.batch[|a.batch| - 1].ts > 0
    ensures K.Genuine(History(log), a.batch)
  {
    EdgesInTime(a.batch);
    assert a.batch[0] in log && a.batch[|a.batch| - 1] in log;
  }

  lemma BeforeLinked(log: Log, channel: nat, stored: set<K.Msg>, gaps: seq<G.Gap>, x: Session, x': Session,
                     ch: Chunk, a: Answer, verdict: Verdict)
    requires ValidLog(log) && Comes(log, a) && WorkedOff(ch, a) && MovesCursor(ch) && G.Distinct(gaps)
    requires Linked(log, channel, stored, gaps, x)
    requires x'.loop.gapId == x.loop.gapId && x'.loop.lowerBound == x.loop.lowerBound && x'.oldest == ch.oldestMsgid
    ensures Linked(log, channel, stored, RowAfterPage(gaps, x.loop.gapId, ch, verdict), x')
  {
    hide RowAfterPage, CursorAt, ValidLog, Comes;
    var n := LoopRow(RowAfterPage(gaps, x.loop.gapId, ch, verdict), x', channel);
    EdgesOf(log, ch, a);
    if n.Some? {
      var g := PagedFrom(gaps, x.loop.gapId, ch, verdict, n.value);
      FoundFrom(gaps, x, channel, g);
      FreshCursor(log, stored, a, n.value.end);
    }
  }

  lemma WitnessLinked(log: Log, channel: nat, stored: set<K.Msg>, env: Env, gaps: seq<G.Gap>, x: Session, x': Session,
                      ch: Chunk, a: Answer)
    requires ValidLog(log) && Comes(log, a) && WorkedOff(ch, a)
    requires Unstretched(env, gaps, x, ch)
    requires x'.loop.lowerBound == x.loop.lowerBound && x'.oldest == ch.oldestMsgid
    requires x'.loop.gapId == Witnessed(env, gaps, x, ch).1
    ensures Linked(log, channel, stored, Witnessed(env, gaps, x, ch).0, x')
  {
    hide Witnessed, CursorAt, ValidLog, Comes;
    var n := LoopRow(Witnessed(env, gaps, x, ch).0, x', channel);
    EdgesOf(log, ch, a);
    if n.Some? {
      FreshCursor(log, stored, a, n.value.end);
    }
  }

  /** The cursor moves on along the walk, or stays; the row stays. */
  lemma CursorLinked(log: Log, stored: set<K.Msg>, x: Session, ch: Chunk, a: Answer, end: int)
    requires ValidLog(log) && Comes(log, a) && WorkedOff(ch, a) && forall b <- a.batch :: b in stored
    requires CursorAt(log, stored, x.oldest, end) && (MovesCursor(ch) ==> Continues(log, a.asked, x.oldest, end, ch.oldest, ch.newest))
    ensures CursorAt(log, stored, Cursor(x, ch), end)
  {
    hide ValidLog, Comes, Continues;
    EdgesOf(log, ch, a);
    if MovesCursor(ch) {
      var lo := ContinuedWalk(log, stored, x.oldest, end, a);
      assert log[lo].msgid == ch.oldestMsgid.value;
    }
  }

  lemma SameRowsLinked(log: Log, channel: nat, stored: set<K.Msg>, gaps: seq<G.Gap>, x: Session, x': Session,
                       ch: Chunk, a: Answer)
    requires ValidLog(log) && Comes(log, a) && WorkedOff(ch, a) && forall b <- a.batch :: b in stored
    requires Linked(log, channel, stored, gaps, x) && KeepsWalk(log, gaps, channel, x, ch, a)
    requires x'.loop.gapId == x.loop.gapId && x'.loop.lowerBound == x.loop.lowerBound && x'.oldest == Cursor(x, ch)
    ensures Linked(log, channel, stored, gaps, x')
  {
    hide ValidLog, Comes, CursorAt;
    var g := LoopRow(gaps, x, channel);
    if g.Some? {
      CursorLinked(log, stored, x, ch, a, g.value.end);
    }
  }

  lemma FillLinked(log: Log, channel: nat, stored: set<K.Msg>, gaps: seq<G.Gap>, x: Session, x': Session,
                   ch: Chunk, a: Answer, limit: int)
    requires ValidLog(log) && Comes(log, a) && WorkedOff(ch, a) && forall b <- a.batch :: b in stored
    requires Origin(ch, a) && ch.gapId > 0 && G.Distinct(gaps)
    requires Linked(log, channel, stored, gaps, x) && KeepsWalk(log, gaps, channel, x, ch, a)
    requires x'.loop.gapId == x.loop.gapId && x'.loop.lowerBound == x.loop.lowerBound && x'.oldest == Cursor(x, ch)
    ensures Linked(log, channel, stored, G.FillReply(gaps, ch.gapId, ch.gapDir, PageOf(ch), limit), x')
  {
    hide ValidLog, Comes, CursorAt, G.FillReply;
    var rows := G.FillReply(gaps, ch.gapId, ch.gapDir, PageOf(ch), limit);
    var n := LoopRow(rows, x', channel);
    EdgesOf(log, ch, a);
    if n.Some? {
      var g := FilledFrom(gaps, ch, limit, n.value);
      FoundFrom(gaps, x, channel, g);
      G.FindUnique(gaps, g);
      assert Continues(log, a.asked, x.oldest, g.end, ch.oldest, ch.newest);
      assert g.id == ch.gapId ==> ch.gapDir < 0;
      if g.id == ch.gapId && n.value.end != g.end {
        FreshCursor(log, stored, a, n.value.end);
      } else {
        CursorLinked(log, stored, x, ch, a, g.end);
      }
    }
  }

  lemma OwnPlainLinked(log: Log, channel: nat, stored: set<K.Msg>, env: Env, st: State, ch: Chunk, a: Answer)
    requires Closable(log, channel, stored, env, st, ch, a) && st.sessions[ch.sess].channel == channel
    requires Linked(log, channel, stored, st.gaps, st.sessions[ch.sess]) && !ch.isCatchup
    ensures var st' := FinishBatch(env, st, ch);
      ch.sess in st'.sessions && Linked(log, channel, stored, st'.gaps, st'.sessions[ch.sess])
  {
    hide ValidLog, Linked, Comes, Noted, G.FillReply, KeepsWalk, Turn, Cursor, NamesWhatItAsked, BackgroundGoesOn, EffectiveLimit;
    NotedTurns(st, ch);
    FinishRows(env, st, ch);
    var x, x' := st.sessions[ch.sess], FinishBatch(env, st, ch).sessions[ch.sess];
    if ch.gapId > 0 && ch.rawCount > 0 {
      FillLinked(log, channel, stored, st.gaps, x, x', ch, a, EffectiveLimit(st, env.lines));
    } else {
      SameRowsLinked(log, channel, stored, st.gaps, x, x', ch, a);
    }
  }

  lemma OwnBeforeLinked(log: Log, channel: nat, stored: set<K.Msg>, env: Env, st: State, ch: Chunk, a: Answer)
    requires Closable(log, channel, stored, env, st, ch, a) && st.sessions[ch.sess].channel == channel
    requires Linked(log, channel, stored, st.gaps, st.sessions[ch.sess])
    requires ch.isCatchup && st.sessions[ch.sess].loop.isBefore
    ensures var st' := FinishBatch(env, st, ch);
      ch.sess in st'.sessions ==> Linked(log, channel, stored, st'.gaps, st'.sessions[ch.sess])
  {
    hide ValidLog, Linked, Comes, Noted, RowAfterPage, JudgePage, FinishBefore, SafeClose, Turn, SameWalk, InPlace;
    NotedTurns(st, ch);
    EdgesOf(log, ch, a);
    var st1 := Noted(st, ch);
    var x := st.sessions[ch.sess];
    BeforeTurns(env, st1, ch);
    var st2, st' := Paged(env, st1, ch), FinishBefore(env, st1, ch);
    BeforeLinked(log, channel, stored, st.gaps, x, st2.sessions[ch.sess], ch, a, VerdictOn(env, st1, ch));
    if ch.sess in st'.sessions {
      SameWalkLinked(log, channel, stored, stored, st2.gaps, st'.gaps, st2.sessions[ch.sess], st'.sessions[ch.sess]);
    }
  }

  lemma NoWitness(env: Env, gaps: seq<G.Gap>, x: Session, ch: Chunk)
    requires !SeesHole(env, x, ch)
    ensures Witnessed(env, gaps, x, ch) == (gaps, x.loop.gapId)
  {
  }

  lemma OwnLatestLinked(log: Log, channel: nat, stored: set<K.Msg>, env: Env, st: State, ch: Chunk, a: Answer)
    requires Closable(log, channel, stored, env, st, ch, a) && st.sessions[ch.sess].channel == channel
    requires Linked(log, channel, stored, st.gaps, st.sessions[ch.sess])
    requires ch.isCatchup && !st.sessions[ch.sess].loop.isBefore
    ensures var st' := FinishBatch(env, st, ch);
      ch.sess in st'.sessions ==> Linked(log, channel, stored, st'.gaps, st'.sessions[ch.sess])
  {
    hide ValidLog, Linked, Comes, Noted, Witnessed, SeesHole, FinishLatest, Turn, SameWalk, InPlace, KeepsWalk, Unstretched,
         NamesWhatItAsked;
    NotedTurns(st, ch);
    EdgesOf(log, ch, a);
    var st1 := Noted(st, ch);
    var x, x1 := st.sessions[ch.sess], st1.sessions[ch.sess];
    WitnessedAlike(env, st.gaps, x, x1, ch);
    LatestTurns(env, st1, ch);
    var st2, st' := WitnessHole(env, st1, ch), FinishLatest(env, st1, ch);
    if Witnesses(env, x, ch) {
      WitnessLinked(log, channel, stored, env, st.gaps, x, st2.sessions[ch.sess], ch, a);
    } else {
      NoWitness(env, st.gaps, x, ch);
      SameRowsLinked(log, channel, stored, st.gaps, x, st2.sessions[ch.sess], ch, a);
    }
    if ch.sess in st'.sessions {
      SameWalkLinked(log, channel, stored, stored, st2.gaps, st'.gaps, st2.sessions[ch.sess], st'.sessions[ch.sess]);
    }
  }

  lemma WitnessedAlike(env: Env, gaps: seq<G.Gap>, x: Session, x': Session, ch: Chunk)
    requires x'.loop == x.loop && x'.channel == x.channel
    ensures Witnessed(env, gaps, x', ch) == Witnessed(env, gaps, x, ch)
  {
  }

  /** After a batch of its own the session is linked to its row, whichever that is now. */
  lemma OwnLinked(log: Log, channel: nat, stored: set<K.Msg>, env: Env, st: State, ch: Chunk, a: Answer)
    requires Closable(log, channel, stored, env, st, ch, a) && st.sessions[ch.sess].channel == channel
    requires Linked(log, channel, stored, st.gaps, st.sessions[ch.sess])
    ensures var st' := FinishBatch(env, st, ch);
      ch.sess in st'.sessions ==> Linked(log, channel, stored, st'.gaps, st'.sessions[ch.sess])
  {
    assert ch.sess in st.sessions;
    hide FinishBatch, Linked, Closable;
    if !ch.isCatchup {
      OwnPlainLinked(log, channel, stored, env, st, ch, a);
    } else if st.sessions[ch.sess].loop.isBefore {
      OwnBeforeLinked(log, channel, stored, env, st, ch, a);
    } else {
      OwnLatestLinked(log, channel, stored, env, st, ch, a);
    }
  }

  // ----- the ledger stays true -----

  /** The channel's ledger and store, as the coverage theorem sees them. */
  function World(log: Log, channel: nat, gaps: seq<G.Gap>, stored: set<K.Msg>, tied: set<K.Msg>): K.World {
    K.World(channel, History(log), gaps, stored, tied)
  }

  lemma NoMoveTrue(w: K.World, owed: set<K.Msg>)
    requires K.LedgerTrue(w, owed)
    ensures K.LedgerTrue(K.Moved(w, w.rows), owed)
  {
    hide K.MeetsBound;
    K.MovedStores(w, w.rows);
  }

  lemma AllStored(w: K.World, batch: seq<K.Msg>)
    requires forall b <- batch :: b in w.stored
    ensures w.(stored := w.stored + K.Contents(batch)) == w
  {
    assert w.stored + K.Contents(batch) == w.stored;
  }

  lemma FillIsEvent(w: K.World, ch: Chunk, a: Answer, lo: int, hi: int, limit: int)
    requires WorkedOff(ch, a) && forall b <- a.batch :: b in w.stored
    ensures K.After(w, K.Fill(ch.gapId, ch.gapDir, lo, hi, a.batch, limit)) ==
            K.Moved(w, G.FillReply(w.rows, ch.gapId, ch.gapDir, PageOf(ch), limit))
  {
    hide G.FillReply, K.Moved;
    AllStored(w, a.batch);
  }

  lemma LowerLimit(history: set<K.Msg>, dir: int, lo: int, hi: int, batch: seq<K.Msg>, limit: int, limit': int)
    requires K.AnswersFill(history, dir, lo, hi, batch, limit) && limit' <= limit
    ensures K.AnswersFill(history, dir, lo, hi, batch, limit')
  {
  }

  /** The row the fill's id names, and what was asked about it. */
  lemma FillNamesRow(log: Log, channel: nat, env: Env, st: State, ch: Chunk, a: Answer) returns (lo: int, hi: int)
    requires ValidLog(log) && Comes(log, a) && Origin(ch, a) && ch.gapId > 0
    requires G.WellFormed(st.gaps) && NamesWhatItAsked(log, channel, env, st, ch, a)
    ensures K.AnswersFill(History(log), ch.gapDir, lo, hi, a.batch, EffectiveLimit(st, env.lines))
    ensures forall g <- st.gaps | g.id == ch.gapId :: g.channel == channel ==> K.AskedAbout(g, lo, hi)
  {
    hide ValidLog, EffectiveLimit, FillShape, Asked, Serves, K.AnswersFill;
    var g := G.Find(st.gaps, ch.gapId);
    if g.Some? && g.value.channel == channel {
      var l: nat, h: nat :| Slice(log, a, l, h);
      FillAnswered(log, a.asked.value, a.limit, a.until, l, h, g.value);
      OnlyRow(st.gaps, g.value);
      lo, hi := g.value.start, g.value.end;
      LowerLimit(History(log), ch.gapDir, lo, hi, a.batch, a.limit, EffectiveLimit(st, env.lines));
    } else {
      NoRow(st.gaps, ch.gapId, channel);
      lo, hi := 0, 0;
      NothingAsked(History(log), ch.gapDir, a.batch, EffectiveLimit(st, env.lines));
    }
  }

  lemma NothingAsked(history: set<K.Msg>, dir: int, batch: seq<K.Msg>, limit: int)
    ensures K.AnswersFill(history, dir, 0, 0, batch, limit)
  {
  }

  /** A finished fill whose id still names what it asked about is a fill event
      the ledger theorem allows, and does to the rows what that event does. */
  lemma FillIsLedgerEvent(log: Log, channel: nat, env: Env, st: State, ch: Chunk, a: Answer, w: K.World)
    returns (lo: int, hi: int)
    requires ValidLog(log) && Comes(log, a) && Origin(ch, a) && WorkedOff(ch, a) && ch.gapId > 0
    requires G.WellFormed(st.gaps) && NamesWhatItAsked(log, channel, env, st, ch, a)
    requires w.channel == channel && w.history == History(log) && w.rows == st.gaps && forall b <- a.batch :: b in w.stored
    ensures var limit := EffectiveLimit(st, env.lines);
      var e := K.Fill(ch.gapId, ch.gapDir, lo, hi, a.batch, limit);
      K.Possible(w, e) && K.After(w, e) == K.Moved(w, G.FillReply(st.gaps, ch.gapId, ch.gapDir, PageOf(ch), limit))
  {
    EdgesOf(log, ch, a);
    lo, hi := FillNamesRow(log, channel, env, st, ch, a);
    FillIsEvent(w, ch, a, lo, hi, EffectiveLimit(st, env.lines));
    hide ValidLog, G.FillReply, K.Moved, K.After, EffectiveLimit, Origin, Comes, K.AnswersFill, K.AskedAbout, K.Genuine;
  }

  lemma FillTrue(log: Log, channel: nat, env: Env, st: State, ch: Chunk, a: Answer, w: K.World, owed: set<K.Msg>)
    requires ValidLog(log) && Comes(log, a) && Origin(ch, a) && WorkedOff(ch, a) && ch.gapId > 0
    requires G.WellFormed(st.gaps) && NamesWhatItAsked(log, channel, env, st, ch, a)
    requires w.channel == channel && w.history == History(log) && w.rows == st.gaps && forall b <- a.batch :: b in w.stored
    requires owed <= w.history && K.LedgerTrue(w, owed)
    ensures K.LedgerTrue(
      K.Moved(w, G.FillReply(st.gaps, ch.gapId, ch.gapDir, PageOf(ch), EffectiveLimit(st, env.lines))), owed)
  {
    hide ValidLog, G.FillReply, K.LedgerTrue, K.Moved, EffectiveLimit, NamesWhatItAsked, Origin, Comes, WorkedOff;
    var lo, hi := FillIsLedgerEvent(log, channel, env, st, ch, a, w);
    K.FillKeepsLedgerTrue(w, ch.gapId, ch.gapDir, lo, hi, a.batch, EffectiveLimit(st, env.lines), owed);
  }

  lemma OnlyRow(gaps: seq<G.Gap>, g: G.Gap)
    requires G.Distinct(gaps) && g in gaps
    ensures forall r <- gaps | r.id == g.id :: r == g
  {
    forall r <- gaps | r.id == g.id ensures r == g {
      G.FindUnique(gaps, r);
      G.FindUnique(gaps, g);
    }
  }

  /** No row of the channel has the id. */
  lemma NoRow(gaps: seq<G.Gap>, id: int, channel: nat)
    requires G.Distinct(gaps) && (G.Find(gaps, id).Some? ==> G.Find(gaps, id).value.channel != channel)
    ensures forall r <- gaps | r.id == id :: r.channel != channel
  {
    forall r <- gaps | r.id == id ensures r.channel != channel {
      G.FindUnique(gaps, r);
    }
  }

  function EndOf(verdict: Verdict): K.PageEnd {
    match verdict
    case NoMore => K.GiveUp
    case Stale => K.GiveUp
    case Bridged => K.Stop
    case _ => K.GoOn
  }

  lemma PageIsEvent(w: K.World, id: int, ch: Chunk, a: Answer, verdict: Verdict)
    requires id > 0 && a.batch != [] && WorkedOff(ch, a) && K.Oldest(a.batch) > 0
    ensures K.AfterPage(w, id, a.batch, EndOf(verdict)) ==
            K.Moved(w.(stored := w.stored + K.Contents(a.batch)), RowAfterPage(w.rows, id, ch, verdict))
  {
    hide G.PageReply, G.SetState, G.Delete, K.MeetsBound;
  }

  /** A finished page of a linked walk is a page event the ledger theorem
      allows, and does to the rows what that event does. */
  lemma PageIsLedgerEvent(log: Log, channel: nat, x: Session, ch: Chunk, a: Answer, verdict: Verdict, w: K.World)
    requires ValidLog(log) && Comes(log, a) && WorkedOff(ch, a) && G.Distinct(w.rows) && x.loop.gapId > 0
    requires w.channel == channel && w.history == History(log) && forall b <- a.batch :: b in w.stored
    requires Linked(log, channel, w.stored, w.rows, x) && MovesCursor(ch) && KeepsWalk(log, w.rows, channel, x, ch, a)
    requires verdict == Bridged ==> ch.oldest < x.loop.lowerBound
    ensures var e := K.CatchUpPage(x.loop.gapId, a.batch, EndOf(verdict));
      K.Possible(w, e) && K.After(w, e) == K.Moved(w, RowAfterPage(w.rows, x.loop.gapId, ch, verdict))
  {
    hide ValidLog, K.Moved, RowAfterPage, Serves, Continues, MovesCursor, CursorAt, WorkedOff, Comes;
    EdgesOf(log, ch, a);
    AllStored(w, a.batch);
    var id := x.loop.gapId;
    forall g <- w.rows | g.id == id && g.channel == channel
      ensures K.NearestEnd(w, g, a.batch) && (EndOf(verdict) == K.Stop ==> K.Oldest(a.batch) <= g.start)
    {
      PageNearest(log, channel, x, ch, a, w, g);
      StopOnlyOnBridged(verdict);
    }
    OldestPositive(log, ch, a);
    PageIsEvent(w, id, ch, a, verdict);
  }

  lemma PageTrue(log: Log, channel: nat, x: Session, ch: Chunk, a: Answer, verdict: Verdict, w: K.World, owed: set<K.Msg>)
    requires ValidLog(log) && Comes(log, a) && WorkedOff(ch, a) && G.Distinct(w.rows)
    requires w.channel == channel && w.history == History(log) && forall b <- a.batch :: b in w.stored
    requires Linked(log, channel, w.stored, w.rows, x) && MovesCursor(ch) && KeepsWalk(log, w.rows, channel, x, ch, a)
    requires verdict == Bridged ==> ch.oldest < x.loop.lowerBound
    requires owed <= w.history && K.LedgerTrue(w, owed)
    ensures K.LedgerTrue(K.Moved(w, RowAfterPage(w.rows, x.loop.gapId, ch, verdict)), owed)
  {
    hide ValidLog, K.LedgerTrue, K.Moved, RowAfterPage, KeepsWalk, MovesCursor, Linked, WorkedOff, Comes;
    if x.loop.gapId <= 0 {
      NoPage(w.rows, x.loop.gapId, ch, verdict);
      NoMoveTrue(w, owed);
    } else {
      PageIsLedgerEvent(log, channel, x, ch, a, verdict, w);
      K.PageKeepsLedgerTrue(w, x.loop.gapId, a.batch, EndOf(verdict), owed);
    }
  }

  lemma OldestPositive(log: Log, ch: Chunk, a: Answer)
    requires ValidLog(log) && Comes(log, a) && WorkedOff(ch, a)
    ensures a.batch != [] && K.Oldest(a.batch) == ch.oldest > 0
  {
    EdgesOf(log, ch, a);
  }

  lemma StopOnlyOnBridged(verdict: Verdict)
    ensures EndOf(verdict) == K.Stop <==> verdict == Bridged
  {
  }

  lemma NoPage(rows: seq<G.Gap>, id: int, ch: Chunk, verdict: Verdict)
    requires id <= 0
    ensures RowAfterPage(rows, id, ch, verdict) == rows
  {
  }

  lemma PageNearest(log: Log, channel: nat, x: Session, ch: Chunk, a: Answer, w: K.World, g: G.Gap)
    requires ValidLog(log) && Comes(log, a) && WorkedOff(ch, a) && G.Distinct(w.rows)
    requires w.channel == channel && w.history == History(log) && forall b <- a.batch :: b in w.stored
    requires Linked(log, channel, w.stored, w.rows, x) && MovesCursor(ch) && KeepsWalk(log, w.rows, channel, x, ch, a)
    requires g in w.rows && g.id == x.loop.gapId > 0 && g.channel == channel
    ensures K.NearestEnd(w, g, a.batch) && x.loop.lowerBound <= g.start && K.Oldest(a.batch) == ch.oldest
  {
    hide ValidLog, Serves, Continues, CursorAt, K.NearestEnd;
    FoundFrom(w.rows, x, channel, g);
    EdgesOf(log, ch, a);
    var lo := ContinuedWalk(log, w.stored, x.oldest, g.end, a);
    FetchedIsNearest(log, w, lo, g, a);
  }

  lemma BridgedBelow(env: Env, st: State, ch: Chunk)
    requires ch.sess in st.sessions && VerdictOn(env, st, ch) == Bridged
    ensures ch.oldest < st.sessions[ch.sess].loop.lowerBound
  {
  }

  lemma WitnessTrue(env: Env, x: Session, ch: Chunk, w: K.World, owed: set<K.Msg>)
    requires K.LedgerTrue(w, owed)
    ensures K.LedgerTrue(K.Moved(w, Witnessed(env, w.rows, x, ch).0), owed)
  {
    hide K.Moved, K.LedgerTrue, G.Record, SeesHole;
    if SeesHole(env, x, ch) {
      var hole := G.Hole(x.channel, x.loop.prevTime, x.loop.prevMsgid, ch.oldest, ch.oldestMsgid);
      K.WitnessKeepsLedgerTrue(w, owed, hole);
      FewerOwed(K.Moved(w, G.Record(w.rows, hole).0), owed, owed + K.NewlyOwed(w, K.Witness(hole)));
    } else {
      NoMoveTrue(w, owed);
    }
  }

  lemma FewerOwed(w: K.World, owed: set<K.Msg>, more: set<K.Msg>)
    requires owed <= more && K.LedgerTrue(w, more)
    ensures K.LedgerTrue(w, owed)
  {
    hide K.Accounted;
  }

  /** After a batch of its own channel the ledger accounts for whatever it
      accounted for before. */
  lemma OwnTrue(log: Log, channel: nat, env: Env, st: State, ch: Chunk, a: Answer, w: K.World, owed: set<K.Msg>)
    requires Closable(log, channel, w.stored, env, st, ch, a) && st.sessions[ch.sess].channel == channel
    requires Linked(log, channel, w.stored, st.gaps, st.sessions[ch.sess])
    requires w.channel == channel && w.history == History(log) && w.rows == st.gaps
    requires owed <= w.history && K.LedgerTrue(w, owed)
    ensures K.LedgerTrue(K.Moved(w, RowsAfter(env, st, ch)), owed)
  {
    var x := st.sessions[ch.sess];
    hide ValidLog, Linked, Comes, Noted, RowAfterPage, Witnessed, G.FillReply, K.LedgerTrue, K.Moved, EffectiveLimit, SeesHole,
         WorkedOff, KeepsWalk, Unstretched, NamesWhatItAsked, VerdictOn, Turn;
    EdgesOf(log, ch, a);
    if !ch.isCatchup {
      if ch.gapId > 0 && ch.rawCount > 0 {
        FillTrue(log, channel, env, st, ch, a, w, owed);
      } else {
        NoMoveTrue(w, owed);
      }
    } else if x.loop.isBefore {
      NotedTurns(st, ch);
      var verdict := VerdictOn(env, Noted(st, ch), ch);
      if verdict == Bridged {
        BridgedBelow(env, Noted(st, ch), ch);
      }
      PageTrue(log, channel, x, ch, a, verdict, w, owed);
    } else {
      WitnessTrue(env, x, ch, w, owed);
    }
  }

  // ----- batches of other channels -----

  /** The rows of the channel are the same. */
  ghost predicate RowsKept(gaps: seq<G.Gap>, gaps': seq<G.Gap>, channel: nat) {
    forall g: G.Gap | g.channel == channel :: g in gaps <==> g in gaps'
  }

  lemma OtherFillKept(gaps: seq<G.Gap>, ch: Chunk, limit: int, channel: nat)
    requires G.Distinct(gaps) && (var g := G.Find(gaps, ch.gapId); g.Some? ==> g.value.channel != channel)
    ensures RowsKept(gaps, G.FillReply(gaps, ch.gapId, ch.gapDir, PageOf(ch), limit), channel)
  {
    hide G.FillReply;
    NoRow(gaps, ch.gapId, channel);
    var gaps' := G.FillReply(gaps, ch.gapId, ch.gapDir, PageOf(ch), limit);
    forall g: G.Gap | g.channel == channel ensures g in gaps <==> g in gaps' {
      if g in gaps {
        K.UntouchedRowStays(gaps, ch.gapId, ch.gapDir, PageOf(ch), limit, g);
      }
      if g in gaps' {
        var r := FilledFrom(gaps, ch, limit, g);
      }
    }
  }

  lemma OtherPageKept(gaps: seq<G.Gap>, id: int, ch: Chunk, verdict: Verdict, channel: nat)
    requires G.Distinct(gaps)
    requires id > 0 ==> (var g := G.Find(gaps, id); g.Some? ==> g.value.channel != channel)
    ensures RowsKept(gaps, RowAfterPage(gaps, id, ch, verdict), channel)
  {
    hide RowAfterPage;
    if id <= 0 {
      NoPage(gaps, id, ch, verdict);
    } else {
      NoRow(gaps, id, channel);
      var gaps' := RowAfterPage(gaps, id, ch, verdict);
      forall g: G.Gap | g.channel == channel ensures g in gaps <==> g in gaps' {
        if g in gaps {
          OtherRowStays(gaps, id, ch, verdict, g);
        }
        if g in gaps' {
          var r := PagedFrom(gaps, id, ch, verdict, g);
        }
      }
    }
  }

  lemma OtherRowStays(gaps: seq<G.Gap>, id: int, ch: Chunk, verdict: Verdict, g: G.Gap)
    requires g in gaps && g.id != id
    ensures g in RowAfterPage(gaps, id, ch, verdict)
  {
    hide G.PageReply;
    var rows := G.PageReply(gaps, id, PageOf(ch));
    K.OthersStayOnShrink(gaps, id, PageOf(ch), g);
    G.DeleteIn(rows, id, g);
    G.UpdateIn(rows, id, (r: G.Gap) => r.(state := G.Dead), g);
  }

  lemma OtherWitnessKept(env: Env, gaps: seq<G.Gap>, x: Session, ch: Chunk, channel: nat)
    requires x.channel != channel
    ensures RowsKept(gaps, Witnessed(env, gaps, x, ch).0, channel)
  {
    hide SeesHole, G.Absorb, G.NextId;
    var hole := G.Hole(x.channel, x.loop.prevTime, x.loop.prevMsgid, ch.oldest, ch.oldestMsgid);
    if SeesHole(env, x, ch) && G.Recordable(hole) {
      G.AbsorbSpans(gaps, hole, hole);
      var gaps' := G.Record(gaps, hole).0;
      forall g: G.Gap | g.channel == channel ensures g in gaps <==> g in gaps' {
        G.UntouchedIn(gaps, hole, g);
      }
    }
  }

  lemma OtherKept(channel: nat, env: Env, st: State, ch: Chunk)
    requires ch.sess in st.sessions && st.sessions[ch.sess].channel != channel && G.Distinct(st.gaps)
    requires NamesOwnRows(st.gaps, channel, st.sessions[ch.sess], ch)
    ensures RowsKept(st.gaps, RowsAfter(env, st, ch), channel)
  {
    hide Noted, RowAfterPage, Witnessed, G.FillReply, VerdictOn, Turn, EffectiveLimit;
    NotedTurns(st, ch);
    var x := st.sessions[ch.sess];
    if !ch.isCatchup {
      if ch.gapId > 0 && ch.rawCount > 0 {
        OtherFillKept(st.gaps, ch, EffectiveLimit(st, env.lines), channel);
      }
    } else if x.loop.isBefore {
      OtherPageKept(st.gaps, x.loop.gapId, ch, VerdictOn(env, Noted(st, ch), ch), channel);
    } else {
      OtherWitnessKept(env, st.gaps, x, ch, channel);
    }
  }

  lemma KeptLinked(log: Log, channel: nat, stored: set<K.Msg>, gaps: seq<G.Gap>, gaps': seq<G.Gap>, x: Session)
    requires Linked(log, channel, stored, gaps, x) && RowsKept(gaps, gaps', channel) && G.Distinct(gaps)
    ensures Linked(log, channel, stored, gaps', x)
  {
    hide CursorAt;
    var g := LoopRow(gaps', x, channel);
    if g.Some? {
      FoundFrom(gaps, x, channel, g.value);
    }
  }

  lemma KeptTrue(w: K.World, gaps': seq<G.Gap>, owed: set<K.Msg>)
    requires K.LedgerTrue(w, owed) && RowsKept(w.rows, gaps', w.channel)
    ensures K.LedgerTrue(K.Moved(w, gaps'), owed)
  {
    hide K.MeetsBound;
    var w' := K.Moved(w, gaps');
    forall m <- owed ensures K.Accounted(w', m) {
      if m !in w.stored && m !in w.tied {
        var r :| r in w.rows && r.channel == w.channel && r.start < m.ts < r.end;
        assert r in gaps';
      }
    }
  }

  /** Rows that stand where they stood cover what they covered. */
  lemma InPlaceTrue(w: K.World, gaps': seq<G.Gap>, owed: set<K.Msg>)
    requires K.LedgerTrue(w, owed) && InPlace(w.rows, gaps')
    ensures K.LedgerTrue(K.Moved(w, gaps'), owed)
  {
    hide K.MeetsBound;
    var w' := K.Moved(w, gaps');
    forall m <- owed ensures K.Accounted(w', m) {
      if m !in w.stored && m !in w.tied {
        var r :| r in w.rows && r.channel == w.channel && r.start < m.ts < r.end;
        var i :| 0 <= i < |w.rows| && w.rows[i] == r;
        assert SameBounds(w.rows[i], gaps'[i]) && gaps'[i] in gaps';
      }
    }
  }
}
