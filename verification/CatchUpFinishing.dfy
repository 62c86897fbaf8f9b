/**
 What a finished batch does, in the fields of the state: when the end of a
 history is declared, whether the loop goes on, where the cursor goes, what
 becomes of the row the batch is about, and who is paged next.
 */
module CatchUpFinishing {
  import opened Wrappers
  import opened RequestQueue
  import opened CatchUp
  import A = CatchUpAsks
  import E = CatchUpResting
  import R = CatchUpReplay
  import W = CatchUpClosing
  import G = GapLedger

  /** Session `s` had its end of history declared between the two states exactly
      if `when` holds, and no other session had. */
  predicate DeclaredIff(st: State, st': State, s: SessionId, when: bool) {
    st'.sessions.Keys == st.sessions.Keys &&
    forall t <- st.sessions :: st'.sessions[t].exhausted <==> st.sessions[t].exhausted || (t == s && when)
  }

  lemma DeclaredThen(a: State, b: State, c: State, s: SessionId, first: bool, second: bool)
    requires DeclaredIff(a, b, s, first) && DeclaredIff(b, c, s, second)
    ensures DeclaredIff(a, c, s, first || second)
  {
  }

  lemma PagingDeclares(env: Env, st: State, s: SessionId)
    ensures DeclaredIff(st, CheckBefore(env, st), s, false)
    ensures CheckBefore(env, st).gaps == st.gaps && CheckBefore(env, st).latestPending == st.latestPending
  {
    R.CheckBeforeHarmless(env, st);
    KeepsPending(env, st);
    hide CheckBefore;
  }

  lemma KeepsPending(env: Env, st: State)
    ensures CheckBefore(env, st).latestPending == st.latestPending
  {
    hide StartBefore, PickBefore;
    var t := PickBefore(env, st);
    if t.Some? && t.value in st.sessions {
      StartKeepsPending(st, t.value);
    }
  }

  lemma StartKeepsPending(st: State, t: SessionId)
    requires t in st.sessions
    ensures StartBefore(st, t).latestPending == st.latestPending
  {
    hide RequestFrom;
    var st1 := PutLoop(st.(beforeSess := Some(t)), t, st.sessions[t].loop.(isBefore := true));
    if HasText(st.sessions[t].oldest) {
      RequestKeepsPending(st1, t, Before, Some(Msgid(st.sessions[t].oldest.value)), BEFORE_LIMIT);
    }
  }

  lemma RequestKeepsPending(st: State, t: SessionId, kind: Kind, reference: Option<Reference>, limit: int)
    requires t in st.sessions
    ensures RequestFrom(st, t, kind, reference, limit).latestPending == st.latestPending
  {
    hide Submit;
  }

  /** Where the session's next page starts after the batch. */
  function Moved(x: Session, ch: Chunk): Option<string> {
    if ch.oldestMsgid.Some? && ch.rawCount > 0 && (ch.latestOwned || !ch.unsolicited) then ch.oldestMsgid else x.oldest
  }

  /** What any batch does first: it retires the request it answers, moves the
      cursor and may declare the end of the history. */
  lemma NotedIs(st: State, ch: Chunk)
    requires ch.sess in st.sessions
    ensures Noted(st, ch).sessions.Keys == st.sessions.Keys
    ensures var st1 := Noted(st, ch); var x, y := st.sessions[ch.sess], st1.sessions[ch.sess];
      (forall s <- st.sessions | s != ch.sess :: st1.sessions[s] == st.sessions[s]) &&
      st1 == st.(failStreak := 0, sessions := st1.sessions) &&
      y == x.(queue := y.queue, oldest := Moved(x, ch),
              exhausted := x.exhausted || (ch.ended && ch.gapId == 0 && !ch.unsolicited))
  {
    W.NotedIs(st, ch);
    NoteBatchIs(st.sessions[ch.sess].(queue := W.NotedQueue(st, ch)), ch);
    hide Noted, NoteBatch, Complete, W.NotedQueue;
  }

  lemma NoteBatchIs(x: Session, ch: Chunk)
    ensures NoteBatch(x, ch) == x.(oldest := Moved(x, ch), exhausted := x.exhausted || (ch.ended && ch.gapId == 0 && !ch.unsolicited))
  {
  }

  lemma PlainDeclares(env: Env, st: State, ch: Chunk)
    requires ch.sess in st.sessions
    ensures DeclaredIff(st, FinishPlain(env, st, ch), ch.sess, false)
  {
    hide BackgroundGoesOn, G.FillReply, EffectiveLimit;
  }

  lemma VerdictDeclares(env: Env, st: State, t: SessionId, msgCount: nat, verdict: Verdict)
    requires t in st.sessions
    ensures DeclaredIff(st, ApplyVerdict(env, st, t, msgCount, verdict), t, verdict == Stale)
  {
    hide CheckBefore, FinishCatchup;
    var st1 := if verdict == Stale then Put(st, t, st.sessions[t].(exhausted := true)) else st;
    EndDeclares(env, st1, t);
  }

  lemma EndDeclares(env: Env, st: State, t: SessionId)
    requires t in st.sessions
    ensures DeclaredIff(st, CheckBefore(env, FinishCatchup(st, t)), t, false)
  {
    assert DeclaredIff(st, FinishCatchup(st, t), t, false);
    hide CheckBefore, FinishCatchup, DeclaredIff;
    PagingDeclares(env, FinishCatchup(st, t), t);
    DeclaredThen(st, FinishCatchup(st, t), CheckBefore(env, FinishCatchup(st, t)), t, false, false);
  }

  lemma PageDeclares(env: Env, st: State, ch: Chunk)
    requires ch.sess in st.sessions
    ensures DeclaredIff(st, FinishBefore(env, st, ch), ch.sess, W.VerdictOn(env, st, ch) == Stale)
  {
    hide JudgePage, RowAfterPage, ApplyVerdict;
    var x := CountPage(st.sessions[ch.sess], ch);
    var verdict := JudgePage(env, x, ch);
    var st1 := Put(st, ch.sess, x).(gaps := RowAfterPage(st.gaps, x.loop.gapId, ch, verdict));
    VerdictDeclares(env, st1, ch.sess, ch.msgCount, verdict);
  }

  lemma LatestDeclares(env: Env, st: State, ch: Chunk)
    requires ch.sess in st.sessions
    ensures DeclaredIff(st, FinishLatest(env, st, ch), ch.sess, false)
  {
    hide CheckBefore, Witnessed, WitnessHole, ReturnSlot, DeclaredIff;
    var st1 := ReturnSlot(WitnessHole(env, st, ch), ch.latestOwned);
    WitnessDeclares(env, st, ch);
    PagingDeclares(env, st1, ch.sess);
    DeclaredThen(st, st1, CheckBefore(env, st1), ch.sess, false, false);
  }

  lemma WitnessDeclares(env: Env, st: State, ch: Chunk)
    requires ch.sess in st.sessions
    ensures DeclaredIff(st, ReturnSlot(WitnessHole(env, st, ch), ch.latestOwned), ch.sess, false)
  {
    hide Witnessed;
  }

  /** Finishing a batch declares the end of its session's history exactly when
      the batch answered a request of ours, other than a gap fill, and said
      that there is no more; or when it is a page of the BEFORE phase, the third
      in a row that showed nothing, and does not reach below where the loop
      stops.  No other session is affected, and nothing declared is undone. */
  lemma EndIsDeclaredIff(env: Env, st: State, ch: Chunk)
    requires ch.sess in st.sessions
    ensures var loop := st.sessions[ch.sess].loop; var st' := FinishBatch(env, st, ch);
      st'.sessions.Keys == st.sessions.Keys &&
      (st'.sessions[ch.sess].exhausted <==>
        st.sessions[ch.sess].exhausted || (ch.ended && ch.gapId == 0 && !ch.unsolicited) ||
        (ch.isCatchup && loop.isBefore && ch.rawCount > 0 && ch.msgCount == 0 && loop.stale >= 2 &&
         !(0 < ch.oldest < loop.lowerBound))) &&
      forall s <- st.sessions | s != ch.sess :: st'.sessions[s].exhausted == st.sessions[s].exhausted
  {
    var st1 := Noted(st, ch);
    NotedIs(st, ch);
    hide Noted, FinishPlain, FinishBefore, FinishLatest;
    if !ch.isCatchup {
      PlainDeclares(env, st1, ch);
    } else if st1.sessions[ch.sess].loop.isBefore {
      PageDeclares(env, st1, ch);
      StaleIs(env, st1.sessions[ch.sess], ch);
    } else {
      LatestDeclares(env, st1, ch);
    }
  }

  lemma StaleIs(env: Env, x: Session, ch: Chunk)
    ensures JudgePage(env, CountPage(x, ch), ch) == Stale <==>
            !x.exhausted && ch.rawCount > 0 && ch.msgCount == 0 && x.loop.stale >= 2 && !(0 < ch.oldest < x.loop.lowerBound)
  {
  }

  // ----- a page of the BEFORE phase -----

  /** The history is at its end, or the server says so in answer to a request. */
  predicate AtEnd(x: Session, ch: Chunk) {
    ch.rawCount == 0 || x.exhausted || (ch.ended && ch.gapId == 0 && !ch.unsolicited)
  }

  /** Another page is worth asking for: this one brought something and was not
      the last, did not reach below where the loop stops, was not the third that
      showed nothing, left some of the budget and of the sanity limit, and says
      where to go on. */
  predicate WorthAnother(env: Env, x: Session, ch: Chunk) {
    !AtEnd(x, ch) && !(0 < ch.oldest < x.loop.lowerBound) && !(ch.msgCount == 0 && x.loop.stale >= 2) &&
    !(env.gapfill && 0 < env.budget <= x.loop.retrieved + ch.msgCount) && x.loop.retrieved + ch.msgCount < 5000 &&
    ch.oldestMsgid.Some?
  }

  lemma JudgedContinue(env: Env, x: Session, y: Session, ch: Chunk)
    requires y.loop == x.loop && y.exhausted == (x.exhausted || (ch.ended && ch.gapId == 0 && !ch.unsolicited))
    ensures JudgePage(env, CountPage(y, ch), ch) == Continue <==> WorthAnother(env, x, ch)
  {
  }

  /** Who does not want a page is not touched by the search for one who does. */
  lemma PagingSkips(env: Env, st: State, s: SessionId)
    requires s in st.sessions && !A.WantsPage(st, s)
    ensures s in CheckBefore(env, st).sessions && CheckBefore(env, st).sessions[s] == st.sessions[s]
  {
    hide StartBefore;
    PickedNeeds(env, st);
    var t := PickBefore(env, st);
    if t.Some? {
      E.StartOnlyAt(st, t.value);
    }
  }

  lemma EndedLoop(env: Env, st: State, t: SessionId, verdict: Verdict, msgCount: nat)
    requires t in st.sessions && verdict != Continue
    ensures var st' := ApplyVerdict(env, st, t, msgCount, verdict); var x := st.sessions[t];
      t in st'.sessions && var x' := st'.sessions[t];
      x'.loop == x.loop.(inProgress := false, isBefore := false, stale := 0, retrieved := 0, gapId := 0) &&
      x'.oldest == if x.sbOldest.Some? && x.sbOldest.value != "" then x.sbOldest else x.oldest
  {
    hide CheckBefore;
    var st1 := if verdict == Stale then Put(st, t, st.sessions[t].(exhausted := true)) else st;
    PagingSkips(env, FinishCatchup(st1, t), t);
  }

  /** After a page the loop goes on, its cursor moved to the oldest entry, exactly
      when another page is worth asking for: the timer for that is armed and
      nobody is marked as being paged.  Otherwise the loop is over, and the
      session stands at its oldest stored row again. */
  lemma PageGoesOnIff(env: Env, st: State, ch: Chunk)
    requires ch.sess in st.sessions && ch.isCatchup && st.sessions[ch.sess].loop.isBefore
    ensures ch.sess in FinishBatch(env, st, ch).sessions
    ensures var st' := FinishBatch(env, st, ch); var x, x' := st.sessions[ch.sess], st'.sessions[ch.sess];
      if WorthAnother(env, x, ch) then
        st'.beforeTimer && st'.beforeSess.None? && x'.oldest == Moved(x, ch) &&
        x'.loop == x.loop.(retrieved := x.loop.retrieved + ch.msgCount, stale := if ch.msgCount == 0 then x.loop.stale + 1 else 0)
      else
        x'.loop == x.loop.(inProgress := false, isBefore := false, stale := 0, retrieved := 0, gapId := 0) &&
        x'.oldest == if x.sbOldest.Some? && x.sbOldest.value != "" then x.sbOldest else Moved(x, ch)
  {
    NotedIs(st, ch);
    hide Noted, JudgePage, RowAfterPage, ApplyVerdict, WorthAnother, Moved;
    var st1 := Noted(st, ch);
    var y := CountPage(st1.sessions[ch.sess], ch);
    var verdict := JudgePage(env, y, ch);
    JudgedContinue(env, st.sessions[ch.sess], st1.sessions[ch.sess], ch);
    var st2 := Put(st1, ch.sess, y).(gaps := RowAfterPage(st1.gaps, y.loop.gapId, ch, verdict));
    if verdict != Continue {
      EndedLoop(env, st2, ch.sess, verdict, ch.msgCount);
    } else {
      ContinuedLoop(env, st2, ch.sess, ch.msgCount);
    }
  }

  lemma ContinuedLoop(env: Env, st: State, t: SessionId, msgCount: nat)
    requires t in st.sessions
    ensures var st' := ApplyVerdict(env, st, t, msgCount, Continue); var x := st.sessions[t];
      st'.beforeTimer && st'.beforeSess.None? &&
      st'.sessions == st.sessions[t := x.(loop := x.loop.(stale := if msgCount == 0 then x.loop.stale + 1 else 0))]
  {
  }

  // ----- the row a page is about -----

  lemma SetStateIs(rows: seq<G.Gap>, g: G.Gap, state: G.GapState)
    requires G.Find(rows, g.id) == Some(g)
    ensures var rows' := G.SetState(rows, g.id, state);
      G.Find(rows', g.id) == Some(g.(state := state)) && forall r: G.Gap :: r.id != g.id ==> (r in rows' <==> r in rows)
  {
    G.UpdateFinds(rows, g.id, (r: G.Gap) => r.(state := state));
  }

  lemma {:induction false} NoRowNoChange(rows: seq<G.Gap>, id: int, f: G.Gap -> G.Gap)
    requires G.Find(rows, id) == None
    ensures G.Update(rows, id, f) == rows && G.Delete(rows, id) == rows
  {
    if rows != [] {
      NoRowNoChange(rows[1..], id, f);
    }
  }

  /** What is left of the row after the page, before the verdict on it. */
  lemma NarrowedRow(rows: seq<G.Gap>, ch: Chunk, g: G.Gap)
    requires G.Find(rows, g.id) == Some(g) && g.id > 0
    ensures var rows' := G.PageReply(rows, g.id, PageOf(ch));
      G.Find(rows', g.id) == (
        if !(ch.rawCount > 0 && ch.oldest > 0) then Some(g)
        else if ch.oldest <= g.start then None
        else Some(G.Gap(g.id, g.channel, g.start, g.startMsgid, ch.oldest, ch.oldestMsgid, g.state, 0, 0))) &&
      forall r: G.Gap :: r.id != g.id ==> (r in rows' <==> r in rows)
  {
    G.ShrinkIs(rows, 0, None, ch.oldest, ch.oldestMsgid, g);
    hide G.Find, G.Shrink;
  }

  lemma JudgedRow(rows: seq<G.Gap>, id: int, verdict: Verdict)
    requires id > 0
    ensures var rows' := CloseRow(rows, id, verdict); var g := G.Find(rows, id);
      G.Find(rows', id) == (if g.None? || verdict == Bridged then None
                            else Some(g.value.(state := if verdict == NoMore || verdict == Stale then G.Dead else g.value.state))) &&
      forall r: G.Gap :: r.id != id ==> (r in rows' <==> r in rows)
  {
    var g := G.Find(rows, id);
    G.DeleteFinds(rows, id);
    if g.Some? {
      SetStateIs(rows, g.value, G.Dead);
    } else {
      NoRowNoChange(rows, id, (r: G.Gap) => r.(state := G.Dead));
    }
    hide G.Find, G.Update, G.Delete;
  }

  lemma VerdictIs(env: Env, x: Session, y: Session, ch: Chunk)
    requires y.loop == x.loop && y.exhausted == (x.exhausted || (ch.ended && ch.gapId == 0 && !ch.unsolicited))
    ensures var verdict := JudgePage(env, CountPage(y, ch), ch);
      (verdict == NoMore <==> AtEnd(x, ch)) &&
      (verdict == Bridged <==> !AtEnd(x, ch) && 0 < ch.oldest < x.loop.lowerBound) &&
      (verdict == Stale <==> !AtEnd(x, ch) && !(0 < ch.oldest < x.loop.lowerBound) && ch.msgCount == 0 && x.loop.stale >= 2)
  {
  }

  lemma PagedRows(env: Env, st: State, ch: Chunk)
    requires ch.sess in st.sessions && ch.isCatchup && st.sessions[ch.sess].loop.isBefore
    ensures var y := Noted(st, ch).sessions[ch.sess];
      FinishBatch(env, st, ch).gaps ==
      CloseRow(G.PageReply(st.gaps, y.loop.gapId, PageOf(ch)), y.loop.gapId, JudgePage(env, CountPage(y, ch), ch))
  {
    NotedIs(st, ch);
    hide Noted, JudgePage, RowAfterPage, CheckBefore, FinishCatchup, CloseRow;
    var st1 := Noted(st, ch);
    var y := CountPage(st1.sessions[ch.sess], ch);
    var verdict := JudgePage(env, y, ch);
    var st2 := Put(st1, ch.sess, y).(gaps := RowAfterPage(st1.gaps, y.loop.gapId, ch, verdict));
    VerdictKeepsRows(env, st2, ch.sess, ch.msgCount, verdict);
    RowsAre(st.gaps, y.loop.gapId, ch, verdict);
  }

  lemma RowsAre(gaps: seq<G.Gap>, id: int, ch: Chunk, verdict: Verdict)
    ensures RowAfterPage(gaps, id, ch, verdict) == CloseRow(G.PageReply(gaps, id, PageOf(ch)), id, verdict)
  {
  }

  lemma VerdictKeepsRows(env: Env, st: State, t: SessionId, msgCount: nat, verdict: Verdict)
    requires t in st.sessions
    ensures ApplyVerdict(env, st, t, msgCount, verdict).gaps == st.gaps
  {
    hide CheckBefore;
    var st1 := if verdict == Stale then Put(st, t, st.sessions[t].(exhausted := true)) else st;
    PagingDeclares(env, FinishCatchup(st1, t), t);
  }

  /** What a page does to the row its loop is closing.  A page with a second to
      go by becomes the row's new end, and a row that leaves nothing between its
      bounds is deleted.  At the end of the history, or at the third page that
      showed nothing, the row is dead; a page that reaches below where the loop
      stops deletes it.  No other row is touched. */
  lemma PageRowIs(env: Env, st: State, ch: Chunk, g: G.Gap)
    requires ch.sess in st.sessions && ch.isCatchup && st.sessions[ch.sess].loop.isBefore
    requires st.sessions[ch.sess].loop.gapId == g.id && g.id > 0 && G.Find(st.gaps, g.id) == Some(g)
    ensures var gaps' := FinishBatch(env, st, ch).gaps; var x := st.sessions[ch.sess];
      var narrows := ch.rawCount > 0 && ch.oldest > 0;
      var bridged := !AtEnd(x, ch) && 0 < ch.oldest < x.loop.lowerBound;
      var third := !AtEnd(x, ch) && !bridged && ch.msgCount == 0 && x.loop.stale >= 2;
      var row := if narrows then G.Gap(g.id, g.channel, g.start, g.startMsgid, ch.oldest, ch.oldestMsgid, g.state, 0, 0) else g;
      G.Find(gaps', g.id) == (if bridged || (narrows && ch.oldest <= g.start) then None
                              else Some(row.(state := if AtEnd(x, ch) || third then G.Dead else g.state))) &&
      forall r: G.Gap :: r.id != g.id ==> (r in gaps' <==> r in st.gaps)
  {
    NotedIs(st, ch);
    PagedRows(env, st, ch);
    var y := Noted(st, ch).sessions[ch.sess];
    var verdict := JudgePage(env, CountPage(y, ch), ch);
    VerdictIs(env, st.sessions[ch.sess], y, ch);
    NarrowedRow(st.gaps, ch, g);
    JudgedRow(G.PageReply(st.gaps, g.id, PageOf(ch)), g.id, verdict);
    hide Noted, JudgePage, G.Find, CloseRow, G.PageReply, AtEnd, FinishBatch;
  }

  // ----- the LATEST phase -----

  /** The batch that opened the phase does not reach back to the newest row stored. */
  predicate LeavesHole(env: Env, x: Session, ch: Chunk) {
    ch.latestOwned && env.gapfill && ch.rawCount > 0 && x.loop.prevTime > 0 && 0 < x.loop.lowerBound < ch.oldest
  }

  /** The hole: all between the newest row stored and the batch's oldest entry. */
  function HoleLeft(x: Session, ch: Chunk): G.Gap {
    G.Gap(0, x.channel, x.loop.prevTime, x.loop.prevMsgid, ch.oldest, ch.oldestMsgid, G.Witnessed, 0, 0)
  }

  /** The state after the LATEST batch, before the search for whom to page. */
  function AfterLatest(env: Env, st: State, ch: Chunk): State
    requires ch.sess in st.sessions
  {
    ReturnSlot(WitnessHole(env, Noted(st, ch), ch), ch.latestOwned)
  }

  lemma WitnessedIs(env: Env, gaps: seq<G.Gap>, x: Session, ch: Chunk)
    ensures Witnessed(env, gaps, x, ch) == if LeavesHole(env, x, ch) then G.Record(gaps, HoleLeft(x, ch)) else (gaps, x.loop.gapId)
  {
    hide G.Record;
  }

  lemma AfterLatestIs(env: Env, st: State, ch: Chunk)
    requires ch.sess in st.sessions
    ensures AfterLatest(env, st, ch).sessions.Keys == st.sessions.Keys
    ensures var mid := AfterLatest(env, st, ch); var x, y := st.sessions[ch.sess], mid.sessions[ch.sess];
      (forall s <- st.sessions | s != ch.sess :: mid.sessions[s] == st.sessions[s]) &&
      y == Noted(st, ch).sessions[ch.sess].(loop := x.loop.(gapId := Witnessed(env, st.gaps, x, ch).1)) &&
      mid == st.(failStreak := 0, sessions := mid.sessions, gaps := Witnessed(env, st.gaps, x, ch).0,
                 latestPending := if ch.latestOwned && st.latestPending > 0 then st.latestPending - 1 else st.latestPending)
  {
    NotedIs(st, ch);
    SeesAlike(env, st.gaps, st.sessions[ch.sess], Noted(st, ch).sessions[ch.sess], ch);
    ReturnedIs(env, Noted(st, ch), ch);
    hide Noted, Witnessed, Moved, WitnessHole, ReturnSlot;
  }

  lemma ReturnedIs(env: Env, st: State, ch: Chunk)
    requires ch.sess in st.sessions
    ensures var y := st.sessions[ch.sess]; var (gaps, id) := Witnessed(env, st.gaps, y, ch);
      ReturnSlot(WitnessHole(env, st, ch), ch.latestOwned) ==
      st.(sessions := st.sessions[ch.sess := y.(loop := y.loop.(gapId := id))], gaps := gaps,
          latestPending := if ch.latestOwned && st.latestPending > 0 then st.latestPending - 1 else st.latestPending)
  {
    hide Witnessed;
  }

  lemma SeesAlike(env: Env, gaps: seq<G.Gap>, x: Session, y: Session, ch: Chunk)
    requires y.loop == x.loop && y.channel == x.channel
    ensures Witnessed(env, gaps, y, ch) == Witnessed(env, gaps, x, ch)
  {
    hide G.Record;
  }

  /** The loop of a session that is searched over stays as it was, turns to
      BEFORE, or ends. */
  lemma PagingLoop(env: Env, st: State, s: SessionId)
    requires s in st.sessions
    ensures s in CheckBefore(env, st).sessions
    ensures var x, x' := st.sessions[s], CheckBefore(env, st).sessions[s];
      x'.loop == x.loop || x'.loop == x.loop.(isBefore := true) || !x'.loop.inProgress
  {
    hide StartBefore;
    PickedNeeds(env, st);
    var t := PickBefore(env, st);
    if t.Some? && st.connected && st.haveChathistory {
      E.StartOnlyAt(st, t.value);
      A.TurnedTo(st, t.value);
    }
  }

  /** A LATEST batch records the hole it leaves, as witnessed, exactly when it is
      the one that opened the phase and does not reach back to five seconds
      before the newest row stored; the loop, if it goes on, then closes that
      row.  It gives back the slot it took. */
  lemma LatestIs(env: Env, st: State, ch: Chunk)
    requires ch.sess in st.sessions && ch.isCatchup && !st.sessions[ch.sess].loop.isBefore
    ensures ch.sess in FinishBatch(env, st, ch).sessions
    ensures var st' := FinishBatch(env, st, ch); var x, x' := st.sessions[ch.sess], st'.sessions[ch.sess];
      var (gaps', id) := if LeavesHole(env, x, ch) then G.Record(st.gaps, HoleLeft(x, ch)) else (st.gaps, x.loop.gapId);
      st'.gaps == gaps' && (x'.loop.inProgress ==> x'.loop.gapId == id) &&
      st'.latestPending == if ch.latestOwned && st.latestPending > 0 then st.latestPending - 1 else st.latestPending
  {
    NotedIs(st, ch);
    AfterLatestIs(env, st, ch);
    WitnessedIs(env, st.gaps, st.sessions[ch.sess], ch);
    var mid := AfterLatest(env, st, ch);
    assert FinishBatch(env, st, ch) == CheckBeforeAtZero(env, mid) by {
      hide Noted, CheckBeforeAtZero, WitnessHole, ReturnSlot;
    }
    hide AfterLatest, CheckBefore, Witnessed, LeavesHole, HoleLeft, Noted, FinishBatch, G.Record;
    PagingLoop(env, mid, ch.sess);
    PagingDeclares(env, mid, ch.sess);
  }

  /** Once the last LATEST outcome is in, paging starts with the session in front,
      from below the oldest entry of its own batch if that is the one that came
      in last, and from its cursor otherwise. */
  lemma LastLatestStartsPaging(env: Env, st: State, ch: Chunk, t: SessionId)
    requires ch.sess in st.sessions && ch.isCatchup && !st.sessions[ch.sess].loop.isBefore
    requires st.connected && st.haveChathistory && st.latestPending == (if ch.latestOwned then 1 else 0)
    requires st.beforeSess.None? && st.current == Some(t) && t in st.sessions
    requires st.sessions[t].loop.inProgress && !st.sessions[t].exhausted && Inv(st.sessions[t].queue)
    requires t == ch.sess ==> !ch.unsolicited && st.sessions[t].queue.pending.None? && !(ch.ended && ch.gapId == 0)
    requires t != ch.sess ==> !st.sessions[t].queue.loading
    ensures t in FinishBatch(env, st, ch).sessions
    ensures var st' := FinishBatch(env, st, ch); var x := st.sessions[t];
      var cursor := if t == ch.sess && ch.oldestMsgid.Some? && ch.rawCount > 0 then ch.oldestMsgid else x.oldest;
      if cursor.Some? && cursor.value != "" then
        st'.beforeSess == Some(t) && st'.sessions[t].loop.isBefore &&
        (x.hasTarget && !st.suppressed ==>
          st'.sessions[t].queue.sent ==
          x.queue.sent + [Request(Before, Some(Msgid(cursor.value)), None, 50, if x.background then 0 else 1, true, 0, 0)])
      else st'.beforeSess.None? && !st'.sessions[t].loop.inProgress
  {
    NotedIs(st, ch);
    AfterLatestIs(env, st, ch);
    var mid := AfterLatest(env, st, ch);
    var st1 := Noted(st, ch);
    assert FinishBatch(env, st, ch) == CheckBefore(env, mid) by {
      hide Noted, CheckBefore, WitnessHole;
    }
    if t == ch.sess {
      NotedQueue(st, ch);
    }
    hide AfterLatest, CheckBefore, Witnessed, Noted, FinishBatch;
    A.FrontIsPaged(env, mid, t);
  }

  /** The queue after the batch retired the request it answers. */
  lemma NotedQueue(st: State, ch: Chunk)
    requires ch.sess in st.sessions && !ch.unsolicited && st.sessions[ch.sess].queue.pending.None?
    ensures ch.sess in Noted(st, ch).sessions
    ensures var q, q' := st.sessions[ch.sess].queue, Noted(st, ch).sessions[ch.sess].queue;
      q'.active.None? && q'.pending.None? && !q'.loading && q'.sent == q.sent
  {
  }

  /** When a loop ends with a page, the session in front that wants one is turned
      to at once. */
  lemma EndedPageTurnsToFront(env: Env, st: State, ch: Chunk, t: SessionId)
    requires ch.sess in st.sessions && ch.isCatchup && st.sessions[ch.sess].loop.isBefore
    requires !WorthAnother(env, st.sessions[ch.sess], ch)
    requires st.connected && st.haveChathistory && st.latestPending == 0
    requires st.beforeSess.None? || st.beforeSess == Some(ch.sess)
    requires st.current == Some(t) && t != ch.sess && A.WantsPage(st, t)
    ensures var st' := FinishBatch(env, st, ch); var x := st.sessions[t];
      t in st'.sessions && A.PageAsked(x, st'.sessions[t], !st.suppressed) &&
      st'.beforeSess == if x.oldest.Some? && x.oldest.value != "" then Some(t) else None
  {
    NotedIs(st, ch);
    var st1 := Noted(st, ch);
    hide Noted, JudgePage, RowAfterPage, ApplyVerdict, WorthAnother, Moved, A.PageAsked;
    var y := CountPage(st1.sessions[ch.sess], ch);
    var verdict := JudgePage(env, y, ch);
    JudgedContinue(env, st.sessions[ch.sess], st1.sessions[ch.sess], ch);
    var st2 := Put(st1, ch.sess, y).(gaps := RowAfterPage(st1.gaps, y.loop.gapId, ch, verdict));
    EndedTurns(env, st2, ch.sess, verdict, ch.msgCount, t);
  }

  lemma EndedTurns(env: Env, st: State, s: SessionId, verdict: Verdict, msgCount: nat, t: SessionId)
    requires s in st.sessions && verdict != Continue
    requires st.connected && st.haveChathistory && st.latestPending == 0
    requires st.beforeSess.None? || st.beforeSess == Some(s)
    requires st.current == Some(t) && t != s && A.WantsPage(st, t)
    ensures var st' := ApplyVerdict(env, st, s, msgCount, verdict); var x := st.sessions[t];
      t in st'.sessions && A.PageAsked(x, st'.sessions[t], !st.suppressed) &&
      st'.beforeSess == if x.oldest.Some? && x.oldest.value != "" then Some(t) else None
  {
    hide CheckBefore, A.PageAsked;
    var st1 := if verdict == Stale then Put(st, s, st.sessions[s].(exhausted := true)) else st;
    A.FrontIsPaged(env, FinishCatchup(st1, s), t);
  }

  // ----- a batch that is no catch-up -----

  /** A reply to a gap fill closes the row exactly when it reaches the bound
      opposite to the side approached or brings less than the server's limit;
      otherwise its far edge becomes the bound it approached from.  A background
      fetch goes on unless the batch reaches below the age limit or showed
      nothing new.  No other row is touched. */
  lemma FillReplyIs(env: Env, st: State, ch: Chunk, g: G.Gap)
    requires ch.sess in st.sessions && !ch.isCatchup
    requires ch.gapId == g.id && g.id > 0 && ch.rawCount > 0 && G.Find(st.gaps, g.id) == Some(g)
    ensures var gaps' := FinishBatch(env, st, ch).gaps;
      var wanted := if st.limit > 0 then st.limit else if env.lines > 0 then env.lines else 50;
      var reached := if ch.gapDir < 0 then 0 < ch.oldest <= g.start else ch.newest > 0 && ch.newest >= g.end;
      var (lo, loId) := if ch.gapDir >= 0 && ch.newest > 0 then (ch.newest, ch.newestMsgid) else (g.start, g.startMsgid);
      var (hi, hiId) := if ch.gapDir < 0 && ch.oldest > 0 then (ch.oldest, ch.oldestMsgid) else (g.end, g.endMsgid);
      G.Find(gaps', g.id) == (if reached || (ch.rawCount < wanted && ch.rawCount < 200) || lo >= hi then None
                              else Some(G.Gap(g.id, g.channel, lo, loId, hi, hiId, g.state, 0, 0))) &&
      forall r: G.Gap :: r.id != g.id ==> (r in gaps' <==> r in st.gaps)
  {
    NotedIs(st, ch);
    FillRow(st.gaps, ch, g, EffectiveLimit(st, env.lines));
    hide Noted, G.FillReply, G.Find, BackgroundGoesOn;
  }

  lemma FillRow(rows: seq<G.Gap>, ch: Chunk, g: G.Gap, limit: int)
    requires G.Find(rows, g.id) == Some(g)
    ensures var rows' := G.FillReply(rows, g.id, ch.gapDir, PageOf(ch), limit);
      var reached := if ch.gapDir < 0 then 0 < ch.oldest <= g.start else ch.newest > 0 && ch.newest >= g.end;
      var (lo, loId) := if ch.gapDir >= 0 && ch.newest > 0 then (ch.newest, ch.newestMsgid) else (g.start, g.startMsgid);
      var (hi, hiId) := if ch.gapDir < 0 && ch.oldest > 0 then (ch.oldest, ch.oldestMsgid) else (g.end, g.endMsgid);
      G.Find(rows', g.id) == (if reached || ch.rawCount < limit || lo >= hi then None
                              else Some(G.Gap(g.id, g.channel, lo, loId, hi, hiId, g.state, 0, 0))) &&
      forall r: G.Gap :: r.id != g.id ==> (r in rows' <==> r in rows)
  {
    G.DeleteFinds(rows, g.id);
    G.ShrinkIs(rows, 0, None, ch.oldest, ch.oldestMsgid, g);
    G.ShrinkIs(rows, ch.newest, ch.newestMsgid, 0, None, g);
    hide G.Find, G.Shrink, G.Delete;
  }

  lemma PlainIs(env: Env, st: State, ch: Chunk)
    requires ch.sess in st.sessions && !ch.isCatchup
    ensures var st' := FinishBatch(env, st, ch);
      ch.sess in st'.sessions && var x, x' := st.sessions[ch.sess], st'.sessions[ch.sess];
      x'.loop == x.loop && x'.oldest == Moved(x, ch) && (ch.gapId <= 0 || ch.rawCount == 0 ==> st'.gaps == st.gaps) &&
      (x'.background <==>
        x.background && !(ch.rawCount > 0 && ch.msgCount == 0) &&
        !(env.maxAge > 0 && 0 < ch.oldest < env.now - env.maxAge * 3600))
  {
    NotedIs(st, ch);
    hide Noted, G.FillReply, Moved, EffectiveLimit;
  }
}
