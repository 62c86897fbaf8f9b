/**
 The chat-history engine in place.  `ChatServer` is the connection with its
 sessions, the batches being worked off and the gap table; its methods follow
 the C functions statement by statement, with their loops and early returns,
 and are proved equal to the functions of `CatchUp`, where the properties are.
 */
module ChatHistory {
  import opened Wrappers
  import opened RequestQueue
  import C = CatchUp
  import D = Dedup
  import G = GapLedger
  import I = CatchUpInvariants
  import S = CatchUpSlots

  class ChatServer {
    var haveChathistory: bool
    var connected: bool
    var suppressed: bool
    var limit: int
    var failStreak: nat
    var betweenUnsupported: bool
    var latestPending: nat
    var beforeSess: Option<C.SessionId>
    var beforeTimer: bool
    var current: Option<C.SessionId>
    var order: seq<C.SessionId>
    var sessions: map<C.SessionId, C.Session>
    var chunks: map<C.ChunkId, C.Chunk>
    var nextChunk: C.ChunkId
    var gaps: seq<G.Gap>

    ghost function View(): C.State
      reads this
    {
      C.State(haveChathistory, connected, suppressed, limit, failStreak, betweenUnsupported, latestPending, beforeSess,
              beforeTimer, current, order, sessions, chunks, nextChunk, gaps)
    }

    // ----- request queue -----

    predicate CanSendTo(s: C.SessionId)
      requires s in sessions
      reads this
    {
      sessions[s].hasTarget && haveChathistory && connected && !suppressed
    }

    /** chathistory_dispatch_now, on the queue of a session. */
    method DispatchNow(s: C.SessionId, q: Queue, req: Request) returns (q': Queue)
      requires s in sessions
      ensures q' == Dispatch(q, req, CanSendTo(s))
    {
      if !sessions[s].hasTarget {
        return q.(freed := q.freed + multiset{req});
      }
      if !haveChathistory || !connected || suppressed {
        return q.(freed := q.freed + multiset{req});
      }
      q' := q.(active := Some(req));
      q' := q'.(loading := true, usedMsgid := req.usedMsgid);
      q' := q'.(sent := q'.sent + [req]);
    }

    /** chathistory_submit. */
    method SubmitRequest(s: C.SessionId, req: Request) returns (accepted: bool)
      requires s in sessions
      modifies `sessions
      ensures View() == C.SubmitRequest(old(View()), s, req) && s in sessions
      ensures accepted == Accepts(old(sessions)[s].queue, req)
    {
      var q := sessions[s].queue;
      if IsDup(q.active, req) {
        q := q.(freed := q.freed + multiset{req});
        accepted := false;
      } else if IsDup(q.pending, req) {
        q := q.(freed := q.freed + multiset{req});
        accepted := false;
      } else if q.active.None? {
        q := DispatchNow(s, q, req);
        accepted := true;
      } else if q.pending.None? || req.priority > q.pending.value.priority {
        if q.pending.Some? {
          q := q.(freed := q.freed + multiset{q.pending.value});
        }
        assert q.freed == sessions[s].queue.freed + Slot(sessions[s].queue.pending);
        q := q.(pending := Some(req));
        accepted := true;
      } else {
        q := q.(freed := q.freed + multiset{req});
        accepted := false;
      }
      sessions := sessions[s := sessions[s].(queue := q)];
    }

    /** chathistory_request_complete. */
    method RequestComplete(s: C.SessionId)
      requires s in sessions
      modifies `sessions
      ensures View() == C.RequestComplete(old(View()), s) && s in sessions
    {
      var q := sessions[s].queue;
      if q.active.Some? {
        q := q.(freed := q.freed + multiset{q.active.value});
      }
      assert q.freed == sessions[s].queue.freed + Slot(sessions[s].queue.active);
      q := q.(active := None, loading := false);
      if q.pending.Some? {
        var pending := q.pending.value;
        q := q.(pending := None);
        q := DispatchNow(s, q, pending);
      }
      sessions := sessions[s := sessions[s].(queue := q)];
    }

    /** chathistory_request_latest, _before, _after and _around. */
    method RequestFrom(s: C.SessionId, kind: Kind, reference: Option<Reference>, lines: int)
      requires s in sessions
      modifies `sessions
      ensures View() == C.RequestFrom(old(View()), s, kind, reference, lines) && s in sessions
    {
      hide C.SubmitRequest, Submit, Accepts;
      var sess := sessions[s];
      if !haveChathistory || !connected {
        return;
      }
      if !sess.hasTarget {
        return;
      }
      var usedMsgid := reference.Some? && reference.value.Msgid? && kind != Around;
      var _ := SubmitRequest(s, Request(kind, reference, None, lines, C.InferPriority(sess), usedMsgid, 0, 0));
    }

    // ----- catch-up loop -----

    /** finish_catchup. */
    method FinishCatchup(s: C.SessionId)
      requires s in sessions
      modifies `sessions, `beforeSess
      ensures View() == C.FinishCatchup(old(View()), s) && s in sessions
    {
      var sess := sessions[s];
      var loop := sess.loop.(inProgress := false);
      loop := loop.(isBefore := false);
      loop := loop.(stale := 0);
      loop := loop.(retrieved := 0);
      loop := loop.(gapId := 0);
      sess := sess.(loop := loop);
      if C.HasText(sess.sbOldest) {
        sess := sess.(oldest := sess.sbOldest);
      }
      sessions := sessions[s := sess];
      if beforeSess == Some(s) {
        beforeSess := None;
      }
    }

    /** catchup_enter_latest_phase. */
    method EnterLatestPhase(env: C.Env, s: C.SessionId)
      requires s in sessions
      modifies `sessions
      ensures View() == C.EnterLatestPhase(env, old(View()), s) && s in sessions
    {
      var sess := sessions[s];
      var (newest, newestTime) := env.newest(sess.channel);
      sess := sess.(sbNewest := newest);
      sess := sess.(sbNewestTime := newestTime);
      var loop := sess.loop.(prevTime := sess.sbNewestTime);
      loop := loop.(prevMsgid := sess.sbNewest);
      loop := loop.(gapId := 0);
      loop := loop.(inProgress := true, isBefore := false);
      if sess.sbNewestTime > C.FUZZ_INTERVAL {
        loop := loop.(lowerBound := sess.sbNewestTime - C.FUZZ_INTERVAL);
      } else if env.maxAge > 0 {
        loop := loop.(lowerBound := env.now - env.maxAge * 3600);
      } else {
        loop := loop.(lowerBound := 0);
      }
      sessions := sessions[s := sess.(loop := loop)];
    }

    /** send_deferred_latest. */
    method SendDeferredLatest(env: C.Env, s: C.SessionId)
      requires s in sessions
      modifies `sessions, `latestPending
      ensures View() == C.SendDeferredLatest(env, old(View()), s)
    {
      hide C.RequestFrom, C.EnterLatestPhase;
      var sess := sessions[s];
      if sess.queue.loading || sess.loop.inProgress || sess.exhausted {
        return;
      }
      if !sess.isChannel || !sess.hasTarget {
        return;
      }
      EnterLatestPhase(env, s);
      sess := sessions[s];
      if C.HasText(sess.sbNewest) {
        RequestFrom(s, Latest, Some(Msgid(sess.sbNewest.value)), env.lines);
      } else if sess.sbNewestTime > 0 {
        RequestFrom(s, Latest, Some(Timestamp(sess.sbNewestTime)), env.lines);
      } else {
        RequestFrom(s, Latest, None, env.lines);
      }
      latestPending := latestPending + 1;
    }

    /** The second loop of chathistory_deferred_start_cb: every session but the active one. */
    method SendToOthers(env: C.Env)
      modifies `sessions, `latestPending
      ensures View() == C.SendAll(env, old(View()), C.Without(order, current))
    {
      hide C.SendDeferredLatest;
      var i := 0;
      ghost var start := View();
      while i < |order|
        invariant 0 <= i <= |order|
        invariant C.SendAll(env, start, C.Without(order, current)) == C.SendAll(env, View(), C.Without(order[i..], current))
      {
        ghost var rest := C.Without(order[i..], current);
        assert order[i..][0] == order[i] && order[i..][1..] == order[i + 1..];
        if Some(order[i]) != current {
          assert rest[0] == order[i] && rest[1..] == C.Without(order[i + 1..], current);
          if order[i] in sessions {
            SendDeferredLatest(env, order[i]);
          }
        } else {
          assert rest == C.Without(order[i + 1..], current);
        }
        i := i + 1;
      }
    }

    /** chathistory_deferred_start_cb: the active tab first, then the rest. */
    method FanOut(env: C.Env)
      modifies `sessions, `latestPending
      ensures View() == C.FanOut(env, old(View()))
    {
      hide C.SendDeferredLatest, C.Without;
      if !connected || !haveChathistory {
        return;
      }
      if !env.auto {
        return;
      }
      latestPending := 0;
      ghost var others := C.Without(order, current);
      if current.Some? {
        assert ([current.value] + others)[1..] == others;
        if current.value in sessions {
          SendDeferredLatest(env, current.value);
        }
      } else {
        assert [] + others == others;
      }
      SendToOthers(env);
    }

    predicate NeedsBefore(s: C.SessionId)
      reads this
    {
      s in sessions && sessions[s].loop.inProgress && !sessions[s].exhausted && !sessions[s].queue.loading
    }

    /** The target search of chathistory_check_before_catchup. */
    method PickBefore(env: C.Env) returns (target: Option<C.SessionId>)
      ensures target == C.PickBefore(env, View())
    {
      target := None;
      if current.Some? && NeedsBefore(current.value) {
        target := current;
      }
      if target.None? && env.gapfill {
        var i := 0;
        while i < |order|
          invariant 0 <= i <= |order|
          invariant target.None?
          invariant C.FirstNeeding(View(), order[i..]) == C.FirstNeeding(View(), order)
        {
          assert order[i..][0] == order[i] && order[i..][1..] == order[i + 1..];
          if NeedsBefore(order[i]) {
            target := Some(order[i]);
            return;
          }
          i := i + 1;
        }
      }
    }

    /** chathistory_check_before_catchup. */
    method CheckBefore(env: C.Env)
      modifies `sessions, `beforeSess
      ensures View() == C.CheckBefore(env, old(View()))
    {
      hide C.PickBefore, C.RequestFrom, C.FinishCatchup;
      if !connected || !haveChathistory {
        return;
      }
      if latestPending > 0 {
        return;
      }
      if beforeSess.Some? && beforeSess.value in sessions && sessions[beforeSess.value].queue.loading {
        return;
      }
      var target := PickBefore(env);
      if target.None? || target.value !in sessions {
        beforeSess := None;
        return;
      }
      var t := target.value;
      StartBefore(t);
    }

    /** Start or resume BEFORE paging on the chosen session. */
    method StartBefore(t: C.SessionId)
      requires t in sessions
      modifies `sessions, `beforeSess
      ensures View() == C.StartBefore(old(View()), t)
    {
      hide C.RequestFrom, C.FinishCatchup;
      beforeSess := Some(t);
      var sess := sessions[t];
      sessions := sessions[t := sess.(loop := sess.loop.(isBefore := true))];
      if C.HasText(sess.oldest) {
        RequestFrom(t, Before, Some(Msgid(sess.oldest.value)), C.BEFORE_LIMIT);
      } else {
        FinishCatchup(t);
        beforeSess := None;
      }
    }

    // ----- finishing a batch -----

    /** scrollback_gap_record: fold the touching rows, delete them, insert the union. */
    method RecordGap(hole: G.Gap) returns (id: int)
      modifies `gaps
      ensures View() == old(View()).(gaps := G.Record(old(gaps), hole).0)
      ensures id == G.Record(old(gaps), hole).1
    {
      hide G.Touches, G.Union, G.Absorb, G.Untouched;
      if hole.start <= 0 || hole.start >= hole.end {
        return -1;
      }
      var u := hole;
      var rest: seq<G.Gap> := [];
      var i := 0;
      while i < |gaps|
        invariant 0 <= i <= |gaps|
        invariant gaps == old(gaps)
        invariant G.Absorb(gaps, hole, hole) == G.Absorb(gaps[i..], hole, u)
        invariant G.Untouched(gaps, hole) == rest + G.Untouched(gaps[i..], hole)
      {
        FoldStep(rest, gaps[i..], hole, u);
        assert gaps[i..][0] == gaps[i] && gaps[i..][1..] == gaps[i + 1..];
        if G.Touches(gaps[i], hole) {
          u := G.Union(u, gaps[i]);
        } else {
          rest := rest + [gaps[i]];
        }
        i := i + 1;
      }
      FoldEnd(rest, gaps[i..], hole, u);
      id := G.NextId(rest);
      gaps := rest + [u.(id := id, attempts := 0, lastAttempt := 0)];
    }

    /** The end of a BEFORE walk: finish_catchup, then the scheduler. */
    method EndWalk(env: C.Env, s: C.SessionId)
      requires s in sessions
      modifies `sessions, `beforeSess
      ensures View() == C.CheckBefore(env, C.FinishCatchup(old(View()), s))
    {
      hide C.CheckBefore, C.FinishCatchup;
      FinishCatchup(s);
      CheckBefore(env);
    }

    /** The BEFORE arm of finish_batch_processing. */
    method FinishBefore(env: C.Env, ch: C.Chunk)
      requires ch.sess in sessions
      modifies `sessions, `beforeSess, `beforeTimer, `gaps
      ensures View() == C.FinishBefore(env, old(View()), ch)
    {
      hide C.JudgePage, C.ApplyVerdict, C.CloseRow, G.Shrink;
      var s := ch.sess;
      var sess := sessions[s];
      sessions := sessions[s := sess.(loop := sess.loop.(retrieved := sess.loop.retrieved + ch.msgCount))];
      if sess.loop.gapId > 0 && ch.rawCount > 0 && ch.oldest > 0 {
        gaps := G.Shrink(gaps, sess.loop.gapId, 0, None, ch.oldest, ch.oldestMsgid);
      }
      JudgeBefore(env, ch);
    }

    /** The stops of the BEFORE arm that close the row: no more history, or bridged. */
    method JudgeBefore(env: C.Env, ch: C.Chunk)
      requires ch.sess in sessions
      modifies `sessions, `beforeSess, `beforeTimer, `gaps
      ensures View() == AfterVerdict(env, old(View()), ch)
    {
      hide C.CheckBefore, C.FinishCatchup, G.SetState, G.Delete;
      var s := ch.sess;
      var sess := sessions[s];
      var gapId := sess.loop.gapId;
      if ch.rawCount == 0 || sess.exhausted {
        if gapId > 0 {
          gaps := G.SetState(gaps, gapId, G.Dead);
        }
        EndWalk(env, s);
        return;
      }
      if sess.loop.lowerBound > 0 && ch.oldest > 0 && ch.oldest < sess.loop.lowerBound {
        if gapId > 0 {
          gaps := G.Delete(gaps, gapId);
        }
        EndWalk(env, s);
        return;
      }
      CountStale(env, ch);
    }

    method SetSession(s: C.SessionId, sess: C.Session)
      modifies `sessions
      ensures View() == C.Put(old(View()), s, sess) && s in sessions
    {
      sessions := sessions[s := sess];
    }

    /** The third stale page in a row: nothing older is to be had. */
    method StopStale(env: C.Env, ch: C.Chunk)
      requires ch.sess in sessions && C.JudgePage(env, sessions[ch.sess], ch) == C.Stale
      modifies `sessions, `beforeSess, `gaps
      ensures View() == AfterVerdict(env, old(View()), ch)
    {
      hide C.CheckBefore, C.FinishCatchup, C.JudgePage, C.Put, G.SetState;
      var s := ch.sess;
      var sess := sessions[s];
      if sess.loop.gapId > 0 {
        gaps := G.SetState(gaps, sess.loop.gapId, G.Dead);
      }
      ghost var closed := View();
      FinishForgetsStale(closed, s, sess.(exhausted := true), sess.loop.stale + 1);
      sess := sess.(exhausted := true);
      SetSession(s, sess.(loop := sess.loop.(stale := sess.loop.stale + 1)));
      EndWalk(env, s);
    }

    /** The stale count of the BEFORE arm. */
    method CountStale(env: C.Env, ch: C.Chunk)
      requires ch.sess in sessions
      requires var v := C.JudgePage(env, sessions[ch.sess], ch); v != C.NoMore && v != C.Bridged
      modifies `sessions, `beforeSess, `beforeTimer, `gaps
      ensures View() == AfterVerdict(env, old(View()), ch)
    {
      hide AfterVerdict;
      var s := ch.sess;
      var sess := sessions[s];
      var loop := sess.loop;
      ghost var was := View();
      if ch.msgCount == 0 {
        loop := loop.(stale := loop.stale + 1);
        if loop.stale >= C.STALE_LIMIT {
          StopStale(env, ch);
          return;
        }
      } else {
        loop := loop.(stale := 0);
      }
      SetSession(s, sess.(loop := loop));
      NextHop(env, ch, sess, loop, was);
    }

    /** The limits of the BEFORE arm: does the walk stop after this page? */
    method LimitsStop(env: C.Env, sess: C.Session, ch: C.Chunk) returns (stop: bool)
      requires var v := C.JudgePage(env, sess, ch); v != C.NoMore && v != C.Bridged && v != C.Stale
      ensures stop <==> C.JudgePage(env, sess, ch) != C.Continue
    {
      if env.gapfill && env.budget > 0 && sess.loop.retrieved >= env.budget {
        return true;
      }
      if sess.loop.retrieved >= C.SANITY_LIMIT {
        return true;
      }
      return ch.oldestMsgid.None?;
    }

    /** The next hop of the walk, or its end at a limit. */
    method NextHop(env: C.Env, ch: C.Chunk, sess: C.Session, loop: C.Loop, ghost was: C.State)
      requires ch.sess in sessions && ch.sess in was.sessions && was.sessions[ch.sess] == sess
      requires var v := C.JudgePage(env, sess, ch); v != C.NoMore && v != C.Bridged && v != C.Stale
      requires loop == sess.loop.(stale := if ch.msgCount == 0 then sess.loop.stale + 1 else 0)
      requires View() == C.PutLoop(was, ch.sess, loop)
      modifies `sessions, `beforeSess, `beforeTimer
      ensures View() == AfterVerdict(env, was, ch)
    {
      hide C.CheckBefore, C.FinishCatchup, C.Put, C.JudgePage, AfterVerdict;
      VerdictPastStale(env, was, ch);
      var stop := LimitsStop(env, sess, ch);
      if !stop {
        beforeSess := None;
        beforeTimer := true;
      } else {
        FinishForgetsStale(was, ch.sess, sess, loop.stale);
        PutSame(was, ch.sess);
        EndWalk(env, ch.sess);
      }
    }

    /** The witness of the LATEST arm: the span between the batch and the newest
        row stored before it is a hole. */
    method WitnessHole(env: C.Env, ch: C.Chunk)
      requires ch.sess in sessions
      modifies `sessions, `gaps
      ensures View() == C.WitnessHole(env, old(View()), ch)
    {
      hide G.Record, C.Put;
      var s := ch.sess;
      var sess := sessions[s];
      PutSame(View(), s);
      if ch.latestOwned && env.gapfill && ch.rawCount > 0 && sess.loop.prevTime > 0 && ch.oldest > 0 &&
         sess.loop.lowerBound > 0 && ch.oldest > sess.loop.lowerBound {
        var id := RecordGap(G.Hole(sess.channel, sess.loop.prevTime, sess.loop.prevMsgid, ch.oldest, ch.oldestMsgid));
        SetSession(s, sess.(loop := sess.loop.(gapId := id)));
      }
    }

    /** The LATEST arm of finish_batch_processing. */
    method FinishLatest(env: C.Env, ch: C.Chunk)
      requires ch.sess in sessions
      modifies `sessions, `beforeSess, `latestPending, `gaps
      ensures View() == C.FinishLatest(env, old(View()), ch)
    {
      hide C.CheckBeforeAtZero, C.ReturnSlot, C.WitnessHole;
      WitnessHole(env, ch);
      ReturnSlotAndCheck(env, ch.latestOwned);
    }

    /** Give a slot back, and start the BEFORE phase when none is left. */
    method ReturnSlotAndCheck(env: C.Env, owned: bool)
      modifies `sessions, `beforeSess, `latestPending
      ensures View() == C.CheckBeforeAtZero(env, C.ReturnSlot(old(View()), owned))
    {
      hide C.CheckBefore;
      if owned && latestPending > 0 {
        latestPending := latestPending - 1;
      }
      if latestPending == 0 {
        CheckBefore(env);
      }
    }

    /** get_effective_limit. */
    method EffectiveLimit(requested: int) returns (n: int)
      ensures n == C.EffectiveLimit(View(), requested)
    {
      n := if limit > 0 then limit else if requested > 0 then requested else C.DEFAULT_LIMIT;
      if n > C.MAX_LIMIT {
        n := C.MAX_LIMIT;
      }
    }

    /** The clamp of the gap row that a fill answers. */
    method ClampGap(env: C.Env, ch: C.Chunk)
      requires ch.gapId > 0 && ch.rawCount > 0
      modifies `gaps
      ensures View() == old(View()).(gaps := G.FillReply(old(gaps), ch.gapId, ch.gapDir, C.PageOf(ch),
                                                         C.EffectiveLimit(old(View()), env.lines)))
    {
      hide G.Shrink, G.Delete, C.EffectiveLimit;
      var g := G.Find(gaps, ch.gapId);
      if g.None? {
        return;
      }
      var bridged := false;
      if ch.gapDir < 0 {
        if ch.oldest > 0 && ch.oldest <= g.value.start {
          bridged := true;
        }
      } else {
        if ch.newest > 0 && ch.newest >= g.value.end {
          bridged := true;
        }
      }
      var n := EffectiveLimit(env.lines);
      if !bridged && ch.rawCount < n {
        bridged := true;
      }
      if !bridged {
        if ch.gapDir < 0 {
          gaps := G.Shrink(gaps, ch.gapId, 0, None, ch.oldest, ch.oldestMsgid);
        } else {
          gaps := G.Shrink(gaps, ch.gapId, ch.newest, ch.newestMsgid, 0, None);
        }
      }
      if bridged {
        gaps := G.Delete(gaps, ch.gapId);
      }
    }

    /** Does a background fetch go on after this batch? */
    method BackgroundGoesOn(env: C.Env, sess: C.Session, ch: C.Chunk) returns (goesOn: bool)
      ensures goesOn == C.BackgroundGoesOn(env, sess, ch)
    {
      goesOn := sess.background;
      if goesOn && ch.oldest > 0 {
        var cutoff := 0;
        if env.maxAge > 0 {
          cutoff := env.now - env.maxAge * 3600;
        }
        if cutoff > 0 && ch.oldest < cutoff {
          goesOn := false;
        }
      }
      if ch.rawCount > 0 && ch.msgCount == 0 {
        goesOn := false;
      }
    }

    /** The part of finish_batch_processing after the catch-up arms. */
    method FinishPlain(env: C.Env, ch: C.Chunk)
      requires ch.sess in sessions
      modifies `sessions, `gaps
      ensures View() == C.FinishPlain(env, old(View()), ch)
    {
      hide G.FillReply, C.BackgroundGoesOn, C.EffectiveLimit;
      var s := ch.sess;
      var goesOn := BackgroundGoesOn(env, sessions[s], ch);
      sessions := sessions[s := sessions[s].(background := goesOn)];
      assert C.EffectiveLimit(View(), env.lines) == C.EffectiveLimit(old(View()), env.lines) by {
        LimitUnmoved(old(View()), View(), env.lines);
      }
      if ch.gapId > 0 && ch.rawCount > 0 {
        ClampGap(env, ch);
      }
    }

    /** The request is retired and the pagination cursor moves. */
    method NoteBatch(ch: C.Chunk)
      requires ch.sess in sessions
      modifies `failStreak, `sessions
      ensures View() == C.Noted(old(View()), ch) && ch.sess in sessions
    {
      hide C.RequestComplete, C.Put;
      var s := ch.sess;
      failStreak := 0;
      if !ch.unsolicited {
        RequestComplete(s);
      }
      var sess := sessions[s];
      if ch.oldestMsgid.Some? && ch.rawCount > 0 && !(ch.unsolicited && !ch.latestOwned) {
        sess := sess.(oldest := ch.oldestMsgid);
      }
      if ch.ended && ch.gapId == 0 && !ch.unsolicited {
        sess := sess.(exhausted := true);
      }
      SetSession(s, sess);
    }

    /** finish_batch_processing. */
    method FinishBatch(env: C.Env, ch: C.Chunk)
      requires ch.sess in sessions
      modifies this
      ensures View() == C.FinishBatch(env, old(View()), ch)
    {
      hide C.Noted, C.FinishBefore, C.FinishLatest, C.FinishPlain;
      NoteBatch(ch);
      if ch.isCatchup {
        if sessions[ch.sess].loop.isBefore {
          FinishBefore(env, ch);
        } else {
          FinishLatest(env, ch);
        }
        return;
      }
      FinishPlain(env, ch);
    }

    // ----- working a batch off -----

    /** process_chunk_messages: at most CHUNK_SIZE entries, from the front. */
    method ProcessChunkMessages(sess: C.Session, ch: C.Chunk) returns (sess': C.Session, ch': C.Chunk)
      ensures (sess', ch') == C.TakeChunk(sess, ch)
    {
      hide D.Track, D.Shows, C.HasText;
      var n := if |ch.remaining| < D.CHUNK_SIZE then |ch.remaining| else D.CHUNK_SIZE;
      ghost var part := ch.remaining[..n];
      ghost var start := D.Tally(sess.seen, [], ch.oldest, ch.newest);
      var seen, msgCount, oldest, newest := sess.seen, ch.msgCount, ch.oldest, ch.newest;
      var cursor := sess.oldest;
      ghost var shown: seq<D.Message> := [];
      var i := 0;
      while i < n
        invariant 0 <= i <= n
        invariant msgCount == ch.msgCount + |shown|
        invariant cursor == if sess.oldest.Some? then sess.oldest else C.FirstRemembered(shown)
        invariant D.Fold(start, part) == D.Fold(D.Tally(seen, shown, oldest, newest), part[i..])
      {
        var msg := ch.remaining[i];
        assert part[i..][0] == msg && part[i..][1..] == part[i + 1..];
        if D.Shows(seen, msg) {
          msgCount := msgCount + 1;
          FirstOfMore(shown, msg);
          shown := shown + [msg];
          if cursor.None? && C.HasText(msg.msgid) {
            cursor := msg.msgid;
          }
        }
        seen := D.Track(seen, msg);
        if msg.ts > 0 {
          if oldest == 0 || msg.ts < oldest {
            oldest := msg.ts;
          }
          if msg.ts > newest {
            newest := msg.ts;
          }
        }
        i := i + 1;
      }
      sess' := sess.(seen := seen, oldest := cursor);
      ch' := ch.(remaining := ch.remaining[n..], msgCount := msgCount, oldest := oldest, newest := newest);
    }

    /** chunk_state_free: drop the batch and the session's pointer to it. */
    method ForgetChunk(c: C.ChunkId)
      requires c in chunks
      modifies `sessions, `chunks
      ensures View() == C.ForgetChunk(old(View()), c) && sessions.Keys == old(sessions.Keys)
    {
      var s := chunks[c].sess;
      if s in sessions && sessions[s].chunk == Some(c) {
        sessions := sessions[s := sessions[s].(chunk := None)];
      }
      chunks := chunks - {c};
    }

    /** release_latest_slot. */
    method ReleaseLatestSlot(ch: C.Chunk)
      modifies `latestPending
      ensures View() == C.ReleaseSlot(old(View()), ch)
    {
      if !ch.slotOwed {
        return;
      }
      if latestPending > 0 {
        latestPending := latestPending - 1;
      }
    }

    /** chunk_idle_cb. */
    method ChunkTick(env: C.Env, c: C.ChunkId)
      modifies this
      ensures View() == C.ChunkTick(env, old(View()), c)
    {
      hide C.TakeChunk, C.ForgetChunk, C.ReleaseSlot, C.FinishBatch;
      if c !in chunks {
        return;
      }
      var ch := chunks[c];
      if ch.sess !in sessions {
        ReleaseLatestSlot(ch);
        ForgetChunk(c);
        return;
      }
      var sess, ch' := ProcessChunkMessages(sessions[ch.sess], ch);
      TakeKeepsSession(sessions[ch.sess], ch);
      sessions := sessions[ch.sess := sess];
      if ch'.remaining == [] {
        ForgetChunk(c);
        FinishBatch(env, ch');
      } else {
        chunks := chunks[c := ch'];
      }
    }

    /** The chunk part of chathistory_cancel_chunk_processing. */
    method AbandonChunk(s: C.SessionId)
      requires s in sessions
      modifies `sessions, `chunks, `latestPending
      ensures View() == C.AbandonChunk(old(View()), s)
    {
      hide C.ForgetChunk, C.ReleaseSlot;
      var c := sessions[s].chunk;
      if c.None? || c.value !in chunks {
        return;
      }
      ReleaseLatestSlot(chunks[c.value]);
      ForgetChunk(c.value);
    }

    // ----- gap fill -----

    /** The checks of chathistory_request_gap_fill before it builds a request. */
    method GapToFill(env: C.Env, s: C.SessionId, gapId: int) returns (g: Option<G.Gap>)
      requires s in sessions
      ensures g.Some? <==> C.Fillable(env, View(), s, gapId)
      ensures g.Some? ==> g == G.Find(gaps, gapId)
    {
      g := None;
      if !haveChathistory || suppressed || !env.gapfill || gapId <= 0 {
        return;
      }
      if sessions[s].loop.inProgress {
        return;
      }
      var found := G.Find(gaps, gapId);
      if found.None? || found.value.state == G.Dead {
        return;
      }
      if env.retentionCutoff > 0 && found.value.end < env.retentionCutoff {
        return;
      }
      var wait := 5 * found.value.attempts;
      if wait > 60 {
        wait := 60;
      }
      if found.value.lastAttempt > 0 && env.now - found.value.lastAttempt < wait {
        return;
      }
      g := found;
    }

    /** The request of chathistory_request_gap_fill: near edge first, the far
        edge only while BETWEEN is understood. */
    method BuildFill(env: C.Env, g: G.Gap, dir: int) returns (req: Request)
      ensures req == C.FillRequest(View(), env, g, dir)
    {
      hide C.HasText;
      var nearIsMsgid, farIsMsgid, nearRef, farRef;
      if dir < 0 {
        nearIsMsgid := C.HasText(g.endMsgid);
        nearRef := C.FillReference(g.endMsgid, g.end);
        farIsMsgid := C.HasText(g.startMsgid);
        farRef := C.FillReference(g.startMsgid, g.start);
      } else {
        nearIsMsgid := C.HasText(g.startMsgid);
        nearRef := C.FillReference(g.startMsgid, g.start);
        farIsMsgid := C.HasText(g.endMsgid);
        farRef := C.FillReference(g.endMsgid, g.end);
      }
      if betweenUnsupported {
        req := Request(if dir < 0 then Before else After, Some(nearRef), None, env.lines, USER, nearIsMsgid, g.id, dir);
      } else {
        req := Request(Between, Some(nearRef), Some(farRef), env.lines, USER, nearIsMsgid || farIsMsgid, g.id, dir);
      }
    }

    /** chathistory_request_gap_fill. */
    method RequestGapFill(env: C.Env, s: C.SessionId, gapId: int, dir: int) returns (sent: bool)
      requires s in sessions
      modifies `sessions, `gaps
      ensures (View(), sent) == C.RequestGapFill(env, old(View()), s, gapId, dir) && s in sessions
    {
      hide C.Fillable, C.FillRequest, C.SubmitRequest, Accepts, G.Touch;
      var g := GapToFill(env, s, gapId);
      if g.None? {
        return false;
      }
      var req := BuildFill(env, g.value, dir);
      var accepted := SubmitRequest(s, req);
      if !accepted {
        return false;
      }
      gaps := G.Touch(gaps, gapId, env.now);
      return true;
    }

    /** gap_fill_retry_with_timestamps. */
    method RetryFill(env: C.Env, s: C.SessionId, gapId: int, dir: int) returns (retried: bool)
      requires s in sessions
      modifies `sessions, `gaps
      ensures (View(), retried) == C.RetryFill(env, old(View()), s, gapId, dir) && s in sessions
    {
      hide C.RequestGapFill, G.DropMsgids;
      if gapId <= 0 || !sessions[s].queue.usedMsgid || suppressed {
        return false;
      }
      if !G.HasMsgids(gaps, gapId) {
        return false;
      }
      gaps := G.DropMsgids(gaps, gapId);
      retried := RequestGapFill(env, s, gapId, dir);
    }

    // ----- FAIL -----

    /** find_session_with_pending_history. */
    method FirstLoading() returns (found: Option<C.SessionId>)
      ensures found == C.FirstLoading(View(), order)
    {
      var i := 0;
      while i < |order|
        invariant 0 <= i <= |order|
        invariant C.FirstLoading(View(), order[i..]) == C.FirstLoading(View(), order)
      {
        assert order[i..][0] == order[i] && order[i..][1..] == order[i + 1..];
        if order[i] in sessions && sessions[order[i]].queue.loading {
          return Some(order[i]);
        }
        i := i + 1;
      }
      return None;
    }

    /** The gap-fill arm of chathistory_handle_fail. */
    method FailedFill(env: C.Env, s: C.SessionId, gapId: int, dir: int, latched: bool)
      requires s in sessions
      modifies `sessions, `gaps
      ensures View() == C.FailedFill(env, old(View()), s, gapId, dir, latched)
    {
      hide C.RetryFill, G.SetState;
      if !latched {
        var retried := RetryFill(env, s, gapId, dir);
        if retried {
          return;
        }
      }
      var g := G.Find(gaps, gapId);
      if g.Some? {
        if g.value.attempts >= 3 {
          gaps := G.SetState(gaps, gapId, G.Dead);
        }
      }
    }

    /** The catch-up arm of chathistory_handle_fail. */
    method FailedCatchup(env: C.Env, s: C.SessionId, usedMsgid: bool, wasLatest: bool)
      requires s in sessions
      modifies `sessions, `beforeSess, `latestPending
      ensures View() == C.FailedCatchup(env, old(View()), s, usedMsgid, wasLatest)
    {
      hide C.RequestFrom, C.CheckBefore, C.FinishCatchup;
      if !suppressed && usedMsgid && sessions[s].sbNewestTime > 0 {
        RequestFrom(s, Latest, Some(Timestamp(sessions[s].sbNewestTime)), env.lines);
        return;
      }
      if wasLatest && latestPending > 0 {
        latestPending := latestPending - 1;
      }
      FinishCatchup(s);
      if latestPending == 0 {
        CheckBefore(env);
      }
    }

    /** The streak and the BETWEEN latch of chathistory_handle_fail. */
    method NoteFail(s: C.SessionId, badCommand: bool) returns (latched: bool)
      requires s in sessions
      modifies `failStreak, `suppressed, `betweenUnsupported
      ensures View() == C.NoteFail(old(View()), s, badCommand)
      ensures latched == C.LatchesBetween(sessions[s], badCommand)
    {
      latched := false;
      var active := sessions[s].queue.active;
      failStreak := failStreak + 1;
      if failStreak >= C.FAIL_LIMIT {
        suppressed := true;
      }
      if active.Some? && active.value.kind == Between && badCommand {
        betweenUnsupported := true;
        latched := true;
      }
    }

    /** chathistory_handle_fail, once the session is known. */
    method HandleFail(env: C.Env, s: C.SessionId, badCommand: bool)
      requires s in sessions
      modifies this
      ensures View() == C.HandleFail(env, old(View()), s, badCommand)
    {
      hide C.NoteFail, C.LatchesBetween, C.RequestComplete, C.FailedFill, C.FailedCatchup;
      var sess := sessions[s];
      var usedMsgid := sess.queue.usedMsgid;
      var wasLatest := sess.loop.inProgress && !sess.loop.isBefore;
      var gapId := if sess.queue.active.Some? then sess.queue.active.value.gapId else 0;
      var gapDir := if sess.queue.active.Some? then sess.queue.active.value.gapDir else 0;
      var latched := NoteFail(s, badCommand);
      RequestComplete(s);
      if gapId > 0 {
        FailedFill(env, s, gapId, gapDir, latched);
        return;
      }
      if sessions[s].loop.inProgress {
        FailedCatchup(env, s, usedMsgid, wasLatest);
      }
    }

    // ----- receiving a batch -----

    /** The gap-fill part of an empty batch. */
    method EmptyFill(env: C.Env, s: C.SessionId, gapId: int, dir: int)
      requires s in sessions
      modifies `sessions, `gaps
      ensures View() == C.EmptyFill(env, old(View()), s, gapId, dir)
    {
      hide C.RetryFill, G.SetState;
      var retried := RetryFill(env, s, gapId, dir);
      if retried {
        return;
      }
      gaps := G.SetState(gaps, gapId, G.Dead);
    }

    /** The catch-up part of an empty batch. */
    method EmptyCatchup(env: C.Env, s: C.SessionId, usedMsgid: bool, unsolicited: bool, owned: bool)
      requires s in sessions
      modifies `sessions, `beforeSess, `latestPending
      ensures View() == C.EmptyCatchup(env, old(View()), s, usedMsgid, unsolicited, owned)
    {
      hide C.RequestFrom, C.CheckBeforeAtZero, C.ReturnSlot, C.FinishCatchup;
      var sess := sessions[s];
      if !unsolicited && !sess.exhausted && usedMsgid && sess.sbNewestTime > 0 {
        RequestFrom(s, Latest, Some(Timestamp(sess.sbNewestTime)), env.lines);
        return;
      }
      FinishCatchup(s);
      ReturnSlotAndCheck(env, owned);
    }

    method MarkExhausted(s: C.SessionId)
      requires s in sessions
      modifies `sessions
      ensures View() == C.MarkExhausted(old(View()), s, true) && s in sessions
    {
      sessions := sessions[s := sessions[s].(exhausted := true)];
    }

    /** The empty-batch arm of chathistory_process_batch. */
    method EmptyBatch(env: C.Env, s: C.SessionId, ended: bool, isCatchup: bool, unsolicited: bool,
                      owned: bool, gapId: int, gapDir: int)
      requires s in sessions
      modifies this
      ensures View() == C.EmptyBatch(env, old(View()), s, ended, isCatchup, unsolicited, owned, gapId, gapDir)
    {
      hide C.RequestComplete, C.EmptyFill, C.EmptyCatchup, C.Put;
      var usedMsgid := sessions[s].queue.usedMsgid;
      if ended && gapId == 0 && !unsolicited {
        MarkExhausted(s);
      }
      if !unsolicited {
        RequestComplete(s);
      }
      if gapId > 0 {
        EmptyFill(env, s, gapId, gapDir);
        return;
      }
      if isCatchup {
        EmptyCatchup(env, s, usedMsgid, unsolicited, owned);
        return;
      }
      if !unsolicited {
        MarkExhausted(s);
      }
    }

    /** chathistory_begin_unsolicited_catchup. */
    method BeginUnsolicitedCatchup(env: C.Env, s: C.SessionId) returns (adopted: bool)
      requires s in sessions
      modifies `sessions, `latestPending
      ensures adopted == C.Adoptable(env, old(View()), old(sessions)[s]) && s in sessions
      ensures View() == if adopted then C.Adopt(env, old(View()), s) else old(View())
    {
      hide C.EnterLatestPhase;
      if !haveChathistory || !env.auto || suppressed {
        return false;
      }
      if sessions[s].loop.inProgress {
        return false;
      }
      if sessions[s].exhausted {
        return false;
      }
      EnterLatestPhase(env, s);
      latestPending := latestPending + 1;
      return true;
    }

    /** The count and the cursors of a sorted batch; context entries are passed over. */
    method CountBatch(msgs: seq<D.Message>) returns (rawCount: nat, oldest: Option<string>, newest: Option<string>)
      ensures rawCount == D.RawCount(msgs)
      ensures var ids := C.CursorMsgids(msgs);
        oldest == (if ids == [] then None else Some(ids[0])) &&
        newest == (if ids == [] then None else Some(ids[|ids| - 1]))
    {
      hide C.CursorMsgids, D.RawCount;
      rawCount, oldest, newest := 0, None, None;
      assert msgs[0..] == msgs && [] + C.CursorMsgids(msgs) == C.CursorMsgids(msgs);
      ghost var ids: seq<string> := [];
      var i := 0;
      while i < |msgs|
        invariant 0 <= i <= |msgs|
        invariant D.RawCount(msgs) == rawCount + D.RawCount(msgs[i..])
        invariant C.CursorMsgids(msgs) == ids + C.CursorMsgids(msgs[i..])
        invariant oldest == (if ids == [] then None else Some(ids[0]))
        invariant newest == (if ids == [] then None else Some(ids[|ids| - 1]))
      {
        var m := msgs[i];
        assert msgs[i..][0] == m && msgs[i..][1..] == msgs[i + 1..];
        CountStep(ids, msgs[i..]);
        if !m.context {
          rawCount := rawCount + 1;
          if m.msgid.Some? {
            if oldest.None? {
              oldest := m.msgid;
            }
            newest := m.msgid;
            ids := ids + [m.msgid.value];
          }
        }
        i := i + 1;
      }
      CountEnd(ids, msgs[i..]);
    }

    /** The last part of chathistory_process_batch: at once, or by timer. */
    method StartBatch(env: C.Env, ch: C.Chunk)
      requires ch.sess in sessions
      modifies this
      ensures View() == C.StartBatch(env, old(View()), ch)
    {
      hide C.TakeChunk, C.FinishBatch;
      if ch.rawCount <= D.CHUNK_SIZE {
        TakeKeepsSession(sessions[ch.sess], ch);
        var sess, ch' := ProcessChunkMessages(sessions[ch.sess], ch);
        sessions := sessions[ch.sess := sess];
        FinishBatch(env, ch');
      } else {
        chunks := chunks[nextChunk := ch];
        sessions := sessions[ch.sess := sessions[ch.sess].(chunk := Some(nextChunk))];
        nextChunk := nextChunk + 1;
      }
    }

    /** The chunk that chathistory_process_batch fills in for a non-empty batch. */
    method NewChunk(s: C.SessionId, msgs: seq<D.Message>, ended: bool, isCatchup: bool,
                    unsolicited: bool, owned: bool, gapId: int, gapDir: int) returns (ch: C.Chunk)
      requires s in sessions
      ensures ch == C.NewChunk(View(), s, msgs, ended, isCatchup, unsolicited, owned, gapId, gapDir)
    {
      hide C.SortByTime, C.CursorMsgids, D.RawCount;
      var sorted := C.SortByTime(msgs);
      var rawCount, oldest, newest := CountBatch(sorted);
      var owed := isCatchup && owned && !sessions[s].loop.isBefore;
      ch := C.Chunk(s, sorted, 0, rawCount, 0, 0, oldest, newest, isCatchup, ended, unsolicited, owned, owed,
                    gapId, gapDir);
    }

    /** chathistory_process_batch, once the session is known. */
    method ProcessBatch(env: C.Env, s: C.SessionId, nested: bool, msgs: seq<D.Message>, ended: bool)
      requires s in sessions
      modifies this
      ensures View() == C.ProcessBatch(env, old(View()), s, nested, msgs, ended)
    {
      hide C.Adopt, C.Adoptable, C.EmptyBatch, C.StartBatch, C.NewChunk;
      var sess := sessions[s];
      var gapId := if sess.queue.active.Some? then sess.queue.active.value.gapId else 0;
      var gapDir := if sess.queue.active.Some? then sess.queue.active.value.gapDir else 0;
      if nested {
        gapId := 0;
        gapDir := 0;
      }
      var isCatchup := sess.loop.inProgress && gapId == 0;
      var owned := true;
      var unsolicited := nested || (sess.queue.active.None? && !sess.queue.loading);
      if unsolicited {
        owned := BeginUnsolicitedCatchup(env, s);
        isCatchup := owned;
      }
      if msgs == [] {
        EmptyBatch(env, s, ended, isCatchup, unsolicited, owned, gapId, gapDir);
      } else {
        NewChunkIsFor(View(), s, msgs, ended, isCatchup, unsolicited, owned, gapId, gapDir);
        var ch := NewChunk(s, msgs, ended, isCatchup, unsolicited, owned, gapId, gapDir);
        StartBatch(env, ch);
      }
    }

    // ----- leaving, and the user's own requests -----

    /** chathistory_queue_free, on the queue of a session. */
    method QueueFree(q: Queue) returns (q': Queue)
      ensures q' == Drop(q)
    {
      q' := q;
      if q'.active.Some? {
        q' := q'.(freed := q'.freed + multiset{q'.active.value});
      }
      q' := q'.(active := None);
      assert q'.freed == q.freed + Slot(q.active);
      if q'.pending.Some? {
        q' := q'.(freed := q'.freed + multiset{q'.pending.value});
      }
      q' := q'.(pending := None);
      assert q'.freed == q.freed + Slot(q.active) + Slot(q.pending);
      q' := q'.(loading := false);
    }

    /** chathistory_cancel_catchup. */
    method CancelCatchup(s: C.SessionId)
      requires s in sessions
      modifies `sessions
      ensures View() == C.CancelCatchup(old(View()), s)
    {
      hide Drop;
      var sess := sessions[s];
      sess := sess.(loop := sess.loop.(inProgress := false));
      var q := QueueFree(sess.queue);
      sessions := sessions[s := sess.(queue := q, background := false)];
    }

    /** Take a session off the list. */
    method Unlist(s: C.SessionId)
      modifies `order
      ensures order == C.Without(old(order), Some(s))
    {
      hide C.Without;
      var rest: seq<C.SessionId> := [];
      var i := 0;
      while i < |order|
        invariant 0 <= i <= |order|
        invariant order == old(order)
        invariant C.Without(order, Some(s)) == rest + C.Without(order[i..], Some(s))
      {
        WithoutStep(rest, order[i..], s);
        assert order[i..][0] == order[i] && order[i..][1..] == order[i + 1..];
        if order[i] != s {
          rest := rest + [order[i]];
        }
        i := i + 1;
      }
      WithoutEnd(rest, order[i..], s);
      order := rest;
    }

    /** session_free, as far as the engine goes; the front end shows `next`
        when the session was in front. */
    method CloseSession(s: C.SessionId, next: Option<C.SessionId>)
      requires s in sessions
      modifies this
      ensures View() == C.CloseSession(old(View()), s, next)
    {
      hide C.AbandonChunk, C.Without;
      AbandonChunk(s);
      sessions := sessions - {s};
      Unlist(s);
      if current == Some(s) {
        current := if next.Some? && next.value in sessions then next else None;
      }
    }

    /** chathistory_start_catchup. */
    method StartCatchup(env: C.Env, s: C.SessionId)
      requires s in sessions
      modifies `sessions
      ensures View() == C.StartCatchup(env, old(View()), s)
    {
      hide C.RequestFrom;
      var sess := sessions[s];
      if !env.auto || !haveChathistory {
        return;
      }
      if sess.queue.loading || sess.loop.inProgress {
        return;
      }
      sessions := sessions[s := sess.(loop := sess.loop.(inProgress := true))];
      if C.HasText(sess.sbNewest) {
        RequestFrom(s, Latest, Some(Msgid(sess.sbNewest.value)), env.lines);
      } else if sess.sbNewestTime > 0 {
        RequestFrom(s, Latest, Some(Timestamp(sess.sbNewestTime)), env.lines);
      } else {
        RequestFrom(s, Latest, None, env.lines);
      }
    }

    /** chathistory_request_older: scrolling to the top asks for the page before the cursor. */
    method RequestOlder(env: C.Env, s: C.SessionId)
      requires s in sessions
      modifies `sessions
      ensures View() == C.RequestOlder(env, old(View()), s)
    {
      hide C.SubmitRequest, Accepts;
      var sess := sessions[s];
      if !haveChathistory || sess.exhausted {
        return;
      }
      var cursor := sess.oldest;
      if !C.HasText(cursor) {
        cursor := sess.sbOldest;
      }
      if !C.HasText(cursor) {
        return;
      }
      var _ := SubmitRequest(s, Request(Before, Some(Msgid(cursor.value)), None, env.lines, USER, true, 0, 0));
    }

    /** background_history_timer_cb. */
    method BackgroundTimer(env: C.Env, s: C.SessionId)
      requires s in sessions
      modifies `sessions
      ensures View() == C.BackgroundTimer(env, old(View()), s)
    {
      hide C.RequestFrom;
      var sess := sessions[s];
      if !sess.background {
        return;
      }
      if !haveChathistory || sess.exhausted || sess.queue.loading {
        sessions := sessions[s := sess.(background := false)];
        return;
      }
      if C.HasText(sess.oldest) {
        RequestFrom(s, Before, Some(Msgid(sess.oldest.value)), env.lines);
      } else {
        sessions := sessions[s := sess.(background := false)];
      }
    }

    /** chathistory_notify_tab_switch, after the front end made `to` current. */
    method TabSwitch(env: C.Env, to: C.SessionId)
      requires to in sessions
      modifies this
      ensures View() == C.Step(env, old(View()), C.TabSwitch(to))
    {
      hide C.CheckBefore;
      current := Some(to);
      if !haveChathistory {
        return;
      }
      if beforeSess != Some(to) && latestPending == 0 {
        CheckBefore(env);
      }
    }

    /** A batch arrives for a session we may no longer have. */
    method BatchArrives(env: C.Env, s: C.SessionId, nested: bool, answers: bool, msgs: seq<D.Message>, ended: bool)
      modifies this
      ensures View() == if s !in old(sessions) then old(View())
                        else C.ProcessBatch(env, if answers then C.Answered(old(View()), s) else old(View()), s, nested, msgs, ended)
    {
      hide C.ProcessBatch;
      if s !in sessions {
        return;
      }
      if answers {
        sessions := sessions[s := sessions[s].(answered := sessions[s].answered + 1)];
      }
      ProcessBatch(env, s, nested, msgs, ended);
    }

    /** chathistory_handle_fail. */
    method FailArrives(env: C.Env, context: Option<C.SessionId>, badCommand: bool)
      modifies this
      ensures View() == C.Step(env, old(View()), C.Fail(context, badCommand))
    {
      hide C.HandleFail, C.FirstLoading;
      var s := context;
      if s.None? || s.value !in sessions {
        s := FirstLoading();
      }
      if s.None? || s.value !in sessions {
        return;
      }
      sessions := sessions[s.value := sessions[s.value].(answered := sessions[s.value].answered + 1)];
      HandleFail(env, s.value, badCommand);
    }

    /** Events that the user or the front end causes. */
    method HandleUser(env: C.Env, e: C.Event)
      requires e.Part? || e.TargetsEntry? || e.ScrollUp? || e.FillGap? || e.Background?
      modifies this
      ensures View() == C.Step(env, old(View()), e)
    {
      hide C.CancelCatchup, C.StartCatchup, C.RequestOlder, C.RequestGapFill, C.BackgroundTimer;
      if e.s !in sessions {
        return;
      }
      match e
      case Part(s) => CancelCatchup(s);
      case TargetsEntry(s) => StartCatchup(env, s);
      case ScrollUp(s) => RequestOlder(env, s);
      case FillGap(s, gapId, dir) => var _ := RequestGapFill(env, s, gapId, dir);
      case Background(s) => BackgroundTimer(env, s);
    }

    /** Timers, tab switches and the end of a replay. */
    method HandleTimer(env: C.Env, e: C.Event)
      requires e.FanOutTimer? || e.Tick? || e.BeforeTimer? || e.TabSwitch? || e.WrapperEnd?
      modifies this
      ensures View() == C.Step(env, old(View()), e)
    {
      hide C.FanOut, C.ChunkTick, C.CheckBefore;
      match e
      case FanOutTimer => FanOut(env);
      case Tick(c) => ChunkTick(env, c);
      case BeforeTimer =>
        if beforeTimer {
          beforeTimer := false;
          CheckBefore(env);
        }
      case TabSwitch(to) =>
        if to in sessions {
          TabSwitch(env, to);
        }
      case WrapperEnd =>
        if latestPending == 0 {
          CheckBefore(env);
        }
    }

    /** Sessions are opened and closed. */
    method HandleSession(env: C.Env, e: C.Event)
      requires e.Open? || e.Close?
      modifies this
      ensures View() == C.Step(env, old(View()), e)
    {
      hide C.CloseSession, C.Opened;
      match e
      case Open(s, channel, isChannel, oldest, seen) =>
        if s !in sessions {
          sessions := sessions[s := C.Opened(env, channel, isChannel, oldest, seen)];
          order := order + [s];
        }
      case Close(s, next) =>
        if s in sessions {
          CloseSession(s, next);
        }
    }

    /** Batches from the server. */
    method HandleBatch(env: C.Env, e: C.Event)
      requires e.Reply? || e.Unasked? || e.Replay?
      modifies this
      ensures View() == C.Step(env, old(View()), e)
    {
      hide C.ProcessBatch, C.Answered;
      BatchArrives(env, e.s, e.Replay?, e.Reply?, e.msgs, e.ended);
    }

    /** One event.  Whatever is proved of `CatchUp.Step` and its runs holds of
        this object. */
    method Handle(env: C.Env, e: C.Event)
      modifies this
      ensures View() == C.Step(env, old(View()), e)
    {
      hide C.Step;
      match e
      case Reply(_, _, _) => HandleBatch(env, e);
      case Unasked(_, _, _) => HandleBatch(env, e);
      case Replay(_, _, _) => HandleBatch(env, e);
      case Fail(context, badCommand) => FailArrives(env, context, badCommand);
      case FanOutTimer => HandleTimer(env, e);
      case Tick(_) => HandleTimer(env, e);
      case BeforeTimer => HandleTimer(env, e);
      case TabSwitch(_) => HandleTimer(env, e);
      case WrapperEnd => HandleTimer(env, e);
      case Open(_, _, _, _, _) => HandleSession(env, e);
      case Close(_, _) => HandleSession(env, e);
      case _ => HandleUser(env, e);
    }

    /** A whole run of the engine: from a sound state it ends in one, queues and
        ledger alike, and over catch-up traffic with the slot books in order it
        keeps them so. */
    method Run(inputs: seq<C.Input>)
      modifies this
      ensures View() == C.AfterRun(old(View()), inputs)
      ensures I.Sound(old(View())) ==> I.Sound(View())
      ensures S.Books(old(View())) && S.LegalRun(old(View()), inputs) ==> S.Books(View())
    {
      hide C.Step, I.Sound, S.Books, S.LegalRun;
      if I.Sound(old(View())) {
        I.EngineInvariants(old(View()), inputs);
      }
      if S.Books(old(View())) && S.LegalRun(old(View()), inputs) {
        S.SlotAccounting(old(View()), inputs);
      }
      var i := 0;
      while i < |inputs|
        invariant 0 <= i <= |inputs|
        invariant C.AfterRun(View(), inputs[i..]) == C.AfterRun(old(View()), inputs)
      {
        assert inputs[i..][0] == inputs[i] && inputs[i..][1..] == inputs[i + 1..];
        Handle(inputs[i].env, inputs[i].event);
        i := i + 1;
      }
    }
  }

  lemma NewChunkIsFor(st: C.State, s: C.SessionId, msgs: seq<D.Message>, ended: bool, isCatchup: bool,
                      unsolicited: bool, owned: bool, gapId: int, gapDir: int)
    requires s in st.sessions
    ensures C.NewChunk(st, s, msgs, ended, isCatchup, unsolicited, owned, gapId, gapDir).sess == s
  {
  }

  lemma {:induction false} FirstOfMore(shown: seq<D.Message>, m: D.Message)
    ensures C.FirstRemembered(shown + [m]) ==
            if C.FirstRemembered(shown).Some? then C.FirstRemembered(shown)
            else if C.HasText(m.msgid) then m.msgid else None
  {
    if shown == [] {
      assert (shown + [m])[1..] == [];
    } else {
      assert (shown + [m])[1..] == shown[1..] + [m];
      FirstOfMore(shown[1..], m);
    }
  }

  lemma WithoutStep(kept: seq<C.SessionId>, ids: seq<C.SessionId>, s: C.SessionId)
    requires ids != []
    ensures kept + C.Without(ids, Some(s)) ==
            (if ids[0] != s then kept + [ids[0]] else kept) + C.Without(ids[1..], Some(s))
  {
    assert [] + C.Without(ids[1..], Some(s)) == C.Without(ids[1..], Some(s));
  }

  lemma WithoutEnd(kept: seq<C.SessionId>, ids: seq<C.SessionId>, s: C.SessionId)
    requires ids == []
    ensures kept + C.Without(ids, Some(s)) == kept
  {
  }

  lemma FoldStep(rest: seq<G.Gap>, rows: seq<G.Gap>, hole: G.Gap, u: G.Gap)
    requires rows != []
    ensures G.Absorb(rows, hole, u) ==
            G.Absorb(rows[1..], hole, if G.Touches(rows[0], hole) then G.Union(u, rows[0]) else u)
    ensures rest + G.Untouched(rows, hole) ==
            (if G.Touches(rows[0], hole) then rest else rest + [rows[0]]) + G.Untouched(rows[1..], hole)
  {
    hide G.Touches, G.Union;
  }

  lemma FoldEnd(rest: seq<G.Gap>, rows: seq<G.Gap>, hole: G.Gap, u: G.Gap)
    requires rows == []
    ensures G.Absorb(rows, hole, u) == u && rest + G.Untouched(rows, hole) == rest
  {
  }

  lemma CountStep(ids: seq<string>, msgs: seq<D.Message>)
    requires msgs != []
    ensures D.RawCount(msgs) == (if msgs[0].context then 0 else 1) + D.RawCount(msgs[1..])
    ensures ids + C.CursorMsgids(msgs) ==
            (if !msgs[0].context && msgs[0].msgid.Some? then ids + [msgs[0].msgid.value] else ids) +
            C.CursorMsgids(msgs[1..])
  {
    assert [] + C.CursorMsgids(msgs[1..]) == C.CursorMsgids(msgs[1..]);
  }

  lemma CountEnd(ids: seq<string>, msgs: seq<D.Message>)
    requires msgs == []
    ensures D.RawCount(msgs) == 0 && ids + C.CursorMsgids(msgs) == ids
  {
  }

  lemma TakeKeepsSession(sess: C.Session, ch: C.Chunk)
    ensures C.TakeChunk(sess, ch).1.sess == ch.sess
  {
  }

  /** The ledger and the loop once a counted page has been judged. */
  ghost function AfterVerdict(env: C.Env, st: C.State, ch: C.Chunk): C.State
    requires ch.sess in st.sessions
  {
    var sess := st.sessions[ch.sess];
    var verdict := C.JudgePage(env, sess, ch);
    C.ApplyVerdict(env, st.(gaps := C.CloseRow(st.gaps, sess.loop.gapId, verdict)), ch.sess, ch.msgCount, verdict)
  }

  lemma VerdictPastStale(env: C.Env, st: C.State, ch: C.Chunk)
    requires ch.sess in st.sessions
    requires var v := C.JudgePage(env, st.sessions[ch.sess], ch); v != C.NoMore && v != C.Bridged && v != C.Stale
    ensures
      var loop := st.sessions[ch.sess].loop;
      AfterVerdict(env, st, ch) ==
        if C.JudgePage(env, st.sessions[ch.sess], ch) == C.Continue
        then C.PutLoop(st, ch.sess, loop.(stale := if ch.msgCount == 0 then loop.stale + 1 else 0))
             .(beforeSess := None, beforeTimer := true)
        else C.CheckBefore(env, C.FinishCatchup(st, ch.sess))
  {
    hide C.JudgePage, C.CheckBefore, C.FinishCatchup, C.PutLoop;
    var verdict := C.JudgePage(env, st.sessions[ch.sess], ch);
    assert C.CloseRow(st.gaps, st.sessions[ch.sess].loop.gapId, verdict) == st.gaps;
    assert st.(gaps := st.gaps) == st;
  }

  lemma LimitUnmoved(st: C.State, st': C.State, lines: int)
    requires st.limit == st'.limit
    ensures C.EffectiveLimit(st, lines) == C.EffectiveLimit(st', lines)
  {
  }

  function Ended(sess: C.Session): C.Session {
    sess.(loop := C.EndLoop(sess.loop), oldest := if C.HasText(sess.sbOldest) then sess.sbOldest else sess.oldest)
  }

  lemma FinishAfterPut(st: C.State, s: C.SessionId, sess: C.Session)
    requires s in st.sessions
    ensures C.FinishCatchup(C.Put(st, s, sess), s) ==
            C.Put(st, s, Ended(sess)).(beforeSess := if st.beforeSess == Some(s) then None else st.beforeSess)
  {
    hide C.EndLoop, C.HasText;
    assert st.sessions[s := sess][s := Ended(sess)] == st.sessions[s := Ended(sess)];
  }

  /** The stale count does not outlive the walk. */
  lemma FinishForgetsStale(st: C.State, s: C.SessionId, sess: C.Session, n: nat)
    requires s in st.sessions
    ensures C.FinishCatchup(C.Put(st, s, sess.(loop := sess.loop.(stale := n))), s) ==
            C.FinishCatchup(C.Put(st, s, sess), s)
  {
    hide C.Put, C.FinishCatchup;
    FinishAfterPut(st, s, sess);
    FinishAfterPut(st, s, sess.(loop := sess.loop.(stale := n)));
    assert Ended(sess.(loop := sess.loop.(stale := n))) == Ended(sess);
  }

  lemma PutSame(st: C.State, s: C.SessionId)
    requires s in st.sessions
    ensures C.Put(st, s, st.sessions[s]) == st
  {
    assert st.sessions[s := st.sessions[s]] == st.sessions;
  }
}
