/**
 What a FAIL and an empty answer do, in the fields of the state: whose request
 they retire, what is asked again by timestamp, and which rows are given up.
 */
module CatchUpFailing {
  import opened Wrappers
  import opened RequestQueue
  import opened CatchUp
  import A = CatchUpAsks
  import E = CatchUpResting
  import F = CatchUpFinishing
  import D = Dedup
  import G = GapLedger
  import I = CatchUpInvariants

  // ----- whom a FAIL is about -----

  predicate Loads(st: State, s: SessionId) {
    s in st.sessions && st.sessions[s].queue.loading
  }

  /** The FAIL names session `t`, or names no open session and `t` is the first
      in the list with a request on the wire. */
  predicate IsAbout(st: State, context: Option<SessionId>, t: SessionId) {
    t in st.sessions &&
    (context == Some(t) ||
     ((context.Some? ==> context.value !in st.sessions) && Loads(st, t) &&
      exists i | 0 <= i < |st.order| :: st.order[i] == t && forall j | 0 <= j < i :: !Loads(st, st.order[j])))
  }

  lemma {:induction false} FirstLoadingIs(st: State, ids: seq<SessionId>, i: nat)
    requires i < |ids| && Loads(st, ids[i]) && forall j | 0 <= j < i :: !Loads(st, ids[j])
    ensures FirstLoading(st, ids) == Some(ids[i])
  {
    if i > 0 {
      assert !Loads(st, ids[0]);
      assert forall j | 0 <= j < i - 1 :: ids[1..][j] == ids[j + 1];
      FirstLoadingIs(st, ids[1..], i - 1);
    }
  }

  lemma {:induction false} NoneLoading(st: State, ids: seq<SessionId>)
    requires forall s <- ids :: !Loads(st, s)
    ensures FirstLoading(st, ids) == None
  {
    if ids != [] {
      assert ids[0] in ids;
      NoneLoading(st, ids[1..]);
    }
  }

  lemma TargetIs(st: State, context: Option<SessionId>, t: SessionId)
    requires IsAbout(st, context, t)
    ensures FailTarget(st, context) == Some(t)
  {
    hide FirstLoading;
    if context != Some(t) {
      var i :| 0 <= i < |st.order| && st.order[i] == t && forall j | 0 <= j < i :: !Loads(st, st.order[j]);
      FirstLoadingIs(st, st.order, i);
    }
  }

  /** A FAIL that names nobody while nobody waits for anything changes nothing. */
  lemma FailAboutNobody(env: Env, st: State, context: Option<SessionId>, bad: bool)
    requires context.Some? ==> context.value !in st.sessions
    requires forall s <- st.order :: !Loads(st, s)
    ensures Step(env, st, Fail(context, bad)) == st
  {
    hide FirstLoading, HandleFail;
    NoneLoading(st, st.order);
  }

  /** From one state to the next no session but `t` lost the request it had on
      the wire or what waits behind it; nothing freed is taken back, and neither
      answers nor the brake have moved. */
  predicate Spares(st: State, st': State, t: SessionId) {
    st'.sessions.Keys == st.sessions.Keys &&
    st'.failStreak == st.failStreak && st'.suppressed == st.suppressed && st'.betweenUnsupported == st.betweenUnsupported &&
    forall s <- st.sessions ::
      var x, x' := st.sessions[s], st'.sessions[s];
      x'.answered == x.answered && x.queue.freed <= x'.queue.freed &&
      (s != t && Inv(x.queue) && x.queue.active.Some? ==> x'.queue == x.queue)
  }

  lemma SparesThen(a: State, b: State, c: State, t: SessionId)
    requires Spares(a, b, t) && Spares(b, c, t)
    ensures Spares(a, c, t)
  {
    hide Inv;
  }

  /** Only `t` changes, in its queue and elsewhere, and frees what it drops. */
  lemma OneSpares(st: State, st': State, t: SessionId)
    requires E.OnlyAt(st, st', t)
    requires st'.failStreak == st.failStreak && st'.suppressed == st.suppressed && st'.betweenUnsupported == st.betweenUnsupported
    requires st'.sessions[t].answered == st.sessions[t].answered
    requires st.sessions[t].queue.freed <= st'.sessions[t].queue.freed
    ensures Spares(st, st', t)
  {
    hide Inv;
  }

  lemma SubmitFrees(q: Queue, req: Request, canSend: bool)
    ensures q.freed <= Submit(q, req, canSend).freed
  {
  }

  lemma RequestSpares(st: State, t: SessionId, kind: Kind, reference: Option<Reference>, limit: int)
    requires t in st.sessions
    ensures Spares(st, RequestFrom(st, t, kind, reference, limit), t)
  {
    E.RequestOnlyAt(st, t, kind, reference, limit);
    RequestFrees(st, t, kind, reference, limit);
    hide RequestFrom, Spares;
    OneSpares(st, RequestFrom(st, t, kind, reference, limit), t);
  }

  lemma RequestFrees(st: State, t: SessionId, kind: Kind, reference: Option<Reference>, limit: int)
    requires t in st.sessions
    ensures var st' := RequestFrom(st, t, kind, reference, limit);
      t in st'.sessions && st'.failStreak == st.failStreak && st'.suppressed == st.suppressed &&
      st'.betweenUnsupported == st.betweenUnsupported && st'.sessions[t].answered == st.sessions[t].answered &&
      st.sessions[t].queue.freed <= st'.sessions[t].queue.freed
  {
    hide SubmitRequest;
    var byMsgid := reference.Some? && reference.value.Msgid? && kind != Around;
    SubmittedFrees(st, t, Request(kind, reference, None, limit, InferPriority(st.sessions[t]), byMsgid, 0, 0));
  }

  lemma FinishSpares(st: State, t: SessionId)
    requires t in st.sessions
    ensures Spares(st, FinishCatchup(st, t), t)
  {
    hide Inv;
  }

  lemma SameSpares(st: State, st': State, t: SessionId)
    requires st'.sessions == st.sessions
    requires st'.failStreak == st.failStreak && st'.suppressed == st.suppressed && st'.betweenUnsupported == st.betweenUnsupported
    ensures Spares(st, st', t)
  {
  }

  lemma StartSpares(st: State, s: SessionId, t: SessionId)
    requires NeedsBefore(st, s)
    ensures Spares(st, StartBefore(st, s), t)
  {
    hide RequestFrom, FinishCatchup, Inv;
    var st1 := PutLoop(st.(beforeSess := Some(s)), s, st.sessions[s].loop.(isBefore := true));
    OneSpares(st, st1, s);
    if HasText(st.sessions[s].oldest) {
      RequestSpares(st1, s, Before, Some(Msgid(st.sessions[s].oldest.value)), BEFORE_LIMIT);
    } else {
      FinishSpares(st1, s);
    }
    SparesThen(st, st1, StartBefore(st, s), s);
    IdleIsSpared(st, StartBefore(st, s), s, t);
  }

  /** A session that was idle had nothing to lose. */
  lemma IdleIsSpared(st: State, st': State, s: SessionId, t: SessionId)
    requires Spares(st, st', s) && s in st.sessions && !st.sessions[s].queue.loading
    ensures Spares(st, st', t)
  {
  }

  lemma PagingSpares(env: Env, st: State, t: SessionId)
    ensures Spares(st, CheckBefore(env, st), t)
  {
    hide StartBefore, PickBefore, Inv;
    SameSpares(st, CheckBefore(env, st).(sessions := st.sessions, failStreak := st.failStreak, suppressed := st.suppressed,
                                         betweenUnsupported := st.betweenUnsupported), t);
    PickedNeeds(env, st);
    var s := PickBefore(env, st);
    if s.Some? {
      StartSpares(st, s.value, t);
    }
  }

  lemma AtZeroSpares(env: Env, st: State, t: SessionId)
    ensures Spares(st, CheckBeforeAtZero(env, st), t)
  {
    hide CheckBefore, Inv;
    SameSpares(st, st, t);
    PagingSpares(env, st, t);
  }

  lemma FillSpares(env: Env, st: State, t: SessionId, gapId: int, dir: int)
    requires t in st.sessions
    ensures Spares(st, RequestGapFill(env, st, t, gapId, dir).0, t)
  {
    SameSpares(st, st, t);
    if Fillable(env, st, t, gapId) {
      I.FillableFound(env, st, t, gapId);
      E.FillOnlyAt(env, st, t, gapId, dir);
      FillFrees(env, st, t, gapId, dir);
      hide RequestGapFill, Spares, Submit;
      OneSpares(st, RequestGapFill(env, st, t, gapId, dir).0, t);
    }
  }

  lemma FillFrees(env: Env, st: State, t: SessionId, gapId: int, dir: int)
    requires t in st.sessions && Fillable(env, st, t, gapId)
    ensures var st' := RequestGapFill(env, st, t, gapId, dir).0;
      t in st'.sessions && st'.failStreak == st.failStreak && st'.suppressed == st.suppressed &&
      st'.betweenUnsupported == st.betweenUnsupported && st'.sessions[t].answered == st.sessions[t].answered &&
      st.sessions[t].queue.freed <= st'.sessions[t].queue.freed
  {
    I.FillableFound(env, st, t, gapId);
    SubmittedFrees(st, t, FillRequest(st, env, G.Find(st.gaps, gapId).value, dir));
    hide SubmitRequest, Fillable, FillRequest, Accepts, G.Touch;
  }

  lemma SubmittedFrees(st: State, t: SessionId, req: Request)
    requires t in st.sessions
    ensures var st' := SubmitRequest(st, t, req);
      t in st'.sessions && st'.failStreak == st.failStreak && st'.suppressed == st.suppressed &&
      st'.betweenUnsupported == st.betweenUnsupported && st'.sessions[t].answered == st.sessions[t].answered &&
      st.sessions[t].queue.freed <= st'.sessions[t].queue.freed
  {
    SubmitFrees(st.sessions[t].queue, req, CanSend(st, t));
    hide Submit;
  }

  lemma RetrySpares(env: Env, st: State, t: SessionId, gapId: int, dir: int)
    requires t in st.sessions
    ensures Spares(st, RetryFill(env, st, t, gapId, dir).0, t)
  {
    hide RequestGapFill, G.DropMsgids, G.HasMsgids, Spares;
    var st1 := st.(gaps := G.DropMsgids(st.gaps, gapId));
    SameSpares(st, st, t);
    SameSpares(st, st1, t);
    FillSpares(env, st1, t, gapId, dir);
    SparesThen(st, st1, RequestGapFill(env, st1, t, gapId, dir).0, t);
  }

  lemma FailedFillSpares(env: Env, st: State, t: SessionId, gapId: int, dir: int, latched: bool)
    requires t in st.sessions
    ensures Spares(st, FailedFill(env, st, t, gapId, dir, latched), t)
  {
    hide RetryFill, G.SetState, Spares, G.Find;
    SameSpares(st, st, t);
    RetrySpares(env, st, t, gapId, dir);
    var st1 := if latched then st else RetryFill(env, st, t, gapId, dir).0;
    SameSpares(st1, FailedFill(env, st, t, gapId, dir, latched), t);
    SparesThen(st, st1, FailedFill(env, st, t, gapId, dir, latched), t);
  }

  lemma FailedCatchupSpares(env: Env, st: State, t: SessionId, usedMsgid: bool, wasLatest: bool)
    requires t in st.sessions
    ensures Spares(st, FailedCatchup(env, st, t, usedMsgid, wasLatest), t)
  {
    hide RequestFrom, FinishCatchup, CheckBeforeAtZero, Inv, Spares;
    RequestSpares(st, t, Latest, Some(Timestamp(st.sessions[t].sbNewestTime)), env.lines);
    var st1 := ReturnSlot(st, wasLatest);
    SameSpares(st, st1, t);
    FinishSpares(st1, t);
    SparesThen(st, st1, FinishCatchup(st1, t), t);
    AtZeroSpares(env, FinishCatchup(st1, t), t);
    SparesThen(st, FinishCatchup(st1, t), CheckBeforeAtZero(env, FinishCatchup(st1, t)), t);
  }

  /** The state once the FAIL has been counted and the request retired. */
  function Failed(st: State, t: SessionId, bad: bool): State
    requires t in st.sessions
  {
    RequestComplete(NoteFail(Answered(st, t), t, bad), t)
  }

  lemma FailedIs(st: State, t: SessionId, bad: bool)
    requires t in st.sessions
    ensures var st1 := Failed(st, t, bad); var x := st.sessions[t]; var r := x.queue.active;
      var suppressed := st.suppressed || st.failStreak >= 3;
      st1 == st.(sessions := st.sessions[t := x.(answered := x.answered + 1,
                                                 queue := Complete(x.queue, x.hasTarget && st.haveChathistory && st.connected && !suppressed))],
                 failStreak := st.failStreak + 1, suppressed := suppressed,
                 betweenUnsupported := st.betweenUnsupported || (bad && r.Some? && r.value.kind == Between))
  {
    hide Complete;
  }

  /** The rest of the handler, after that. */
  function AfterFailed(env: Env, st1: State, x: Session, t: SessionId, bad: bool): State
    requires t in st1.sessions
  {
    var gapId := if x.queue.active.Some? then x.queue.active.value.gapId else 0;
    var gapDir := if x.queue.active.Some? then x.queue.active.value.gapDir else 0;
    if gapId > 0 then FailedFill(env, st1, t, gapId, gapDir, bad && x.queue.active.value.kind == Between)
    else if x.loop.inProgress then FailedCatchup(env, st1, t, x.queue.usedMsgid, !x.loop.isBefore)
    else st1
  }

  lemma FailStep(env: Env, st: State, context: Option<SessionId>, bad: bool, t: SessionId)
    requires IsAbout(st, context, t)
    ensures t in Failed(st, t, bad).sessions
    ensures Step(env, st, Fail(context, bad)) == AfterFailed(env, Failed(st, t, bad), st.sessions[t], t, bad)
  {
    TargetIs(st, context, t);
    FailedIs(st, t, bad);
    hide FailTarget, FailedFill, FailedCatchup, Complete, IsAbout;
    HandledIs(env, Answered(st, t), t, bad);
  }

  lemma HandledIs(env: Env, st: State, t: SessionId, bad: bool)
    requires t in st.sessions
    ensures t in RequestComplete(NoteFail(st, t, bad), t).sessions
    ensures HandleFail(env, st, t, bad) == AfterFailed(env, RequestComplete(NoteFail(st, t, bad), t), st.sessions[t], t, bad)
  {
    hide FailedFill, FailedCatchup, Complete;
  }

  lemma AfterFailedSpares(env: Env, st1: State, x: Session, t: SessionId, bad: bool)
    requires t in st1.sessions
    ensures Spares(st1, AfterFailed(env, st1, x, t, bad), t)
  {
    hide FailedFill, FailedCatchup, Inv, Spares;
    SameSpares(st1, st1, t);
    var gapId := if x.queue.active.Some? then x.queue.active.value.gapId else 0;
    var gapDir := if x.queue.active.Some? then x.queue.active.value.gapDir else 0;
    if gapId > 0 {
      FailedFillSpares(env, st1, t, gapId, gapDir, bad && x.queue.active.value.kind == Between);
    } else if x.loop.inProgress {
      FailedCatchupSpares(env, st1, t, x.queue.usedMsgid, !x.loop.isBefore);
    }
  }

  /** A FAIL retires the request of the session it is about and counts as its
      answer; nobody else loses a request, and nobody else was answered.  The
      fourth FAIL in a row ends the sending, and one that says BETWEEN was not
      understood, in answer to BETWEEN, ends its use. */
  lemma FailRetires(env: Env, st: State, context: Option<SessionId>, bad: bool, t: SessionId)
    requires IsAbout(st, context, t)
    ensures var st' := Step(env, st, Fail(context, bad)); var q := st.sessions[t].queue;
      st'.sessions.Keys == st.sessions.Keys &&
      st'.sessions[t].answered == st.sessions[t].answered + 1 &&
      (q.active.Some? ==> q.freed + multiset{q.active.value} <= st'.sessions[t].queue.freed) &&
      (forall s <- st.sessions | s != t ::
        var x, x' := st.sessions[s], st'.sessions[s];
        x'.answered == x.answered && (Inv(x.queue) && x.queue.active.Some? ==> x'.queue == x.queue)) &&
      st'.failStreak == st.failStreak + 1 && (st'.suppressed <==> st.suppressed || st.failStreak >= 3) &&
      (st'.betweenUnsupported <==> st.betweenUnsupported || (bad && q.active.Some? && q.active.value.kind == Between))
  {
    FailStep(env, st, context, bad, t);
    FailedFrees(st, t, bad);
    var st1 := Failed(st, t, bad);
    AfterFailedSpares(env, st1, st.sessions[t], t, bad);
    hide Step, AfterFailed, Failed, Inv, IsAbout;
  }

  lemma FailedFrees(st: State, t: SessionId, bad: bool)
    requires t in st.sessions
    ensures var st1 := Failed(st, t, bad); var q := st.sessions[t].queue;
      st1.sessions.Keys == st.sessions.Keys && (forall s <- st.sessions | s != t :: st1.sessions[s] == st.sessions[s]) &&
      st1.sessions[t].answered == st.sessions[t].answered + 1 &&
      (q.active.Some? ==> q.freed + multiset{q.active.value} <= st1.sessions[t].queue.freed) &&
      st1.failStreak == st.failStreak + 1 && (st1.suppressed <==> st.suppressed || st.failStreak >= 3) &&
      (st1.betweenUnsupported <==> st.betweenUnsupported || (bad && q.active.Some? && q.active.value.kind == Between))
  {
    FailedIs(st, t, bad);
    hide Failed;
  }

  // ----- a fill that failed or came back empty -----

  /** The fill was asked for by a msgid the row still has: the server may not know it. */
  predicate MsgidsMayBeStale(x: Session, g: G.Gap) {
    x.queue.usedMsgid && (g.startMsgid.Some? || g.endMsgid.Some?)
  }

  /** The row by its seconds alone, as if it had never been asked about. */
  function BySeconds(g: G.Gap): G.Gap {
    g.(startMsgid := None, endMsgid := None, attempts := 0, lastAttempt := 0)
  }

  /** The fill of `g` by its seconds can be asked for at once. */
  predicate CanAskAgain(env: Env, st: State, x: Session, active: Option<Request>, g: G.Gap, again: Request) {
    st.haveChathistory && env.gapfill && !x.loop.inProgress && g.state != G.Dead &&
    !(0 < env.retentionCutoff && g.end < env.retentionCutoff) && !A.Holds(active, again)
  }

  lemma DroppedIs(rows: seq<G.Gap>, g: G.Gap)
    requires G.Find(rows, g.id) == Some(g)
    ensures var rows' := G.DropMsgids(rows, g.id);
      G.Find(rows', g.id) == Some(BySeconds(g)) && forall r: G.Gap :: r.id != g.id ==> (r in rows' <==> r in rows)
  {
    G.UpdateFinds(rows, g.id, (r: G.Gap) => r.(startMsgid := None, endMsgid := None, attempts := 0, lastAttempt := 0));
  }

  /** Asking again by seconds, when the queue has nothing waiting. */
  lemma RetryIs(env: Env, st: State, s: SessionId, g: G.Gap, dir: int, again: Request)
    requires s in st.sessions && st.sessions[s].queue.pending.None?
    requires g.id > 0 && G.Find(st.gaps, g.id) == Some(g) && A.AsksForHole(env, st, BySeconds(g), dir, again)
    ensures var (st', retried) := RetryFill(env, st, s, g.id, dir);
      var x := st.sessions[s];
      var stale := MsgidsMayBeStale(x, g) && !st.suppressed;
      (retried <==> stale && CanAskAgain(env, st, x, x.queue.active, g, again)) &&
      G.Find(st'.gaps, g.id) == Some(if retried then BySeconds(g).(attempts := 1, lastAttempt := env.now)
                                     else if stale then BySeconds(g) else g) &&
      forall r: G.Gap :: r.id != g.id ==> (r in st'.gaps <==> r in st.gaps)
  {
    DroppedIs(st.gaps, g);
    var st1 := st.(gaps := G.DropMsgids(st.gaps, g.id));
    hide G.Find, G.DropMsgids, A.AsksForHole, RequestGapFill;
    A.FillGoesOutIff(env, st1, s, BySeconds(g), dir, again) by {
      AsksAlike(env, st, st1, BySeconds(g), dir, again);
    }
  }

  lemma AsksAlike(env: Env, st: State, st': State, g: G.Gap, dir: int, req: Request)
    requires st'.betweenUnsupported == st.betweenUnsupported
    ensures A.AsksForHole(env, st', g, dir, req) == A.AsksForHole(env, st, g, dir, req)
  {
  }

  lemma CompletedIs(q: Queue, canSend: bool)
    ensures var q' := Complete(q, canSend);
      q'.pending.None? && q'.active == (if canSend then q.pending else None) &&
      (q.pending.None? ==> q'.usedMsgid == q.usedMsgid && q'.sent == q.sent && !q'.loading)
  {
  }

  /** An empty answer to a gap fill.  Where the server may only have failed to
      know a msgid, the row forgets its msgids and is asked for again by its
      seconds; where that is not so or cannot be asked, the row is dead.  The
      history is not taken to be at its end. */
  lemma EmptyFillIs(env: Env, st: State, s: SessionId, ended: bool, g: G.Gap, again: Request)
    requires s in st.sessions && st.sessions[s].queue.active.Some? && st.sessions[s].queue.active.value.gapId == g.id
    requires g.id > 0 && G.Find(st.gaps, g.id) == Some(g) && st.sessions[s].queue.pending.None?
    requires A.AsksForHole(env, st, BySeconds(g), st.sessions[s].queue.active.value.gapDir, again)
    ensures var st' := Step(env, st, Reply(s, [], ended)); var x := st.sessions[s];
      var stale := MsgidsMayBeStale(x, g) && !st.suppressed;
      G.Find(st'.gaps, g.id) == Some(
        if stale && CanAskAgain(env, st, x, None, g, again) then BySeconds(g).(attempts := 1, lastAttempt := env.now)
        else (if stale then BySeconds(g) else g).(state := G.Dead)) &&
      (forall r: G.Gap :: r.id != g.id ==> (r in st'.gaps <==> r in st.gaps)) &&
      s in st'.sessions && st'.sessions[s].exhausted == x.exhausted
  {
    var x := st.sessions[s];
    var dir := x.queue.active.value.gapDir;
    var st1 := RequestComplete(Answered(st, s), s);
    EmptyFillStep(env, st, s, ended, g.id, dir);
    CompletedIs(x.queue, CanSend(st, s));
    RetiredIs(st, s);
    hide Step, Complete, G.Find, A.AsksForHole, RequestComplete, Answered;
    AsksAlike(env, st, st1, BySeconds(g), dir, again);
    EmptyFillRow(env, st1, s, g, dir, again);
    EmptyFillDeclares(env, st1, s, g.id, dir);
  }

  lemma RetiredIs(st: State, s: SessionId)
    requires s in st.sessions
    ensures s in Answered(st, s).sessions
    ensures var st1 := RequestComplete(Answered(st, s), s); var x := st.sessions[s];
      st1 == st.(sessions := st.sessions[s := x.(answered := x.answered + 1, queue := Complete(x.queue, CanSend(st, s)))])
  {
    hide Complete;
  }

  lemma EmptyFillStep(env: Env, st: State, s: SessionId, ended: bool, gapId: int, dir: int)
    requires s in st.sessions && gapId > 0
    requires st.sessions[s].queue.active.Some? && st.sessions[s].queue.active.value.gapId == gapId
    requires st.sessions[s].queue.active.value.gapDir == dir
    ensures s in Answered(st, s).sessions && s in RequestComplete(Answered(st, s), s).sessions
    ensures Step(env, st, Reply(s, [], ended)) == EmptyFill(env, RequestComplete(Answered(st, s), s), s, gapId, dir)
  {
    hide EmptyFill, Complete, Adoptable, EmptyCatchup;
  }

  lemma EmptyFillRow(env: Env, st: State, s: SessionId, g: G.Gap, dir: int, again: Request)
    requires s in st.sessions && st.sessions[s].queue.pending.None?
    requires g.id > 0 && G.Find(st.gaps, g.id) == Some(g) && A.AsksForHole(env, st, BySeconds(g), dir, again)
    ensures var st' := EmptyFill(env, st, s, g.id, dir); var x := st.sessions[s];
      var stale := MsgidsMayBeStale(x, g) && !st.suppressed;
      G.Find(st'.gaps, g.id) == Some(
        if stale && CanAskAgain(env, st, x, x.queue.active, g, again) then BySeconds(g).(attempts := 1, lastAttempt := env.now)
        else (if stale then BySeconds(g) else g).(state := G.Dead)) &&
      forall r: G.Gap :: r.id != g.id ==> (r in st'.gaps <==> r in st.gaps)
  {
    RetryIs(env, st, s, g, dir, again);
    var (st1, retried) := RetryFill(env, st, s, g.id, dir);
    if !retried {
      F.SetStateIs(st1.gaps, G.Find(st1.gaps, g.id).value, G.Dead);
    }
    hide RetryFill, G.Find, G.SetState, CanAskAgain, A.AsksForHole;
  }

  lemma EmptyFillDeclares(env: Env, st: State, s: SessionId, gapId: int, dir: int)
    requires s in st.sessions
    ensures var st' := EmptyFill(env, st, s, gapId, dir); s in st'.sessions && st'.sessions[s].exhausted == st.sessions[s].exhausted
  {
    hide RequestGapFill, G.SetState, G.DropMsgids, G.HasMsgids;
    FillDeclares(env, st.(gaps := G.DropMsgids(st.gaps, gapId)), s, gapId, dir);
  }

  lemma FillDeclares(env: Env, st: State, s: SessionId, gapId: int, dir: int)
    requires s in st.sessions
    ensures var st' := RequestGapFill(env, st, s, gapId, dir).0;
      s in st'.sessions && st'.sessions[s].exhausted == st.sessions[s].exhausted
  {
    hide Submit, Fillable, FillRequest, Accepts, G.Touch;
  }

  /** A FAIL of a gap fill.  As for an empty answer, but a row that is not asked
      for again is dead only at its third attempt, and a FAIL that ends the use
      of BETWEEN leaves the msgids alone. */
  lemma FailedFillIs(env: Env, st: State, context: Option<SessionId>, bad: bool, s: SessionId, g: G.Gap, again: Request)
    requires IsAbout(st, context, s) && st.sessions[s].queue.pending.None?
    requires st.sessions[s].queue.active.Some? && st.sessions[s].queue.active.value.gapId == g.id
    requires g.id > 0 && G.Find(st.gaps, g.id) == Some(g)
    requires A.AsksForHole(env, st, BySeconds(g), st.sessions[s].queue.active.value.gapDir, again)
    ensures var st' := Step(env, st, Fail(context, bad)); var x := st.sessions[s];
      var stale := MsgidsMayBeStale(x, g) && !(st.suppressed || st.failStreak >= 3) &&
                   !(bad && x.queue.active.value.kind == Between);
      G.Find(st'.gaps, g.id) == Some(
        if stale && CanAskAgain(env, st, x, None, g, again) then BySeconds(g).(attempts := 1, lastAttempt := env.now)
        else if stale then BySeconds(g)
        else if g.attempts >= 3 then g.(state := G.Dead) else g) &&
      forall r: G.Gap :: r.id != g.id ==> (r in st'.gaps <==> r in st.gaps)
  {
    FailStep(env, st, context, bad, s);
    FailedIs(st, s, bad);
    var st1 := Failed(st, s, bad);
    var active := st.sessions[s].queue.active.value;
    var latched := bad && active.kind == Between;
    CompletedIs(st.sessions[s].queue, CanSend(st, s) && !st1.suppressed);
    hide Step, Failed, Complete, IsAbout, G.Find, A.AsksForHole, FailedFill;
    FailedQueue(st, s, bad);
    if !latched {
      AsksAlike(env, st, st1, BySeconds(g), active.gapDir, again);
      FailedFillRow(env, st1, s, g, active.gapDir, again);
    } else {
      LatchedFillRow(env, st1, s, g, active.gapDir);
    }
  }

  lemma FailedQueue(st: State, s: SessionId, bad: bool)
    requires s in st.sessions && st.sessions[s].queue.pending.None?
    ensures var st1 := Failed(st, s, bad);
      s in st1.sessions && var q, q' := st.sessions[s].queue, st1.sessions[s].queue;
      q'.pending.None? && q'.active.None? && q'.usedMsgid == q.usedMsgid && q'.sent == q.sent && !q'.loading
  {
    FailedIs(st, s, bad);
  }

  lemma FailedFillRow(env: Env, st: State, s: SessionId, g: G.Gap, dir: int, again: Request)
    requires s in st.sessions && st.sessions[s].queue.pending.None?
    requires g.id > 0 && G.Find(st.gaps, g.id) == Some(g) && A.AsksForHole(env, st, BySeconds(g), dir, again)
    ensures var st' := FailedFill(env, st, s, g.id, dir, false); var x := st.sessions[s];
      var stale := MsgidsMayBeStale(x, g) && !st.suppressed;
      G.Find(st'.gaps, g.id) == Some(
        if stale && CanAskAgain(env, st, x, x.queue.active, g, again) then BySeconds(g).(attempts := 1, lastAttempt := env.now)
        else if stale then BySeconds(g)
        else if g.attempts >= 3 then g.(state := G.Dead) else g) &&
      forall r: G.Gap :: r.id != g.id ==> (r in st'.gaps <==> r in st.gaps)
  {
    RetryIs(env, st, s, g, dir, again);
    var (st1, retried) := RetryFill(env, st, s, g.id, dir);
    F.SetStateIs(st1.gaps, G.Find(st1.gaps, g.id).value, G.Dead);
    hide RetryFill, G.Find, G.SetState, CanAskAgain, A.AsksForHole;
  }

  lemma LatchedFillRow(env: Env, st: State, s: SessionId, g: G.Gap, dir: int)
    requires s in st.sessions && G.Find(st.gaps, g.id) == Some(g)
    ensures var st' := FailedFill(env, st, s, g.id, dir, true);
      G.Find(st'.gaps, g.id) == Some(if g.attempts >= 3 then g.(state := G.Dead) else g) &&
      forall r: G.Gap :: r.id != g.id ==> (r in st'.gaps <==> r in st.gaps)
  {
    F.SetStateIs(st.gaps, g, G.Dead);
    hide RetryFill, G.SetState;
  }

  // ----- a LATEST that failed or came back empty -----

  /** LATEST is asked for again, by the second of the newest row stored. */
  predicate AskedBySecond(env: Env, st: State, x: Session, x': Session) {
    x'.loop == x.loop &&
    (st.haveChathistory && st.connected && !st.suppressed && x.hasTarget ==>
      x'.queue.sent == x.queue.sent +
        [Request(Latest, Some(Timestamp(x.sbNewestTime)), None, env.lines,
                 if x.background then 0 else if x.loop.inProgress then 1 else 2, false, 0, 0)])
  }

  lemma AsksBySecond(env: Env, st: State, s: SessionId)
    requires s in st.sessions && st.sessions[s].queue.active.None? && st.sessions[s].queue.pending.None?
    ensures var st' := RequestFrom(st, s, Latest, Some(Timestamp(st.sessions[s].sbNewestTime)), env.lines);
      s in st'.sessions && AskedBySecond(env, st, st.sessions[s], st'.sessions[s]) &&
      st'.latestPending == st.latestPending && st'.sessions[s].exhausted == st.sessions[s].exhausted
  {
  }

  /** The loop ends and a slot is given back if one is owed. */
  lemma EndsAtZero(env: Env, st: State, s: SessionId)
    requires s in st.sessions && !st.sessions[s].loop.inProgress
    ensures var st' := CheckBeforeAtZero(env, st);
      s in st'.sessions && st'.sessions[s] == st.sessions[s] && st'.latestPending == st.latestPending
  {
    hide CheckBefore;
    F.PagingSkips(env, st, s);
    F.KeepsPending(env, st);
  }

  /** A FAIL in the catch-up loop.  If the request went by a msgid, a newest
      second is known and requests can still be sent, the same is asked for by
      that second, and the phase goes on; otherwise the loop is over and, in the
      LATEST phase, its slot is given back. */
  lemma FailedLatestIs(env: Env, st: State, context: Option<SessionId>, bad: bool, s: SessionId)
    requires IsAbout(st, context, s) && st.sessions[s].queue.pending.None? && st.sessions[s].loop.inProgress
    requires st.sessions[s].queue.active.Some? ==> st.sessions[s].queue.active.value.gapId <= 0
    ensures var st' := Step(env, st, Fail(context, bad)); var x := st.sessions[s];
      s in st'.sessions && st'.sessions[s].exhausted == x.exhausted &&
      if !(st.suppressed || st.failStreak >= 3) && x.queue.usedMsgid && x.sbNewestTime > 0
      then AskedBySecond(env, st, x, st'.sessions[s]) && st'.latestPending == st.latestPending
      else !st'.sessions[s].loop.inProgress &&
           st'.latestPending == if !x.loop.isBefore && st.latestPending > 0 then st.latestPending - 1 else st.latestPending
  {
    FailStep(env, st, context, bad, s);
    FailedIs(st, s, bad);
    FailedQueue(st, s, bad);
    var st1 := Failed(st, s, bad);
    hide Step, Failed, Complete, IsAbout, RequestFrom, FinishCatchup, CheckBeforeAtZero;
    AsksBySecond(env, st1, s);
    EndsCatchup(env, st1, s, !st.sessions[s].loop.isBefore);
  }

  lemma EndsCatchup(env: Env, st: State, s: SessionId, owned: bool)
    requires s in st.sessions
    ensures var st' := CheckBeforeAtZero(env, FinishCatchup(ReturnSlot(st, owned), s)); var x := st.sessions[s];
      s in st'.sessions && !st'.sessions[s].loop.inProgress && st'.sessions[s].exhausted == x.exhausted &&
      st'.latestPending == if owned && st.latestPending > 0 then st.latestPending - 1 else st.latestPending
  {
    hide CheckBeforeAtZero;
    EndsAtZero(env, FinishCatchup(ReturnSlot(st, owned), s), s);
  }

  lemma EndsEmptyCatchup(env: Env, st: State, s: SessionId, owned: bool)
    requires s in st.sessions
    ensures var st' := CheckBeforeAtZero(env, ReturnSlot(FinishCatchup(st, s), owned)); var x := st.sessions[s];
      s in st'.sessions && !st'.sessions[s].loop.inProgress && st'.sessions[s].exhausted == x.exhausted &&
      st'.latestPending == if owned && st.latestPending > 0 then st.latestPending - 1 else st.latestPending
  {
    hide CheckBeforeAtZero;
    EndsAtZero(env, ReturnSlot(FinishCatchup(st, s), owned), s);
  }

  /** An empty answer in the catch-up loop.  The same is asked for by second as
      after a FAIL, unless the history is known to be at its end; otherwise the
      loop is over and a slot is given back.  The end of the history is declared
      exactly when the server says so. */
  lemma EmptyLatestIs(env: Env, st: State, s: SessionId, ended: bool)
    requires s in st.sessions && st.sessions[s].queue.pending.None? && st.sessions[s].loop.inProgress
    requires st.sessions[s].queue.active.Some? && st.sessions[s].queue.active.value.gapId == 0
    ensures var st' := Step(env, st, Reply(s, [], ended)); var x := st.sessions[s];
      s in st'.sessions && (st'.sessions[s].exhausted <==> x.exhausted || ended) &&
      if !x.exhausted && !ended && x.queue.usedMsgid && x.sbNewestTime > 0
      then AskedBySecond(env, st, x, st'.sessions[s]) && st'.latestPending == st.latestPending
      else !st'.sessions[s].loop.inProgress &&
           st'.latestPending == if st.latestPending > 0 then st.latestPending - 1 else st.latestPending
  {
    EmptyStep(env, st, s, ended);
    CompletedIs(st.sessions[s].queue, CanSend(st, s));
    var st1 := EmptyRetired(st, s, ended);
    hide Step, Complete, RequestFrom, FinishCatchup, CheckBeforeAtZero, ReturnSlot;
    AsksBySecond(env, st1, s);
    EndsEmptyCatchup(env, st1, s, true);
  }

  /** The state once the empty answer has been counted and the request retired. */
  function EmptyRetired(st: State, s: SessionId, ended: bool): State
    requires s in st.sessions
  {
    var y := EmptyMarked(st.sessions[s], ended);
    st.(sessions := st.sessions[s := y.(queue := Complete(y.queue, y.hasTarget && Online(st)))])
  }

  /** The session once the empty answer has been counted and its end mark taken. */
  function EmptyMarked(x: Session, ended: bool): Session {
    x.(answered := x.answered + 1, exhausted := x.exhausted || ended)
  }

  lemma EmptyRetiredIs(st: State, s: SessionId, ended: bool)
    requires s in st.sessions
    ensures s in Answered(st, s).sessions && s in MarkExhausted(Answered(st, s), s, ended).sessions
    ensures RequestComplete(MarkExhausted(Answered(st, s), s, ended), s) == EmptyRetired(st, s, ended)
  {
    MarkedIs(st, s, ended);
    var x := st.sessions[s];
    CompletesIs(st, s, EmptyMarked(x, ended));
    hide Complete, Answered, MarkExhausted, RequestComplete, EmptyMarked, Online;
  }

  lemma CompletesIs(st: State, s: SessionId, y: Session)
    ensures var st1 := st.(sessions := st.sessions[s := y]);
      RequestComplete(st1, s) ==
      st.(sessions := st.sessions[s := y.(queue := Complete(y.queue, y.hasTarget && Online(st)))])
  {
    hide Complete;
    var z := y.(queue := Complete(y.queue, y.hasTarget && Online(st)));
    assert st.sessions[s := y][s := z] == st.sessions[s := z];
  }

  lemma MarkedIs(st: State, s: SessionId, ended: bool)
    requires s in st.sessions
    ensures s in Answered(st, s).sessions
    ensures MarkExhausted(Answered(st, s), s, ended) == st.(sessions := st.sessions[s := EmptyMarked(st.sessions[s], ended)])
  {
  }

  lemma EmptyRetiredEnds(st: State, s: SessionId, ended: bool)
    requires s in st.sessions
    ensures MarkExhausted(EmptyRetired(st, s, ended), s, true) == EmptyRetired(st, s, true)
  {
    hide Complete;
    var z := EmptyRetired(st, s, true).sessions[s];
    assert EmptyRetired(st, s, ended).sessions[s := z] == st.sessions[s := z];
  }

  lemma EmptyStep(env: Env, st: State, s: SessionId, ended: bool)
    requires s in st.sessions && st.sessions[s].queue.active.Some? && st.sessions[s].queue.active.value.gapId == 0
    ensures Step(env, st, Reply(s, [], ended)) ==
            if st.sessions[s].loop.inProgress
            then EmptyCatchup(env, EmptyRetired(st, s, ended), s, st.sessions[s].queue.usedMsgid, false, true)
            else EmptyRetired(st, s, true)
  {
    EmptyRetiredIs(st, s, ended);
    EmptyRetiredEnds(st, s, ended);
    var st0 := Answered(st, s);
    assert st0.sessions[s].queue == st.sessions[s].queue && st0.sessions[s].loop == st.sessions[s].loop;
    hide EmptyFill, Complete, Adoptable, EmptyCatchup, RequestComplete, MarkExhausted, EmptyRetired, Answered;
  }

  /** An empty answer to any other request but a gap fill says that there is no
      more history. */
  lemma EmptyScrollDeclares(env: Env, st: State, s: SessionId, ended: bool)
    requires s in st.sessions && !st.sessions[s].loop.inProgress
    requires st.sessions[s].queue.active.Some? && st.sessions[s].queue.active.value.gapId == 0
    ensures var st' := Step(env, st, Reply(s, [], ended)); s in st'.sessions && st'.sessions[s].exhausted
  {
    EmptyStep(env, st, s, ended);
    hide Step, EmptyCatchup, Complete;
  }
}
