/**
 What the engine asks for, and of whom, in the fields of its state: whose page
 comes next, where a LATEST starts, when a gap fill goes out, and that nobody
 pages below the end of a history.
 */
module CatchUpAsks {
  import opened Wrappers
  import opened RequestQueue
  import opened CatchUp
  import D = Dedup
  import G = GapLedger

  // ----- whose page comes next -----

  /** The session is in the loop and has nothing on the wire. */
  predicate WantsPage(st: State, s: SessionId) {
    s in st.sessions && st.sessions[s].loop.inProgress && !st.sessions[s].exhausted && !st.sessions[s].queue.loading
  }

  /** BEFORE pages may be asked for: no LATEST outcome is pending and no page is
      under way. */
  predicate MayPage(st: State) {
    st.connected && st.haveChathistory && st.latestPending == 0 &&
    (st.beforeSess.Some? && st.beforeSess.value in st.sessions ==> !st.sessions[st.beforeSess.value].queue.loading)
  }

  /** From `x` to `x'` the session was turned to: its loop is in the BEFORE phase
      and, if requests can be sent, the last one sent is for the page below its
      cursor; without a cursor its loop is over. */
  predicate PageAsked(x: Session, x': Session, canSend: bool) {
    if x.oldest.Some? && x.oldest.value != "" then
      x'.loop == x.loop.(isBefore := true) && x'.oldest == x.oldest &&
      (Inv(x.queue) ==>
        var page := Request(Before, Some(Msgid(x.oldest.value)), None, 50, if x.background then 0 else 1, true, 0, 0);
        if x.hasTarget && canSend
        then x'.queue.sent == x.queue.sent + [page] && x'.queue.active == Some(page) && x'.queue.loading
        else x'.queue.sent == x.queue.sent)
    else
      !x'.loop.inProgress && x'.queue == x.queue
  }

  /** Between the two states session `t` was turned to, and nobody else touched. */
  predicate Paged(st: State, st': State, t: SessionId) {
    t in st.sessions && t in st'.sessions && st'.sessions == st.sessions[t := st'.sessions[t]] &&
    st' == st.(sessions := st'.sessions, beforeSess := st'.beforeSess) &&
    st'.beforeSess == (if st.sessions[t].oldest.Some? && st.sessions[t].oldest.value != "" then Some(t) else None) &&
    PageAsked(st.sessions[t], st'.sessions[t], !st.suppressed)
  }

  lemma TurnedTo(st: State, t: SessionId)
    requires st.connected && st.haveChathistory && WantsPage(st, t)
    ensures Paged(st, StartBefore(st, t), t)
  {
    hide StartBefore, Paged;
    if HasText(st.sessions[t].oldest) {
      TurnedToCursor(st, t);
    } else {
      TurnedToNothing(st, t);
    }
  }

  lemma TurnedToCursor(st: State, t: SessionId)
    requires st.connected && st.haveChathistory && WantsPage(st, t) && HasText(st.sessions[t].oldest)
    ensures Paged(st, StartBefore(st, t), t)
  {
    hide Submit, RequestFrom, Inv;
    var x := st.sessions[t];
    var y := x.(loop := x.loop.(isBefore := true));
    var st1 := PutLoop(st.(beforeSess := Some(t)), t, y.loop);
    var page := Request(Before, Some(Msgid(x.oldest.value)), None, 50, if x.background then 0 else 1, true, 0, 0);
    AsksOnly(st1, t, Before, Some(Msgid(x.oldest.value)), BEFORE_LIMIT);
    IdleSubmits(x.queue, page, !st.suppressed);
    var z := if x.hasTarget then y.(queue := Submit(x.queue, page, !st.suppressed)) else y;
    assert st1.sessions[t := z] == st.sessions[t := z];
  }

  lemma TurnedToNothing(st: State, t: SessionId)
    requires t in st.sessions && !HasText(st.sessions[t].oldest)
    ensures Paged(st, StartBefore(st, t), t)
  {
    hide Inv;
    var x := st.sessions[t];
    var st1 := PutLoop(st.(beforeSess := Some(t)), t, x.loop.(isBefore := true));
    var z := FinishCatchup(st1, t).sessions[t];
    assert st1.sessions[t := z] == st.sessions[t := z];
  }

  /** A request from one reference changes the queue of its session and nothing else. */
  lemma AsksOnly(st: State, s: SessionId, kind: Kind, reference: Option<Reference>, limit: int)
    requires s in st.sessions && st.connected && st.haveChathistory && kind != Around
    ensures
      var x := st.sessions[s];
      var req := Request(kind, reference, None, limit, if x.background then 0 else if x.loop.inProgress then 1 else 2,
                         reference.Some? && reference.value.Msgid?, 0, 0);
      RequestFrom(st, s, kind, reference, limit) ==
      if x.hasTarget then Put(st, s, x.(queue := Submit(x.queue, req, !st.suppressed))) else st
  {
  }

  /** So an idle session's request is the last one sent, if it can be sent. */
  lemma IdleAsks(st: State, s: SessionId, kind: Kind, reference: Option<Reference>, limit: int)
    requires s in st.sessions && st.haveChathistory && !st.sessions[s].queue.loading && kind != Around
    ensures var st' := RequestFrom(st, s, kind, reference, limit); var x := st.sessions[s];
      s in st'.sessions && st' == Put(st, s, x.(queue := st'.sessions[s].queue)) &&
      (Inv(x.queue) && x.hasTarget && st.connected && !st.suppressed ==>
        st'.sessions[s].queue.sent == x.queue.sent +
          [Request(kind, reference, None, limit, if x.background then 0 else if x.loop.inProgress then 1 else 2,
                   reference.Some? && reference.value.Msgid?, 0, 0)])
  {
    var x := st.sessions[s];
    assert st.sessions[s := x] == st.sessions;
    if st.connected {
      AsksOnly(st, s, kind, reference, limit);
      IdleSubmits(x.queue, Request(kind, reference, None, limit, if x.background then 0 else if x.loop.inProgress then 1 else 2,
                                   reference.Some? && reference.value.Msgid?, 0, 0), !st.suppressed);
    }
    hide Submit, Inv;
  }

  lemma IdleSubmits(q: Queue, req: Request, canSend: bool)
    requires !q.loading
    ensures Inv(q) ==> var q' := Submit(q, req, canSend);
      if canSend then q'.sent == q.sent + [req] && q'.active == Some(req) && q'.loading else q'.sent == q.sent
  {
  }

  /** The session in front comes first, whatever the preferences say. */
  lemma FrontIsPaged(env: Env, st: State, t: SessionId)
    requires MayPage(st) && st.current == Some(t) && WantsPage(st, t)
    ensures Paged(st, CheckBefore(env, st), t)
  {
    TurnedTo(st, t);
    hide StartBefore, Paged;
  }

  /** Then, if gaps are to be filled at all, the first in the list that wants one. */
  lemma FirstInListIsPaged(env: Env, st: State, i: nat)
    requires MayPage(st) && (st.current.Some? ==> !WantsPage(st, st.current.value)) && env.gapfill
    requires i < |st.order| && WantsPage(st, st.order[i]) && forall j | 0 <= j < i :: !WantsPage(st, st.order[j])
    ensures Paged(st, CheckBefore(env, st), st.order[i])
  {
    FirstNeedingIs(st, st.order, i);
    TurnedTo(st, st.order[i]);
    hide StartBefore, FirstNeeding, Paged;
  }

  lemma {:induction false} FirstNeedingIs(st: State, ids: seq<SessionId>, i: nat)
    requires i < |ids| && WantsPage(st, ids[i]) && forall j | 0 <= j < i :: !WantsPage(st, ids[j])
    ensures FirstNeeding(st, ids) == Some(ids[i])
  {
    if i > 0 {
      assert !WantsPage(st, ids[0]);
      assert forall j | 0 <= j < i - 1 :: ids[1..][j] == ids[j + 1];
      FirstNeedingIs(st, ids[1..], i - 1);
    }
  }

  /** Otherwise nobody is, and none is remembered as being paged. */
  lemma NobodyIsPaged(env: Env, st: State)
    requires MayPage(st) && (st.current.Some? ==> !WantsPage(st, st.current.value))
    requires env.gapfill ==> forall s <- st.order :: !WantsPage(st, s)
    ensures CheckBefore(env, st) == st.(beforeSess := None)
  {
    FirstNeedingNeeds(st, st.order);
    FirstNeedingIn(st, st.order);
  }

  lemma {:induction false} FirstNeedingIn(st: State, ids: seq<SessionId>)
    ensures FirstNeeding(st, ids).Some? ==> FirstNeeding(st, ids).value in ids
  {
    if ids != [] {
      FirstNeedingIn(st, ids[1..]);
    }
  }

  /** As long as pages may not be asked for, nothing changes. */
  lemma NotYetPaged(env: Env, st: State)
    requires !MayPage(st)
    ensures CheckBefore(env, st) == st
  {
  }

  /** The pacing timer, the end of a replay and a tab switch turn to the session
      in front, which is the one switched to. */
  lemma EventsPageFront(env: Env, st: State, t: SessionId, e: Event)
    requires MayPage(st) && WantsPage(st, t)
    requires match e
      case BeforeTimer => st.beforeTimer && st.current == Some(t)
      case WrapperEnd => st.current == Some(t)
      case TabSwitch(to) => to == t && st.beforeSess != Some(t)
      case _ => false
    ensures Paged(st.(current := Some(t), beforeTimer := st.beforeTimer && !e.BeforeTimer?), Step(env, st, e), t)
  {
    hide CheckBefore, StartBefore;
    if e.BeforeTimer? {
      FrontIsPaged(env, st.(beforeTimer := false), t);
    } else {
      FrontIsPaged(env, st.(current := Some(t)), t);
    }
  }

  // ----- where a LATEST starts -----

  /** From `x` to `x'` the session entered the loop: the loop remembers the newest
      row stored for the channel, and stops five seconds before it, or, when
      there is no such second, at the age limit if there is one; and LATEST was
      asked for from that row's msgid, else from its second, else from nowhere. */
  predicate AskedLatest(env: Env, x: Session, x': Session, canSend: bool) {
    var (newest, time) := env.newest(x.channel);
    var byMsgid := newest.Some? && newest.value != "";
    var start := if byMsgid then Some(Msgid(newest.value)) else if time > 0 then Some(Timestamp(time)) else None;
    var stop := if time > 5 then time - 5 else if env.maxAge > 0 then env.now - env.maxAge * 3600 else 0;
    x' == x.(sbNewest := newest, sbNewestTime := time, queue := x'.queue,
             loop := Loop(true, false, x.loop.stale, x.loop.retrieved, 0, stop, time, newest)) &&
    (Inv(x.queue) ==>
      x'.queue.sent == x.queue.sent +
        if canSend then [Request(Latest, start, None, env.lines, if x.background then 0 else 1, byMsgid, 0, 0)] else [])
  }

  lemma DeferredAsks(env: Env, st: State, s: SessionId)
    requires s in st.sessions && st.connected && st.haveChathistory && WantsLatest(st.sessions[s])
    ensures var st' := SendDeferredLatest(env, st, s);
      s in st'.sessions && st'.sessions == st.sessions[s := st'.sessions[s]] &&
      st'.connected && st'.haveChathistory && st'.suppressed == st.suppressed &&
      AskedLatest(env, st.sessions[s], st'.sessions[s], !st.suppressed)
  {
    hide Submit, RequestFrom, Inv;
    var x := st.sessions[s];
    var st1 := EnterLatestPhase(env, st, s);
    var y := st1.sessions[s];
    var reference := LatestReference(y);
    AsksOnly(st1, s, Latest, reference, env.lines);
    var latest := Request(Latest, reference, None, env.lines, if x.background then 0 else 1,
                          reference.Some? && reference.value.Msgid?, 0, 0);
    IdleSubmits(x.queue, latest, !st.suppressed);
    var z := y.(queue := Submit(x.queue, latest, !st.suppressed));
    assert st1.sessions[s := z] == st.sessions[s := z];
  }

  lemma {:induction false} SendAllAsks(env: Env, st: State, ids: seq<SessionId>, s: SessionId)
    requires s in st.sessions && st.connected && st.haveChathistory
    ensures var st' := SendAll(env, st, ids); var x := st.sessions[s];
      s in st'.sessions &&
      if s in ids && WantsLatest(x) then AskedLatest(env, x, st'.sessions[s], !st.suppressed) else st'.sessions[s] == x
    decreases |ids|
  {
    hide SendDeferredLatest, AskedLatest, WantsLatest;
    if ids != [] {
      var st1 := if ids[0] in st.sessions then SendDeferredLatest(env, st, ids[0]) else st;
      DeferredAsksOnce(env, st, ids[0]);
      SendAllAsks(env, st1, ids[1..], s);
    }
  }

  lemma DeferredAsksOnce(env: Env, st: State, t: SessionId)
    requires st.connected && st.haveChathistory
    ensures var st' := if t in st.sessions then SendDeferredLatest(env, st, t) else st;
      st'.connected && st'.haveChathistory && st'.suppressed == st.suppressed && st'.sessions.Keys == st.sessions.Keys &&
      (forall s <- st.sessions | s != t :: st'.sessions[s] == st.sessions[s]) &&
      (t in st.sessions ==>
        if WantsLatest(st.sessions[t])
        then AskedLatest(env, st.sessions[t], st'.sessions[t], !st.suppressed) && !WantsLatest(st'.sessions[t])
        else st'.sessions[t] == st.sessions[t])
  {
    if t in st.sessions && WantsLatest(st.sessions[t]) {
      DeferredAsks(env, st, t);
      hide SendDeferredLatest, Inv;
    }
  }

  lemma {:induction false} WithoutIn(ids: seq<SessionId>, skip: Option<SessionId>, s: SessionId)
    ensures s in Without(ids, skip) <==> s in ids && Some(s) != skip
  {
    if ids != [] {
      WithoutIn(ids[1..], skip, s);
    }
  }

  /** The fan-out asks each channel it is for, and leaves every other session as
      it was: those that load already, that are in the loop, whose history is
      known to its end, and those that are no channel. */
  lemma FanOutAsks(env: Env, st: State, s: SessionId)
    requires st.connected && st.haveChathistory && env.auto && s in st.sessions
    ensures var st' := Step(env, st, FanOutTimer); var x := st.sessions[s];
      s in st'.sessions &&
      if (st.current == Some(s) || s in st.order) && x.isChannel && x.hasTarget &&
         !x.queue.loading && !x.loop.inProgress && !x.exhausted
      then AskedLatest(env, x, st'.sessions[s], !st.suppressed) else st'.sessions[s] == x
  {
    hide SendAll, AskedLatest;
    WithoutIn(st.order, st.current, s);
    SendAllAsks(env, st.(latestPending := 0), FanOutOrder(st), s);
  }

  // ----- when a gap fill goes out -----

  /** A bound of a row is named by its msgid where it has one, else by its second. */
  predicate Names(reference: Option<Reference>, msgid: Option<string>, ts: int) {
    reference == if msgid.Some? && msgid.value != "" then Some(Msgid(msgid.value)) else Some(Timestamp(ts))
  }

  /** The request asks for what row `g` leaves out, from the side approached: for
      all between its bounds, or, from a server without BETWEEN, for what lies
      beyond the near one. */
  predicate AsksForHole(env: Env, st: State, g: G.Gap, dir: int, req: Request) {
    var (nearId, near, farId, far) := if dir < 0 then (g.endMsgid, g.end, g.startMsgid, g.start)
                                      else (g.startMsgid, g.start, g.endMsgid, g.end);
    Names(req.reference, nearId, near) &&
    (if st.betweenUnsupported then req.kind == (if dir < 0 then Before else After) && req.endRef.None?
     else req.kind == Between && Names(req.endRef, farId, far)) &&
    (req.usedMsgid <==> (req.reference.value.Msgid? || (req.endRef.Some? && req.endRef.value.Msgid?))) &&
    req.limit == env.lines && req.priority == 2 && req.gapId == g.id && req.gapDir == dir
  }

  /** A slot holds a request for the same thing. */
  predicate Holds(slot: Option<Request>, req: Request) {
    slot.Some? && slot.value.kind == req.kind && slot.value.reference == req.reference && slot.value.endRef == req.endRef
  }

  /** A gap fill goes out exactly when the preferences and the server allow it,
      the session is not catching up, the row is not dead, is not parked behind
      the retention cutoff, has never been tried or was last tried at least five
      seconds per attempt ago, a minute at most, and the queue has room: it holds
      no such request, and has a free slot or a waiting request of lower
      priority.  Then the row counts the attempt; otherwise no row changes. */
  lemma FillGoesOutIff(env: Env, st: State, s: SessionId, g: G.Gap, dir: int, req: Request)
    requires s in st.sessions && G.Find(st.gaps, g.id) == Some(g) && AsksForHole(env, st, g, dir, req)
    ensures var (st', sent) := RequestGapFill(env, st, s, g.id, dir); var q := st.sessions[s].queue;
      (sent <==>
        st.haveChathistory && !st.suppressed && env.gapfill && g.id > 0 && !st.sessions[s].loop.inProgress &&
        g.state != G.Dead && !(0 < env.retentionCutoff && g.end < env.retentionCutoff) &&
        (g.lastAttempt <= 0 || env.now >= g.lastAttempt + 60 || env.now >= g.lastAttempt + 5 * g.attempts) &&
        !Holds(q.active, req) && !Holds(q.pending, req) &&
        (q.active.None? || q.pending.None? || q.pending.value.priority < 2)) &&
      (!sent ==> st'.gaps == st.gaps) &&
      (sent ==>
        G.Find(st'.gaps, g.id) == Some(g.(attempts := g.attempts + 1, lastAttempt := env.now)) &&
        forall r: G.Gap :: r.id != g.id ==> (r in st'.gaps <==> r in st.gaps))
  {
    HoleRequest(env, st, g, dir, req);
    FillableIff(env, st, s, g);
    AcceptsIff(st.sessions[s].queue, req);
    TouchIs(st.gaps, g, env.now);
    hide Fillable, Accepts, FillRequest, AsksForHole, G.Touch, G.Find, Submit, Holds;
  }

  lemma FillableIff(env: Env, st: State, s: SessionId, g: G.Gap)
    requires s in st.sessions && G.Find(st.gaps, g.id) == Some(g)
    ensures Fillable(env, st, s, g.id) <==>
            st.haveChathistory && !st.suppressed && env.gapfill && g.id > 0 && !st.sessions[s].loop.inProgress &&
            g.state != G.Dead && !(0 < env.retentionCutoff && g.end < env.retentionCutoff) &&
            (g.lastAttempt <= 0 || env.now >= g.lastAttempt + 60 || env.now >= g.lastAttempt + 5 * g.attempts)
  {
    BackedOffIff(env, g);
    hide BackedOff, G.Find;
  }

  lemma AcceptsIff(q: Queue, req: Request)
    ensures Accepts(q, req) <==>
            !Holds(q.active, req) && !Holds(q.pending, req) &&
            (q.active.None? || q.pending.None? || q.pending.value.priority < req.priority)
  {
  }

  lemma TouchIs(rows: seq<G.Gap>, g: G.Gap, now: int)
    requires G.Find(rows, g.id) == Some(g)
    ensures var rows' := G.Touch(rows, g.id, now);
      G.Find(rows', g.id) == Some(g.(attempts := g.attempts + 1, lastAttempt := now)) &&
      forall r: G.Gap :: r.id != g.id ==> (r in rows' <==> r in rows)
  {
    G.UpdateFinds(rows, g.id, (r: G.Gap) => r.(attempts := r.attempts + 1, lastAttempt := now));
  }

  lemma BackedOffIff(env: Env, g: G.Gap)
    ensures BackedOff(env, g) <==>
            !(g.lastAttempt <= 0 || env.now >= g.lastAttempt + 60 || env.now >= g.lastAttempt + 5 * g.attempts)
  {
  }

  lemma HoleRequest(env: Env, st: State, g: G.Gap, dir: int, req: Request)
    ensures AsksForHole(env, st, g, dir, req) <==> req == FillRequest(st, env, g, dir)
  {
  }

  /** An accepted fill is on the wire at once when the session was idle (or is
      dropped when there is no connection), and waits as the next request
      otherwise. */
  lemma FillIsQueued(env: Env, st: State, s: SessionId, g: G.Gap, dir: int, req: Request)
    requires s in st.sessions && G.Find(st.gaps, g.id) == Some(g) && AsksForHole(env, st, g, dir, req)
    requires RequestGapFill(env, st, s, g.id, dir).1
    ensures var st' := RequestGapFill(env, st, s, g.id, dir).0; var q := st.sessions[s].queue;
      st'.sessions == st.sessions[s := st.sessions[s].(queue :=
        if q.active.None? && !(st.connected && st.sessions[s].hasTarget) then q.(freed := q.freed + multiset{req})
        else if q.active.None?
        then q.(active := Some(req), loading := true, usedMsgid := req.usedMsgid, sent := q.sent + [req])
        else q.(pending := Some(req), freed := q.freed + if q.pending.Some? then multiset{q.pending.value} else multiset{}))]
  {
    HoleRequest(env, st, g, dir, req);
    hide FillRequest, AsksForHole, G.Touch, BackedOff;
  }

  /** Nothing is asked about a row that is not there. */
  lemma NoRowNoFill(env: Env, st: State, s: SessionId, gapId: int, dir: int)
    requires s in st.sessions && forall g <- st.gaps :: g.id != gapId
    ensures RequestGapFill(env, st, s, gapId, dir) == (st, false)
  {
  }

  // ----- what the user asks for -----

  /** A scroll asks for what is below the session's cursor, or below its oldest
      stored row when it has none, before anything automatic: exactly when
      something older may exist and one of the two is known. */
  lemma ScrollAsksIff(env: Env, st: State, s: SessionId)
    requires s in st.sessions && Inv(st.sessions[s].queue)
    ensures var st' := Step(env, st, ScrollUp(s)); var x := st.sessions[s]; var q := x.queue;
      var cursor := if x.oldest.Some? && x.oldest.value != "" then x.oldest else x.sbOldest;
      if st.haveChathistory && !x.exhausted && cursor.Some? && cursor.value != "" then
        var req := Request(Before, Some(Msgid(cursor.value)), None, env.lines, 2, true, 0, 0);
        s in st'.sessions && st' == st.(sessions := st.sessions[s := x.(queue := st'.sessions[s].queue)]) &&
        AskedByUser(q, st'.sessions[s].queue, req, st.connected && !st.suppressed && x.hasTarget)
      else st' == st
  {
    OlderAsks(env, st, s);
    hide RequestOlder, AskedByUser, Inv;
  }

  lemma OlderAsks(env: Env, st: State, s: SessionId)
    requires s in st.sessions && Inv(st.sessions[s].queue)
    ensures var st' := RequestOlder(env, st, s); var x := st.sessions[s];
      var cursor := if HasText(x.oldest) then x.oldest else x.sbOldest;
      if st.haveChathistory && !x.exhausted && HasText(cursor) then
        var req := Request(Before, Some(Msgid(cursor.value)), None, env.lines, 2, true, 0, 0);
        s in st'.sessions && st' == st.(sessions := st.sessions[s := x.(queue := st'.sessions[s].queue)]) &&
        AskedByUser(x.queue, st'.sessions[s].queue, req, CanSend(st, s))
      else st' == st
  {
    var x := st.sessions[s];
    var cursor := if HasText(x.oldest) then x.oldest else x.sbOldest;
    hide Submit, AskedByUser, Inv, SubmitRequest;
    if HasText(cursor) {
      var req := Request(Before, Some(Msgid(cursor.value)), None, env.lines, 2, true, 0, 0);
      UserSubmits(x.queue, req, CanSend(st, s));
      SubmittedIs(st, s, req);
    }
  }

  lemma SubmittedIs(st: State, s: SessionId, req: Request)
    requires s in st.sessions
    ensures SubmitRequest(st, s, req) ==
            st.(sessions := st.sessions[s := st.sessions[s].(queue := Submit(st.sessions[s].queue, req, CanSend(st, s)))])
  {
    hide Submit;
  }

  /** What becomes of a user's request: it goes out when the session is idle and
      it can be sent; behind another one it waits, in place of anything automatic,
      unless the same is asked for already or the user's last wish still waits. */
  predicate AskedByUser(q: Queue, q': Queue, req: Request, canSend: bool) {
    if q.active.None? then
      canSend ==> q'.active == Some(req) && q'.sent == q.sent + [req]
    else
      q'.active == q.active && q'.sent == q.sent &&
      q'.pending ==
        if Holds(q.active, req) || Holds(q.pending, req) || (q.pending.Some? && q.pending.value.priority >= 2)
        then q.pending else Some(req)
  }

  lemma UserSubmits(q: Queue, req: Request, canSend: bool)
    requires Inv(q) && req.priority == 2
    ensures AskedByUser(q, Submit(q, req, canSend), req, canSend)
  {
  }

  // ----- the rest -----

  /** A part forgets everything: nothing of the session is on the wire or waits,
      each request given back once, its loop is over and no background fetch goes on. */
  lemma PartForgets(env: Env, st: State, s: SessionId)
    requires s in st.sessions
    ensures var st' := Step(env, st, Part(s)); var x := st.sessions[s];
      s in st'.sessions && st' == st.(sessions := st.sessions[s := st'.sessions[s]]) &&
      var x' := st'.sessions[s];
      !x'.loop.inProgress && !x'.background && x'.queue.active.None? && x'.queue.pending.None? && !x'.queue.loading &&
      x'.queue.sent == x.queue.sent && x'.exhausted == x.exhausted && x'.oldest == x.oldest &&
      x'.queue.freed == x.queue.freed + Slot(x.queue.active) + Slot(x.queue.pending)
  {
  }

  /** An entry of the listing of targets starts a loop exactly when catch-up is
      wanted and the session neither loads nor is in a loop; LATEST is then asked
      for from the newest row known when the window was opened. */
  lemma TargetsAskIff(env: Env, st: State, s: SessionId)
    requires s in st.sessions
    ensures var st' := Step(env, st, TargetsEntry(s)); var x := st.sessions[s];
      if env.auto && st.haveChathistory && !x.queue.loading && !x.loop.inProgress then
        s in st'.sessions && st' == st.(sessions := st.sessions[s := st'.sessions[s]]) &&
        var byMsgid := x.sbNewest.Some? && x.sbNewest.value != "";
        var start := if byMsgid then Some(Msgid(x.sbNewest.value))
                     else if x.sbNewestTime > 0 then Some(Timestamp(x.sbNewestTime)) else None;
        var x' := st'.sessions[s];
        x'.loop == x.loop.(inProgress := true) &&
        (Inv(x.queue) && x.hasTarget && st.connected && !st.suppressed ==>
          x'.queue.sent == x.queue.sent + [Request(Latest, start, None, env.lines, if x.background then 0 else 1, byMsgid, 0, 0)])
      else st' == st
  {
    var x := st.sessions[s];
    var y := x.(loop := x.loop.(inProgress := true));
    var st1 := PutLoop(st, s, y.loop);
    hide RequestFrom, Inv;
    if st.haveChathistory && !x.queue.loading {
      IdleAsks(st1, s, Latest, LatestReference(x), env.lines);
      var z := RequestFrom(st1, s, Latest, LatestReference(x), env.lines).sessions[s];
      assert st1.sessions[s := z] == st.sessions[s := z];
    }
  }

  /** A background fetch asks for the page below the session's cursor, behind
      everything else, while there is one and more may come; otherwise it stops. */
  lemma BackgroundAsksIff(env: Env, st: State, s: SessionId)
    requires s in st.sessions
    ensures var st' := Step(env, st, Background(s)); var x := st.sessions[s];
      if !x.background then st' == st
      else
        s in st'.sessions && st' == st.(sessions := st.sessions[s := st'.sessions[s]]) &&
        var x' := st'.sessions[s];
        if st.haveChathistory && !x.exhausted && !x.queue.loading && x.oldest.Some? && x.oldest.value != "" then
          x'.background &&
          (Inv(x.queue) && x.hasTarget && st.connected && !st.suppressed ==>
            x'.queue.sent == x.queue.sent + [Request(Before, Some(Msgid(x.oldest.value)), None, env.lines, 0, true, 0, 0)])
        else x' == x.(background := false)
  {
    if st.sessions[s].background {
      FetchAsks(env, st, s);
    }
    hide BackgroundTimer, Inv;
  }

  lemma FetchAsks(env: Env, st: State, s: SessionId)
    requires s in st.sessions && st.sessions[s].background
    ensures var st' := BackgroundTimer(env, st, s); var x := st.sessions[s];
      s in st'.sessions && st' == st.(sessions := st.sessions[s := st'.sessions[s]]) &&
      var x' := st'.sessions[s];
      if st.haveChathistory && !x.exhausted && !x.queue.loading && HasText(x.oldest) then
        x'.background &&
        (Inv(x.queue) && x.hasTarget && st.connected && !st.suppressed ==>
          x'.queue.sent == x.queue.sent + [Request(Before, Some(Msgid(x.oldest.value)), None, env.lines, 0, true, 0, 0)])
      else x' == x.(background := false)
  {
    hide RequestFrom, Inv;
    var x := st.sessions[s];
    if st.haveChathistory && !x.queue.loading && HasText(x.oldest) {
      IdleAsks(st, s, Before, Some(Msgid(x.oldest.value)), env.lines);
    }
  }

  /** An opened window is idle and in no loop, its history may go on, and its
      cursor is the oldest row stored for it; the newest one is known too. */
  lemma OpenIs(env: Env, st: State, s: SessionId, channel: nat, isChannel: bool, oldest: Option<string>, seen: D.Seen)
    requires s !in st.sessions
    ensures var st' := Step(env, st, Open(s, channel, isChannel, oldest, seen));
      s in st'.sessions && st' == st.(sessions := st.sessions[s := st'.sessions[s]], order := st.order + [s]) &&
      var x := st'.sessions[s];
      x.channel == channel && x.isChannel == isChannel && x.hasTarget && x.seen == seen &&
      x.oldest == oldest && x.sbOldest == oldest && (x.sbNewest, x.sbNewestTime) == env.newest(channel) && x.queue == EMPTY_QUEUE && x.answered == 0 &&
      !x.loop.inProgress && !x.loop.isBefore && !x.exhausted && !x.background && x.chunk.None?
  {
  }

  /** Closing a window takes it out of the list; if it was in front, the one the
      front end names is now, if that is open. */
  lemma CloseIs(env: Env, st: State, s: SessionId, next: Option<SessionId>)
    requires s in st.sessions
    ensures var st' := Step(env, st, Close(s, next));
      st'.sessions.Keys == st.sessions.Keys - {s} && (forall t :: t in st'.order <==> t in st.order && t != s) &&
      st'.current == if st.current != Some(s) then st.current
                     else if next.Some? && next.value in st'.sessions then next else None
  {
    forall t ensures t in Without(st.order, Some(s)) <==> t in st.order && t != s {
      WithoutIn(st.order, Some(s), t);
    }
    AbandonKeeps(st, s);
    hide AbandonChunk, Without;
  }

  lemma AbandonKeeps(st: State, s: SessionId)
    requires s in st.sessions
    ensures var st' := AbandonChunk(st, s);
      st'.sessions.Keys == st.sessions.Keys && st'.order == st.order && st'.current == st.current
  {
  }
}
