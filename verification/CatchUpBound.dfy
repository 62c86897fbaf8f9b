/**
 The automatic catch-up of a session is bounded.  Whatever batches, empty
 replies and FAILs the server sends, in whatever order, the requests the loop
 sends after it was entered are bounded by a constant; and a BEFORE request
 goes out only when no LATEST outcome is pending.
 */
module CatchUpBound {
  import opened Wrappers
  import opened RequestQueue
  import opened CatchUp
  import I = CatchUpInvariants
  import S = CatchUpSlots
  import D = Dedup
  import G = GapLedger

  /** How many more pages the loop can take: each non-empty page either shows
      something new or counts towards the stale limit. */
  function PagesLeft(loop: Loop): nat {
    3 * (if loop.retrieved >= SANITY_LIMIT then 0 else SANITY_LIMIT - loop.retrieved) +
    (if loop.stale >= STALE_LIMIT then 0 else STALE_LIMIT - loop.stale)
  }

  /** How many more requests the loop can send.  A page takes a BEFORE by msgid
      and, when that is refused, one LATEST by timestamp. */
  function Credit(x: Session): nat {
    var pages := PagesLeft(x.loop);
    if !x.loop.inProgress then 0
    else if !x.loop.isBefore then 2 * pages + if x.queue.usedMsgid then 1 else 0
    else if x.queue.active.None? then 2 * pages
    else if pages == 0 then 0
    else if x.queue.usedMsgid then 2 * pages - 1 else 2 * pages - 2
  }

  /** The most requests one pass through the loop can send. */
  const PASS_LIMIT: nat := 2 * (3 * SANITY_LIMIT + STALE_LIMIT) + 2

  /** Nothing but catch-up uses the queue. */
  predicate Automatic(x: Session) {
    Inv(x.queue) && x.queue.pending.None? && x.hasTarget && !x.background && x.loop.stale < STALE_LIMIT &&
    (x.queue.active.Some? ==> x.queue.active.value.gapId == 0)
  }

  function Befores(sent: seq<Request>): nat {
    if sent == [] then 0 else Befores(sent[..|sent| - 1]) + if sent[|sent| - 1].kind == Before then 1 else 0
  }

  lemma BeforesAppend(sent: seq<Request>, req: Request)
    ensures Befores(sent + [req]) == Befores(sent) + if req.kind == Before then 1 else 0
  {
    assert (sent + [req])[..|sent|] == sent;
  }

  /** From `x` to `x'` requests are paid for out of the credit and `k` more. */
  predicate Pays(x: Session, x': Session, k: nat) {
    Automatic(x) ==> Automatic(x') && |x'.queue.sent| + Credit(x') <= |x.queue.sent| + Credit(x) + k
  }

  predicate NoBefore(x: Session, x': Session) {
    Automatic(x) ==> Befores(x'.queue.sent) == Befores(x.queue.sent)
  }

  /** Session `s` pays its way and sends no BEFORE. */
  predicate Quiet(st: State, st': State, s: SessionId, k: nat) {
    s in st.sessions && s in st'.sessions && st'.sessions.Keys <= st.sessions.Keys &&
    Pays(st.sessions[s], st'.sessions[s], k) && NoBefore(st.sessions[s], st'.sessions[s])
  }

  /** Session `s` pays its way, and a BEFORE was sent only with nothing pending. */
  predicate Paced(st: State, st': State, s: SessionId, k: nat) {
    s in st.sessions && s in st'.sessions && st'.sessions.Keys <= st.sessions.Keys &&
    Pays(st.sessions[s], st'.sessions[s], k) && (NoBefore(st.sessions[s], st'.sessions[s]) || st'.latestPending == 0)
  }

  lemma QuietThenPaced(a: State, b: State, c: State, s: SessionId, k: nat)
    requires Quiet(a, b, s, k) && Paced(b, c, s, 0)
    ensures Paced(a, c, s, k)
  {
  }

  lemma QuietThenQuiet(a: State, b: State, c: State, s: SessionId, k: nat)
    requires Quiet(a, b, s, 0) && Quiet(b, c, s, k)
    ensures Quiet(a, c, s, k)
  {
  }

  /** `st'` has session `t` as `x` and is otherwise `st`, as far as sessions go. */
  predicate Becomes(st: State, st': State, t: SessionId, x: Session) {
    t in st.sessions && st'.sessions == st.sessions[t := x]
  }

  lemma ChangeIsQuiet(st: State, st': State, t: SessionId, x: Session, s: SessionId, k: nat)
    requires Becomes(st, st', t, x) && s in st.sessions
    requires Pays(st.sessions[t], x, k) && NoBefore(st.sessions[t], x)
    ensures Quiet(st, st', s, k)
  {
  }

  lemma SameIsQuiet(st: State, st': State, s: SessionId)
    requires st'.sessions == st.sessions && s in st.sessions
    ensures Quiet(st, st', s, 0)
  {
  }

  // ----- requests by an idle session -----

  /** The session after it asked by a msgid or a timestamp; `canSend` says
      whether anything went out. */
  lemma IdleAsks(st: State, t: SessionId, kind: Kind, reference: Option<Reference>, limit: int) returns (x: Session)
    requires t in st.sessions && Automatic(st.sessions[t]) && st.sessions[t].queue.active.None? && kind != Around
    ensures Becomes(st, RequestFrom(st, t, kind, reference, limit), t, x)
    ensures RequestFrom(st, t, kind, reference, limit).latestPending == st.latestPending
    ensures Automatic(x) && x == st.sessions[t].(queue := x.queue)
    ensures
      var q := st.sessions[t].queue;
      if x.queue.active.None? then x.queue.sent == q.sent
      else |x.queue.sent| == |q.sent| + 1 && x.queue.usedMsgid == (reference.Some? && reference.value.Msgid?) &&
           Befores(x.queue.sent) == Befores(q.sent) + if kind == Before then 1 else 0
  {
    x := RequestFrom(st, t, kind, reference, limit).sessions[t];
    assert st.sessions == st.sessions[t := st.sessions[t]];
    if x.queue.active.Some? {
      BeforesAppend(st.sessions[t].queue.sent, x.queue.active.value);
    }
  }

  // ----- starting BEFORE -----

  lemma AskingPays(sess: Session, x: Session)
    requires Automatic(sess) && Automatic(x) && sess.loop.inProgress && sess.queue.active.None?
    requires x == sess.(loop := sess.loop.(isBefore := true), queue := x.queue)
    requires if x.queue.active.None? then x.queue.sent == sess.queue.sent
             else |x.queue.sent| == |sess.queue.sent| + 1 && x.queue.usedMsgid
    ensures Pays(sess, x, 0)
  {
  }

  lemma FinishedPays(st: State, t: SessionId)
    requires t in st.sessions
    ensures Becomes(st, FinishCatchup(st, t), t, FinishCatchup(st, t).sessions[t])
    ensures Pays(st.sessions[t], FinishCatchup(st, t).sessions[t], 0) && NoBefore(st.sessions[t], FinishCatchup(st, t).sessions[t])
    ensures FinishCatchup(st, t).latestPending == st.latestPending
  {
  }

  lemma TurnedPays(sess: Session)
    ensures sess.queue.active.None? ==> Pays(sess, sess.(loop := sess.loop.(isBefore := true)), 0)
  {
  }

  lemma PaysTrans(a: Session, b: Session, c: Session)
    requires Pays(a, b, 0) && Pays(b, c, 0)
    ensures Pays(a, c, 0)
  {
  }

  lemma PaysIfAutomatic(a: Session, b: Session, k: nat)
    requires !Automatic(a)
    ensures Pays(a, b, k)
  {
  }

  function Turned(x: Session): Session {
    x.(loop := x.loop.(isBefore := true))
  }

  lemma CursorlessBefore(st: State, t: SessionId) returns (x: Session)
    requires NeedsBefore(st, t) && !HasText(st.sessions[t].oldest)
    ensures Becomes(st, StartBefore(st, t), t, x) && Pays(st.sessions[t], x, 0)
    ensures StartBefore(st, t).latestPending == st.latestPending
  {
    var sess := st.sessions[t];
    var st1 := PutLoop(st.(beforeSess := Some(t)), t, Turned(sess).loop);
    hide Pays, FinishCatchup;
    FinishedPays(st1, t);
    x := FinishCatchup(st1, t).sessions[t];
    assert st1.sessions[t := x] == st.sessions[t := x];
    if Automatic(sess) {
      NotLoadingIsIdle(sess);
      TurnedPays(sess);
      PaysTrans(sess, Turned(sess), x);
    } else {
      PaysIfAutomatic(sess, x, 0);
    }
  }

  lemma CursorBefore(st: State, t: SessionId) returns (x: Session)
    requires NeedsBefore(st, t) && HasText(st.sessions[t].oldest)
    ensures Becomes(st, StartBefore(st, t), t, x) && Pays(st.sessions[t], x, 0)
    ensures StartBefore(st, t).latestPending == st.latestPending
  {
    var sess := st.sessions[t];
    var st1 := PutLoop(st.(beforeSess := Some(t)), t, Turned(sess).loop);
    hide Pays, RequestFrom, Credit, Automatic;
    AskedBecomes(st1, t, sess.oldest.value);
    x := StartBefore(st, t).sessions[t];
    assert st1.sessions[t := x] == st.sessions[t := x];
    if Automatic(sess) {
      NotLoadingIsIdle(sess);
      TurnedAutomatic(sess);
      var x' := IdleAsks(st1, t, Before, Some(Msgid(sess.oldest.value)), BEFORE_LIMIT);
      AskingPays(sess, x');
    } else {
      PaysIfAutomatic(sess, x, 0);
    }
  }

  lemma NotLoadingIsIdle(x: Session)
    requires Automatic(x) && !x.queue.loading
    ensures x.queue.active.None?
  {
  }

  lemma TurnedAutomatic(x: Session)
    requires Automatic(x)
    ensures Automatic(x.(loop := x.loop.(isBefore := true)))
  {
  }

  lemma AskedBecomes(st: State, t: SessionId, msgid: string)
    requires t in st.sessions
    ensures var st' := RequestFrom(st, t, Before, Some(Msgid(msgid)), BEFORE_LIMIT);
      t in st'.sessions && Becomes(st, st', t, st'.sessions[t]) && st'.latestPending == st.latestPending
  {
    assert st.sessions == st.sessions[t := st.sessions[t]];
  }

  lemma CheckBeforePaced(env: Env, st: State, s: SessionId)
    requires s in st.sessions
    ensures Paced(st, CheckBefore(env, st), s, 0)
  {
    hide StartBefore, Pays;
    PaysNothing(st.sessions[s]);
    var t := PickBefore(env, st);
    PickedNeeds(env, st);
    if t.Some? && CheckBefore(env, st) == StartBefore(st, t.value) && st.latestPending == 0 {
      if HasText(st.sessions[t.value].oldest) {
        var x := CursorBefore(st, t.value);
      } else {
        var x := CursorlessBefore(st, t.value);
      }
    }
  }

  lemma PaysNothing(x: Session)
    ensures Pays(x, x, 0) && NoBefore(x, x)
  {
  }

  lemma CheckBeforeAtZeroPaced(env: Env, st: State, s: SessionId)
    requires s in st.sessions
    ensures Paced(st, CheckBeforeAtZero(env, st), s, 0)
  {
    hide Pays, CheckBefore;
    PaysNothing(st.sessions[s]);
    if st.latestPending == 0 {
      CheckBeforePaced(env, st, s);
    }
  }

  // ----- finishing a batch -----

  /** Nothing is sent from `x` to `x'`. */
  predicate Still(x: Session, x': Session) {
    Automatic(x) ==> Automatic(x') && x'.queue.sent == x.queue.sent
  }

  lemma StillPays(x: Session, x': Session, k: nat)
    requires Still(x, x') && (Automatic(x) ==> Credit(x') <= Credit(x) + k)
    ensures Pays(x, x', k) && NoBefore(x, x')
  {
  }

  /** Only session `t` changes, and nothing is sent. */
  predicate StillChange(st: State, st': State, t: SessionId) {
    t in st.sessions && t in st'.sessions && st'.sessions == st.sessions[t := st'.sessions[t]] &&
    Still(st.sessions[t], st'.sessions[t])
  }

  lemma StillThenStill(a: State, b: State, c: State, t: SessionId)
    requires StillChange(a, b, t) && StillChange(b, c, t)
    ensures StillChange(a, c, t)
  {
    assert c.sessions == a.sessions[t := c.sessions[t]];
  }

  lemma StillIsQuiet(st: State, st': State, t: SessionId, s: SessionId, k: nat)
    requires StillChange(st, st', t) && s in st.sessions
    requires Automatic(st.sessions[t]) ==> Credit(st'.sessions[t]) <= Credit(st.sessions[t]) + k
    ensures Quiet(st, st', s, k)
  {
    hide Still, Credit, Automatic;
    StillPays(st.sessions[t], st'.sessions[t], k);
  }

  lemma NotedStill(st: State, ch: Chunk)
    requires ch.sess in st.sessions
    ensures StillChange(st, Noted(st, ch), ch.sess)
    ensures Noted(st, ch).sessions[ch.sess].loop == st.sessions[ch.sess].loop
    ensures Automatic(st.sessions[ch.sess]) ==>
      (ch.unsolicited ==> Credit(Noted(st, ch).sessions[ch.sess]) == Credit(st.sessions[ch.sess])) &&
      (!ch.unsolicited ==> Noted(st, ch).sessions[ch.sess].queue.active.None?) &&
      Noted(st, ch).sessions[ch.sess].queue.usedMsgid == st.sessions[ch.sess].queue.usedMsgid
  {
  }

  lemma FinishStill(st: State, t: SessionId)
    requires t in st.sessions
    ensures StillChange(st, FinishCatchup(st, t), t) && Credit(FinishCatchup(st, t).sessions[t]) == 0
  {
  }

  lemma CountStill(env: Env, st: State, ch: Chunk, gaps: seq<G.Gap>)
    requires ch.sess in st.sessions
    ensures StillChange(st, Put(st, ch.sess, CountPage(st.sessions[ch.sess], ch)).(gaps := gaps), ch.sess)
  {
  }

  lemma ExhaustStill(st: State, t: SessionId)
    requires t in st.sessions
    ensures StillChange(st, Put(st, t, st.sessions[t].(exhausted := true)), t)
  {
  }

  /** The session after a page that lets the loop go on. */
  function Continued(y: Session, ch: Chunk): Session {
    var z := CountPage(y, ch);
    z.(loop := z.loop.(stale := if ch.msgCount == 0 then z.loop.stale + 1 else 0))
  }

  /** A page after which the loop goes on has used up at least one unit. */
  lemma ContinuedCredit(env: Env, x: Session, y: Session, ch: Chunk)
    requires x.loop.isBefore && Automatic(x) && y.loop == x.loop
    requires JudgePage(env, CountPage(y, ch), ch) == Continue
    requires y.queue.active.None? || y.queue == x.queue
    ensures Credit(Continued(y, ch)) <= Credit(x)
  {
  }

  lemma EndedPaced(env: Env, a: State, b: State, t: SessionId, s: SessionId)
    requires StillChange(a, b, t) && s in a.sessions
    ensures Paced(a, CheckBefore(env, FinishCatchup(b, t)), s, 0)
  {
    hide CheckBefore, FinishCatchup, Still, Credit, Automatic, Pays, NoBefore;
    FinishStill(b, t);
    StillThenStill(a, b, FinishCatchup(b, t), t);
    StillIsQuiet(a, FinishCatchup(b, t), t, s, 0);
    CheckBeforePaced(env, FinishCatchup(b, t), s);
    QuietThenPaced(a, FinishCatchup(b, t), CheckBefore(env, FinishCatchup(b, t)), s, 0);
  }

  lemma ContinuedPaced(env: Env, a: State, b: State, ch: Chunk, s: SessionId)
    requires ch.sess in b.sessions && s in a.sessions && StillChange(a, b, ch.sess)
    requires a.sessions[ch.sess].loop.isBefore && b.sessions[ch.sess].loop == a.sessions[ch.sess].loop
    requires Automatic(a.sessions[ch.sess]) ==>
               b.sessions[ch.sess].queue.active.None? || b.sessions[ch.sess].queue == a.sessions[ch.sess].queue
    requires JudgePage(env, CountPage(b.sessions[ch.sess], ch), ch) == Continue
    ensures Paced(a, FinishBefore(env, b, ch), s, 0)
  {
    var t := ch.sess;
    var x, y := a.sessions[t], b.sessions[t];
    var z' := Continued(y, ch);
    var c := FinishBefore(env, b, ch);
    ContinuedState(env, b, ch);
    hide FinishBefore, Credit, Automatic, JudgePage, Continued, Pays, NoBefore;
    assert c.sessions == a.sessions[t := z'];
    if Automatic(x) {
      ContinuedCredit(env, x, y, ch);
    }
    ContinuedStill(env, x, y, ch);
    StillPays(x, z', 0);
    ChangeIsQuiet(a, c, t, z', s, 0);
  }

  lemma ContinuedState(env: Env, b: State, ch: Chunk)
    requires ch.sess in b.sessions && JudgePage(env, CountPage(b.sessions[ch.sess], ch), ch) == Continue
    ensures FinishBefore(env, b, ch).sessions == b.sessions[ch.sess := Continued(b.sessions[ch.sess], ch)]
  {
    hide JudgePage, RowAfterPage;
  }

  lemma ContinuedStill(env: Env, x: Session, y: Session, ch: Chunk)
    requires Still(x, y) && JudgePage(env, CountPage(y, ch), ch) == Continue
    ensures Still(x, Continued(y, ch))
  {
  }

  lemma FinishBeforePaced(env: Env, a: State, b: State, ch: Chunk, s: SessionId)
    requires ch.sess in b.sessions && s in a.sessions && StillChange(a, b, ch.sess)
    requires a.sessions[ch.sess].loop.isBefore && b.sessions[ch.sess].loop == a.sessions[ch.sess].loop
    requires Automatic(a.sessions[ch.sess]) ==>
               b.sessions[ch.sess].queue.active.None? || b.sessions[ch.sess].queue == a.sessions[ch.sess].queue
    ensures Paced(a, FinishBefore(env, b, ch), s, 0)
  {
    var t := ch.sess;
    var sess := CountPage(b.sessions[t], ch);
    var verdict := JudgePage(env, sess, ch);
    if verdict == Continue {
      ContinuedPaced(env, a, b, ch, s);
    } else {
      hide JudgePage, RowAfterPage, CheckBefore, FinishCatchup, Still, Paced, Automatic, CountPage;
      var gaps := RowAfterPage(b.gaps, sess.loop.gapId, ch, verdict);
      var c := Put(b, t, sess).(gaps := gaps);
      CountStill(env, b, ch, gaps);
      StillThenStill(a, b, c, t);
      if verdict == Stale {
        ExhaustStill(c, t);
        StillThenStill(a, c, Put(c, t, c.sessions[t].(exhausted := true)), t);
        EndedPaced(env, a, Put(c, t, c.sessions[t].(exhausted := true)), t, s);
      } else {
        EndedPaced(env, a, c, t, s);
      }
    }
  }

  /** A batch that answers a request of ours but is not catch-up is a leftover:
      its loop had ended before it was received. */
  function LeftoverCost(ch: Chunk): nat {
    if !ch.unsolicited && !ch.isCatchup then 2 else 0
  }

  lemma FinishPlainPaced(env: Env, st: State, ch: Chunk, s: SessionId)
    requires ch.sess in st.sessions && s in st.sessions && !ch.isCatchup
    ensures Paced(st, FinishBatch(env, st, ch), s, LeftoverCost(ch))
  {
    var t := ch.sess;
    var st1 := Noted(st, ch);
    NotedStill(st, ch);
    PlainStill(env, st1, ch);
    hide Noted, FinishPlain;
    StillThenStill(st, st1, FinishPlain(env, st1, ch), t);
    StillIsQuiet(st, FinishPlain(env, st1, ch), t, s, LeftoverCost(ch));
  }

  lemma PlainStill(env: Env, st: State, ch: Chunk)
    requires ch.sess in st.sessions
    ensures StillChange(st, FinishPlain(env, st, ch), ch.sess)
    ensures Automatic(st.sessions[ch.sess]) ==> Credit(FinishPlain(env, st, ch).sessions[ch.sess]) == Credit(st.sessions[ch.sess])
  {
  }

  lemma WitnessStill(env: Env, st: State, ch: Chunk)
    requires ch.sess in st.sessions
    ensures StillChange(st, WitnessHole(env, st, ch), ch.sess)
    ensures Credit(WitnessHole(env, st, ch).sessions[ch.sess]) == Credit(st.sessions[ch.sess])
  {
    hide Witnessed;
  }

  lemma LatestCredit(x: Session, y: Session)
    requires Automatic(x) && y.loop == x.loop && !x.loop.isBefore
    requires y.queue.usedMsgid == x.queue.usedMsgid
    ensures Credit(y) <= Credit(x)
  {
  }

  lemma NotedWitnessQuiet(env: Env, st: State, ch: Chunk, s: SessionId)
    requires ch.sess in st.sessions && s in st.sessions && !st.sessions[ch.sess].loop.isBefore
    ensures Quiet(st, WitnessHole(env, Noted(st, ch), ch), s, 0)
  {
    var t := ch.sess;
    NotedStill(st, ch);
    WitnessStill(env, Noted(st, ch), ch);
    hide Noted, WitnessHole, Credit, Automatic, Still, Quiet;
    StillThenStill(st, Noted(st, ch), WitnessHole(env, Noted(st, ch), ch), t);
    if Automatic(st.sessions[t]) {
      LatestCredit(st.sessions[t], Noted(st, ch).sessions[t]);
    }
    StillIsQuiet(st, WitnessHole(env, Noted(st, ch), ch), t, s, 0);
  }

  lemma ReturnQuiet(st: State, owned: bool, s: SessionId)
    requires s in st.sessions
    ensures Quiet(st, ReturnSlot(st, owned), s, 0)
  {
  }

  lemma QuietSession(a: State, b: State, s: SessionId, k: nat)
    requires Quiet(a, b, s, k)
    ensures s in b.sessions
  {
  }

  lemma FinishLatestPaced(env: Env, st: State, ch: Chunk, s: SessionId)
    requires ch.sess in st.sessions && s in st.sessions && !st.sessions[ch.sess].loop.isBefore
    ensures Paced(st, FinishLatest(env, Noted(st, ch), ch), s, 0)
  {
    hide Noted, WitnessHole, CheckBeforeAtZero, Quiet, Paced, ReturnSlot;
    NotedStill(st, ch);
    var st2 := WitnessHole(env, Noted(st, ch), ch);
    NotedWitnessQuiet(env, st, ch, s);
    QuietSession(st, st2, s, 0);
    var st3 := ReturnSlot(st2, ch.latestOwned);
    ReturnQuiet(st2, ch.latestOwned, s);
    QuietSession(st2, st3, s, 0);
    QuietThenQuiet(st, st2, st3, s, 0);
    CheckBeforeAtZeroPaced(env, st3, s);
    QuietThenPaced(st, st3, CheckBeforeAtZero(env, st3), s, 0);
  }

  lemma NotedPage(st: State, ch: Chunk)
    requires ch.sess in st.sessions && Automatic(st.sessions[ch.sess])
    ensures Noted(st, ch).sessions[ch.sess].queue.active.None? ||
            Noted(st, ch).sessions[ch.sess].queue == st.sessions[ch.sess].queue
  {
  }

  lemma FinishBatchPaced(env: Env, st: State, ch: Chunk, s: SessionId)
    requires ch.sess in st.sessions && s in st.sessions
    ensures Paced(st, FinishBatch(env, st, ch), s, LeftoverCost(ch))
  {
    hide Noted, FinishPlain, FinishBefore, FinishLatest, Paced, Automatic, Still;
    if !ch.isCatchup {
      FinishPlainPaced(env, st, ch, s);
    } else {
      NotedStill(st, ch);
      if st.sessions[ch.sess].loop.isBefore {
        if Automatic(st.sessions[ch.sess]) {
          NotedPage(st, ch);
        }
        FinishBeforePaced(env, st, Noted(st, ch), ch, s);
      } else {
        FinishLatestPaced(env, st, ch, s);
      }
    }
  }

  // ----- working a batch off -----

  lemma ShowQuiet(st: State, t: SessionId, x: Session, s: SessionId)
    requires t in st.sessions && s in st.sessions && x == st.sessions[t].(seen := x.seen, oldest := x.oldest, chunk := x.chunk)
    ensures Quiet(st, Put(st, t, x), s, 0)
  {
  }

  lemma ForgetQuiet(st: State, c: ChunkId, s: SessionId)
    requires c in st.chunks && s in st.sessions
    ensures Quiet(st, ForgetChunk(st, c), s, 0)
    ensures ForgetChunk(st, c).sessions.Keys == st.sessions.Keys
  {
  }

  lemma ReleaseQuiet(st: State, ch: Chunk, s: SessionId)
    requires s in st.sessions
    ensures Quiet(st, ReleaseSlot(st, ch), s, 0)
  {
  }

  /** Only the last tick of a leftover batch costs anything. */
  function TickCost(st: State, c: ChunkId): nat {
    if c in st.chunks && |st.chunks[c].remaining| <= D.CHUNK_SIZE then LeftoverCost(st.chunks[c]) else 0
  }

  lemma TickPaced(env: Env, st: State, c: ChunkId, s: SessionId)
    requires s in st.sessions
    ensures Paced(st, ChunkTick(env, st, c), s, TickCost(st, c))
  {
    hide Paced, Quiet, FinishBatch, ForgetChunk, ReleaseSlot, TakeChunk, LeftoverCost;
    NoCost(st, s, TickCost(st, c));
    QuietIsPaced(st, st, s, TickCost(st, c));
    if c in st.chunks {
      var ch := st.chunks[c];
      if ch.sess !in st.sessions {
        GonePaced(st, c, s);
      } else {
        ShownTick(st, c, s);
        var (x, ch') := TakeChunk(st.sessions[ch.sess], ch);
        var st1 := Put(st, ch.sess, x);
        if ch'.remaining != [] {
          PartTick(st, st1, c, ch', s);
        } else {
          LastTickPaced(env, st, st1, c, ch', s);
        }
      }
    }
  }

  lemma GonePaced(st: State, c: ChunkId, s: SessionId)
    requires s in st.sessions && c in st.chunks
    ensures c in ReleaseSlot(st, st.chunks[c]).chunks
    ensures Paced(st, ForgetChunk(ReleaseSlot(st, st.chunks[c]), c), s, TickCost(st, c))
  {
    var st1 := ReleaseSlot(st, st.chunks[c]);
    assert c in st1.chunks;
    ReleaseQuiet(st, st.chunks[c], s);
    ForgetQuiet(st1, c, s);
    hide Paced, Quiet, ForgetChunk, ReleaseSlot, LeftoverCost;
    QuietThenQuiet(st, st1, ForgetChunk(st1, c), s, 0);
    QuietGrows(st, ForgetChunk(st1, c), s, TickCost(st, c));
    QuietIsPaced(st, ForgetChunk(st1, c), s, TickCost(st, c));
  }

  lemma QuietGrows(a: State, b: State, s: SessionId, k: nat)
    requires Quiet(a, b, s, 0)
    ensures Quiet(a, b, s, k)
  {
    hide Automatic, Credit;
  }

  /** What a tick shows is quiet, and the batch is the same one further along. */
  lemma ShownTick(st: State, c: ChunkId, s: SessionId)
    requires s in st.sessions && c in st.chunks && st.chunks[c].sess in st.sessions
    ensures var ch := st.chunks[c];
      var (x, ch') := TakeChunk(st.sessions[ch.sess], ch);
      Quiet(st, Put(st, ch.sess, x), s, 0) && ch'.sess == ch.sess && LeftoverCost(ch') == LeftoverCost(ch) &&
      TickCost(st, c) == if ch'.remaining == [] then LeftoverCost(ch') else 0
  {
    var ch := st.chunks[c];
    var (x, ch') := TakeChunk(st.sessions[ch.sess], ch);
    hide Quiet;
    ShowQuiet(st, ch.sess, x, s);
  }

  lemma PartTick(st: State, st1: State, c: ChunkId, ch': Chunk, s: SessionId)
    requires Quiet(st, st1, s, 0) && c in st.chunks
    ensures Paced(st, st1.(chunks := st1.chunks[c := ch']), s, 0)
  {
    hide Automatic, Credit, LeftoverCost;
  }

  lemma LastTickPaced(env: Env, st: State, st1: State, c: ChunkId, ch: Chunk, s: SessionId)
    requires Quiet(st, st1, s, 0) && s in st1.sessions && c in st1.chunks && ch.sess in st1.sessions
    ensures Paced(st, FinishBatch(env, ForgetChunk(st1, c), ch), s, LeftoverCost(ch))
  {
    ForgetQuiet(st1, c, s);
    var st2 := ForgetChunk(st1, c);
    assert s in st2.sessions && ch.sess in st2.sessions;
    hide Paced, Quiet, FinishBatch, ForgetChunk, LeftoverCost;
    QuietThenQuiet(st, st1, st2, s, 0);
    FinishBatchPaced(env, st2, ch, s);
    QuietThenPacedCost(st, st2, FinishBatch(env, st2, ch), s, LeftoverCost(ch));
  }

  lemma QuietThenPacedCost(a: State, b: State, c: State, s: SessionId, k: nat)
    requires Quiet(a, b, s, 0) && Paced(b, c, s, k)
    ensures Paced(a, c, s, k)
  {
  }

  lemma StartBatchPaced(env: Env, st: State, ch: Chunk, s: SessionId)
    requires ch.sess in st.sessions && s in st.sessions
    requires !ch.unsolicited && !ch.isCatchup ==> !st.sessions[ch.sess].loop.inProgress
    ensures Paced(st, StartBatch(env, st, ch), s, 0)
  {
    if ch.rawCount <= D.CHUNK_SIZE {
      var (x, ch') := TakeChunk(st.sessions[ch.sess], ch);
      var st1 := Put(st, ch.sess, x);
      hide FinishBatch, Pays, NoBefore;
      ShowQuiet(st, ch.sess, x, s);
      FinishFreshPaced(env, st1, ch', s);
      QuietThenPacedCost(st, st1, FinishBatch(env, st1, ch'), s, 0);
    } else {
      ShowQuiet(st, ch.sess, st.sessions[ch.sess].(chunk := Some(st.nextChunk)), s);
    }
  }

  /** A batch finished at once is never a leftover that costs anything. */
  lemma FinishFreshPaced(env: Env, st: State, ch: Chunk, s: SessionId)
    requires ch.sess in st.sessions && s in st.sessions
    requires !ch.unsolicited && !ch.isCatchup ==> !st.sessions[ch.sess].loop.inProgress
    ensures Paced(st, FinishBatch(env, st, ch), s, 0)
  {
    FinishBatchPaced(env, st, ch, s);
    if !ch.unsolicited && !ch.isCatchup {
      var t := ch.sess;
      var st1 := Noted(st, ch);
      NotedStill(st, ch);
      PlainStill(env, st1, ch);
      hide Noted, FinishPlain;
      StillThenStill(st, st1, FinishPlain(env, st1, ch), t);
      StillIsQuiet(st, FinishPlain(env, st1, ch), t, s, 0);
    }
  }

  // ----- a batch or a FAIL arrives -----

  /** The LATEST by timestamp sent in place of a msgid reference is paid for:
      the msgid is used up.  `x` is the session before its request was retired. */
  lemma RetryPays(x: Session, y: Session, z: Session)
    requires Automatic(x) && Automatic(z) && x.queue.usedMsgid && x.loop.inProgress
    requires y.loop == x.loop && y.queue.sent == x.queue.sent
    requires z == y.(queue := z.queue) && z.queue.active.Some? && !z.queue.usedMsgid
    requires |z.queue.sent| == |x.queue.sent| + 1
    ensures Pays(x, z, 0)
  {
  }

  lemma RetryPaced(a: State, b: State, t: SessionId, ts: int, limit: int, s: SessionId)
    requires StillChange(a, b, t) && s in a.sessions && Online(b)
    requires a.sessions[t].queue.usedMsgid && a.sessions[t].loop.inProgress && b.sessions[t].loop == a.sessions[t].loop
    requires Automatic(a.sessions[t]) ==> b.sessions[t].queue.active.None?
    ensures Paced(a, RequestFrom(b, t, Latest, Some(Timestamp(ts)), limit), s, 0)
  {
    var c := RequestFrom(b, t, Latest, Some(Timestamp(ts)), limit);
    AsksLatestBecomes(b, t, Some(Timestamp(ts)), limit);
    var z := c.sessions[t];
    assert c.sessions == a.sessions[t := z];
    if Automatic(a.sessions[t]) {
      OnlineAsks(b, t, Some(Timestamp(ts)), limit);
      RetryPays(a.sessions[t], b.sessions[t], z);
    }
    hide RequestFrom;
    ChangeIsQuiet(a, c, t, z, s, 0);
  }

  lemma AsksLatestBecomes(st: State, t: SessionId, reference: Option<Reference>, limit: int)
    requires t in st.sessions
    ensures var st' := RequestFrom(st, t, Latest, reference, limit);
      t in st'.sessions && Becomes(st, st', t, st'.sessions[t]) && st'.latestPending == st.latestPending
  {
    assert st.sessions == st.sessions[t := st.sessions[t]];
  }

  lemma OnlineAsks(st: State, t: SessionId, reference: Option<Reference>, limit: int)
    requires t in st.sessions && Automatic(st.sessions[t]) && st.sessions[t].queue.active.None? && Online(st)
    ensures var z := RequestFrom(st, t, Latest, reference, limit).sessions[t];
      Automatic(z) && z == st.sessions[t].(queue := z.queue) && z.queue.active.Some? &&
      z.queue.usedMsgid == (reference.Some? && reference.value.Msgid?) &&
      |z.queue.sent| == |st.sessions[t].queue.sent| + 1 &&
      Befores(z.queue.sent) == Befores(st.sessions[t].queue.sent)
  {
    var x := IdleAsks(st, t, Latest, reference, limit);
    assert CanSend(st, t);
  }

  lemma CompleteStill(st: State, t: SessionId)
    requires t in st.sessions
    ensures StillChange(st, RequestComplete(st, t), t)
    ensures var y := RequestComplete(st, t).sessions[t];
      y.loop == st.sessions[t].loop && y.exhausted == st.sessions[t].exhausted &&
      y.sbNewestTime == st.sessions[t].sbNewestTime
    ensures Automatic(st.sessions[t]) ==> RequestComplete(st, t).sessions[t].queue.active.None?
    ensures Online(st) ==> Online(RequestComplete(st, t))
  {
  }

  lemma MarkStill(st: State, t: SessionId, when: bool)
    requires t in st.sessions
    ensures StillChange(st, MarkExhausted(st, t, when), t)
    ensures MarkExhausted(st, t, when).sessions[t].loop == st.sessions[t].loop
    ensures MarkExhausted(st, t, when).sessions[t].queue == st.sessions[t].queue
    ensures MarkExhausted(st, t, when).sessions[t].background == st.sessions[t].background
    ensures Online(st) ==> Online(MarkExhausted(st, t, when))
  {
    assert st.sessions == st.sessions[t := st.sessions[t]];
  }

  /** The loop ends and a slot may go back. */
  lemma EndWithSlotPaced(env: Env, a: State, b: State, t: SessionId, owned: bool, s: SessionId)
    requires StillChange(a, b, t) && s in a.sessions
    ensures Paced(a, CheckBeforeAtZero(env, ReturnSlot(FinishCatchup(b, t), owned)), s, 0)
  {
    hide CheckBeforeAtZero, FinishCatchup, Still, Credit, Quiet, Paced, ReturnSlot, Automatic;
    FinishStill(b, t);
    StillThenStill(a, b, FinishCatchup(b, t), t);
    StillIsQuiet(a, FinishCatchup(b, t), t, s, 0);
    QuietSession(a, FinishCatchup(b, t), s, 0);
    var c := ReturnSlot(FinishCatchup(b, t), owned);
    ReturnQuiet(FinishCatchup(b, t), owned, s);
    QuietSession(FinishCatchup(b, t), c, s, 0);
    QuietThenQuiet(a, FinishCatchup(b, t), c, s, 0);
    CheckBeforeAtZeroPaced(env, c, s);
    QuietThenPaced(a, c, CheckBeforeAtZero(env, c), s, 0);
  }

  lemma EmptyCatchupPaced(env: Env, a: State, b: State, t: SessionId, unsolicited: bool, owned: bool, s: SessionId)
    requires StillChange(a, b, t) && s in a.sessions && Online(b)
    requires a.sessions[t].loop.inProgress && b.sessions[t].loop == a.sessions[t].loop
    requires Automatic(a.sessions[t]) && !unsolicited ==> b.sessions[t].queue.active.None?
    ensures Paced(a, EmptyCatchup(env, b, t, a.sessions[t].queue.usedMsgid, unsolicited, owned), s, 0)
  {
    var x := b.sessions[t];
    hide CheckBeforeAtZero, FinishCatchup, RequestFrom, Paced, StillChange;
    if !unsolicited && !x.exhausted && a.sessions[t].queue.usedMsgid && x.sbNewestTime > 0 {
      RetryPaced(a, b, t, x.sbNewestTime, env.lines, s);
    } else {
      EndWithSlotPaced(env, a, b, t, owned, s);
    }
  }

  /** An empty reply to a request of ours. */
  lemma EmptyReplyPaced(env: Env, st: State, t: SessionId, ended: bool, gapDir: int, s: SessionId)
    requires t in st.sessions && s in st.sessions && Online(st)
    ensures Paced(st, EmptyBatch(env, st, t, ended, st.sessions[t].loop.inProgress, false, true, 0, gapDir), s, 0)
  {
    var st1 := MarkExhausted(st, t, ended);
    MarkStill(st, t, ended);
    CompleteStill(st1, t);
    var st2 := RequestComplete(st1, t);
    hide MarkExhausted, RequestComplete, EmptyCatchup, Still, Paced, Credit;
    StillThenStill(st, st1, st2, t);
    if st.sessions[t].loop.inProgress {
      EmptyCatchupPaced(env, st, st2, t, false, true, s);
    } else {
      MarkStill(st2, t, true);
      StillThenStill(st, st2, MarkExhausted(st2, t, true), t);
      NotInProgress(MarkExhausted(st2, t, true).sessions[t]);
      StillIsQuiet(st, MarkExhausted(st2, t, true), t, s, 0);
      QuietIsPaced(st, MarkExhausted(st2, t, true), s, 0);
    }
  }

  lemma QuietIsPaced(a: State, b: State, s: SessionId, k: nat)
    requires Quiet(a, b, s, k)
    ensures Paced(a, b, s, k)
  {
  }

  lemma NotInProgress(x: Session)
    requires !x.loop.inProgress
    ensures Credit(x) == 0
  {
  }

  /** Entering the loop costs one pass. */
  function EntryCost(enters: bool): nat {
    if enters then PASS_LIMIT else 0
  }

  lemma EnterStill(env: Env, st: State, t: SessionId)
    requires t in st.sessions
    ensures StillChange(st, EnterLatestPhase(env, st, t), t)
    ensures Automatic(st.sessions[t]) ==> Credit(EnterLatestPhase(env, st, t).sessions[t]) < PASS_LIMIT
    ensures EnterLatestPhase(env, st, t).sessions[t].queue == st.sessions[t].queue
    ensures var x := EnterLatestPhase(env, st, t).sessions[t]; x.loop.inProgress && !x.loop.isBefore
    ensures Online(st) ==> Online(EnterLatestPhase(env, st, t))
  {
  }

  lemma EnterQuiet(env: Env, st: State, t: SessionId, s: SessionId)
    requires t in st.sessions && s in st.sessions
    ensures Quiet(st, EnterLatestPhase(env, st, t), s, EntryCost(s == t))
  {
    EnterStill(env, st, t);
    hide EnterLatestPhase, Credit, Automatic, Still;
    var st' := EnterLatestPhase(env, st, t);
    if s == t {
      StillIsQuiet(st, st', t, s, PASS_LIMIT);
    } else {
      PaysNothing(st.sessions[s]);
    }
  }

  lemma AdoptQuiet(env: Env, st: State, t: SessionId, s: SessionId)
    requires t in st.sessions && s in st.sessions
    ensures Quiet(st, Adopt(env, st, t), s, EntryCost(s == t))
    ensures t in Adopt(env, st, t).sessions && Adopt(env, st, t).sessions.Keys == st.sessions.Keys
    ensures Adopt(env, st, t).sessions[t].loop.inProgress
    ensures Online(st) ==> Online(Adopt(env, st, t))
  {
    EnterQuiet(env, st, t, s);
  }

  lemma EmptyAdoptedPaced(env: Env, st: State, t: SessionId, ended: bool, gapDir: int, s: SessionId)
    requires t in st.sessions && s in st.sessions && Online(st) && st.sessions[t].loop.inProgress
    ensures Paced(st, EmptyBatch(env, st, t, ended, true, true, true, 0, gapDir), s, 0)
  {
    assert StillChange(st, st, t) by { assert st.sessions == st.sessions[t := st.sessions[t]]; }
    hide EmptyCatchup, Paced, StillChange, Automatic;
    EmptyCatchupPaced(env, st, st, t, true, true, s);
  }

  /** What a batch is processed as, once it is known whom it answers. */
  function Received(env: Env, st: State, t: SessionId, msgs: seq<D.Message>, ended: bool, isCatchup: bool,
                    unsolicited: bool, owned: bool, gapDir: int): State
    requires t in st.sessions
  {
    if msgs == [] then EmptyBatch(env, st, t, ended, isCatchup, unsolicited, owned, 0, gapDir)
    else StartBatch(env, st, NewChunk(st, t, msgs, ended, isCatchup, unsolicited, owned, 0, gapDir))
  }

  lemma ProcessCases(env: Env, st: State, t: SessionId, nested: bool, msgs: seq<D.Message>, ended: bool) returns (dir: int)
    requires t in st.sessions && Automatic(st.sessions[t])
    ensures
      var x := st.sessions[t];
      ProcessBatch(env, st, t, nested, msgs, ended) ==
        if !Unsolicited(x, nested) then Received(env, st, t, msgs, ended, x.loop.inProgress, false, true, dir)
        else if Adoptable(env, st, x) then Received(env, Adopt(env, st, t), t, msgs, ended, true, true, true, dir)
        else Received(env, st, t, msgs, ended, false, true, false, dir)
  {
    hide EmptyBatch, StartBatch, NewChunk;
    var active := st.sessions[t].queue.active;
    dir := if active.Some? && !nested then active.value.gapDir else 0;
  }

  lemma ChunkOf(st: State, t: SessionId, msgs: seq<D.Message>, ended: bool, isCatchup: bool, unsolicited: bool,
                owned: bool, gapDir: int)
    requires t in st.sessions
    ensures var ch := NewChunk(st, t, msgs, ended, isCatchup, unsolicited, owned, 0, gapDir);
      ch.sess == t && ch.unsolicited == unsolicited && ch.isCatchup == isCatchup
  {
    hide SortByTime, CursorMsgids;
  }

  lemma ReceivedPaced(env: Env, st: State, t: SessionId, msgs: seq<D.Message>, ended: bool, isCatchup: bool,
                      unsolicited: bool, owned: bool, gapDir: int, s: SessionId)
    requires t in st.sessions && s in st.sessions && Online(st)
    requires if !unsolicited then isCatchup == st.sessions[t].loop.inProgress && owned
             else isCatchup == owned && (isCatchup ==> st.sessions[t].loop.inProgress)
    ensures Paced(st, Received(env, st, t, msgs, ended, isCatchup, unsolicited, owned, gapDir), s, 0)
  {
    hide StartBatch, NewChunk, Paced;
    if msgs != [] {
      hide EmptyBatch;
      ChunkOf(st, t, msgs, ended, isCatchup, unsolicited, owned, gapDir);
      StartBatchPaced(env, st, NewChunk(st, t, msgs, ended, isCatchup, unsolicited, owned, 0, gapDir), s);
    } else if !unsolicited {
      EmptyReplyPaced(env, st, t, ended, gapDir, s);
    } else if owned {
      EmptyAdoptedPaced(env, st, t, ended, gapDir, s);
    } else {
      EmptyIgnored(env, st, t, ended, gapDir);
      SameIsQuiet(st, st, s);
      QuietIsPaced(st, st, s, 0);
    }
  }

  lemma EmptyIgnored(env: Env, st: State, t: SessionId, ended: bool, gapDir: int)
    requires t in st.sessions
    ensures EmptyBatch(env, st, t, ended, false, true, false, 0, gapDir) == st
  {
    hide EmptyCatchup, EmptyFill;
  }

  predicate Adopts(env: Env, st: State, t: SessionId, nested: bool)
    requires t in st.sessions
  {
    Unsolicited(st.sessions[t], nested) && Adoptable(env, st, st.sessions[t])
  }

  lemma ProcessBatchPaced(env: Env, st: State, t: SessionId, nested: bool, msgs: seq<D.Message>, ended: bool, s: SessionId)
    requires t in st.sessions && s in st.sessions && Online(st) && Automatic(st.sessions[t])
    ensures Paced(st, ProcessBatch(env, st, t, nested, msgs, ended), s, EntryCost(s == t && Adopts(env, st, t, nested)))
  {
    hide ProcessBatch, Received, Paced, Automatic, Adopt, Quiet;
    var x := st.sessions[t];
    var dir := ProcessCases(env, st, t, nested, msgs, ended);
    if !Unsolicited(x, nested) {
      ReceivedPaced(env, st, t, msgs, ended, x.loop.inProgress, false, true, dir, s);
    } else if Adoptable(env, st, x) {
      AdoptQuiet(env, st, t, s);
      var st1 := Adopt(env, st, t);
      ReceivedPaced(env, st1, t, msgs, ended, true, true, true, dir, s);
      QuietThenPaced(st, st1, Received(env, st1, t, msgs, ended, true, true, true, dir), s, EntryCost(s == t));
    } else {
      ReceivedPaced(env, st, t, msgs, ended, false, true, false, dir, s);
    }
  }

  lemma FailedIs(env: Env, st: State, t: SessionId, badCommand: bool)
    requires t in st.sessions && Automatic(st.sessions[t])
    ensures
      var st1 := RequestComplete(NoteFail(st, t, badCommand), t);
      HandleFail(env, st, t, badCommand) ==
        if st.sessions[t].loop.inProgress
        then FailedCatchup(env, st1, t, st.sessions[t].queue.usedMsgid, !st.sessions[t].loop.isBefore) else st1
  {
    hide FailedCatchup, FailedFill;
    CompleteStill(NoteFail(st, t, badCommand), t);
  }

  lemma NoteFailStill(st: State, t: SessionId, badCommand: bool)
    requires t in st.sessions && Online(st)
    ensures StillChange(st, NoteFail(st, t, badCommand), t)
    ensures var st' := NoteFail(st, t, badCommand); st'.sessions == st.sessions && st'.haveChathistory && st'.connected
  {
    assert st.sessions == st.sessions[t := st.sessions[t]];
  }

  lemma FailedCatchupPaced(env: Env, a: State, b: State, t: SessionId, wasLatest: bool, s: SessionId)
    requires StillChange(a, b, t) && s in a.sessions && b.haveChathistory && b.connected
    requires a.sessions[t].loop.inProgress && b.sessions[t].loop == a.sessions[t].loop
    requires Automatic(a.sessions[t]) ==> b.sessions[t].queue.active.None?
    ensures Paced(a, FailedCatchup(env, b, t, a.sessions[t].queue.usedMsgid, wasLatest), s, 0)
  {
    hide CheckBeforeAtZero, FinishCatchup, RequestFrom, Paced, Still, Automatic;
    if !b.suppressed && a.sessions[t].queue.usedMsgid && b.sessions[t].sbNewestTime > 0 {
      RetryPaced(a, b, t, b.sessions[t].sbNewestTime, env.lines, s);
    } else {
      var c := ReturnSlot(b, wasLatest);
      assert c.sessions == b.sessions;
      EndNoSlotPaced(env, a, c, t, s);
    }
  }

  lemma EndNoSlotPaced(env: Env, a: State, b: State, t: SessionId, s: SessionId)
    requires StillChange(a, b, t) && s in a.sessions
    ensures Paced(a, CheckBeforeAtZero(env, FinishCatchup(b, t)), s, 0)
  {
    EndWithSlotPaced(env, a, b, t, false, s);
  }

  lemma HandleFailPaced(env: Env, st: State, t: SessionId, badCommand: bool, s: SessionId)
    requires t in st.sessions && s in st.sessions && Online(st) && Automatic(st.sessions[t])
    ensures Paced(st, HandleFail(env, st, t, badCommand), s, 0)
  {
    FailedIs(env, st, t, badCommand);
    var st0 := NoteFail(st, t, badCommand);
    NoteFailStill(st, t, badCommand);
    CompleteStill(st0, t);
    CompleteConnected(st0, t);
    var st1 := RequestComplete(st0, t);
    hide HandleFail, NoteFail, RequestComplete, FailedCatchup, Paced, Still, Credit;
    StillThenStill(st, st0, st1, t);
    if st.sessions[t].loop.inProgress {
      FailedCatchupPaced(env, st, st1, t, !st.sessions[t].loop.isBefore, s);
    } else {
      NotInProgress(st1.sessions[t]);
      StillIsQuiet(st, st1, t, s, 0);
      QuietIsPaced(st, st1, s, 0);
    }
  }

  lemma CompleteConnected(st: State, t: SessionId)
    requires t in st.sessions
    ensures RequestComplete(st, t).haveChathistory == st.haveChathistory
    ensures RequestComplete(st, t).connected == st.connected
  {
  }

  // ----- the fan-out and TARGETS -----

  lemma EnteredAskPays(x: Session, y: Session, z: Session)
    requires Automatic(x) && Automatic(z) && x.queue.active.None?
    requires y.queue == x.queue && y.loop.inProgress
    requires y.loop.stale == x.loop.stale && y.loop.retrieved == x.loop.retrieved
    requires z == y.(queue := z.queue) && |z.queue.sent| <= |y.queue.sent| + 1
    ensures Pays(x, z, PASS_LIMIT)
  {
  }

  lemma SendDeferredQuiet(env: Env, st: State, t: SessionId, s: SessionId)
    requires t in st.sessions && s in st.sessions && Automatic(st.sessions[t])
    ensures Quiet(st, SendDeferredLatest(env, st, t), s, EntryCost(s == t && WantsLatest(st.sessions[t])))
    ensures SendDeferredLatest(env, st, t).sessions.Keys == st.sessions.Keys
  {
    if !WantsLatest(st.sessions[t]) {
      SameIsQuiet(st, st, s);
    } else {
      var st1 := EnterLatestPhase(env, st, t);
      EnterStill(env, st, t);
      EnterKeepsCounts(env, st, t);
      var reference := LatestReference(st1.sessions[t]);
      hide LatestReference, EnterLatestPhase, Credit;
      AsksLatestBecomes(st1, t, reference, env.lines);
      var z := IdleAsks(st1, t, Latest, reference, env.lines);
      EnteredAskPays(st.sessions[t], st1.sessions[t], z);
      hide RequestFrom, Automatic, Pays;
      var st2 := SendDeferredLatest(env, st, t);
      assert st2.sessions == st.sessions[t := z];
      if s != t { PaysNothing(st.sessions[s]); }
    }
  }

  lemma EnterKeepsCounts(env: Env, st: State, t: SessionId)
    requires t in st.sessions
    ensures var y := EnterLatestPhase(env, st, t).sessions[t];
      y.loop.stale == st.sessions[t].loop.stale && y.loop.retrieved == st.sessions[t].loop.retrieved
  {
  }

  predicate AllAutomatic(st: State) {
    forall s <- st.sessions :: Automatic(st.sessions[s])
  }

  lemma QuietSum(a: State, b: State, c: State, s: SessionId, j: nat, k: nat)
    requires Quiet(a, b, s, j) && Quiet(b, c, s, k)
    ensures Quiet(a, c, s, j + k)
  {
  }

  lemma SendDeferredStays(env: Env, st: State, t: SessionId)
    requires t in st.sessions && AllAutomatic(st)
    ensures AllAutomatic(SendDeferredLatest(env, st, t))
    ensures SendDeferredLatest(env, st, t).sessions.Keys == st.sessions.Keys
  {
    hide SendDeferredLatest, Automatic;
    var st' := SendDeferredLatest(env, st, t);
    forall s | s in st.sessions ensures s in st'.sessions && Automatic(st'.sessions[s]) {
      SendDeferredQuiet(env, st, t, s);
      QuietAutomatic(st, st', s, EntryCost(s == t && WantsLatest(st.sessions[t])));
    }
    if st.sessions != map[] {
      SendDeferredQuiet(env, st, t, t);
    }
  }

  lemma QuietAutomatic(a: State, b: State, s: SessionId, k: nat)
    requires Quiet(a, b, s, k) && Automatic(a.sessions[s])
    ensures s in b.sessions && Automatic(b.sessions[s])
  {
  }

  lemma SentIsInProgress(env: Env, st: State, t: SessionId)
    requires t in st.sessions
    ensures var st' := SendDeferredLatest(env, st, t);
      (forall s <- st.sessions | s != t :: s in st'.sessions && st'.sessions[s] == st.sessions[s]) &&
      t in st'.sessions && !WantsLatest(st'.sessions[t])
  {
    if WantsLatest(st.sessions[t]) {
      var st1 := EnterLatestPhase(env, st, t);
      EnterStill(env, st, t);
      var reference := LatestReference(st1.sessions[t]);
      hide LatestReference, EnterLatestPhase;
      AsksLatestBecomes(st1, t, reference, env.lines);
      AskKeepsLoop(st1, t, reference, env.lines);
    }
  }

  lemma AskKeepsLoop(st: State, t: SessionId, reference: Option<Reference>, limit: int)
    requires t in st.sessions
    ensures t in RequestFrom(st, t, Latest, reference, limit).sessions
    ensures RequestFrom(st, t, Latest, reference, limit).sessions[t].loop == st.sessions[t].loop
  {
  }

  lemma {:induction false} SendAllQuiet(env: Env, st: State, ids: seq<SessionId>, s: SessionId)
    requires AllAutomatic(st) && s in st.sessions
    ensures Quiet(st, SendAll(env, st, ids), s, EntryCost(WantsLatest(st.sessions[s])))
    ensures SendAll(env, st, ids).sessions.Keys == st.sessions.Keys
    decreases |ids|
  {
    hide SendDeferredLatest, AllAutomatic, WantsLatest, Quiet;
    if ids == [] {
      NoCost(st, s, EntryCost(WantsLatest(st.sessions[s])));
    } else if ids[0] !in st.sessions {
      SendAllQuiet(env, st, ids[1..], s);
    } else {
      var st1 := SendDeferredLatest(env, st, ids[0]);
      SendDeferredStays(env, st, ids[0]);
      AutomaticAt(st, ids[0]);
      SendDeferredQuiet(env, st, ids[0], s);
      SentIsInProgress(env, st, ids[0]);
      SendAllQuiet(env, st1, ids[1..], s);
      QuietSum(st, st1, SendAll(env, st1, ids[1..]), s,
               EntryCost(s == ids[0] && WantsLatest(st.sessions[ids[0]])), EntryCost(WantsLatest(st1.sessions[s])));
    }
  }

  lemma AutomaticAt(st: State, s: SessionId)
    requires AllAutomatic(st) && s in st.sessions
    ensures Automatic(st.sessions[s])
  {
  }

  lemma NoCost(st: State, s: SessionId, k: nat)
    requires s in st.sessions
    ensures Quiet(st, st, s, k)
  {
  }

  /** The session enters the loop on its entry in the TARGETS listing. */
  predicate Starts(env: Env, st: State, t: SessionId)
    requires t in st.sessions
  {
    env.auto && st.haveChathistory && !st.sessions[t].queue.loading && !st.sessions[t].loop.inProgress
  }

  lemma StartCatchupQuiet(env: Env, st: State, t: SessionId, s: SessionId)
    requires t in st.sessions && s in st.sessions && Automatic(st.sessions[t])
    ensures Quiet(st, StartCatchup(env, st, t), s, EntryCost(s == t && Starts(env, st, t)))
    ensures StartCatchup(env, st, t).sessions.Keys == st.sessions.Keys
  {
    var x := st.sessions[t];
    if !Starts(env, st, t) {
      NoCost(st, s, 0);
    } else {
      var y := x.(loop := x.loop.(inProgress := true));
      var st1 := PutLoop(st, t, y.loop);
      var reference := LatestReference(x);
      hide LatestReference, Credit;
      AsksLatestBecomes(st1, t, reference, env.lines);
      var z := IdleAsks(st1, t, Latest, reference, env.lines);
      EnteredAskPays(x, y, z);
      hide RequestFrom, Automatic, Pays;
      assert StartCatchup(env, st, t).sessions == st.sessions[t := z];
      if s != t { PaysNothing(st.sessions[s]); }
    }
  }

  lemma CancelQuiet(st: State, t: SessionId, s: SessionId)
    requires t in st.sessions && s in st.sessions
    ensures Quiet(st, CancelCatchup(st, t), s, 0)
  {
  }

  lemma AnsweredQuiet(st: State, t: SessionId, s: SessionId)
    requires t in st.sessions && s in st.sessions
    ensures Quiet(st, Answered(st, t), s, 0)
    ensures Answered(st, t).sessions[t] == st.sessions[t].(answered := st.sessions[t].answered + 1)
    ensures Online(st) ==> Online(Answered(st, t))
  {
  }

  lemma CloseQuiet(st: State, t: SessionId, next: Option<SessionId>, s: SessionId)
    requires t in st.sessions && s in st.sessions && s != t
    ensures Quiet(st, CloseSession(st, t, next), s, 0)
  {
    hide Pays, NoBefore;
    PaysNothing(st.sessions[s]);
    var c := st.sessions[t].chunk;
    if c.Some? && c.value in st.chunks {
      var st1 := ReleaseSlot(st, st.chunks[c.value]);
      ReleaseQuiet(st, st.chunks[c.value], s);
      ForgetQuiet(st1, c.value, s);
      QuietThenQuiet(st, st1, ForgetChunk(st1, c.value), s, 0);
    }
  }

  // ----- every run -----

  predicate FansOut(env: Env, st: State) {
    st.connected && st.haveChathistory && env.auto
  }

  /** The event lets session `s` into the loop. */
  predicate Enters(env: Env, st: State, e: Event, s: SessionId)
    requires s in st.sessions
  {
    match e
    case FanOutTimer => FansOut(env, st) && WantsLatest(st.sessions[s])
    case Reply(t, _, _) => s == t && Adopts(env, st, t, false)
    case Unasked(t, _, _) => s == t && Adopts(env, st, t, false)
    case Replay(t, _, _) => s == t && Adopts(env, st, t, true)
    case TargetsEntry(t) => s == t && Starts(env, st, t)
    case _ => false
  }

  /** What an event may add to the requests of session `s`: a pass when it
      enters the loop, two when a leftover batch is finished. */
  function Cost(env: Env, st: State, e: Event, s: SessionId): nat
    requires s in st.sessions
  {
    if e.Tick? then TickCost(st, e.c) else EntryCost(Enters(env, st, e, s))
  }

  /** Everything but the user's own requests. */
  predicate Unattended(e: Event) {
    !e.ScrollUp? && !e.FillGap?
  }

  /** Counting the answer changes nothing else. */
  lemma AnsweredAlike(env: Env, st: State, t: SessionId, s: SessionId)
    requires t in st.sessions && s in st.sessions
    ensures t in Answered(st, t).sessions && s in Answered(st, t).sessions
    ensures Adopts(env, Answered(st, t), t, false) == Adopts(env, st, t, false)
    ensures Automatic(st.sessions[t]) ==> Automatic(Answered(st, t).sessions[t])
  {
    hide Inv;
  }

  lemma ReplyPaced(env: Env, st: State, e: Event, s: SessionId)
    requires e.Reply? && Online(st) && AllAutomatic(st) && s in st.sessions
    ensures Paced(st, Step(env, st, e), s, Cost(env, st, e, s))
  {
    hide ProcessBatch, Paced, Quiet, EntryCost, Adopts, Answered, Automatic;
    if e.s in st.sessions {
      AnsweredQuiet(st, e.s, s);
      AnsweredAlike(env, st, e.s, s);
      AutomaticAt(st, e.s);
      var st1 := Answered(st, e.s);
      ProcessBatchPaced(env, st1, e.s, false, e.msgs, e.ended, s);
      QuietThenPacedCost(st, st1, ProcessBatch(env, st1, e.s, false, e.msgs, e.ended), s, Cost(env, st, e, s));
    } else {
      NoCost(st, s, Cost(env, st, e, s));
      QuietIsPaced(st, st, s, Cost(env, st, e, s));
    }
  }

  lemma FailEventPaced(env: Env, st: State, e: Event, s: SessionId)
    requires e.Fail? && Online(st) && AllAutomatic(st) && s in st.sessions
    ensures Paced(st, Step(env, st, e), s, 0)
  {
    var t := FailTarget(st, e.context);
    if t.Some? && t.value in st.sessions {
      AnsweredQuiet(st, t.value, s);
      AnsweredQuiet(st, t.value, t.value);
      var st1 := Answered(st, t.value);
      hide HandleFail, Answered, Pays, NoBefore, FailTarget;
      HandleFailPaced(env, st1, t.value, e.badCommand, s);
      QuietThenPaced(st, st1, HandleFail(env, st1, t.value, e.badCommand), s, 0);
    }
  }

  lemma TabPaced(env: Env, st: State, e: Event, s: SessionId)
    requires (e.TabSwitch? || e.BeforeTimer?) && s in st.sessions
    ensures Paced(st, Step(env, st, e), s, 0)
  {
    hide CheckBefore;
    var st1 := if e.TabSwitch? then st.(current := Some(e.to)) else st.(beforeTimer := false);
    SameIsQuiet(st, st1, s);
    CheckBeforePaced(env, st1, s);
  }

  lemma UserPaced(env: Env, st: State, e: Event, s: SessionId)
    requires Online(st) && AllAutomatic(st) && (e.Part? || e.TargetsEntry? || e.Background?)
    requires s in st.sessions
    ensures Paced(st, Step(env, st, e), s, Cost(env, st, e, s))
  {
    hide Paced, Quiet, StartCatchup, CancelCatchup, BackgroundTimer, WantsLatest, Automatic;
    var k := Cost(env, st, e, s);
    NoCost(st, s, k);
    QuietIsPaced(st, st, s, k);
    match e {
      case Part(t) =>
        if t in st.sessions {
          CancelQuiet(st, t, s);
          QuietIsPaced(st, CancelCatchup(st, t), s, 0);
        }
      case TargetsEntry(t) =>
        if t in st.sessions {
          StartCatchupQuiet(env, st, t, s);
          QuietIsPaced(st, StartCatchup(env, st, t), s, EntryCost(s == t && Starts(env, st, t)));
        }
      case Background(t) => BackgroundIdle(env, st, t);
    }
  }

  /** The cost of the events that are not batches. */
  lemma CostIs(env: Env, st: State, e: Event, s: SessionId)
    requires s in st.sessions
    ensures e.FanOutTimer? ==> Cost(env, st, e, s) == EntryCost(FansOut(env, st) && WantsLatest(st.sessions[s]))
    ensures e.Tick? ==> Cost(env, st, e, s) == TickCost(st, e.c)
    ensures e.Fail? || e.BeforeTimer? || e.TabSwitch? || e.WrapperEnd? || e.Close? ==> Cost(env, st, e, s) == 0
  {
    hide TickCost, FansOut, WantsLatest;
  }

  lemma BatchEventPaced(env: Env, st: State, e: Event, s: SessionId)
    requires Online(st) && AllAutomatic(st) && (e.Reply? || e.Unasked? || e.Replay?)
    requires s in st.sessions
    ensures Paced(st, Step(env, st, e), s, Cost(env, st, e, s))
  {
    hide Paced, Quiet, ProcessBatch, Adopts, Automatic, EntryCost, Answered;
    NoCost(st, s, Cost(env, st, e, s));
    QuietIsPaced(st, st, s, Cost(env, st, e, s));
    if e.Reply? {
      ReplyPaced(env, st, e, s);
    } else if e.s in st.sessions {
      AutomaticAt(st, e.s);
      ProcessBatchPaced(env, st, e.s, e.Replay?, e.msgs, e.ended, s);
    }
  }

  lemma TimerEventPaced(env: Env, st: State, e: Event, s: SessionId)
    requires Online(st) && AllAutomatic(st) && s in st.sessions && s in Step(env, st, e).sessions
    requires e.FanOutTimer? || e.Tick? || e.BeforeTimer? || e.TabSwitch? || e.WrapperEnd? || e.Close?
    ensures Paced(st, Step(env, st, e), s, Cost(env, st, e, s))
  {
    CostIs(env, st, e, s);
    hide Paced, Quiet, FanOut, ChunkTick, CheckBefore, CheckBeforeAtZero, CloseSession, WantsLatest, Automatic, EntryCost,
         TickCost, FansOut, AllAutomatic, Cost;
    NoCost(st, s, Cost(env, st, e, s));
    QuietIsPaced(st, st, s, Cost(env, st, e, s));
    match e {
      case FanOutTimer => FanOutPaced(env, st, s);
      case Tick(c) => TickPaced(env, st, c, s);
      case BeforeTimer => TabPaced(env, st, e, s);
      case TabSwitch(to) => TabPaced(env, st, e, s);
      case WrapperEnd => CheckBeforeAtZeroPaced(env, st, s);
      case Close(t, next) =>
        if t in st.sessions { ClosePaced(st, t, next, s); }
    }
  }

  lemma StepPaced(env: Env, st: State, e: Event, s: SessionId)
    requires Online(st) && AllAutomatic(st) && Unattended(e)
    requires s in st.sessions && s in Step(env, st, e).sessions && !e.Open?
    ensures Paced(st, Step(env, st, e), s, Cost(env, st, e, s))
  {
    CostIs(env, st, e, s);
    hide Paced, Step, AllAutomatic, EntryCost, TickCost, Cost;
    if e.Reply? || e.Unasked? || e.Replay? {
      BatchEventPaced(env, st, e, s);
    } else if e.Fail? {
      FailEventPaced(env, st, e, s);
    } else if e.Part? || e.TargetsEntry? || e.Background? {
      UserPaced(env, st, e, s);
    } else {
      TimerEventPaced(env, st, e, s);
    }
  }

  lemma FanOutPaced(env: Env, st: State, s: SessionId)
    requires AllAutomatic(st) && s in st.sessions
    ensures Paced(st, FanOut(env, st), s, EntryCost(FansOut(env, st) && WantsLatest(st.sessions[s])))
  {
    var st0 := st.(latestPending := 0);
    SendAllQuiet(env, st0, FanOutOrder(st), s);
    NoCost(st, s, 0);
    hide SendAll;
  }

  lemma ClosePaced(st: State, t: SessionId, next: Option<SessionId>, s: SessionId)
    requires t in st.sessions && s in st.sessions && s in CloseSession(st, t, next).sessions
    ensures Paced(st, CloseSession(st, t, next), s, 0)
  {
    hide Paced, Quiet;
    if s == t {
      ClosedIsGone(st, t, next);
    } else {
      CloseQuiet(st, t, next, s);
      QuietIsPaced(st, CloseSession(st, t, next), s, 0);
    }
  }

  lemma ClosedIsGone(st: State, t: SessionId, next: Option<SessionId>)
    requires t in st.sessions
    ensures t !in CloseSession(st, t, next).sessions
  {
    hide AbandonChunk;
  }

  lemma BackgroundIdle(env: Env, st: State, t: SessionId)
    requires AllAutomatic(st)
    ensures Step(env, st, Background(t)) == st
  {
  }

  lemma FreshIsAutomatic(env: Env, channel: nat, isChannel: bool, oldest: Option<string>, seen: D.Seen)
    ensures Automatic(Opened(env, channel, isChannel, oldest, seen))
  {
  }

  lemma PacedAutomatic(a: State, b: State, s: SessionId, k: nat)
    requires Paced(a, b, s, k)
    ensures b.sessions.Keys <= a.sessions.Keys && s in b.sessions
    ensures Automatic(a.sessions[s]) ==> Automatic(b.sessions[s])
  {
  }

  lemma OpenedAutomatic(env: Env, st: State, e: Event)
    requires AllAutomatic(st) && e.Open?
    ensures AllAutomatic(Step(env, st, e))
  {
    FreshIsAutomatic(env, e.channel, e.isChannel, e.oldest, e.seen);
    hide Automatic, Opened;
  }

  lemma OpenedOthersSame(env: Env, st: State, e: Event, s: SessionId)
    requires e.Open? && s in st.sessions
    ensures s in Step(env, st, e).sessions && Step(env, st, e).sessions[s] == st.sessions[s]
  {
  }

  lemma StepAutomatic(env: Env, st: State, e: Event, s: SessionId)
    requires Online(st) && AllAutomatic(st) && Unattended(e)
    requires s in st.sessions && s in Step(env, st, e).sessions
    ensures AllAutomatic(Step(env, st, e))
  {
    hide Step, Paced, Automatic, Cost;
    if e.Open? {
      OpenedAutomatic(env, st, e);
    } else {
      StepPaced(env, st, e, s);
      PacedAutomatic(st, Step(env, st, e), s, Cost(env, st, e, s));
      forall t | t in Step(env, st, e).sessions ensures Automatic(Step(env, st, e).sessions[t]) {
        StepPaced(env, st, e, t);
        PacedAutomatic(st, Step(env, st, e), t, Cost(env, st, e, t));
      }
    }
  }

  lemma StepPays(env: Env, st: State, e: Event, s: SessionId)
    requires Online(st) && AllAutomatic(st) && Unattended(e)
    requires s in st.sessions && s in Step(env, st, e).sessions
    ensures var x, x' := st.sessions[s], Step(env, st, e).sessions[s];
      |x'.queue.sent| + Credit(x') <= |x.queue.sent| + Credit(x) + Cost(env, st, e, s)
  {
    hide Step, Automatic, Cost, Credit;
    AutomaticAt(st, s);
    if e.Open? {
      OpenedOthersSame(env, st, e, s);
    } else {
      StepPaced(env, st, e, s);
    }
  }

  /** A BEFORE request goes out only when no LATEST outcome is pending, as long
      as no user request is in the queues. */
  lemma BeforeOnlyAtZero(env: Env, st: State, e: Event, s: SessionId)
    requires AllAutomatic(st) && Unattended(e)
    requires s in st.sessions && s in Step(env, st, e).sessions
    ensures Befores(Step(env, st, e).sessions[s].queue.sent) != Befores(st.sessions[s].queue.sent)
            ==> Step(env, st, e).latestPending == 0
  {
    hide Step, Automatic, Cost, Credit, Online;
    AutomaticAt(st, s);
    if !Online(st) {
      I.OfflineIsSilent(env, st, e, s);
    } else if e.Open? {
      OpenedOthersSame(env, st, e, s);
    } else {
      StepPaced(env, st, e, s);
    }
  }

  /** A run without user requests in which session `s` stays open. */
  predicate UnattendedRun(st: State, run: seq<Input>, s: SessionId)
    decreases |run|
  {
    s in st.sessions &&
    (run == [] || (Unattended(run[0].event) && UnattendedRun(Step(run[0].env, st, run[0].event), run[1..], s)))
  }

  function TotalCost(st: State, run: seq<Input>, s: SessionId): nat
    requires UnattendedRun(st, run, s)
    decreases |run|
  {
    if run == [] then 0
    else Cost(run[0].env, st, run[0].event, s) + TotalCost(Step(run[0].env, st, run[0].event), run[1..], s)
  }

  /** Once requests cannot be sent, none is sent any more. */
  lemma {:induction false} SilentRun(st: State, run: seq<Input>, s: SessionId)
    requires !Online(st) && UnattendedRun(st, run, s)
    ensures s in AfterRun(st, run).sessions && AfterRun(st, run).sessions[s].queue.sent == st.sessions[s].queue.sent
    decreases |run|
  {
    hide Step;
    if run != [] {
      I.OfflineIsSilent(run[0].env, st, run[0].event, s);
      SilentRun(Step(run[0].env, st, run[0].event), run[1..], s);
    }
  }

  /** Over every unattended run, however the server answers, the requests sent
      for a session are bounded: at most one pass's worth for the loop it is
      in, one for each time it enters the loop, and two per leftover batch.
      Four FAILs in a row only end the sending. */
  lemma {:induction false} CatchUpIsBounded(st: State, run: seq<Input>, s: SessionId)
    requires AllAutomatic(st) && UnattendedRun(st, run, s)
    ensures s in AfterRun(st, run).sessions
    ensures |AfterRun(st, run).sessions[s].queue.sent|
         <= |st.sessions[s].queue.sent| + Credit(st.sessions[s]) + TotalCost(st, run, s)
    decreases |run|
  {
    hide Step, AllAutomatic, Cost, Credit, Online;
    if !Online(st) {
      SilentRun(st, run, s);
    } else if run != [] {
      StepAutomatic(run[0].env, st, run[0].event, s);
      StepPays(run[0].env, st, run[0].event, s);
      CatchUpIsBounded(Step(run[0].env, st, run[0].event), run[1..], s);
    }
  }

  // ----- the bound in entries alone -----

  /** How often the run lets session `s` into the loop. */
  function Entries(st: State, run: seq<Input>, s: SessionId): nat
    requires UnattendedRun(st, run, s)
    decreases |run|
  {
    if run == [] then 0
    else (if Enters(run[0].env, st, run[0].event, s) then 1 else 0) +
         Entries(Step(run[0].env, st, run[0].event), run[1..], s)
  }

  /** With the slot books in order every reply of ours being worked off is the
      catch-up's own: there are no leftovers. */
  lemma NoLeftovers(st: State, c: ChunkId)
    requires S.Books(st)
    ensures TickCost(st, c) == 0
  {
    hide S.SessionsOk, S.OneOwn, S.Balanced, S.Fits;
    if c in st.chunks {
      assert S.ChunkShape(st.chunks[c]);
    }
  }

  lemma {:induction false} CostIsEntries(st: State, run: seq<Input>, s: SessionId)
    requires S.Books(st) && S.LegalRun(st, run) && UnattendedRun(st, run, s)
    ensures TotalCost(st, run, s) == PASS_LIMIT * Entries(st, run, s)
    decreases |run|
  {
    hide Step, S.Books, S.Traffic, S.Upsets, Enters, TickCost;
    if run != [] {
      var e := run[0].event;
      if e.Tick? {
        NoLeftovers(st, e.c);
        TicksEnterNobody(run[0].env, st, e, s);
      }
      S.StepBooks(run[0].env, st, e);
      CostIsEntries(Step(run[0].env, st, e), run[1..], s);
    }
  }

  lemma TicksEnterNobody(env: Env, st: State, e: Event, s: SessionId)
    requires e.Tick? && s in st.sessions
    ensures !Enters(env, st, e, s)
  {
  }

  /** In catch-up traffic, where the server answers a request once and the slot
      books are in order, the bound is the credit of the loop the session is in
      and one pass for each entry. */
  lemma BoundedByEntries(st: State, run: seq<Input>, s: SessionId)
    requires S.Books(st) && S.LegalRun(st, run) && AllAutomatic(st) && UnattendedRun(st, run, s)
    ensures s in AfterRun(st, run).sessions
    ensures |AfterRun(st, run).sessions[s].queue.sent|
         <= |st.sessions[s].queue.sent| + Credit(st.sessions[s]) + PASS_LIMIT * Entries(st, run, s)
  {
    hide S.Books, S.LegalRun, AllAutomatic, Credit, Step, UnattendedRun, Entries, TotalCost;
    CatchUpIsBounded(st, run, s);
    CostIsEntries(st, run, s);
  }

  /** A request of ours is on the wire while its session is out of the loop. */
  predicate Stray(st: State, s: SessionId) {
    s in st.sessions && !st.sessions[s].loop.inProgress &&
    st.sessions[s].queue.active.Some? && st.sessions[s].queue.active.value.gapId == 0
  }

  /** A server that answers such a request again and again leaves a leftover
      batch each time, with no entry in between: in general leftovers are not
      bounded by entries. */
  lemma EachReplyLeavesOne(env: Env, st: State, s: SessionId, msgs: seq<D.Message>, ended: bool)
    requires Stray(st, s) && D.RawCount(SortByTime(msgs)) > D.CHUNK_SIZE
    ensures var st' := Step(env, st, Reply(s, msgs, ended));
      Stray(st', s) && !Enters(env, st, Reply(s, msgs, ended), s) &&
      st'.chunks.Keys == st.chunks.Keys + {st.nextChunk} && st'.nextChunk == st.nextChunk + 1 &&
      LeftoverCost(st'.chunks[st.nextChunk]) == 2
  {
    hide SortByTime, CursorMsgids, D.RawCount, EmptyBatch, TakeChunk, FinishBatch, Adopt, Adoptable;
    assert msgs != [] by {
      NothingSorted();
    }
    var st1 := Answered(st, s);
    var active := st.sessions[s].queue.active.value;
    var ch := NewChunk(st1, s, msgs, ended, false, false, true, 0, active.gapDir);
    assert ProcessBatch(env, st1, s, false, msgs, ended) == StartBatch(env, st1, ch);
  }

  lemma NothingSorted()
    ensures D.RawCount(SortByTime([])) == 0
  {
  }

  /** The credit of a session never exceeds one pass. */
  lemma CreditBounded(x: Session)
    ensures Credit(x) < PASS_LIMIT
  {
  }
}
