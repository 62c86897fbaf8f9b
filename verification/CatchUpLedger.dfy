/**
 The gap ledger over whole runs of the engine.  The server keeps the history of
 a channel and answers each request with what is nearest its reference; in
 between it may replay, fail or send what nobody asked for, and the user may
 scroll, fill, part and close.  As long as every finished batch is safe to
 close, no message that ever lay strictly inside a row of the channel is
 forgotten.
 */
module CatchUpLedger {
  import opened Wrappers
  import opened RequestQueue
  import opened CatchUp
  import opened CatchUpCalm
  import opened CatchUpWalk
  import opened CatchUpClosing
  import opened ServerLog
  import D = Dedup
  import G = GapLedger
  import K = GapCoverage
  import P = CatchUpReplay

  /** The engine next to one channel's history.  `stored` is what a session of
      the channel has ever known, `owed` what ever lay inside a row, and
      `answers` where the batches being worked off come from. */
  datatype Scene = Scene(st: State, channel: nat, log: Log, stored: set<K.Msg>, tied: set<K.Msg>, owed: set<K.Msg>,
                         answers: map<ChunkId, Answer>)

  function WorldOf(sc: Scene): K.World {
    World(sc.log, sc.channel, sc.st.gaps, sc.stored, sc.tied)
  }

  /** The entries the channel's sessions know now. */
  function KnownNow(channel: nat, log: Log, st: State): set<K.Msg> {
    set m <- History(log) | exists s <- st.sessions :: st.sessions[s].channel == channel && Knows(st.sessions[s].seen, m)
  }

  /** The entries strictly inside a row of the channel. */
  function InsideRows(channel: nat, log: Log, gaps: seq<G.Gap>): set<K.Msg> {
    set m <- History(log) | G.CoversTime(gaps, channel, m.ts)
  }

  // ----- what happens -----

  predicate BringsBatch(st: State, e: Event) {
    (e.Reply? || e.Unasked? || e.Replay?) && e.s in st.sessions && e.msgs != []
  }

  /** Where a batch that arrives for the session comes from. */
  function AnswerFrom(st: State, x: Session, nested: bool, msgs: seq<D.Message>): Answer {
    var asked := if Unsolicited(x, nested) then None else x.queue.active;
    Answer(asked, Entries(SortByTime(msgs)), if asked.Some? then EffectiveLimit(st, asked.value.limit) else 0,
           LatestEnd(st.gaps, x.channel))
  }

  /** The state and the batch as `StartBatch` gets them. */
  function Arrival(env: Env, st: State, s: SessionId, nested: bool, msgs: seq<D.Message>, ended: bool): (State, Chunk)
    requires s in st.sessions
    ensures Arrival(env, st, s, nested, msgs, ended).1.sess == s
  {
    var sess := st.sessions[s];
    var active := sess.queue.active;
    var gapId := if active.Some? && !nested then active.value.gapId else 0;
    var gapDir := if active.Some? && !nested then active.value.gapDir else 0;
    var unsolicited := Unsolicited(sess, nested);
    var adopted := unsolicited && Adoptable(env, st, sess);
    var st1 := if adopted then Adopt(env, st, s) else st;
    var isCatchup := if unsolicited then adopted else sess.loop.inProgress && gapId == 0;
    (st1, NewChunk(st1, s, msgs, ended, isCatchup, unsolicited, adopted || !unsolicited, gapId, gapDir))
  }

  lemma ArrivalStarts(env: Env, st: State, s: SessionId, nested: bool, msgs: seq<D.Message>, ended: bool)
    requires s in st.sessions && msgs != []
    ensures var (st1, ch) := Arrival(env, st, s, nested, msgs, ended);
      s in st1.sessions && ProcessBatch(env, st, s, nested, msgs, ended) == StartBatch(env, st1, ch)
  {
    hide Adoptable, EmptyBatch, StartBatch, NewChunk, EnteredLoop;
  }

  function Arriving(st: State, e: Event): State
    requires BringsBatch(st, e)
  {
    if e.Reply? then Answered(st, e.s) else st
  }

  /** The answer the batch of this event is, or was when it came. */
  function AnswerOf(sc: Scene, e: Event): Answer {
    if BringsBatch(sc.st, e) then AnswerFrom(sc.st, sc.st.sessions[e.s], e.Replay?, e.msgs)
    else if e.Tick? && e.c in sc.answers then sc.answers[e.c]
    else Answer(None, [], 0, 0)
  }

  /** The batch this event finishes, and the state it is finished in. */
  function Finishing(env: Env, st: State, e: Event): Option<(State, Chunk)>
    ensures Finishing(env, st, e).Some? ==> Finishing(env, st, e).value.1.sess in Finishing(env, st, e).value.0.sessions
  {
    if BringsBatch(st, e) then
      var (st1, ch) := Arrival(env, Arriving(st, e), e.s, e.Replay?, e.msgs, e.ended);
      var (x, ch') := TakeChunk(st1.sessions[e.s], ch);
      if ch.rawCount <= D.CHUNK_SIZE then Some((Put(st1, e.s, x), ch')) else None
    else if e.Tick? && e.c in st.chunks && st.chunks[e.c].sess in st.sessions then
      var (x, ch) := TakeChunk(st.sessions[st.chunks[e.c].sess], st.chunks[e.c]);
      if ch.remaining == [] then Some((ForgetChunk(Put(st, ch.sess, x), e.c), ch)) else None
    else None
  }

  /** The next scene. */
  function Next(env: Env, sc: Scene, e: Event): Scene {
    var st' := Step(env, sc.st, e);
    var stored := sc.stored + KnownNow(sc.channel, sc.log, st');
    sc.(st := st', stored := stored,
        tied := K.Moved(World(sc.log, sc.channel, sc.st.gaps, stored, sc.tied), st'.gaps).tied,
        owed := sc.owed + InsideRows(sc.channel, sc.log, st'.gaps),
        answers := if BringsBatch(sc.st, e) then sc.answers[sc.st.nextChunk := AnswerOf(sc, e)] else sc.answers)
  }

  // ----- hypotheses -----

  /** The batch is made of history entries, and one that answers a request of
      ours is what the server has nearest the reference. */
  ghost predicate Truthful(log: Log, st: State, x: Session, nested: bool, msgs: seq<D.Message>) {
    Plain(log, msgs) &&
    (!Unsolicited(x, nested) && x.queue.active.Some? ==>
      exists lo: nat, hi: nat ::
        SentAs(log, x.queue.active.value, EffectiveLimit(st, x.queue.active.value.limit), LatestEnd(st.gaps, x.channel), msgs, lo, hi))
  }

  ghost predicate SentAs(log: Log, req: Request, limit: int, until: int, msgs: seq<D.Message>, lo: nat, hi: nat) {
    Serves(log, req, limit, until, lo, hi) && msgs == Wire(log[lo..hi])
  }

  /** The server tells the truth about this channel; and the channel has one
      session at a time, whose id was not used before. */
  ghost predicate Honest(sc: Scene, e: Event) {
    (BringsBatch(sc.st, e) && sc.st.sessions[e.s].channel == sc.channel ==>
      Truthful(sc.log, sc.st, sc.st.sessions[e.s], e.Replay?, e.msgs)) &&
    (e.Open? && e.s !in sc.st.sessions ==>
      (forall c <- sc.st.chunks :: sc.st.chunks[c].sess != e.s) &&
      (e.channel == sc.channel ==> forall s <- sc.st.sessions :: sc.st.sessions[s].channel != sc.channel))
  }

  /** The batch this event finishes, if any, is safe to close. */
  predicate Safe(env: Env, sc: Scene, e: Event) {
    var f := Finishing(env, sc.st, e);
    f.Some? ==> SafeClose(sc.log, sc.channel, env, f.value.0, f.value.1, AnswerOf(sc, e))
  }

  // ----- invariant -----

  predicate OneSession(channel: nat, sessions: map<SessionId, Session>) {
    forall s, t | s in sessions && t in sessions && sessions[s].channel == channel && sessions[t].channel == channel :: s == t
  }

  ghost predicate WalksLinked(log: Log, channel: nat, stored: set<K.Msg>, gaps: seq<G.Gap>, sessions: map<SessionId, Session>) {
    forall s <- sessions | sessions[s].channel == channel ::
      Linked(log, channel, stored, gaps, sessions[s]) && Shaped(sessions[s].queue)
  }

  /** The batch has been worked off up to entry `done`. */
  predicate Upto(ch: Chunk, a: Answer, done: nat) {
    a.batch != [] && done <= |a.batch| && ch.remaining == Wire(a.batch[done..]) && ch.rawCount == |a.batch| &&
    ch.oldestMsgid == Some(a.batch[0].msgid) && ch.newestMsgid == Some(a.batch[|a.batch| - 1].msgid) &&
    (if done == 0 then ch.oldest == 0 && ch.newest == 0
     else ch.oldest == a.batch[0].ts && ch.newest == a.batch[done - 1].ts)
  }

  ghost predicate ChunkOk(log: Log, stored: set<K.Msg>, ch: Chunk, a: Answer) {
    Comes(log, a) && Origin(ch, a) &&
    exists done: nat :: Upto(ch, a, done) && forall i | 0 <= i < done :: a.batch[i] in stored
  }

  predicate Mine(channel: nat, sessions: map<SessionId, Session>, ch: Chunk) {
    ch.sess in sessions && sessions[ch.sess].channel == channel
  }

  ghost predicate ChunksOk(log: Log, channel: nat, stored: set<K.Msg>, st: State, answers: map<ChunkId, Answer>) {
    forall c <- st.chunks ::
      c < st.nextChunk &&
      (Mine(channel, st.sessions, st.chunks[c]) ==> c in answers && ChunkOk(log, stored, st.chunks[c], answers[c]))
  }

  ghost predicate StateOk(log: Log, channel: nat, stored: set<K.Msg>, st: State, answers: map<ChunkId, Answer>) {
    ValidLog(log) && G.WellFormed(st.gaps) && OneSession(channel, st.sessions) &&
    WalksLinked(log, channel, stored, st.gaps, st.sessions) && ChunksOk(log, channel, stored, st, answers)
  }

  ghost predicate SceneOk(sc: Scene) {
    StateOk(sc.log, sc.channel, sc.stored, sc.st, sc.answers) &&
    sc.owed <= History(sc.log) && K.LedgerTrue(WorldOf(sc), sc.owed)
  }

  /** The engine as it starts: no batch in progress, no loop closing a row, and
      whatever rows are on file. */
  predicate Begins(st: State, channel: nat) {
    G.WellFormed(st.gaps) && OneSession(channel, st.sessions) && st.chunks == map[] &&
    forall s <- st.sessions :: st.sessions[s].loop.gapId == 0 && Shaped(st.sessions[s].queue)
  }

  /** The first scene: nothing is known but what the sessions find stored, and
      every entry inside a row on file is owed. */
  function FirstScene(st: State, channel: nat, log: Log): Scene {
    Scene(st, channel, log, KnownNow(channel, log, st), {}, InsideRows(channel, log, st.gaps), map[])
  }

  lemma FirstSceneOk(st: State, channel: nat, log: Log)
    requires Begins(st, channel) && ValidLog(log)
    ensures SceneOk(FirstScene(st, channel, log))
  {
    hide ValidLog, G.WellFormed, Shaped, KnownNow, CursorAt, G.CoversTime;
  }

  // ----- calm steps -----

  lemma {:induction false} InPlaceDistinct(gaps: seq<G.Gap>, gaps': seq<G.Gap>)
    requires InPlace(gaps, gaps') && G.Distinct(gaps)
    ensures G.Distinct(gaps')
  {
    if gaps != [] {
      assert SameBounds(gaps[0], gaps'[0]);
      forall i | 0 <= i < |gaps[1..]| ensures SameBounds(gaps[1..][i], gaps'[1..][i]) {
        assert SameBounds(gaps[i + 1], gaps'[i + 1]);
      }
      InPlaceDistinct(gaps[1..], gaps'[1..]);
      forall g <- gaps'[1..] ensures g.id != gaps'[0].id {
        var i :| 0 <= i < |gaps'[1..]| && gaps'[1..][i] == g;
        assert SameBounds(gaps[1..][i], gaps'[1..][i]) && gaps[1..][i] in gaps[1..];
      }
    }
  }

  lemma InPlaceWellFormed(gaps: seq<G.Gap>, gaps': seq<G.Gap>)
    requires InPlace(gaps, gaps') && G.WellFormed(gaps)
    ensures G.WellFormed(gaps')
  {
    InPlaceDistinct(gaps, gaps');
    forall g <- gaps' ensures g.start < g.end {
      var i :| 0 <= i < |gaps'| && gaps'[i] == g;
      assert SameBounds(gaps[i], gaps'[i]) && gaps[i] in gaps;
    }
  }

  lemma ChunkStays(log: Log, stored: set<K.Msg>, stored': set<K.Msg>, ch: Chunk, a: Answer)
    requires ChunkOk(log, stored, ch, a) && stored <= stored'
    ensures ChunkOk(log, stored', ch, a)
  {
    hide Upto, Comes, Origin;
  }

  lemma CalmOk(log: Log, channel: nat, stored: set<K.Msg>, stored': set<K.Msg>, st: State, st': State, answers: map<ChunkId, Answer>)
    requires StateOk(log, channel, stored, st, answers) && Calm(st, st') && stored <= stored'
    ensures StateOk(log, channel, stored', st', answers)
  {
    hide ValidLog, G.WellFormed, InPlace, Linked, ChunkOk, Shaped, KnowsMore;
    InPlaceWellFormed(st.gaps, st'.gaps);
    forall s <- st'.sessions | st'.sessions[s].channel == channel
      ensures Linked(log, channel, stored', st'.gaps, st'.sessions[s]) && Shaped(st'.sessions[s].queue)
    {
      SameWalkLinked(log, channel, stored, stored', st.gaps, st'.gaps, st.sessions[s], st'.sessions[s]);
    }
    forall c <- st'.chunks | Mine(channel, st'.sessions, st'.chunks[c])
      ensures c in answers && ChunkOk(log, stored', st'.chunks[c], answers[c])
    {
      ChunkStays(log, stored, stored', st.chunks[c], answers[c]);
    }
  }

  lemma MoreStored(w: K.World, stored: set<K.Msg>, owed: set<K.Msg>)
    requires K.LedgerTrue(w, owed) && w.stored <= stored
    ensures K.LedgerTrue(w.(stored := stored), owed)
  {
  }

  lemma InsideIsOwed(w: K.World, log: Log, owed: set<K.Msg>)
    requires K.LedgerTrue(w, owed) && w.history == History(log) && owed <= w.history
    ensures K.LedgerTrue(w, owed + InsideRows(w.channel, log, w.rows))
    ensures owed + InsideRows(w.channel, log, w.rows) <= History(log)
  {
    hide G.CoversTime;
  }

  lemma NextWorld(env: Env, sc: Scene, e: Event)
    ensures var stored := sc.stored + KnownNow(sc.channel, sc.log, Step(env, sc.st, e));
      WorldOf(Next(env, sc, e)) ==
      K.Moved(World(sc.log, sc.channel, sc.st.gaps, stored, sc.tied), Step(env, sc.st, e).gaps)
  {
    hide Step, KnownNow, K.MeetsBound, AnswerOf, BringsBatch, InsideRows;
  }

  /** What is left to show of a step, once its effect on the rows is known. */
  lemma SceneFollows(env: Env, sc: Scene, e: Event)
    requires SceneOk(sc)
    requires var sc' := Next(env, sc, e); StateOk(sc.log, sc.channel, sc'.stored, sc'.st, sc'.answers)
    requires var w := WorldOf(sc).(stored := Next(env, sc, e).stored);
      K.LedgerTrue(w, sc.owed) ==> K.LedgerTrue(K.Moved(w, Step(env, sc.st, e).gaps), sc.owed)
    ensures SceneOk(Next(env, sc, e))
  {
    hide Step, StateOk, KnownNow, K.LedgerTrue, K.Moved, InsideRows, AnswerOf, BringsBatch, Next;
    NextParts(env, sc, e);
    var sc' := Next(env, sc, e);
    MoreStored(WorldOf(sc), sc'.stored, sc.owed);
    NextWorld(env, sc, e);
    InsideIsOwed(WorldOf(sc'), sc.log, sc.owed);
  }

  lemma NextParts(env: Env, sc: Scene, e: Event)
    ensures var sc' := Next(env, sc, e);
      sc'.st == Step(env, sc.st, e) && sc'.channel == sc.channel && sc'.log == sc.log &&
      sc'.stored == sc.stored + KnownNow(sc.channel, sc.log, sc'.st) &&
      sc'.owed == sc.owed + InsideRows(sc.channel, sc.log, sc'.st.gaps) &&
      sc'.answers == if BringsBatch(sc.st, e) then sc.answers[sc.st.nextChunk := AnswerOf(sc, e)] else sc.answers
  {
    hide Step, KnownNow, K.Moved, InsideRows, AnswerOf, BringsBatch;
  }

  /** A step that leaves rows and walks alone. */
  lemma CalmFollows(env: Env, sc: Scene, e: Event)
    requires SceneOk(sc) && Calm(sc.st, Step(env, sc.st, e)) && !BringsBatch(sc.st, e)
    ensures SceneOk(Next(env, sc, e))
  {
    hide Step, StateOk, K.LedgerTrue, K.Moved, Next, KnownNow, InsideRows, AnswerOf, BringsBatch, WalksOn, ChunksStay;
    NextParts(env, sc, e);
    var sc' := Next(env, sc, e);
    CalmOk(sc.log, sc.channel, sc.stored, sc'.stored, sc.st, sc'.st, sc.answers);
    var w := WorldOf(sc).(stored := sc'.stored);
    if K.LedgerTrue(w, sc.owed) {
      InPlaceTrue(w, sc'.st.gaps, sc.owed);
    }
    SceneFollows(env, sc, e);
  }

  lemma OpenOk(log: Log, channel: nat, stored: set<K.Msg>, stored': set<K.Msg>, st: State, st': State,
               answers: map<ChunkId, Answer>, s: SessionId, x: Session)
    requires StateOk(log, channel, stored, st, answers) && stored <= stored' && s !in st.sessions
    requires st'.sessions == st.sessions[s := x] && st'.gaps == st.gaps && st'.chunks == st.chunks && st'.nextChunk == st.nextChunk
    requires x.loop.gapId == 0 && Shaped(x.queue)
    requires forall c <- st.chunks :: st.chunks[c].sess != s
    requires x.channel == channel ==> forall t <- st.sessions :: st.sessions[t].channel != channel
    ensures StateOk(log, channel, stored', st', answers)
  {
    hide ValidLog, G.WellFormed, CursorAt, ChunkOk, Shaped;
    forall t <- st'.sessions | st'.sessions[t].channel == channel
      ensures Linked(log, channel, stored', st'.gaps, st'.sessions[t]) && Shaped(st'.sessions[t].queue)
    {
      if t != s {
        LinkedStill(log, channel, stored, stored', st.gaps, st.sessions[t]);
      }
    }
    forall c <- st'.chunks | Mine(channel, st'.sessions, st'.chunks[c])
      ensures c in answers && ChunkOk(log, stored', st'.chunks[c], answers[c])
    {
      ChunkStays(log, stored, stored', st.chunks[c], answers[c]);
    }
  }

  lemma LinkedStill(log: Log, channel: nat, stored: set<K.Msg>, stored': set<K.Msg>, gaps: seq<G.Gap>, x: Session)
    requires Linked(log, channel, stored, gaps, x) && stored <= stored'
    ensures Linked(log, channel, stored', gaps, x)
  {
    hide CursorAt;
    var g := LoopRow(gaps, x, channel);
    if g.Some? {
      CursorKeeps(log, stored, stored', x.oldest, g.value.end);
    }
  }

  lemma OpenFollows(env: Env, sc: Scene, e: Event)
    requires SceneOk(sc) && e.Open? && Honest(sc, e)
    ensures SceneOk(Next(env, sc, e))
  {
    if e.s in sc.st.sessions {
      Still(sc.st);
      CalmFollows(env, sc, e);
    } else {
      OpenStep(env, sc.st, e);
      hide Step, StateOk, K.LedgerTrue, K.Moved, Next, KnownNow, InsideRows, AnswerOf;
      NextParts(env, sc, e);
      var sc' := Next(env, sc, e);
      OpenOk(sc.log, sc.channel, sc.stored, sc'.stored, sc.st, sc'.st, sc.answers, e.s, Opened(env, e.channel, e.isChannel, e.oldest, e.seen));
      var w := WorldOf(sc).(stored := sc'.stored);
      if K.LedgerTrue(w, sc.owed) {
        NoMoveTrue(w, sc.owed);
      }
      SceneFollows(env, sc, e);
    }
  }

  lemma OpenStep(env: Env, st: State, e: Event)
    requires e.Open? && e.s !in st.sessions
    ensures var st', x := Step(env, st, e), Opened(env, e.channel, e.isChannel, e.oldest, e.seen);
      st'.sessions == st.sessions[e.s := x] && st'.gaps == st.gaps && st'.chunks == st.chunks && st'.nextChunk == st.nextChunk &&
      x.loop.gapId == 0 && Shaped(x.queue) && x.channel == e.channel
  {
  }

  // ----- finishing a batch -----

  lemma CheckKeepsSessions(env: Env, st: State)
    ensures CheckBefore(env, st).sessions.Keys == st.sessions.Keys
  {
    hide CheckBefore;
    P.CheckBeforeHarmless(env, st);
  }

  lemma VerdictKeeps(env: Env, st: State, s: SessionId, msgCount: nat, verdict: Verdict)
    requires s in st.sessions
    ensures ApplyVerdict(env, st, s, msgCount, verdict).sessions.Keys == st.sessions.Keys
  {
    hide CheckBefore;
    CheckKeepsSessions(env, FinishCatchup(st, s));
    CheckKeepsSessions(env, FinishCatchup(Put(st, s, st.sessions[s].(exhausted := true)), s));
  }

  lemma FinishKeeps(env: Env, st: State, ch: Chunk)
    requires ch.sess in st.sessions
    ensures ch.sess in FinishBatch(env, st, ch).sessions
  {
    hide Noted, ApplyVerdict, CheckBefore, Witnessed, BackgroundGoesOn, Turn, RowAfterPage, JudgePage;
    NotedTurns(st, ch);
    var st1 := Noted(st, ch);
    VerdictKeeps(env, Paged(env, st1, ch), ch.sess, ch.msgCount, VerdictOn(env, st1, ch));
    CheckKeepsSessions(env, ReturnSlot(WitnessHole(env, st1, ch), ch.latestOwned));
  }

  ghost predicate Closes(log: Log, channel: nat, stored: set<K.Msg>, env: Env, st: State, ch: Chunk, a: Answer) {
    ch.sess in st.sessions && SafeClose(log, channel, env, st, ch, a) &&
    (Mine(channel, st.sessions, ch) ==>
      Comes(log, a) && Origin(ch, a) && WorkedOff(ch, a) && forall b <- a.batch :: b in stored)
  }

  lemma FinishOk(log: Log, channel: nat, stored: set<K.Msg>, env: Env, st: State, ch: Chunk, a: Answer, answers: map<ChunkId, Answer>)
    requires StateOk(log, channel, stored, st, answers) && Closes(log, channel, stored, env, st, ch, a)
    ensures StateOk(log, channel, stored, FinishBatch(env, st, ch), answers)
  {
    hide ValidLog, G.WellFormed, FinishBatch, Linked, ChunkOk, Shaped, KnowsMore, SafeClose, Comes, Origin, WorkedOff;
    var st' := FinishBatch(env, st, ch);
    RowsWellFormed(env, st, ch);
    FinishTurns(env, st, ch);
    forall s <- st'.sessions | st'.sessions[s].channel == channel
      ensures Linked(log, channel, stored, st'.gaps, st'.sessions[s]) && Shaped(st'.sessions[s].queue)
    {
      if s == ch.sess {
        OwnLinked(log, channel, stored, env, st, ch, a);
      } else {
        OtherLinked(log, channel, stored, env, st, ch, a, s);
      }
    }
  }

  lemma OtherLinked(log: Log, channel: nat, stored: set<K.Msg>, env: Env, st: State, ch: Chunk, a: Answer, s: SessionId)
    requires G.WellFormed(st.gaps) && ch.sess in st.sessions && st.sessions[ch.sess].channel != channel
    requires SafeClose(log, channel, env, st, ch, a)
    requires s in st.sessions && Linked(log, channel, stored, st.gaps, st.sessions[s])
    requires var st' := FinishBatch(env, st, ch); s in st'.sessions && SameWalk(st.sessions[s], st'.sessions[s])
    ensures var st' := FinishBatch(env, st, ch); Linked(log, channel, stored, st'.gaps, st'.sessions[s])
  {
    hide FinishBatch, Linked, SameWalk, RowsAfter;
    var st' := FinishBatch(env, st, ch);
    OtherKept(channel, env, st, ch);
    FinishRows(env, st, ch);
    KeptLinked(log, channel, stored, st.gaps, st'.gaps, st.sessions[s]);
    SameWalkLinked(log, channel, stored, stored, st'.gaps, st'.gaps, st.sessions[s], st'.sessions[s]);
  }

  lemma FinishTrue(env: Env, st: State, ch: Chunk, a: Answer, answers: map<ChunkId, Answer>, log: Log, w: K.World, owed: set<K.Msg>)
    requires StateOk(log, w.channel, w.stored, st, answers) && Closes(log, w.channel, w.stored, env, st, ch, a)
    requires w.history == History(log) && w.rows == st.gaps && owed <= w.history && K.LedgerTrue(w, owed)
    ensures K.LedgerTrue(K.Moved(w, FinishBatch(env, st, ch).gaps), owed)
  {
    hide FinishBatch, RowsAfter, Linked, ChunksOk, SafeClose, Comes, Origin, WorkedOff, K.LedgerTrue, K.Moved, ValidLog, RowsKept;
    FinishRows(env, st, ch);
    if st.sessions[ch.sess].channel == w.channel {
      OwnTrue(log, w.channel, env, st, ch, a, w, owed);
    } else {
      AlienNames(log, w.channel, env, st, ch, a);
      OtherKept(w.channel, env, st, ch);
      KeptTrue(w, RowsAfter(env, st, ch), owed);
    }
  }

  lemma AlienNames(log: Log, channel: nat, env: Env, st: State, ch: Chunk, a: Answer)
    requires ch.sess in st.sessions && st.sessions[ch.sess].channel != channel && SafeClose(log, channel, env, st, ch, a)
    ensures NamesOwnRows(st.gaps, channel, st.sessions[ch.sess], ch)
  {
  }

  // ----- working a batch off -----

  /** The entries a chunk takes are entries `done` to `done'` of the batch. */
  lemma PartOf(log: Log, batch: seq<K.Msg>, done: nat, done': nat)
    requires ValidLog(log) && Sorted(batch) && (forall b <- batch :: b in log) && done <= done' <= |batch|
    ensures Wire(batch[done..])[..done' - done] == Wire(batch[done..done'])
    ensures Wire(batch[done..])[done' - done..] == Wire(batch[done'..])
    ensures Sorted(batch[done..done']) && forall b <- batch[done..done'] :: b.msgid != "" && b.ts > 0
  {
    WireSlice(batch[done..], done' - done);
    assert batch[done..][..done' - done] == batch[done..done'] && batch[done..][done' - done..] == batch[done'..];
  }

  lemma PartTally(log: Log, seen: D.Seen, ch: Chunk, a: Answer, done: nat, done': nat)
    requires ValidLog(log) && Comes(log, a) && Upto(ch, a, done) && done <= done' <= |a.batch|
    ensures var t := D.Fold(D.Tally(seen, [], ch.oldest, ch.newest), Wire(a.batch[done..done']));
      (forall b <- a.batch[done..done'] :: Knows(t.seen, b)) &&
      if done' == 0 then t.oldest == 0 && t.newest == 0
      else t.oldest == a.batch[0].ts && t.newest == a.batch[done' - 1].ts
  {
    hide D.Fold, Knows, D.Process, Serves, Wire, ValidLog;
    PartOf(log, a.batch, done, done');
    var part := a.batch[done..done'];
    var t := D.Tally(seen, [], ch.oldest, ch.newest);
    FoldKnows(t, part);
    FirstPositive(log, a);
    FoldEdges(t, part);
  }

  lemma FirstPositive(log: Log, a: Answer)
    requires ValidLog(log) && Comes(log, a)
    ensures forall i | 0 <= i < |a.batch| :: 0 < a.batch[0].ts <= a.batch[i].ts
  {
    assert a.batch[0] in log;
  }

  lemma WireLength(batch: seq<K.Msg>, done: nat)
    requires done <= |batch|
    ensures |Wire(batch[done..])| == |batch| - done
  {
  }

  /** The batch after the chunk, field by field. */
  lemma TakenIs(x: Session, ch: Chunk, a: Answer, done: nat, done': nat)
    requires Upto(ch, a, done) && done <= done' <= |a.batch| && done' - done == D.ChunkLength(ch.remaining)
    requires Wire(a.batch[done..])[..done' - done] == Wire(a.batch[done..done'])
    requires Wire(a.batch[done..])[done' - done..] == Wire(a.batch[done'..])
    ensures var t := D.Fold(D.Tally(x.seen, [], ch.oldest, ch.newest), Wire(a.batch[done..done']));
      var (x', ch') := TakeChunk(x, ch);
      x'.seen == t.seen &&
      ch' == ch.(remaining := Wire(a.batch[done'..]), msgCount := ch'.msgCount, oldest := t.oldest, newest := t.newest)
  {
    hide D.Fold, Wire, FirstRemembered;
  }

  /** What a chunk leaves behind: the session knows the entries worked off, and
      the batch is the same one further along. */
  lemma TakenUpto(log: Log, x: Session, ch: Chunk, a: Answer, done: nat) returns (done': nat)
    requires ValidLog(log) && Comes(log, a) && Upto(ch, a, done)
    ensures var (x', ch') := TakeChunk(x, ch);
      Upto(ch', a, done') && (ch'.remaining == [] <==> done' == |a.batch|) && done <= done' <= |a.batch| &&
      (forall i | done <= i < done' :: Knows(x'.seen, a.batch[i]))
  {
    ComesPlain(log, a);
    WireLength(a.batch, done);
    hide D.Fold, Knows, ValidLog, Comes, TakeChunk, Wire, Sorted;
    done' := done + D.ChunkLength(ch.remaining);
    WireLength(a.batch, done');
    PartOf(log, a.batch, done, done');
    PartTally(log, x.seen, ch, a, done, done');
    TakenIs(x, ch, a, done, done');
    PartIndexed(a.batch, done, done');
  }

  lemma PartIndexed(batch: seq<K.Msg>, done: nat, done': nat)
    requires done <= done' <= |batch|
    ensures forall i | done <= i < done' :: batch[i] in batch[done..done']
  {
    forall i | done <= i < done' ensures batch[i] in batch[done..done'] {
      assert batch[done..done'][i - done] == batch[i];
    }
  }

  lemma ComesPlain(log: Log, a: Answer)
    requires Comes(log, a)
    ensures Sorted(a.batch) && forall b <- a.batch :: b in log
  {
  }

  lemma TakenSame(x: Session, ch: Chunk)
    ensures var (x', ch') := TakeChunk(x, ch);
      SameWalk(x, x') && x'.channel == x.channel &&
      ch' == ch.(remaining := ch'.remaining, msgCount := ch'.msgCount, oldest := ch'.oldest, newest := ch'.newest)
  {
    hide D.Fold, Shaped;
    var n := D.ChunkLength(ch.remaining);
    FoldRemembers(D.Tally(x.seen, [], ch.oldest, ch.newest), ch.remaining[..n]);
  }

  lemma {:induction false} FoldRemembers(t: D.Tally, msgs: seq<D.Message>)
    ensures KnowsMore(t.seen, D.Fold(t, msgs).seen)
    decreases |msgs|
  {
    hide D.DedupKey;
    if msgs != [] {
      FoldRemembers(D.Process(t, msgs[0]), msgs[1..]);
    }
  }

  lemma TakenCalm(st: State, ch: Chunk)
    requires ch.sess in st.sessions
    ensures var (x, ch') := TakeChunk(st.sessions[ch.sess], ch);
      Calm(st, Put(st, ch.sess, x)) && x.channel == st.sessions[ch.sess].channel
  {
    hide TakeChunk, SameWalk, Calm;
    TakenSame(st.sessions[ch.sess], ch);
    var (x, ch') := TakeChunk(st.sessions[ch.sess], ch);
    OneWalksOn(st, Put(st, ch.sess, x), ch.sess, x);
  }

  lemma OriginSame(ch: Chunk, ch': Chunk, a: Answer)
    requires ch' == ch.(remaining := ch'.remaining, msgCount := ch'.msgCount, oldest := ch'.oldest, newest := ch'.newest)
    requires Origin(ch, a)
    ensures Origin(ch', a)
  {
  }

  lemma AllWorkedOff(log: Log, ch: Chunk, a: Answer)
    requires ValidLog(log) && Comes(log, a) && Upto(ch, a, |a.batch|)
    ensures WorkedOff(ch, a)
  {
    ComesPlain(log, a);
    EdgesInTime(a.batch);
    hide ValidLog, Comes, Wire, Sorted, K.Oldest, K.Newest;
  }

  /** What a session of the channel knows counts as stored. */
  lemma KnownIsStored(channel: nat, log: Log, st: State, s: SessionId, m: K.Msg)
    requires s in st.sessions && st.sessions[s].channel == channel && m in log && Knows(st.sessions[s].seen, m)
    ensures m in KnownNow(channel, log, st)
  {
    hide Knows;
  }

  /** Everything the session knew when the batch was finished is stored. */
  lemma FinishStores(env: Env, channel: nat, log: Log, st: State, ch: Chunk, m: K.Msg)
    requires Mine(channel, st.sessions, ch) && m in log && Knows(st.sessions[ch.sess].seen, m)
    ensures m in KnownNow(channel, log, FinishBatch(env, st, ch))
  {
    hide FinishBatch, Knows, Shaped, KnowsMore, KnownNow;
    FinishKeeps(env, st, ch);
    FinishTurns(env, st, ch);
    var st' := FinishBatch(env, st, ch);
    KnowsStill(st.sessions[ch.sess].seen, st'.sessions[ch.sess].seen, m);
    KnownIsStored(channel, log, st', ch.sess, m);
  }

  // ----- a tick -----

  /** A batch is filed further along. */
  lemma FiledOk(log: Log, channel: nat, stored: set<K.Msg>, st: State, answers: map<ChunkId, Answer>, c: ChunkId, ch: Chunk)
    requires StateOk(log, channel, stored, st, answers) && c < st.nextChunk
    requires Mine(channel, st.sessions, ch) ==> c in answers && ChunkOk(log, stored, ch, answers[c])
    ensures StateOk(log, channel, stored, st.(chunks := st.chunks[c := ch]), answers)
  {
    hide ValidLog, G.WellFormed, WalksLinked, ChunkOk;
  }

  lemma PartTickStep(env: Env, st: State, e: Event)
    requires e.Tick? && e.c in st.chunks && st.chunks[e.c].sess in st.sessions
    ensures var (x, ch') := TakeChunk(st.sessions[st.chunks[e.c].sess], st.chunks[e.c]);
      ch'.sess == st.chunks[e.c].sess &&
      var st1 := Put(st, ch'.sess, x);
      Step(env, st, e) == if ch'.remaining != [] then st1.(chunks := st1.chunks[e.c := ch'])
                          else FinishBatch(env, ForgetChunk(st1, e.c), ch')
  {
    hide TakeChunk, FinishBatch, ForgetChunk;
    TakenSame(st.sessions[st.chunks[e.c].sess], st.chunks[e.c]);
  }

  lemma StoresKnown(sc: Scene, stored: set<K.Msg>, st: State, s: SessionId)
    requires s in st.sessions && st.sessions[s].channel == sc.channel && KnownNow(sc.channel, sc.log, st) <= stored
    ensures forall m | m in sc.log && Knows(st.sessions[s].seen, m) :: m in stored
  {
    hide KnownNow, Knows;
    forall m | m in sc.log && Knows(st.sessions[s].seen, m) ensures m in stored {
      KnownIsStored(sc.channel, sc.log, st, s, m);
    }
  }

  lemma PartTickFollows(env: Env, sc: Scene, e: Event)
    requires SceneOk(sc) && e.Tick? && e.c in sc.st.chunks && sc.st.chunks[e.c].sess in sc.st.sessions
    requires TakeChunk(sc.st.sessions[sc.st.chunks[e.c].sess], sc.st.chunks[e.c]).1.remaining != []
    ensures SceneOk(Next(env, sc, e))
  {
    SceneParts(sc);
    hide SceneOk, Step, StateOk, K.LedgerTrue, K.Moved, Next, KnownNow, InsideRows, AnswerOf, TakeChunk, Calm, ChunkOk,
         SameWalk, Knows;
    var ch := sc.st.chunks[e.c];
    var (x, ch') := TakeChunk(sc.st.sessions[ch.sess], ch);
    PartTickStep(env, sc.st, e);
    var st1 := Put(sc.st, ch.sess, x);
    NextParts(env, sc, e);
    var sc' := Next(env, sc, e);
    TakenCalm(sc.st, ch);
    CalmOk(sc.log, sc.channel, sc.stored, sc'.stored, sc.st, st1, sc.answers);
    if Mine(sc.channel, st1.sessions, ch') {
      StoresKnown(sc, sc'.stored, sc'.st, ch.sess);
      PartTickOk(sc, e.c, sc'.stored, x, ch');
    }
    FiledOk(sc.log, sc.channel, sc'.stored, st1, sc.answers, e.c, ch');
    SameRowsFollow(env, sc, e);
  }

  lemma SceneParts(sc: Scene)
    requires SceneOk(sc)
    ensures StateOk(sc.log, sc.channel, sc.stored, sc.st, sc.answers)
    ensures forall c <- sc.st.chunks :: c < sc.st.nextChunk
    ensures ValidLog(sc.log) && OneSession(sc.channel, sc.st.sessions)
  {
    hide ValidLog, G.WellFormed, WalksLinked, K.LedgerTrue, ChunkOk;
  }

  /** A step that moves no row. */
  lemma SameRowsFollow(env: Env, sc: Scene, e: Event)
    requires SceneOk(sc) && Step(env, sc.st, e).gaps == sc.st.gaps
    requires var sc' := Next(env, sc, e); StateOk(sc.log, sc.channel, sc'.stored, sc'.st, sc'.answers)
    ensures SceneOk(Next(env, sc, e))
  {
    hide Step, StateOk, K.LedgerTrue, K.Moved, Next;
    var w := WorldOf(sc).(stored := Next(env, sc, e).stored);
    if K.LedgerTrue(w, sc.owed) {
      NoMoveTrue(w, sc.owed);
    }
    SceneFollows(env, sc, e);
  }

  lemma MineOk(sc: Scene, c: ChunkId)
    requires SceneOk(sc) && c in sc.st.chunks && Mine(sc.channel, sc.st.sessions, sc.st.chunks[c])
    ensures ValidLog(sc.log) && c in sc.answers && ChunkOk(sc.log, sc.stored, sc.st.chunks[c], sc.answers[c])
  {
    hide K.LedgerTrue, WalksLinked, G.WellFormed, ChunkOk;
  }

  lemma PartTickOk(sc: Scene, c: ChunkId, stored: set<K.Msg>, x: Session, ch': Chunk)
    requires SceneOk(sc) && c in sc.st.chunks && Mine(sc.channel, sc.st.sessions, sc.st.chunks[c]) && sc.stored <= stored
    requires (x, ch') == TakeChunk(sc.st.sessions[sc.st.chunks[c].sess], sc.st.chunks[c])
    requires forall m | m in sc.log && Knows(x.seen, m) :: m in stored
    ensures c in sc.answers && ChunkOk(sc.log, stored, ch', sc.answers[c])
  {
    MineOk(sc, c);
    hide SceneOk, TakeChunk, Origin, Upto, Comes, Knows;
    var ch, a := sc.st.chunks[c], sc.answers[c];
    var done: nat :| Upto(ch, a, done) && forall i | 0 <= i < done :: a.batch[i] in sc.stored;
    var done' := TakenUpto(sc.log, sc.st.sessions[ch.sess], ch, a, done);
    TakenSame(sc.st.sessions[ch.sess], ch);
    OriginSame(ch, ch', a);
    ComesPlain(sc.log, a);
  }

  lemma ForgotKnows(st: State, c: ChunkId, s: SessionId)
    requires c in st.chunks && s in st.sessions
    ensures var st' := ForgetChunk(st, c);
      s in st'.sessions && st'.sessions[s].seen == st.sessions[s].seen && st'.sessions[s].channel == st.sessions[s].channel
  {
  }

  /** The last tick: the batch is whole, and what was worked off is stored. */
  lemma LastTickCloses(env: Env, sc: Scene, c: ChunkId, stored: set<K.Msg>, st: State, x: Session, ch': Chunk)
    requires SceneOk(sc) && c in sc.st.chunks && Mine(sc.channel, sc.st.sessions, sc.st.chunks[c]) && sc.stored <= stored
    requires (x, ch') == TakeChunk(sc.st.sessions[sc.st.chunks[c].sess], sc.st.chunks[c]) && ch'.remaining == []
    requires forall m | m in sc.log && Knows(x.seen, m) :: m in stored
    ensures c in sc.answers
    ensures var a := sc.answers[c];
      Comes(sc.log, a) && Origin(ch', a) && WorkedOff(ch', a) && forall b <- a.batch :: b in stored
  {
    PartTickOk(sc, c, stored, x, ch');
    SceneParts(sc);
    hide SceneOk, TakeChunk, Origin, Comes, Knows, WorkedOff, ValidLog;
    var a := sc.answers[c];
    var done: nat :| Upto(ch', a, done) && forall i | 0 <= i < done :: a.batch[i] in stored;
    assert done == |a.batch| by {
      assert |Wire(a.batch[done..])| == |a.batch| - done;
    }
    AllWorkedOff(sc.log, ch', a);
  }

  lemma LastTickFollows(env: Env, sc: Scene, e: Event)
    requires SceneOk(sc) && e.Tick? && e.c in sc.st.chunks && sc.st.chunks[e.c].sess in sc.st.sessions
    requires TakeChunk(sc.st.sessions[sc.st.chunks[e.c].sess], sc.st.chunks[e.c]).1.remaining == []
    requires Safe(env, sc, e)
    ensures SceneOk(Next(env, sc, e))
  {
    SceneParts(sc);
    LastTickSafe(env, sc, e);
    hide SceneOk, Step, StateOk, K.LedgerTrue, K.Moved, Next, KnownNow, InsideRows, TakeChunk, Calm, ChunkOk,
         SameWalk, Knows, FinishBatch, ForgetChunk, SafeClose, Safe, Comes, Origin, WorkedOff, Turn;
    var ch := sc.st.chunks[e.c];
    var (x, ch') := TakeChunk(sc.st.sessions[ch.sess], ch);
    PartTickStep(env, sc.st, e);
    var st1 := Put(sc.st, ch.sess, x);
    var st2 := ForgetChunk(st1, e.c);
    NextParts(env, sc, e);
    var sc' := Next(env, sc, e);
    TakenCalm(sc.st, ch);
    ForgetCalm(st1, e.c);
    CalmThen(sc.st, st1, st2);
    ForgotKnows(st1, e.c, ch.sess);
    CalmOk(sc.log, sc.channel, sc.stored, sc'.stored, sc.st, st2, sc.answers);
    if Mine(sc.channel, st2.sessions, ch') {
      FinishStoresAll(env, sc, sc'.stored, st2, ch');
      LastTickCloses(env, sc, e.c, sc'.stored, st2, x, ch');
    }
    FinishFollows(env, sc, e, st2, ch', AnswerOf(sc, e));
  }

  lemma LastTickSafe(env: Env, sc: Scene, e: Event)
    requires e.Tick? && e.c in sc.st.chunks && sc.st.chunks[e.c].sess in sc.st.sessions && Safe(env, sc, e)
    requires TakeChunk(sc.st.sessions[sc.st.chunks[e.c].sess], sc.st.chunks[e.c]).1.remaining == []
    ensures var (x, ch') := TakeChunk(sc.st.sessions[sc.st.chunks[e.c].sess], sc.st.chunks[e.c]);
      var st2 := ForgetChunk(Put(sc.st, ch'.sess, x), e.c);
      ch'.sess in st2.sessions && SafeClose(sc.log, sc.channel, env, st2, ch', AnswerOf(sc, e))
    ensures e.c in sc.answers ==> AnswerOf(sc, e) == sc.answers[e.c]
  {
    hide SafeClose, TakeChunk;
    TakenSame(sc.st.sessions[sc.st.chunks[e.c].sess], sc.st.chunks[e.c]);
  }

  lemma FinishStoresAll(env: Env, sc: Scene, stored: set<K.Msg>, st: State, ch: Chunk)
    requires Mine(sc.channel, st.sessions, ch) && KnownNow(sc.channel, sc.log, FinishBatch(env, st, ch)) <= stored
    ensures forall m | m in sc.log && Knows(st.sessions[ch.sess].seen, m) :: m in stored
  {
    hide FinishBatch, KnownNow, Knows;
    forall m | m in sc.log && Knows(st.sessions[ch.sess].seen, m) ensures m in stored {
      FinishStores(env, sc.channel, sc.log, st, ch, m);
    }
  }

  /** A step that ends with finishing a batch in a state that is in order. */
  lemma FinishFollows(env: Env, sc: Scene, e: Event, st: State, ch: Chunk, a: Answer)
    requires SceneOk(sc) && st.gaps == sc.st.gaps
    requires var sc' := Next(env, sc, e);
      StateOk(sc.log, sc.channel, sc'.stored, st, sc'.answers) && Closes(sc.log, sc.channel, sc'.stored, env, st, ch, a) &&
      Step(env, sc.st, e) == FinishBatch(env, st, ch)
    ensures SceneOk(Next(env, sc, e))
  {
    assert sc.owed <= History(sc.log);
    NextParts(env, sc, e);
    hide SceneOk, Step, FinishBatch, StateOk, Closes, K.LedgerTrue, K.Moved, Next, KnownNow, InsideRows, AnswerOf, BringsBatch;
    var sc' := Next(env, sc, e);
    FinishOk(sc.log, sc.channel, sc'.stored, env, st, ch, a, sc'.answers);
    var w := WorldOf(sc).(stored := sc'.stored);
    if K.LedgerTrue(w, sc.owed) {
      FinishTrue(env, st, ch, a, sc'.answers, sc.log, w, sc.owed);
    }
    SceneFollows(env, sc, e);
  }

  // ----- a batch arrives -----

  /** A batch of plain entries in the order of time, before any is worked off. */
  lemma NewUpto(log: Log, st: State, s: SessionId, msgs: seq<D.Message>, ended: bool, isCatchup: bool,
                unsolicited: bool, owned: bool, gapId: int, gapDir: int, a: Answer)
    requires s in st.sessions && Plain(log, msgs) && msgs != [] && a.batch == Entries(SortByTime(msgs))
    ensures Upto(NewChunk(st, s, msgs, ended, isCatchup, unsolicited, owned, gapId, gapDir), a, 0)
    ensures Sorted(a.batch) && (forall b <- a.batch :: b in log) && a.batch != []
  {
    hide SortByTime, CursorMsgids, D.RawCount, Plain, Sorted;
    SortedPlain(log, msgs);
    WireOfEntries(log, SortByTime(msgs));
    WireCounts(a.batch);
    assert a.batch[0..] == a.batch;
  }

  lemma SlicedInOrder(log: Log, lo: nat, hi: nat)
    requires ValidLog(log) && lo < hi <= |log|
    ensures Entries(SortByTime(Wire(log[lo..hi]))) == log[lo..hi]
  {
    hide SortByTime, Entries;
    SortedStays(Wire(log[lo..hi]));
    EntriesOfWire(log[lo..hi]);
  }

  lemma TruthfulComes(log: Log, st: State, x: Session, nested: bool, msgs: seq<D.Message>)
    requires ValidLog(log) && Truthful(log, st, x, nested, msgs) && msgs != []
    requires var batch := AnswerFrom(st, x, nested, msgs).batch;
      Sorted(batch) && (forall b <- batch :: b in log) && batch != []
    ensures Comes(log, AnswerFrom(st, x, nested, msgs))
  {
    hide SortByTime, EffectiveLimit, ValidLog, Plain, Wire, Entries, UpTo, Beyond, ServesBetween;
    var a := AnswerFrom(st, x, nested, msgs);
    if a.asked.Some? {
      var lo: nat, hi: nat :| SentAs(log, a.asked.value, a.limit, a.until, msgs, lo, hi);
      SlicedInOrder(log, lo, hi);
      assert Slice(log, a, lo, hi);
    }
  }

  /** The batch as it arrives: what it is filed as, and where it comes from. */
  lemma ArrivalOk(env: Env, log: Log, st: State, s: SessionId, nested: bool, msgs: seq<D.Message>, ended: bool)
    requires s in st.sessions && ValidLog(log) && msgs != [] && Truthful(log, st, st.sessions[s], nested, msgs)
    requires Shaped(st.sessions[s].queue)
    ensures var (st1, ch) := Arrival(env, st, s, nested, msgs, ended);
      var a := AnswerFrom(st, st.sessions[s], nested, msgs);
      Comes(log, a) && Origin(ch, a) && Upto(ch, a, 0) && ch.sess == s
  {
    hide SortByTime, CursorMsgids, D.RawCount, ValidLog, Truthful, Plain, Upto, Comes, Adopt, Adoptable, EffectiveLimit, Entries;
    var x := st.sessions[s];
    var adopted := Unsolicited(x, nested) && Adoptable(env, st, x);
    var a := AnswerFrom(st, x, nested, msgs);
    var (st1, ch) := Arrival(env, st, s, nested, msgs, ended);
    assert Plain(log, msgs) by {
      TruthfulPlain(log, st, x, nested, msgs);
    }
    AdoptHas(env, st, s);
    var active := x.queue.active;
    var gapId := if active.Some? && !nested then active.value.gapId else 0;
    NewUpto(log, st1, s, msgs, ended, ch.isCatchup, ch.unsolicited, ch.latestOwned, ch.gapId, ch.gapDir, a);
    TruthfulComes(log, st, x, nested, msgs);
  }

  lemma TruthfulPlain(log: Log, st: State, x: Session, nested: bool, msgs: seq<D.Message>)
    requires Truthful(log, st, x, nested, msgs)
    ensures Plain(log, msgs)
  {
  }

  lemma AdoptHas(env: Env, st: State, s: SessionId)
    requires s in st.sessions
    ensures s in Adopt(env, st, s).sessions
  {
  }

  lemma ArrivalCalm(env: Env, st: State, e: Event)
    requires BringsBatch(st, e)
    ensures var (st1, ch) := Arrival(env, Arriving(st, e), e.s, e.Replay?, e.msgs, e.ended);
      Calm(st, st1) && ch.sess == e.s && st1.gaps == st.gaps && st1.nextChunk == st.nextChunk &&
      e.s in st1.sessions && st1.sessions[e.s].channel == st.sessions[e.s].channel
  {
    hide Calm, Adopt, Adoptable, NewChunk;
    var st0 := Arriving(st, e);
    AnsweredCalm(st, e.s);
    Still(st);
    AdoptCalm(env, st0, e.s);
    AdoptSame(env, st0, e.s);
    CalmThen(st, st0, Adopt(env, st0, e.s));
  }

  lemma AdoptSame(env: Env, st: State, s: SessionId)
    requires s in st.sessions
    ensures var st1 := Adopt(env, st, s);
      s in st1.sessions && st1.sessions[s].channel == st.sessions[s].channel && st1.gaps == st.gaps && st1.nextChunk == st.nextChunk
  {
  }

  lemma ArrivalStep(env: Env, st: State, e: Event)
    requires BringsBatch(st, e)
    ensures var (st1, ch) := Arrival(env, Arriving(st, e), e.s, e.Replay?, e.msgs, e.ended);
      ch.sess in st1.sessions && Step(env, st, e) == StartBatch(env, st1, ch)
  {
    hide ProcessBatch, StartBatch, Arrival;
    ArrivalStarts(env, Arriving(st, e), e.s, e.Replay?, e.msgs, e.ended);
  }

  lemma ArrivingSame(sc: Scene, e: Event)
    requires BringsBatch(sc.st, e)
    ensures var st0 := Arriving(sc.st, e);
      e.s in st0.sessions && st0.sessions[e.s].queue == sc.st.sessions[e.s].queue &&
      AnswerFrom(st0, st0.sessions[e.s], e.Replay?, e.msgs) == AnswerOf(sc, e) &&
      (Truthful(sc.log, sc.st, sc.st.sessions[e.s], e.Replay?, e.msgs) ==>
       Truthful(sc.log, st0, st0.sessions[e.s], e.Replay?, e.msgs))
  {
    hide SortByTime, Plain, Serves, Entries;
  }

  /** A batch of the channel arrives: where it comes from is known. */
  lemma ArrivedMine(env: Env, sc: Scene, e: Event)
    requires SceneOk(sc) && BringsBatch(sc.st, e) && Honest(sc, e) && sc.st.sessions[e.s].channel == sc.channel
    ensures var (st1, ch) := Arrival(env, Arriving(sc.st, e), e.s, e.Replay?, e.msgs, e.ended);
      var a := AnswerOf(sc, e);
      Comes(sc.log, a) && Origin(ch, a) && Upto(ch, a, 0)
  {
    MineShaped(sc, e.s);
    ArrivingSame(sc, e);
    hide SceneOk, Arrival, AnswerFrom, AnswerOf, Arriving, Comes, Origin, Upto, Truthful, Shaped, ValidLog;
    ArrivalOk(env, sc.log, Arriving(sc.st, e), e.s, e.Replay?, e.msgs, e.ended);
  }

  lemma MineShaped(sc: Scene, s: SessionId)
    requires SceneOk(sc) && s in sc.st.sessions && sc.st.sessions[s].channel == sc.channel
    ensures Shaped(sc.st.sessions[s].queue) && ValidLog(sc.log)
  {
    hide Shaped, ValidLog, Linked, G.WellFormed, ChunksOk, K.LedgerTrue;
  }

  /** Another answer is noted for the next batch id. */
  lemma NotedOk(log: Log, channel: nat, stored: set<K.Msg>, st: State, answers: map<ChunkId, Answer>, a: Answer)
    requires StateOk(log, channel, stored, st, answers)
    ensures StateOk(log, channel, stored, st, answers[st.nextChunk := a])
  {
    hide ValidLog, G.WellFormed, WalksLinked, ChunkOk, Mine;
  }

  lemma ArrivedOk(env: Env, sc: Scene, e: Event, stored: set<K.Msg>)
    requires SceneOk(sc) && BringsBatch(sc.st, e) && sc.stored <= stored
    ensures var (st1, ch) := Arrival(env, Arriving(sc.st, e), e.s, e.Replay?, e.msgs, e.ended);
      StateOk(sc.log, sc.channel, stored, st1, sc.answers[sc.st.nextChunk := AnswerOf(sc, e)])
  {
    SceneParts(sc);
    ArrivalCalm(env, sc.st, e);
    hide SceneOk, StateOk, Calm, Arrival, Arriving, AnswerOf;
    var (st1, ch) := Arrival(env, Arriving(sc.st, e), e.s, e.Replay?, e.msgs, e.ended);
    CalmOk(sc.log, sc.channel, sc.stored, stored, sc.st, st1, sc.answers);
    NotedOk(sc.log, sc.channel, stored, st1, sc.answers, AnswerOf(sc, e));
  }

  lemma SmallStart(env: Env, st: State, ch: Chunk)
    requires ch.sess in st.sessions
    ensures var (x, ch') := TakeChunk(st.sessions[ch.sess], ch);
      ch'.sess == ch.sess &&
      StartBatch(env, st, ch) ==
        if ch.rawCount <= D.CHUNK_SIZE then FinishBatch(env, Put(st, ch.sess, x), ch')
        else Put(st, ch.sess, st.sessions[ch.sess].(chunk := Some(st.nextChunk)))
             .(chunks := st.chunks[st.nextChunk := ch], nextChunk := st.nextChunk + 1)
  {
    hide TakeChunk, FinishBatch;
    TakenSame(st.sessions[ch.sess], ch);
  }

  /** A small batch is whole after one chunk. */
  lemma SmallIsWhole(log: Log, x: Session, ch: Chunk, a: Answer, stored: set<K.Msg>)
    requires ValidLog(log) && Comes(log, a) && Origin(ch, a) && Upto(ch, a, 0) && ch.rawCount <= D.CHUNK_SIZE
    requires forall m | m in log && Knows(TakeChunk(x, ch).0.seen, m) :: m in stored
    ensures var ch' := TakeChunk(x, ch).1; Origin(ch', a) && WorkedOff(ch', a)
    ensures forall b <- a.batch :: b in stored
  {
    TakesAll(x, ch, a);
    var done := TakenUpto(log, x, ch, a, 0);
    TakenSame(x, ch);
    ComesPlain(log, a);
    hide TakeChunk, Knows, Comes, Origin, ValidLog, WorkedOff, Upto;
    var ch' := TakeChunk(x, ch).1;
    OriginSame(ch, ch', a);
    AllWorkedOff(log, ch', a);
  }

  lemma TakesAll(x: Session, ch: Chunk, a: Answer)
    requires Upto(ch, a, 0) && ch.rawCount <= D.CHUNK_SIZE
    ensures TakeChunk(x, ch).1.remaining == []
  {
    hide D.Fold;
    assert |Wire(a.batch[0..])| == |a.batch|;
  }

  /** What a small batch is finished as. */
  lemma SmallFinishing(env: Env, st: State, e: Event)
    requires BringsBatch(st, e)
    ensures var (st1, ch) := Arrival(env, Arriving(st, e), e.s, e.Replay?, e.msgs, e.ended);
      ch.sess == e.s && e.s in st1.sessions &&
      (ch.rawCount <= D.CHUNK_SIZE ==>
       var (x, ch') := TakeChunk(st1.sessions[e.s], ch); Finishing(env, st, e) == Some((Put(st1, e.s, x), ch')))
  {
    ArrivalCalm(env, st, e);
    hide TakeChunk, Arrival, Arriving, BringsBatch, Calm, ForgetChunk;
  }

  lemma SmallSafe(env: Env, sc: Scene, e: Event)
    requires BringsBatch(sc.st, e) && Safe(env, sc, e)
    ensures var (st1, ch) := Arrival(env, Arriving(sc.st, e), e.s, e.Replay?, e.msgs, e.ended);
      ch.sess in st1.sessions &&
      var (x, ch') := TakeChunk(st1.sessions[ch.sess], ch);
      ch.rawCount <= D.CHUNK_SIZE ==>
        ch'.sess == ch.sess && SafeClose(sc.log, sc.channel, env, Put(st1, ch.sess, x), ch', AnswerOf(sc, e))
  {
    SmallFinishing(env, sc.st, e);
    hide SafeClose, TakeChunk, Arrival, AnswerOf, BringsBatch, Arriving, Finishing;
    var (st1, ch) := Arrival(env, Arriving(sc.st, e), e.s, e.Replay?, e.msgs, e.ended);
    TakenSame(st1.sessions[ch.sess], ch);
  }

  lemma SmallFollows(env: Env, sc: Scene, e: Event)
    requires SceneOk(sc) && BringsBatch(sc.st, e) && Honest(sc, e) && Safe(env, sc, e)
    requires Arrival(env, Arriving(sc.st, e), e.s, e.Replay?, e.msgs, e.ended).1.rawCount <= D.CHUNK_SIZE
    ensures SceneOk(Next(env, sc, e))
  {
    SceneParts(sc);
    ArrivalCalm(env, sc.st, e);
    ArrivalStep(env, sc.st, e);
    SmallSafe(env, sc, e);
    hide SceneOk, StateOk, Step, StartBatch, FinishBatch, TakeChunk, Calm, Next, KnownNow, Arrival, Arriving, AnswerOf,
         SafeClose, Safe, Honest, Comes, Origin, Upto, WorkedOff, Knows, BringsBatch, ValidLog, SameWalk, OneSession, K.LedgerTrue;
    var (st1, ch) := Arrival(env, Arriving(sc.st, e), e.s, e.Replay?, e.msgs, e.ended);
    var (x, ch') := TakeChunk(st1.sessions[ch.sess], ch);
    var st2 := Put(st1, ch.sess, x);
    var a := AnswerOf(sc, e);
    NextParts(env, sc, e);
    var sc' := Next(env, sc, e);
    SmallStart(env, st1, ch);
    ArrivedOk(env, sc, e, sc'.stored);
    TakenCalm(st1, ch);
    CalmOk(sc.log, sc.channel, sc'.stored, sc'.stored, st1, st2, sc'.answers);
    if Mine(sc.channel, st2.sessions, ch') {
      ArrivedMine(env, sc, e);
      FinishStoresAll(env, sc, sc'.stored, st2, ch');
      SmallIsWhole(sc.log, st1.sessions[ch.sess], ch, a, sc'.stored);
    }
    FinishFollows(env, sc, e, st2, ch', a);
  }

  lemma PointedCalm(st: State, s: SessionId)
    requires s in st.sessions
    ensures Calm(st, Put(st, s, st.sessions[s].(chunk := Some(st.nextChunk))))
  {
    hide Calm, SameWalk;
    var x := st.sessions[s].(chunk := Some(st.nextChunk));
    LoopWalks(st.sessions[s], x);
    OneWalksOn(st, Put(st, s, x), s, x);
  }

  /** A large batch is filed under the next id. */
  lemma FiledNext(log: Log, channel: nat, stored: set<K.Msg>, st: State, answers: map<ChunkId, Answer>, ch: Chunk)
    requires StateOk(log, channel, stored, st, answers)
    requires Mine(channel, st.sessions, ch) ==> st.nextChunk in answers && ChunkOk(log, stored, ch, answers[st.nextChunk])
    ensures StateOk(log, channel, stored, st.(chunks := st.chunks[st.nextChunk := ch], nextChunk := st.nextChunk + 1), answers)
  {
    hide ValidLog, G.WellFormed, WalksLinked, ChunkOk, Mine;
  }

  /** The state after a large batch was filed. */
  function Filed(st: State, ch: Chunk): State
    requires ch.sess in st.sessions
  {
    Put(st, ch.sess, st.sessions[ch.sess].(chunk := Some(st.nextChunk)))
    .(chunks := st.chunks[st.nextChunk := ch], nextChunk := st.nextChunk + 1)
  }

  lemma FiledStateOk(log: Log, channel: nat, stored: set<K.Msg>, st: State, answers: map<ChunkId, Answer>, ch: Chunk)
    requires StateOk(log, channel, stored, st, answers) && ch.sess in st.sessions
    requires Mine(channel, st.sessions, ch) ==> st.nextChunk in answers && ChunkOk(log, stored, ch, answers[st.nextChunk])
    ensures StateOk(log, channel, stored, Filed(st, ch), answers)
  {
    hide StateOk, ChunkOk, Calm;
    PointedCalm(st, ch.sess);
    var st1 := Put(st, ch.sess, st.sessions[ch.sess].(chunk := Some(st.nextChunk)));
    CalmOk(log, channel, stored, stored, st, st1, answers);
    FiledNext(log, channel, stored, st1, answers, ch);
  }

  lemma NewIsOk(log: Log, stored: set<K.Msg>, ch: Chunk, a: Answer)
    requires Comes(log, a) && Origin(ch, a) && Upto(ch, a, 0)
    ensures ChunkOk(log, stored, ch, a)
  {
    hide Comes, Origin, Upto;
  }

  lemma LargeStep(env: Env, st: State, e: Event)
    requires BringsBatch(st, e)
    requires Arrival(env, Arriving(st, e), e.s, e.Replay?, e.msgs, e.ended).1.rawCount > D.CHUNK_SIZE
    ensures var (st1, ch) := Arrival(env, Arriving(st, e), e.s, e.Replay?, e.msgs, e.ended);
      ch.sess in st1.sessions && Step(env, st, e) == Filed(st1, ch) && st1.gaps == st.gaps && st1.nextChunk == st.nextChunk
  {
    ArrivalCalm(env, st, e);
    ArrivalStep(env, st, e);
    hide Step, StartBatch, TakeChunk, FinishBatch, Arrival, Arriving, Calm;
    var (st1, ch) := Arrival(env, Arriving(st, e), e.s, e.Replay?, e.msgs, e.ended);
    SmallStart(env, st1, ch);
  }

  lemma LargeFollows(env: Env, sc: Scene, e: Event)
    requires SceneOk(sc) && BringsBatch(sc.st, e) && Honest(sc, e)
    requires Arrival(env, Arriving(sc.st, e), e.s, e.Replay?, e.msgs, e.ended).1.rawCount > D.CHUNK_SIZE
    ensures SceneOk(Next(env, sc, e))
  {
    LargeStep(env, sc.st, e);
    ArrivalCalm(env, sc.st, e);
    NextParts(env, sc, e);
    hide SceneOk, StateOk, Step, Calm, Next, KnownNow, Arrival, Arriving, AnswerOf, Honest, Comes, Origin, Upto, BringsBatch,
         ChunkOk, InsideRows;
    var (st1, ch) := Arrival(env, Arriving(sc.st, e), e.s, e.Replay?, e.msgs, e.ended);
    var sc' := Next(env, sc, e);
    ArrivedOk(env, sc, e, sc'.stored);
    if Mine(sc.channel, st1.sessions, ch) {
      ArrivedMine(env, sc, e);
      NewIsOk(sc.log, sc'.stored, ch, AnswerOf(sc, e));
    }
    FiledStateOk(sc.log, sc.channel, sc'.stored, st1, sc'.answers, ch);
    SameRowsFollow(env, sc, e);
  }

  // ----- every run -----

  lemma GoneTickCalm(env: Env, st: State, e: Event)
    requires e.Tick? && (e.c !in st.chunks || st.chunks[e.c].sess !in st.sessions)
    ensures Calm(st, Step(env, st, e))
  {
    hide Calm, ForgetChunk, ReleaseSlot;
    Still(st);
    if e.c in st.chunks {
      GoneCalm(st, e.c);
    }
  }

  /** One event keeps the scene in order: the ledger is true, the walk of the
      channel's session is linked to its row, and the batches being worked off
      are what the server sent. */
  lemma StepKeepsScene(env: Env, sc: Scene, e: Event)
    requires SceneOk(sc) && Honest(sc, e) && Safe(env, sc, e)
    ensures SceneOk(Next(env, sc, e))
  {
    hide SceneOk, Honest, Safe, Next, Step, Calm, TakeChunk, Arrival;
    if BringsBatch(sc.st, e) {
      if Arrival(env, Arriving(sc.st, e), e.s, e.Replay?, e.msgs, e.ended).1.rawCount <= D.CHUNK_SIZE {
        SmallFollows(env, sc, e);
      } else {
        LargeFollows(env, sc, e);
      }
    } else if e.Tick? {
      if e.c !in sc.st.chunks || sc.st.chunks[e.c].sess !in sc.st.sessions {
        GoneTickCalm(env, sc.st, e);
        CalmFollows(env, sc, e);
      } else if TakeChunk(sc.st.sessions[sc.st.chunks[e.c].sess], sc.st.chunks[e.c]).1.remaining != [] {
        PartTickFollows(env, sc, e);
      } else {
        LastTickFollows(env, sc, e);
      }
    } else if e.Open? {
      OpenFollows(env, sc, e);
    } else {
      WordlessCalm(env, sc.st, e);
      CalmFollows(env, sc, e);
    }
  }

  /** Every batch of the run tells the truth and is safe to close. */
  ghost predicate GoodRun(sc: Scene, run: seq<Input>)
    decreases |run|
  {
    run == [] ||
    (Honest(sc, run[0].event) && Safe(run[0].env, sc, run[0].event) &&
     GoodRun(Next(run[0].env, sc, run[0].event), run[1..]))
  }

  function AfterScenes(sc: Scene, run: seq<Input>): Scene
    decreases |run|
  {
    if run == [] then sc else AfterScenes(Next(run[0].env, sc, run[0].event), run[1..])
  }

  /** The scene goes along with the engine's own run. */
  lemma {:induction false} ScenesFollowRun(sc: Scene, run: seq<Input>)
    ensures AfterScenes(sc, run).st == AfterRun(sc.st, run)
    ensures sc.owed <= AfterScenes(sc, run).owed
    ensures AfterScenes(sc, run).channel == sc.channel && AfterScenes(sc, run).log == sc.log
    ensures InsideRows(sc.channel, sc.log, sc.st.gaps) <= sc.owed ==>
            InsideRows(sc.channel, sc.log, AfterRun(sc.st, run).gaps) <= AfterScenes(sc, run).owed
    decreases |run|
  {
    hide Step, Next, InsideRows, KnownNow, AnswerOf, BringsBatch;
    if run != [] {
      NextParts(run[0].env, sc, run[0].event);
      ScenesFollowRun(Next(run[0].env, sc, run[0].event), run[1..]);
    }
  }

  /** A scene in order stays in order, whatever good run follows. */
  lemma {:induction false} RunKeepsScene(sc: Scene, run: seq<Input>)
    requires SceneOk(sc) && GoodRun(sc, run)
    ensures SceneOk(AfterScenes(sc, run))
    decreases |run|
  {
    hide Step, Next, SceneOk, Honest, Safe;
    if run != [] {
      StepKeepsScene(run[0].env, sc, run[0].event);
      RunKeepsScene(Next(run[0].env, sc, run[0].event), run[1..]);
    }
  }

  lemma SceneTrue(sc: Scene)
    requires SceneOk(sc)
    ensures (forall m <- sc.owed :: K.Accounted(WorldOf(sc), m)) && forall g <- sc.st.gaps :: g.start < g.end
  {
    hide StateOk, K.Accounted;
    assert StateOk(sc.log, sc.channel, sc.stored, sc.st, sc.answers);
    StateWellFormed(sc);
  }

  lemma StateWellFormed(sc: Scene)
    requires StateOk(sc.log, sc.channel, sc.stored, sc.st, sc.answers)
    ensures forall g <- sc.st.gaps :: g.start < g.end
  {
    hide ValidLog, WalksLinked, ChunksOk;
  }

  lemma {:induction false} OwedGrows(sc: Scene, early: seq<Input>, late: seq<Input>)
    ensures AfterScenes(sc, early).owed <= AfterScenes(sc, early + late).owed
    decreases |early|
  {
    hide Next;
    if early == [] {
      assert early + late == late;
      ScenesFollowRun(sc, late);
    } else {
      assert (early + late)[1..] == early[1..] + late;
      OwedGrows(Next(early[0].env, sc, early[0].event), early[1..], late);
    }
  }

  /** Over every run of the engine against a server that keeps the channel's
      history, with any split of it: an entry strictly inside a row of the
      channel at the split is, at the end, known to a session of the channel,
      or shares its second with the bound its own row was given, or lies
      strictly inside a row still; and no row's bounds ever cross. */
  lemma LedgerStaysTrue(st: State, channel: nat, log: Log, early: seq<Input>, late: seq<Input>, m: K.Msg)
    requires Begins(st, channel) && ValidLog(log) && GoodRun(FirstScene(st, channel, log), early + late)
    requires m in log && G.CoversTime(AfterRun(st, early).gaps, channel, m.ts)
    ensures var sc := AfterScenes(FirstScene(st, channel, log), early + late);
      sc.st == AfterRun(st, early + late) && (m in sc.stored || m in sc.tied || G.CoversTime(sc.st.gaps, channel, m.ts)) &&
      forall g <- sc.st.gaps :: g.start < g.end
  {
    hide Begins, SceneOk, GoodRun, Next, Step, KnownNow, G.CoversTime;
    var sc := FirstScene(st, channel, log);
    FirstSceneOk(st, channel, log);
    ScenesFollowRun(sc, early);
    assert m in InsideRows(channel, log, AfterRun(st, early).gaps);
    OwedGrows(sc, early, late);
    ScenesFollowRun(sc, early + late);
    RunKeepsScene(sc, early + late);
    SceneTrue(AfterScenes(sc, early + late));
  }
}
