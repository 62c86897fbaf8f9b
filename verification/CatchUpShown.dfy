/**
 Shown once, over runs of the engine: batches may arrive, be worked off side by
 side, tick by tick, and be interleaved with anything else.
 */
module CatchUpShown {
  import opened Wrappers
  import opened RequestQueue
  import opened CatchUp
  import opened CatchUpCalm
  import opened CatchUpClosing
  import opened CatchUpLedger
  import opened ServerLog
  import D = Dedup

  /** The session state, the session and the batch that a chunk is taken from
      in this event. */
  function Taking(env: Env, st: State, e: Event): Option<(State, Chunk)>
    ensures Taking(env, st, e).Some? ==> Taking(env, st, e).value.1.sess in Taking(env, st, e).value.0.sessions
  {
    if BringsBatch(st, e) then
      var (st1, ch) := Arrival(env, Arriving(st, e), e.s, e.Replay?, e.msgs, e.ended);
      if ch.rawCount <= D.CHUNK_SIZE then Some((st1, ch)) else None
    else if e.Tick? && e.c in st.chunks && st.chunks[e.c].sess in st.sessions then Some((st, st.chunks[e.c]))
    else None
  }

  /** What taking a chunk shows. */
  function Shown(x: Session, ch: Chunk): seq<D.Message> {
    D.Fold(D.Tally(x.seen, [], ch.oldest, ch.newest), ch.remaining[..D.ChunkLength(ch.remaining)]).shown
  }

  /** What the event shows in session `s`. */
  function ShownBy(env: Env, st: State, e: Event, s: SessionId): seq<D.Message> {
    var t := Taking(env, st, e);
    if t.Some? && t.value.1.sess == s then Shown(t.value.0.sessions[s], t.value.1) else []
  }

  /** What a run shows in session `s`, in order. */
  function ShownLog(st: State, run: seq<Input>, s: SessionId): seq<D.Message>
    decreases |run|
  {
    if run == [] then []
    else ShownBy(run[0].env, st, run[0].event, s) + ShownLog(Step(run[0].env, st, run[0].event), run[1..], s)
  }

  /** The session is open throughout. */
  predicate StaysOpen(st: State, run: seq<Input>, s: SessionId)
    decreases |run|
  {
    s in st.sessions && (run == [] || StaysOpen(Step(run[0].env, st, run[0].event), run[1..], s))
  }

  // ----- one chunk -----

  /** None of these has a key of the table. */
  predicate New(log: seq<D.Message>, known: set<string>) {
    forall m <- log | D.Keyed(m) :: D.DedupKey(m.msgid.value, m.ts) !in known
  }

  predicate Kept(log: seq<D.Message>, known: set<string>) {
    forall m <- log | D.Keyed(m) :: D.DedupKey(m.msgid.value, m.ts) in known
  }

  lemma ProcessShowsNew(t: D.Tally, m: D.Message, known: set<string>)
    requires New(t.shown, known) && known <= t.seen.known
    ensures New(D.Process(t, m).shown, known) && known <= D.Process(t, m).seen.known
  {
    hide D.DedupKey;
  }

  lemma {:induction false} FoldShowsNew(t: D.Tally, msgs: seq<D.Message>, known: set<string>)
    requires New(t.shown, known) && known <= t.seen.known
    ensures New(D.Fold(t, msgs).shown, known)
    decreases |msgs|
  {
    hide D.Process, New;
    if msgs != [] {
      ProcessShowsNew(t, msgs[0], known);
      FoldShowsNew(D.Process(t, msgs[0]), msgs[1..], known);
    }
  }

  lemma ChunkShowsOnce(x: Session, ch: Chunk)
    ensures D.NoRepeat(Shown(x, ch)) && New(Shown(x, ch), x.seen.known) && Kept(Shown(x, ch), TakeChunk(x, ch).0.seen.known)
    ensures KnowsMore(x.seen, TakeChunk(x, ch).0.seen)
  {
    hide D.Fold;
    var msgs := ch.remaining[..D.ChunkLength(ch.remaining)];
    var t := D.Tally(x.seen, [], ch.oldest, ch.newest);
    D.FoldShowsOnce(t, msgs);
    FoldShowsNew(t, msgs, x.seen.known);
    FoldRemembers(t, msgs);
  }

  // ----- one event -----

  lemma CalmKnows(st: State, st': State, s: SessionId)
    requires Calm(st, st') && s in st.sessions && s in st'.sessions
    ensures KnowsMore(st.sessions[s].seen, st'.sessions[s].seen)
  {
    hide Shaped, KnowsMore;
    assert SameWalk(st.sessions[s], st'.sessions[s]);
  }

  lemma TurnKnows(st: State, st': State, t: SessionId, s: SessionId)
    requires Turn(st, st', t) && s in st.sessions && s in st'.sessions
    ensures KnowsMore(st.sessions[s].seen, st'.sessions[s].seen)
  {
    hide Shaped, KnowsMore;
  }

  /** What a chunk left in its session, the rest of the event keeps. */
  ghost predicate TakenOn(st: State, ch: Chunk, st': State, s: SessionId) {
    ch.sess in st.sessions && s in st.sessions && s in st'.sessions &&
    KnowsMore(if s == ch.sess then TakeChunk(st.sessions[s], ch).0.seen else st.sessions[s].seen, st'.sessions[s].seen)
  }

  lemma SmallTakenOn(env: Env, st: State, ch: Chunk, s: SessionId)
    requires ch.sess in st.sessions && ch.rawCount <= D.CHUNK_SIZE && s in st.sessions && s in StartBatch(env, st, ch).sessions
    ensures TakenOn(st, ch, StartBatch(env, st, ch), s)
  {
    SmallStart(env, st, ch);
    hide StartBatch, TakeChunk, FinishBatch, Turn, KnowsMore;
    var (x, ch') := TakeChunk(st.sessions[ch.sess], ch);
    var st1 := Put(st, ch.sess, x);
    FinishTurns(env, st1, ch');
    TurnKnows(st1, FinishBatch(env, st1, ch'), ch.sess, s);
  }

  lemma TickTakenOn(env: Env, st: State, e: Event, s: SessionId)
    requires e.Tick? && e.c in st.chunks && st.chunks[e.c].sess in st.sessions
    requires s in st.sessions && s in Step(env, st, e).sessions
    ensures TakenOn(st, st.chunks[e.c], Step(env, st, e), s)
  {
    PartTickStep(env, st, e);
    hide Step, TakeChunk, FinishBatch, ForgetChunk, Turn, KnowsMore, Calm;
    var (x, ch') := TakeChunk(st.sessions[st.chunks[e.c].sess], st.chunks[e.c]);
    var st1 := Put(st, ch'.sess, x);
    if ch'.remaining != [] {
      KnowsItself(st1.sessions[s].seen);
    } else {
      var st2 := ForgetChunk(st1, e.c);
      ForgotKnows(st1, e.c, s);
      ForgotKnows(st1, e.c, ch'.sess);
      FinishTurns(env, st2, ch');
      TurnKnows(st2, FinishBatch(env, st2, ch'), ch'.sess, s);
    }
  }

  lemma KnowsItself(seen: D.Seen)
    ensures KnowsMore(seen, seen)
  {
  }

  lemma FiledKnows(st: State, ch: Chunk, s: SessionId)
    requires ch.sess in st.sessions && s in st.sessions
    ensures s in Filed(st, ch).sessions && Filed(st, ch).sessions[s].seen == st.sessions[s].seen
  {
  }

  /** An event with no chunk taken forgets nothing. */
  lemma QuietKnows(env: Env, st: State, e: Event, s: SessionId)
    requires Taking(env, st, e).None? && s in st.sessions && s in Step(env, st, e).sessions
    ensures KnowsMore(st.sessions[s].seen, Step(env, st, e).sessions[s].seen)
  {
    if BringsBatch(st, e) {
      ArrivalCalm(env, st, e);
      LargeStep(env, st, e);
      hide Step, Arrival, Arriving, Calm, KnowsMore, BringsBatch;
      var (st1, ch) := Arrival(env, Arriving(st, e), e.s, e.Replay?, e.msgs, e.ended);
      LargeKeepsSession(st1, ch, s);
      CalmKnows(st, st1, s);
      FiledKnows(st1, ch, s);
    } else if e.Tick? {
      GoneTickCalm(env, st, e);
      hide Step, Calm, KnowsMore;
      CalmKnows(st, Step(env, st, e), s);
    } else if e.Open? {
      KnowsItself(st.sessions[s].seen);
    } else {
      WordlessCalm(env, st, e);
      hide Step, Calm, KnowsMore;
      CalmKnows(st, Step(env, st, e), s);
    }
  }

  lemma LargeKeepsSession(st: State, ch: Chunk, s: SessionId)
    requires ch.sess in st.sessions && s in Filed(st, ch).sessions
    ensures s in st.sessions
  {
  }

  /** One event shows nothing twice, nothing whose key is in the table, and
      leaves the keys of what it shows there. */
  lemma EventShowsOnce(env: Env, st: State, e: Event, s: SessionId)
    requires s in st.sessions && s in Step(env, st, e).sessions
    ensures var log := ShownBy(env, st, e, s);
      D.NoRepeat(log) && New(log, st.sessions[s].seen.known) && Kept(log, Step(env, st, e).sessions[s].seen.known)
    ensures st.sessions[s].seen.known <= Step(env, st, e).sessions[s].seen.known
  {
    var t := Taking(env, st, e);
    if t.None? {
      QuietKnows(env, st, e, s);
    } else if BringsBatch(st, e) {
      SmallShowsOnce(env, st, e, s);
    } else {
      hide Step;
      TickTakenOn(env, st, e, s);
      ChunkShowsOnce(st.sessions[st.chunks[e.c].sess], st.chunks[e.c]);
      hide TakeChunk, Shown;
      MovedOn(st, st.chunks[e.c], Step(env, st, e), s, st.sessions[s].seen);
    }
  }

  lemma MovedOn(st: State, ch: Chunk, st': State, s: SessionId, seen: D.Seen)
    requires TakenOn(st, ch, st', s) && KnowsMore(seen, st.sessions[s].seen)
    ensures s == ch.sess ==>
      var log := Shown(st.sessions[s], ch);
      D.NoRepeat(log) && New(log, seen.known) && Kept(log, st'.sessions[s].seen.known)
    ensures seen.known <= st'.sessions[s].seen.known
  {
    ChunkShowsOnce(st.sessions[ch.sess], ch);
    hide TakeChunk, Shown;
  }

  lemma SmallShowsOnce(env: Env, st: State, e: Event, s: SessionId)
    requires BringsBatch(st, e) && Taking(env, st, e).Some?
    requires s in st.sessions && s in Step(env, st, e).sessions
    ensures var log := ShownBy(env, st, e, s);
      D.NoRepeat(log) && New(log, st.sessions[s].seen.known) && Kept(log, Step(env, st, e).sessions[s].seen.known)
    ensures st.sessions[s].seen.known <= Step(env, st, e).sessions[s].seen.known
  {
    ArrivalCalm(env, st, e);
    ArrivalStep(env, st, e);
    ArrivalHas(env, st, e, s);
    hide Step, StartBatch, Arrival, Arriving, Calm, KnowsMore, BringsBatch, TakenOn, Shown;
    var (st1, ch) := Arrival(env, Arriving(st, e), e.s, e.Replay?, e.msgs, e.ended);
    CalmKnows(st, st1, s);
    SmallTakenOn(env, st1, ch, s);
    MovedOn(st1, ch, StartBatch(env, st1, ch), s, st.sessions[s].seen);
  }

  lemma ArrivalHas(env: Env, st: State, e: Event, s: SessionId)
    requires BringsBatch(st, e) && s in st.sessions
    ensures s in Arrival(env, Arriving(st, e), e.s, e.Replay?, e.msgs, e.ended).0.sessions
  {
    ArrivingHas(st, e, s);
    AdoptKeeps(env, Arriving(st, e), e.s, s);
    hide NewChunk, Adoptable, Adopt, Arriving, Unsolicited, BringsBatch;
  }

  lemma ArrivingHas(st: State, e: Event, s: SessionId)
    requires BringsBatch(st, e) && s in st.sessions
    ensures s in Arriving(st, e).sessions && e.s in Arriving(st, e).sessions
  {
  }

  lemma AdoptKeeps(env: Env, st: State, t: SessionId, s: SessionId)
    requires t in st.sessions && s in st.sessions
    ensures s in Adopt(env, st, t).sessions
  {
    hide EnteredLoop;
  }

  // ----- every run -----

  lemma JoinedOnce(a: seq<D.Message>, b: seq<D.Message>, known: set<string>)
    requires D.NoRepeat(a) && D.NoRepeat(b) && Kept(a, known) && New(b, known)
    ensures D.NoRepeat(a + b)
  {
    hide D.DedupKey;
    var log := a + b;
    forall i, j | 0 <= i < j < |log| && D.Keyed(log[i]) && D.Keyed(log[j])
      ensures (log[i].msgid, log[i].ts) != (log[j].msgid, log[j].ts)
    {
      if i < |a| <= j {
        assert log[i] in a && log[j] in b;
      }
    }
  }

  /** Over every run of the engine, however batches overlap and their ticks
      interleave, nothing with a msgid and a positive timestamp is shown twice
      in a session while it is open. */
  lemma {:induction false} ShownOnceInEveryRun(st: State, run: seq<Input>, s: SessionId)
    requires StaysOpen(st, run, s)
    ensures D.NoRepeat(ShownLog(st, run, s)) && New(ShownLog(st, run, s), st.sessions[s].seen.known)
    decreases |run|
  {
    hide Step, ShownBy, D.NoRepeat, D.DedupKey;
    if run == [] {
      NoneRepeats([]);
    } else {
      var env, e := run[0].env, run[0].event;
      var st' := Step(env, st, e);
      EventShowsOnce(env, st, e, s);
      ShownOnceInEveryRun(st', run[1..], s);
      var a, b := ShownBy(env, st, e, s), ShownLog(st', run[1..], s);
      JoinedOnce(a, b, st'.sessions[s].seen.known);
      BothNew(a, b, st.sessions[s].seen.known, st'.sessions[s].seen.known);
    }
  }

  lemma NoneRepeats(log: seq<D.Message>)
    requires log == []
    ensures D.NoRepeat(log)
  {
  }

  lemma BothNew(a: seq<D.Message>, b: seq<D.Message>, known: set<string>, known': set<string>)
    requires New(a, known) && New(b, known') && known <= known'
    ensures New(a + b, known)
  {
    hide D.DedupKey;
  }
}
