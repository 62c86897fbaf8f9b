/**
 Runs of the engine against a truthful server after which a message that lay
 inside a row of the ledger is in no row and not known: one for each way in
 which a batch can be unsafe to close.
 */
module CatchUpLosses {
  import opened Wrappers
  import opened RequestQueue
  import opened CatchUp
  import opened CatchUpWalk
  import opened ServerLog
  import D = Dedup
  import G = GapLedger
  import K = GapCoverage

  const NOTHING_SEEN := D.Seen({}, {})

  /** Everything is switched on; the newest stored row of every channel is of
      second `newest`. */
  function Quiet(newest: int): Env {
    Env(true, true, 50, 0, 0, 0, 0, _ => (None, newest))
  }

  /** One session, with its rows; the server's own limit, or 0 for none. */
  function Alone(x: Session, limit: int, gaps: seq<G.Gap>): State {
    State(true, true, false, limit, 0, false, 0, None, false, None, [0], map[0 := x], map[], 0, gaps)
  }

  function Channel(): Session {
    Fresh(0, true, None, NOTHING_SEEN)
  }

  // ----- one entry at a time -----

  function One(m: K.Msg): seq<D.Message> {
    [Entry(m)]
  }

  lemma OneIsWire(log: Log, i: nat)
    requires i < |log|
    ensures One(log[i]) == Wire(log[i..i + 1])
  {
  }

  /** A batch of one entry as it is filed. */
  function OneChunk(s: SessionId, m: K.Msg, isCatchup: bool, unsolicited: bool, owned: bool, slot: bool, gapId: int, dir: int): Chunk {
    Chunk(s, One(m), 0, 1, 0, 0, Some(m.msgid), Some(m.msgid), isCatchup, false, unsolicited, owned, slot, gapId, dir)
  }

  lemma OneIsFiled(st: State, s: SessionId, m: K.Msg, isCatchup: bool, unsolicited: bool, owned: bool, gapId: int, dir: int)
    requires s in st.sessions
    ensures NewChunk(st, s, One(m), false, isCatchup, unsolicited, owned, gapId, dir) ==
            OneChunk(s, m, isCatchup, unsolicited, owned, isCatchup && owned && !st.sessions[s].loop.isBefore, gapId, dir)
  {
    assert One(m)[1..] == [];
    assert SortByTime(One(m)) == Insert(Entry(m), SortByTime([])) == One(m);
    assert CursorMsgids(One(m)) == [m.msgid] + CursorMsgids([]) == [m.msgid];
    assert D.RawCount(One(m)) == 1 + D.RawCount([]) == 1;
  }

  /** The batch after its one entry was worked off; whether it was shown does
      not matter here. */
  function OneTaken(ch: Chunk, m: K.Msg, count: nat): Chunk {
    ch.(remaining := [], msgCount := count, oldest := m.ts, newest := m.ts)
  }

  lemma OneIsTaken(x: Session, ch: Chunk, m: K.Msg) returns (count: nat, first: Option<string>)
    requires ch.remaining == One(m) && ch.msgCount == 0 && ch.oldest == 0 && ch.newest == 0 && m.ts > 0
    ensures TakeChunk(x, ch) == (x.(seen := D.Track(x.seen, Entry(m)), oldest := if x.oldest.Some? then x.oldest else first),
                                 OneTaken(ch, m, count))
  {
    hide D.Track, D.Shows;
    var t := D.Tally(x.seen, [], 0, 0);
    assert One(m)[..1] == One(m) && One(m)[1..] == [];
    assert D.Fold(t, One(m)) == D.Fold(D.Process(t, Entry(m)), []) == D.Process(t, Entry(m));
    count := |D.Process(t, Entry(m)).shown|;
    first := FirstRemembered(D.Process(t, Entry(m)).shown);
  }

  /** Only the one entry is newly known. */
  lemma TrackKnows(seen: D.Seen, m: K.Msg, other: K.Msg)
    requires m.ts > 0 && other.ts > 0 && (m.msgid, m.ts) != (other.msgid, other.ts) && !Knows(seen, other)
    ensures !Knows(D.Track(seen, Entry(m)), other)
  {
    D.KeyInjective(m.msgid, m.ts, other.msgid, other.ts);
  }

  // ----- the steps -----

  function FillOf(g: G.Gap): Request {
    Request(Between, Some(Timestamp(g.end)), Some(Timestamp(g.start)), 50, USER, false, g.id, -1)
  }

  /** The user opens the upper end of a row: BETWEEN goes out. */
  lemma FillGoesOut(newest: int, x: Session, limit: int, g: G.Gap)
    requires x == Channel() && g.id == 1 && g.state == G.Witnessed && g.lastAttempt == 0 && g.startMsgid.None? && g.endMsgid.None?
    ensures Step(Quiet(newest), Alone(x, limit, [g]), FillGap(0, 1, -1)) ==
            Alone(x.(queue := Queue(Some(FillOf(g)), None, true, false, [FillOf(g)], multiset{})), limit,
                  [g.(attempts := g.attempts + 1, lastAttempt := 0)])
  {
    var st := Alone(x, limit, [g]);
    assert [g][1..] == [];
    assert G.Find([g], 1) == Some(g);
    assert FillRequest(st, Quiet(newest), g, -1) == FillOf(g);
    assert [] + [FillOf(g)] == [FillOf(g)];
    var q := Queue(Some(FillOf(g)), None, true, false, [FillOf(g)], multiset{});
    assert Submit(x.queue, FillOf(g), true) == q;
    assert SubmitRequest(st, 0, FillOf(g)) == Alone(x.(queue := q), limit, [g]);
    assert G.Touch([g], 1, 0) == [g.(attempts := g.attempts + 1, lastAttempt := 0)] + G.Update([], 1, (g: G.Gap) => g.(attempts := g.attempts + 1, lastAttempt := 0));
  }

  /** The session in the LATEST phase a replay leg opened, its row recorded. */
  function Adopted(x: Session, newest: int, id: int): Session {
    x.(sbNewest := None, sbNewestTime := newest, loop := Loop(true, false, 0, 0, id, newest - FUZZ_INTERVAL, newest, None))
  }

  function Seeing(x: Session, m: K.Msg): Session {
    x.(seen := D.Track(x.seen, Entry(m)), oldest := Some(m.msgid))
  }

  function HoleUpTo(newest: int, m: K.Msg): G.Gap {
    G.Hole(0, newest, None, m.ts, Some(m.msgid))
  }

  predicate Unstarted(x: Session) {
    x.loop == Channel().loop && !x.exhausted && x.channel == 0 && x.chunk.None?
  }

  lemma ReplayIsAdopted(newest: int, x: Session, limit: int, gaps: seq<G.Gap>)
    requires Unstarted(x) && newest > FUZZ_INTERVAL
    ensures Adopt(Quiet(newest), Alone(x, limit, gaps), 0) == Alone(Adopted(x, newest, 0), limit, gaps).(latestPending := 1)
  {
  }

  lemma ReplayArrives(newest: int, x: Session, limit: int, gaps: seq<G.Gap>, m: K.Msg) returns (count: nat)
    requires Unstarted(x) && newest > FUZZ_INTERVAL && m.ts > newest
    ensures var y := Adopted(x, newest, 0);
      exists first: Option<string> ::
      Step(Quiet(newest), Alone(x, limit, gaps), Replay(0, One(m), false)) ==
      FinishBatch(Quiet(newest), Alone(Seeing(y, m).(oldest := first), limit, gaps).(latestPending := 1),
                  OneTaken(OneChunk(0, m, true, true, true, true, 0, 0), m, count))
  {
    hide FinishBatch, TakeChunk, NewChunk, D.Track;
    var env, st := Quiet(newest), Alone(x, limit, gaps);
    var y := Adopted(x, newest, 0);
    var st1 := Alone(y, limit, gaps).(latestPending := 1);
    ReplayIsAdopted(newest, x, limit, gaps);
    hide Adopt;
    OneIsFiled(st1, 0, m, true, true, true, 0, 0);
    var ch := OneChunk(0, m, true, true, true, true, 0, 0);
    var first: Option<string>;
    count, first := OneIsTaken(y, ch, m);
    assert ProcessBatch(env, st, 0, true, One(m), false) == StartBatch(env, st1, ch);
    var z := y.(seen := D.Track(y.seen, Entry(m)), oldest := if y.oldest.Some? then y.oldest else first);
    assert Put(st1, 0, z) == Alone(Seeing(y, m).(oldest := z.oldest), limit, gaps).(latestPending := 1);
  }

  /** The replay leg is taken for the LATEST batch: the hole is recorded, and
      the engine looks for a session to page on. */
  lemma WitnessIsRecorded(newest: int, y: Session, limit: int, gaps: seq<G.Gap>, m: K.Msg, first: Option<string>, count: nat)
    requires newest > FUZZ_INTERVAL && m.ts > newest && y.channel == 0 && !y.exhausted
    requires y.loop == Loop(true, false, 0, 0, 0, newest - FUZZ_INTERVAL, newest, None)
    ensures var (rows, id) := G.Record(gaps, HoleUpTo(newest, m));
      FinishBatch(Quiet(newest), Alone(y.(oldest := first), limit, gaps).(latestPending := 1),
                  OneTaken(OneChunk(0, m, true, true, true, true, 0, 0), m, count)) ==
      CheckBefore(Quiet(newest), Alone(y.(oldest := Some(m.msgid), loop := y.loop.(gapId := id)), limit, rows))
  {
    hide CheckBefore, G.Record;
    var env, st := Quiet(newest), Alone(y.(oldest := first), limit, gaps).(latestPending := 1);
    var ch := OneTaken(OneChunk(0, m, true, true, true, true, 0, 0), m, count);
    var st1 := Alone(y.(oldest := Some(m.msgid)), limit, gaps).(latestPending := 1);
    assert Noted(st, ch) == st1;
    var (rows, id) := G.Record(gaps, HoleUpTo(newest, m));
    assert Witnessed(env, gaps, st1.sessions[0], ch) == (rows, id);
    var st2 := Alone(y.(oldest := Some(m.msgid), loop := y.loop.(gapId := id)), limit, rows);
    assert WitnessHole(env, st1, ch) == st2.(latestPending := 1);
    assert ReturnSlot(st2.(latestPending := 1), true) == st2;
  }

  lemma ReplayWitnesses(newest: int, x: Session, limit: int, gaps: seq<G.Gap>, m: K.Msg)
    requires Unstarted(x) && newest > FUZZ_INTERVAL && m.ts > newest
    ensures var (rows, id) := G.Record(gaps, HoleUpTo(newest, m));
      Step(Quiet(newest), Alone(x, limit, gaps), Replay(0, One(m), false)) ==
      CheckBefore(Quiet(newest), Alone(Seeing(Adopted(x, newest, id), m), limit, rows))
  {
    hide Step, FinishBatch, CheckBefore, G.Record, D.Track;
    var count := ReplayArrives(newest, x, limit, gaps, m);
    var y := Seeing(Adopted(x, newest, 0), m);
    var first: Option<string> :|
      Step(Quiet(newest), Alone(x, limit, gaps), Replay(0, One(m), false)) ==
      FinishBatch(Quiet(newest), Alone(y.(oldest := first), limit, gaps).(latestPending := 1),
                  OneTaken(OneChunk(0, m, true, true, true, true, 0, 0), m, count));
    WitnessIsRecorded(newest, y, limit, gaps, m, first, count);
  }

  /** With a request on the wire there is nobody to page on. */
  lemma NobodyToPage(env: Env, x: Session, limit: int, gaps: seq<G.Gap>)
    requires x.queue.loading || !x.loop.inProgress
    ensures CheckBefore(env, Alone(x, limit, gaps)) == Alone(x, limit, gaps)
  {
    var st := Alone(x, limit, gaps);
    assert [0][1..] == [] && FirstNeeding(st, []) == None;
    assert FirstNeeding(st, [0]) == None;
  }

  function PageFrom(cursor: string): Request {
    Request(Before, Some(Msgid(cursor)), None, BEFORE_LIMIT, CATCHUP, true, 0, 0)
  }

  /** The session that pages on from its cursor. */
  function PagingFrom(x: Session, cursor: string): Session {
    x.(loop := x.loop.(isBefore := true),
       queue := x.queue.(active := Some(PageFrom(cursor)), loading := true, usedMsgid := true,
                         sent := x.queue.sent + [PageFrom(cursor)]))
  }

  lemma PagesFromCursor(env: Env, x: Session, limit: int, gaps: seq<G.Gap>, cursor: string)
    requires x.queue.active.None? && x.queue.pending.None? && !x.queue.loading && x.hasTarget && !x.background
    requires x.loop.inProgress && !x.exhausted && x.oldest == Some(cursor) && cursor != "" && env.gapfill
    ensures CheckBefore(env, Alone(x, limit, gaps)) == Alone(PagingFrom(x, cursor), limit, gaps).(beforeSess := Some(0))
  {
    var st := Alone(x, limit, gaps);
    assert FirstNeeding(st, [0]) == Some(0);
    assert PickBefore(env, st) == Some(0);
    var st1 := Alone(x.(loop := x.loop.(isBefore := true)), limit, gaps).(beforeSess := Some(0));
    assert PutLoop(st.(beforeSess := Some(0)), 0, x.loop.(isBefore := true)) == st1;
    assert Submit(x.queue, PageFrom(cursor), true) == PagingFrom(x, cursor).queue;
    assert RequestFrom(st1, 0, Before, Some(Msgid(cursor)), BEFORE_LIMIT) == SubmitRequest(st1, 0, PageFrom(cursor));
  }

  // ----- replies -----

  /** The session after a reply of one entry: the request is retired and the
      cursor moved. */
  function Replied(x: Session, m: K.Msg): Session {
    Seeing(x, m).(answered := x.answered + 1, queue := Complete(x.queue, true))
  }

  lemma FillIsAnswered(newest: int, x: Session, limit: int, gaps: seq<G.Gap>, g: G.Gap, m: K.Msg)
    requires x.queue.active == Some(FillOf(g)) && x.queue.pending.None? && g.id == 1 && m.ts > 0
    requires x.hasTarget && !x.background && !x.exhausted
    ensures Step(Quiet(newest), Alone(x, limit, gaps), Reply(0, One(m), false)) ==
            Alone(Replied(x, m), limit,
                  G.FillReply(gaps, 1, -1, G.Page(1, m.ts, m.ts, Some(m.msgid), Some(m.msgid)), EffectiveLimit(Alone(x, limit, gaps), 50)))
  {
    hide TakeChunk, NewChunk, FinishBatch, D.Track, G.FillReply, Complete, EffectiveLimit;
    var env := Quiet(newest);
    var y := x.(answered := x.answered + 1);
    var st := Alone(y, limit, gaps);
    assert Answered(Alone(x, limit, gaps), 0) == st;
    OneIsFiled(st, 0, m, false, false, true, 1, -1);
    var ch := OneChunk(0, m, false, false, true, false, 1, -1);
    var count, first := OneIsTaken(y, ch, m);
    var z := y.(seen := D.Track(y.seen, Entry(m)), oldest := if y.oldest.Some? then y.oldest else first);
    assert ProcessBatch(env, st, 0, false, One(m), false) == StartBatch(env, st, ch);
    assert Put(st, 0, z) == Alone(z, limit, gaps);
    assert Step(env, Alone(x, limit, gaps), Reply(0, One(m), false)) == StartBatch(env, st, ch);
    assert StartBatch(env, st, ch) == FinishBatch(env, Alone(z, limit, gaps), OneTaken(ch, m, count));
    FillIsClosed(env, z, limit, gaps, m, count);
    SameLimit(x, z, limit, gaps);
    assert z.(queue := Complete(z.queue, true), oldest := Some(m.msgid)) == Replied(x, m);
  }

  lemma SameLimit(x: Session, y: Session, limit: int, gaps: seq<G.Gap>)
    ensures EffectiveLimit(Alone(x, limit, gaps), 50) == EffectiveLimit(Alone(y, limit, gaps), 50)
  {
  }

  lemma FillIsClosed(env: Env, z: Session, limit: int, gaps: seq<G.Gap>, m: K.Msg, count: nat)
    requires z.queue.pending.None? && z.hasTarget && !z.background && !z.exhausted && env.lines == 50
    ensures FinishBatch(env, Alone(z, limit, gaps), OneTaken(OneChunk(0, m, false, false, true, false, 1, -1), m, count)) ==
            Alone(z.(queue := Complete(z.queue, true), oldest := Some(m.msgid)), limit,
                  G.FillReply(gaps, 1, -1, G.Page(1, m.ts, m.ts, Some(m.msgid), Some(m.msgid)), EffectiveLimit(Alone(z, limit, gaps), 50)))
  {
    hide G.FillReply, Complete;
    var st := Alone(z, limit, gaps);
    var ch := OneTaken(OneChunk(0, m, false, false, true, false, 1, -1), m, count);
    var z1 := z.(queue := Complete(z.queue, true), oldest := Some(m.msgid));
    assert Noted(st, ch) == Alone(z1, limit, gaps);
    assert EffectiveLimit(Alone(z1, limit, gaps), 50) == EffectiveLimit(st, 50);
    assert FinishPlain(env, Alone(z1, limit, gaps), ch).sessions == map[0 := z1];
  }

  /** A page of one entry below the loop's lower bound: the loop ends, and its
      row is deleted. */
  lemma PageIsAnswered(newest: int, x: Session, limit: int, gaps: seq<G.Gap>, cursor: string, m: K.Msg)
    requires x.queue.active == Some(PageFrom(cursor)) && x.queue.pending.None? && x.hasTarget && !x.exhausted
    requires x.loop.inProgress && x.loop.isBefore && x.loop.gapId > 0 && 0 < m.ts < x.loop.lowerBound
    ensures var st' := Step(Quiet(newest), Alone(x, limit, gaps).(beforeSess := Some(0)), Reply(0, One(m), false));
      st'.gaps == G.Delete(G.PageReply(gaps, x.loop.gapId, G.Page(1, m.ts, m.ts, Some(m.msgid), Some(m.msgid))), x.loop.gapId) &&
      st'.sessions.Keys == {0} && st'.sessions[0].seen == D.Track(x.seen, Entry(m))
  {
    hide TakeChunk, NewChunk, FinishBatch, D.Track, G.PageReply, G.Delete, Complete;
    var env := Quiet(newest);
    var y := x.(answered := x.answered + 1);
    var st := Alone(y, limit, gaps).(beforeSess := Some(0));
    assert Answered(Alone(x, limit, gaps).(beforeSess := Some(0)), 0) == st;
    OneIsFiled(st, 0, m, true, false, true, 0, 0);
    var ch := OneChunk(0, m, true, false, true, false, 0, 0);
    var count, first := OneIsTaken(y, ch, m);
    var z := y.(seen := D.Track(y.seen, Entry(m)), oldest := if y.oldest.Some? then y.oldest else first);
    assert ProcessBatch(env, st, 0, false, One(m), false) == StartBatch(env, st, ch);
    assert Put(st, 0, z) == Alone(z, limit, gaps).(beforeSess := Some(0));
    PageIsClosed(env, z, limit, gaps, m, count);
  }

  lemma PageIsNoted(z: Session, limit: int, gaps: seq<G.Gap>, m: K.Msg, count: nat)
    requires z.queue.pending.None? && z.hasTarget && !z.exhausted
    ensures Noted(Alone(z, limit, gaps).(beforeSess := Some(0)), OneTaken(OneChunk(0, m, true, false, true, false, 0, 0), m, count)) ==
            Alone(z.(queue := Complete(z.queue, true), oldest := Some(m.msgid)), limit, gaps).(beforeSess := Some(0))
  {
    hide Complete;
  }

  /** The walk ends, and there is nobody else to page on. */
  lemma WalkEnds(env: Env, z: Session, limit: int, gaps: seq<G.Gap>)
    ensures var st' := CheckBefore(env, FinishCatchup(Alone(z, limit, gaps).(beforeSess := Some(0)), 0));
      st'.gaps == gaps && st'.sessions.Keys == {0} && st'.sessions[0].seen == z.seen
  {
    hide CheckBefore;
    var ended := z.(loop := EndLoop(z.loop), oldest := if HasText(z.sbOldest) then z.sbOldest else z.oldest);
    assert FinishCatchup(Alone(z, limit, gaps).(beforeSess := Some(0)), 0) == Alone(ended, limit, gaps);
    NobodyToPage(env, ended, limit, gaps);
  }

  lemma PageIsClosed(env: Env, z: Session, limit: int, gaps: seq<G.Gap>, m: K.Msg, count: nat)
    requires z.queue.pending.None? && z.hasTarget && !z.exhausted
    requires z.loop.inProgress && z.loop.isBefore && z.loop.gapId > 0 && 0 < m.ts < z.loop.lowerBound
    ensures var st' := FinishBatch(env, Alone(z, limit, gaps).(beforeSess := Some(0)),
                                   OneTaken(OneChunk(0, m, true, false, true, false, 0, 0), m, count));
      st'.gaps == G.Delete(G.PageReply(gaps, z.loop.gapId, G.Page(1, m.ts, m.ts, Some(m.msgid), Some(m.msgid))), z.loop.gapId) &&
      st'.sessions.Keys == {0} && st'.sessions[0].seen == z.seen
  {
    hide G.PageReply, G.Delete, Complete, CheckBefore, Noted, FinishCatchup;
    var ch := OneTaken(OneChunk(0, m, true, false, true, false, 0, 0), m, count);
    var z1 := z.(queue := Complete(z.queue, true), oldest := Some(m.msgid));
    var st1 := Alone(z1, limit, gaps).(beforeSess := Some(0));
    PageIsNoted(z, limit, gaps, m, count);
    var z2 := CountPage(z1, ch);
    assert JudgePage(env, z2, ch) == Bridged;
    var rows := G.Delete(G.PageReply(gaps, z.loop.gapId, PageOf(ch)), z.loop.gapId);
    assert Put(st1, 0, z2).(gaps := rows) == Alone(z2, limit, rows).(beforeSess := Some(0));
    WalkEnds(env, z2, limit, rows);
  }

  // ----- small tables -----

  lemma RecordApart(g: G.Gap, hole: G.Gap)
    requires g.id == 1 && !G.Touches(g, hole) && G.Recordable(hole)
    ensures G.Record([g], hole) == ([g, hole.(id := 2, attempts := 0, lastAttempt := 0)], 2)
  {
    assert [g][1..] == [];
    assert G.Untouched([g], hole) == [g] + G.Untouched([], hole) == [g];
    assert G.Absorb([g], hole, hole) == G.Absorb([], hole, hole) == hole;
    assert G.NextId([]) == 1 && G.NextId([g]) == 2;
    var u := hole.(id := 2, attempts := 0, lastAttempt := 0);
    assert [g] + [u] == [g, u];
  }

  lemma RecordFolded(g: G.Gap, hole: G.Gap)
    requires G.Touches(g, hole) && G.Recordable(hole)
    ensures G.Record([g], hole) == ([G.Union(hole, g).(id := 1, attempts := 0, lastAttempt := 0)], 1)
  {
    assert [g][1..] == [];
    assert G.Untouched([g], hole) == G.Untouched([], hole) == [];
    assert G.Absorb([g], hole, hole) == G.Absorb([], hole, G.Union(hole, g)) == G.Union(hole, g);
    assert G.NextId([]) == 1;
    var u := G.Union(hole, g).(id := 1, attempts := 0, lastAttempt := 0);
    assert [] + [u] == [u];
  }

  /** A short reply deletes the row, and leaves another one. */
  lemma ShortReplyDeletes(rows: seq<G.Gap>, page: G.Page)
    requires rows != [] && rows[0].id == 1 && page.raw < 50
    ensures G.FillReply(rows, 1, -1, page, 50) == G.Delete(rows[1..], 1)
  {
    assert G.Find(rows, 1) == Some(rows[0]);
  }

  lemma DeleteOther(g: G.Gap)
    ensures G.Delete([g], 1) == if g.id == 1 then [] else [g]
    ensures G.Delete([], 1) == []
  {
    assert [g][1..] == [];
    assert G.Delete([], 1) == [];
  }

  /** A page below the only row deletes it. */
  lemma PageDeletes(g: G.Gap, page: G.Page)
    requires g.id > 0 && page.raw > 0 && 0 < page.oldest
    ensures G.Delete(G.PageReply([g], g.id, page), g.id) == []
  {
    hide G.Shrink, G.Delete;
    K.ShrinkOnly(g, 0, None, page.oldest, page.oldestMsgid);
    var n := G.Narrowed(g, 0, None, page.oldest, page.oldestMsgid);
    K.DeleteOnly(n);
    K.DeleteNone(g.id);
  }

  lemma NoLimit(x: Session, gaps: seq<G.Gap>)
    ensures EffectiveLimit(Alone(x, 0, gaps), 50) == 50
  {
  }

  // ----- a gap fill takes the cursor of a walk -----

  const UPPER: G.Gap := G.Gap(1, 0, 100, None, 500, None, G.Witnessed, 0, 0)
  const TRIED: G.Gap := UPPER.(attempts := 1)

  function HistoryOf4(): Log {
    [K.Msg("a", 90), K.Msg("b", 480), K.Msg("c", 1500), K.Msg("d", 2000)]
  }

  function WithFill(g: G.Gap): Session {
    Channel().(queue := Queue(Some(FillOf(g)), None, true, false, [FillOf(g)], multiset{}))
  }

  /** The row witnessed by the replay leg. */
  const SEEN_ROW: G.Gap := G.Gap(2, 0, 1000, None, 2000, Some("d"), G.Witnessed, 0, 0)

  function Both(): Session {
    Seeing(Adopted(WithFill(UPPER), 1000, 2), HistoryOf4()[3])
  }

  lemma StolenWitness()
    ensures Step(Quiet(1000), Alone(WithFill(UPPER), 0, [TRIED]), Replay(0, One(HistoryOf4()[3]), false)) ==
            Alone(Both(), 0, [TRIED, SEEN_ROW])
  {
    hide Step, CheckBefore, G.Record, D.Track;
    var d := HistoryOf4()[3];
    ReplayWitnesses(1000, WithFill(UPPER), 0, [TRIED], d);
    RecordApart(TRIED, HoleUpTo(1000, d));
    NobodyToPage(Quiet(1000), Both(), 0, [TRIED, SEEN_ROW]);
  }

  lemma StolenFill()
    ensures Step(Quiet(1000), Alone(Both(), 0, [TRIED, SEEN_ROW]), Reply(0, One(HistoryOf4()[1]), false)) ==
            Alone(Replied(Both(), HistoryOf4()[1]), 0, [SEEN_ROW])
  {
    hide Step, G.FillReply, D.Track;
    var b := HistoryOf4()[1];
    var rows := [TRIED, SEEN_ROW];
    FillIsAnswered(1000, Both(), 0, rows, UPPER, b);
    NoLimit(Both(), rows);
    ShortReplyDeletes(rows, G.Page(1, b.ts, b.ts, Some(b.msgid), Some(b.msgid)));
    assert rows[1..] == [SEEN_ROW];
    DeleteOther(SEEN_ROW);
  }

  function Robbed(): Session {
    PagingFrom(Replied(Both(), HistoryOf4()[1]), "b")
  }

  lemma StolenPaging()
    ensures Step(Quiet(1000), Alone(Replied(Both(), HistoryOf4()[1]), 0, [SEEN_ROW]), WrapperEnd) ==
            Alone(Robbed(), 0, [SEEN_ROW]).(beforeSess := Some(0))
  {
    hide CheckBefore, D.Track;
    var x := Replied(Both(), HistoryOf4()[1]);
    PagesFromCursor(Quiet(1000), x, 0, [SEEN_ROW], "b");
  }

  lemma StolenPage()
    ensures var st' := Step(Quiet(1000), Alone(Robbed(), 0, [SEEN_ROW]).(beforeSess := Some(0)), Reply(0, One(HistoryOf4()[0]), false));
      st'.gaps == [] && st'.sessions.Keys == {0} && !Knows(st'.sessions[0].seen, HistoryOf4()[2])
  {
    hide Step, G.PageReply, G.Delete, D.Track, Knows;
    var a, c := HistoryOf4()[0], HistoryOf4()[2];
    PageIsAnswered(1000, Robbed(), 0, [SEEN_ROW], "b", a);
    PageDeletes(SEEN_ROW, G.Page(1, a.ts, a.ts, Some(a.msgid), Some(a.msgid)));
    var s1 := D.Track(NOTHING_SEEN, Entry(HistoryOf4()[3]));
    var s2 := D.Track(s1, Entry(HistoryOf4()[1]));
    assert Robbed().seen == s2;
    NothingKnown(c);
    TrackKnows(NOTHING_SEEN, HistoryOf4()[3], c);
    TrackKnows(s1, HistoryOf4()[1], c);
    TrackKnows(s2, a, c);
  }

  lemma NothingKnown(m: K.Msg)
    ensures !Knows(NOTHING_SEEN, m)
  {
  }

  /** The server's answers in this run are what it has nearest each reference. */
  lemma StolenIsHonest()
    ensures SentAs4(FillOf(UPPER), One(HistoryOf4()[1]), 1, 2)
    ensures SentAs4(PageFrom("b"), One(HistoryOf4()[0]), 0, 1)
  {
    OneIsWire(HistoryOf4(), 1);
    OneIsWire(HistoryOf4(), 0);
    assert ServesBetween(HistoryOf4(), Timestamp(500), Timestamp(100), 50, 1, 2, 1, 2);
  }

  ghost predicate SentAs4(req: Request, msgs: seq<D.Message>, lo: nat, hi: nat) {
    Serves(HistoryOf4(), req, 50, 0, lo, hi) && msgs == Wire(HistoryOf4()[lo..hi])
  }

  /** A gap fill is on its way while a replay leg is adopted and its hole
      recorded.  The fill's reply moves the cursor below that hole, the next
      page is asked for from there, and it deletes the row unfetched: the
      message of second 1500, inside the row after the second event, is in no
      row and not known after the fifth.  Both answers were truthful. */
  lemma StolenCursorLosesARow()
    ensures var env := Quiet(1000);
      var st1 := Step(env, Alone(Channel(), 0, [UPPER]), FillGap(0, 1, -1));
      var st2 := Step(env, st1, Replay(0, One(HistoryOf4()[3]), false));
      var st3 := Step(env, st2, Reply(0, One(HistoryOf4()[1]), false));
      var st4 := Step(env, st3, WrapperEnd);
      var st5 := Step(env, st4, Reply(0, One(HistoryOf4()[0]), false));
      G.CoversTime(st2.gaps, 0, HistoryOf4()[2].ts) && st5.gaps == [] && st5.sessions.Keys == {0} &&
      !Knows(st5.sessions[0].seen, HistoryOf4()[2]) &&
      0 in st2.sessions && st2.sessions[0].queue.active == Some(FillOf(UPPER)) &&
      0 in st4.sessions && st4.sessions[0].queue.active == Some(PageFrom("b"))
    ensures SentAs4(FillOf(UPPER), One(HistoryOf4()[1]), 1, 2) && SentAs4(PageFrom("b"), One(HistoryOf4()[0]), 0, 1)
  {
    hide Step, D.Track, Complete, Serves, Knows;
    FillGoesOut(1000, Channel(), 0, UPPER);
    StolenWitness();
    StolenFill();
    StolenPaging();
    StolenPage();
    StolenIsHonest();
    assert SEEN_ROW in [TRIED, SEEN_ROW];
  }

  // ----- the id of a fill is given to a larger row -----

  const LOWER: G.Gap := G.Gap(1, 0, 100, None, 200, None, G.Witnessed, 0, 0)

  function HistoryOf3(): Log {
    [K.Msg("a", 150), K.Msg("b", 300), K.Msg("c", 500)]
  }

  /** The union of the row from 100 and the witnessed hole up to 500. */
  const MERGED: G.Gap := G.Gap(1, 0, 100, None, 500, Some("c"), G.Witnessed, 0, 0)

  lemma MergedRow(attempts: nat)
    ensures G.Record([LOWER.(attempts := attempts)], HoleUpTo(200, HistoryOf3()[2])) == ([MERGED], 1)
  {
    hide G.Record;
    RecordFolded(LOWER.(attempts := attempts), HoleUpTo(200, HistoryOf3()[2]));
  }

  /** A fill of (100,200) is on its way while a replay leg records the hole
      from 200 on: the union takes the row's id, and the short reply to the
      fill deletes all of it.  The message of second 300, inside the union
      after the second event, is in no row and not known after the third. */
  lemma ReusedIdLosesAMessage()
    ensures var env := Quiet(200);
      var st1 := Step(env, Alone(Channel(), 0, [LOWER]), FillGap(0, 1, -1));
      var st2 := Step(env, st1, Replay(0, One(HistoryOf3()[2]), false));
      var st3 := Step(env, st2, Reply(0, One(HistoryOf3()[0]), false));
      G.CoversTime(st2.gaps, 0, HistoryOf3()[1].ts) && st3.gaps == [] && st3.sessions.Keys == {0} &&
      !Knows(st3.sessions[0].seen, HistoryOf3()[1]) &&
      0 in st2.sessions && st2.sessions[0].queue.active == Some(FillOf(LOWER))
    ensures Serves(HistoryOf3(), FillOf(LOWER), 50, 0, 0, 1) && One(HistoryOf3()[0]) == Wire(HistoryOf3()[0..1])
  {
    hide Step, D.Track, Complete, Knows, CheckBefore, G.Record, G.FillReply;
    var x := Seeing(Adopted(WithFill(LOWER), 200, 1), HistoryOf3()[2]);
    FillGoesOut(200, Channel(), 0, LOWER);
    ReplayWitnesses(200, WithFill(LOWER), 0, [LOWER.(attempts := 1)], HistoryOf3()[2]);
    MergedRow(1);
    NobodyToPage(Quiet(200), x, 0, [MERGED]);
    ReusedFill(x);
    OneIsWire(HistoryOf3(), 0);
    assert MERGED in [MERGED];
    assert ServesBetween(HistoryOf3(), Timestamp(200), Timestamp(100), 50, 0, 1, 0, 1);
  }

  lemma ReusedFill(x: Session)
    requires x == Seeing(Adopted(WithFill(LOWER), 200, 1), HistoryOf3()[2])
    ensures var st' := Step(Quiet(200), Alone(x, 0, [MERGED]), Reply(0, One(HistoryOf3()[0]), false));
      st'.gaps == [] && st'.sessions.Keys == {0} && !Knows(st'.sessions[0].seen, HistoryOf3()[1])
  {
    hide Step, D.Track, Complete, Knows, G.FillReply;
    var a, b, c := HistoryOf3()[0], HistoryOf3()[1], HistoryOf3()[2];
    FillIsAnswered(200, x, 0, [MERGED], LOWER, a);
    NoLimit(x, [MERGED]);
    ShortReplyDeletes([MERGED], G.Page(1, a.ts, a.ts, Some(a.msgid), Some(a.msgid)));
    assert [MERGED][1..] == [];
    DeleteOther(MERGED);
    NothingKnown(b);
    TrackKnows(NOTHING_SEEN, c, b);
    TrackKnows(D.Track(NOTHING_SEEN, Entry(c)), a, b);
  }

  // ----- the loop stops above the start of a merged row -----

  function HistoryBelow(): Log {
    [K.Msg("a", 150), K.Msg("p", 194), K.Msg("c", 500)]
  }

  /** The witness is merged with the row from 100.  The loop stops below second
      195 and deletes the union: the message of second 150, inside it after the
      first event, is in no row and not known after the second.  The server
      sends one message at a time, and truthfully. */
  lemma MergedWitnessStopsEarly()
    ensures var env := Quiet(200);
      var st1 := Step(env, Alone(Channel(), 1, [LOWER]), Replay(0, One(HistoryBelow()[2]), false));
      var st2 := Step(env, st1, Reply(0, One(HistoryBelow()[1]), false));
      G.CoversTime(st1.gaps, 0, HistoryBelow()[0].ts) && st2.gaps == [] && st2.sessions.Keys == {0} &&
      !Knows(st2.sessions[0].seen, HistoryBelow()[0]) &&
      0 in st1.sessions && st1.sessions[0].queue.active == Some(PageFrom("c"))
    ensures Serves(HistoryBelow(), PageFrom("c"), 1, 0, 1, 2) && One(HistoryBelow()[1]) == Wire(HistoryBelow()[1..2])
  {
    hide Step, D.Track, Knows, CheckBefore, G.Record;
    var x := Seeing(Adopted(Channel(), 200, 1), HistoryBelow()[2]);
    assert HistoryBelow()[2] == HistoryOf3()[2];
    ReplayWitnesses(200, Channel(), 1, [LOWER], HistoryBelow()[2]);
    MergedRow(0);
    assert LOWER.(attempts := 0) == LOWER;
    PagesFromCursor(Quiet(200), x, 1, [MERGED], "c");
    MergedPage(x);
    OneIsWire(HistoryBelow(), 1);
    assert MERGED in [MERGED];
  }

  lemma MergedPage(x: Session)
    requires x == Seeing(Adopted(Channel(), 200, 1), HistoryBelow()[2])
    ensures var st1 := Alone(PagingFrom(x, "c"), 1, [MERGED]).(beforeSess := Some(0));
      var st' := Step(Quiet(200), st1, Reply(0, One(HistoryBelow()[1]), false));
      st'.gaps == [] && st'.sessions.Keys == {0} && !Knows(st'.sessions[0].seen, HistoryBelow()[0])
  {
    hide Step, D.Track, Knows, G.PageReply, G.Delete;
    var a, p, c := HistoryBelow()[0], HistoryBelow()[1], HistoryBelow()[2];
    PageIsAnswered(200, PagingFrom(x, "c"), 1, [MERGED], "c", p);
    PageDeletes(MERGED, G.Page(1, p.ts, p.ts, Some(p.msgid), Some(p.msgid)));
    NothingKnown(a);
    TrackKnows(NOTHING_SEEN, c, a);
    TrackKnows(D.Track(NOTHING_SEEN, Entry(c)), p, a);
  }
}
