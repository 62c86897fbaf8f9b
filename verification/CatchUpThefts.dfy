/**
 Two more runs of the engine against a truthful server in which a message is
 lost: a user's scroll takes the cursor of a walk, and the id of a deleted row
 is given to a row of another channel while a fill still carries it.
 */
module CatchUpThefts {
  import opened Wrappers
  import opened RequestQueue
  import opened CatchUp
  import opened ServerLog
  import opened CatchUpLosses
  import D = Dedup
  import G = GapLedger
  import K = GapCoverage

  // ----- a scroll takes the cursor -----

  /** A session whose database goes back to message "o". */
  function Old(): Session {
    Fresh(0, true, Some("o"), NOTHING_SEEN)
  }

  function HistoryOf5(): Log {
    [K.Msg("z", 50), K.Msg("a", 90), K.Msg("o", 480), K.Msg("c", 1500), K.Msg("d", 2000)]
  }

  const LATEST: Request := Request(Latest, Some(Timestamp(1000)), None, 50, CATCHUP, false, 0, 0)
  const SCROLL: Request := Request(Before, Some(Msgid("o")), None, 50, USER, true, 0, 0)
  const ASKING: Queue := Queue(Some(LATEST), None, true, false, [LATEST], multiset{})
  const WAITING: Queue := ASKING.(pending := Some(SCROLL))

  lemma FanOutAsks()
    ensures Step(Quiet(1000), Alone(Old(), 1, []), FanOutTimer) ==
            Alone(Adopted(Old(), 1000, 0).(queue := ASKING), 1, []).(latestPending := 1)
  {
    hide SendDeferredLatest;
    var st := Alone(Old(), 1, []);
    assert Without([0], None) == [0] + Without([], None) == [0];
    assert [] + [0] == [0] && [0][1..] == [];
    assert FanOutOrder(st) == [0];
    LatestGoesOut();
    var st1 := SendDeferredLatest(Quiet(1000), st, 0);
    assert SendAll(Quiet(1000), st, [0]) == SendAll(Quiet(1000), st1, []) == st1;
  }

  lemma LatestGoesOut()
    ensures SendDeferredLatest(Quiet(1000), Alone(Old(), 1, []), 0) ==
            Alone(Adopted(Old(), 1000, 0).(queue := ASKING), 1, []).(latestPending := 1)
  {
    var x := Adopted(Old(), 1000, 0);
    var st1 := Alone(x, 1, []);
    assert EnterLatestPhase(Quiet(1000), Alone(Old(), 1, []), 0) == st1;
    assert [] + [LATEST] == [LATEST];
    assert Submit(x.queue, LATEST, true) == ASKING;
    assert RequestFrom(st1, 0, Latest, LatestReference(x), 50) == SubmitRequest(st1, 0, LATEST);
  }

  lemma ScrollWaits()
    ensures Step(Quiet(1000), Alone(Adopted(Old(), 1000, 0).(queue := ASKING), 1, []).(latestPending := 1), ScrollUp(0)) ==
            Alone(Adopted(Old(), 1000, 0).(queue := WAITING), 1, []).(latestPending := 1)
  {
    var x := Adopted(Old(), 1000, 0).(queue := ASKING);
    var st := Alone(x, 1, []).(latestPending := 1);
    assert ASKING.freed + Slot(None) == ASKING.freed;
    assert Submit(ASKING, SCROLL, true) == WAITING;
    assert RequestOlder(Quiet(1000), st, 0) == SubmitRequest(st, 0, SCROLL);
  }

  /** The rows and the loop's id after a LATEST-phase batch of one entry. */
  function Looked(x: Session, gaps: seq<G.Gap>, m: K.Msg): (seq<G.Gap>, int) {
    if m.ts > x.loop.lowerBound then G.Record(gaps, HoleUpTo(1000, m)) else (gaps, x.loop.gapId)
  }

  predicate InLatestPhase(x: Session) {
    x.channel == 0 && x.hasTarget && !x.exhausted && x.loop.inProgress && !x.loop.isBefore &&
    x.loop.prevTime == 1000 && x.loop.prevMsgid.None? && x.loop.lowerBound == 995 &&
    x.queue.active.Some? && x.queue.active.value.gapId == 0 == x.queue.active.value.gapDir
  }

  /** A reply of one entry to a session in the LATEST phase. */
  lemma LatestIsAnswered(x: Session, gaps: seq<G.Gap>, m: K.Msg, pending: nat)
    requires InLatestPhase(x) && m.ts > 0 && pending <= 1
    ensures var (rows, id) := Looked(x, gaps, m);
      var y := Replied(x, m);
      Step(Quiet(1000), Alone(x, 1, gaps).(latestPending := pending), Reply(0, One(m), false)) ==
      CheckBefore(Quiet(1000), Alone(y.(loop := x.loop.(gapId := id)), 1, rows))
  {
    hide TakeChunk, NewChunk, FinishBatch, D.Track, Complete, CheckBefore, G.Record;
    var env := Quiet(1000);
    var y := x.(answered := x.answered + 1);
    var st := Alone(y, 1, gaps).(latestPending := pending);
    assert Answered(Alone(x, 1, gaps).(latestPending := pending), 0) == st;
    OneIsFiled(st, 0, m, true, false, true, 0, 0);
    var ch := OneChunk(0, m, true, false, true, true, 0, 0);
    var count, first := OneIsTaken(y, ch, m);
    var z := y.(seen := D.Track(y.seen, Entry(m)), oldest := if y.oldest.Some? then y.oldest else first);
    assert ProcessBatch(env, st, 0, false, One(m), false) == StartBatch(env, st, ch);
    assert Put(st, 0, z) == Alone(z, 1, gaps).(latestPending := pending);
    LatestIsClosed(z, gaps, m, count, pending);
    assert z.(queue := Complete(z.queue, true), oldest := Some(m.msgid)) == Replied(x, m);
  }

  lemma LatestIsNoted(z: Session, gaps: seq<G.Gap>, m: K.Msg, count: nat, pending: nat)
    requires z.hasTarget && !z.exhausted
    ensures Noted(Alone(z, 1, gaps).(latestPending := pending), OneTaken(OneChunk(0, m, true, false, true, true, 0, 0), m, count)) ==
            Alone(z.(queue := Complete(z.queue, true), oldest := Some(m.msgid)), 1, gaps).(latestPending := pending)
  {
    hide Complete;
  }

  lemma LatestIsClosed(z: Session, gaps: seq<G.Gap>, m: K.Msg, count: nat, pending: nat)
    requires InLatestPhase(z) && m.ts > 0 && pending <= 1
    ensures var (rows, id) := Looked(z, gaps, m);
      FinishBatch(Quiet(1000), Alone(z, 1, gaps).(latestPending := pending),
                  OneTaken(OneChunk(0, m, true, false, true, true, 0, 0), m, count)) ==
      CheckBefore(Quiet(1000), Alone(z.(queue := Complete(z.queue, true), oldest := Some(m.msgid),
                                        loop := z.loop.(gapId := id)), 1, rows))
  {
    hide Complete, CheckBefore, G.Record, Noted;
    var env := Quiet(1000);
    var ch := OneTaken(OneChunk(0, m, true, false, true, true, 0, 0), m, count);
    var y := z.(queue := Complete(z.queue, true), oldest := Some(m.msgid));
    var st1 := Alone(y, 1, gaps).(latestPending := pending);
    LatestIsNoted(z, gaps, m, count, pending);
    var (rows, id) := Looked(z, gaps, m);
    assert Witnessed(env, gaps, y, ch) == (rows, id);
    var st2 := Alone(y.(loop := y.loop.(gapId := id)), 1, rows);
    assert WitnessHole(env, st1, ch) == st2.(latestPending := pending);
    assert ReturnSlot(st2.(latestPending := pending), true) == st2;
  }

  const HOLE: G.Gap := G.Gap(1, 0, 1000, None, 2000, Some("d"), G.Witnessed, 0, 0)

  lemma FirstRecord()
    ensures G.Record([], HoleUpTo(1000, HistoryOf5()[4])) == ([HOLE], 1)
  {
    var hole := HoleUpTo(1000, HistoryOf5()[4]);
    assert G.Untouched([], hole) == [] && G.Absorb([], hole, hole) == hole && G.NextId([]) == 1;
    assert [] + [HOLE] == [HOLE];
  }

  /** After LATEST was answered: the hole is on file, and the scroll went out. */
  function Scrolling(): Session {
    Replied(Adopted(Old(), 1000, 1).(queue := WAITING), HistoryOf5()[4])
  }

  lemma LatestWitnesses()
    ensures Step(Quiet(1000), Alone(Adopted(Old(), 1000, 0).(queue := WAITING), 1, []).(latestPending := 1),
                 Reply(0, One(HistoryOf5()[4]), false)) ==
            Alone(Scrolling(), 1, [HOLE])
  {
    hide Step, CheckBefore, G.Record, D.Track;
    var x := Adopted(Old(), 1000, 0).(queue := WAITING);
    LatestIsAnswered(x, [], HistoryOf5()[4], 1);
    FirstRecord();
    assert Replied(x, HistoryOf5()[4]).(loop := x.loop.(gapId := 1)) == Scrolling();
    NobodyToPage(Quiet(1000), Scrolling(), 1, [HOLE]);
  }

  /** After the scroll was answered: the cursor is at second 90. */
  function Scrolled(): Session {
    Replied(Scrolling(), HistoryOf5()[1])
  }

  lemma ScrollTakesCursor()
    ensures Step(Quiet(1000), Alone(Scrolling(), 1, [HOLE]), Reply(0, One(HistoryOf5()[1]), false)) ==
            Alone(PagingFrom(Scrolled(), "a"), 1, [HOLE]).(beforeSess := Some(0))
  {
    hide Step, CheckBefore, D.Track;
    LatestIsAnswered(Scrolling(), [HOLE], HistoryOf5()[1], 0);
    assert Alone(Scrolling(), 1, [HOLE]).(latestPending := 0) == Alone(Scrolling(), 1, [HOLE]);
    assert Scrolled().(loop := Scrolling().loop.(gapId := 1)) == Scrolled();
    PagesFromCursor(Quiet(1000), Scrolled(), 1, [HOLE], "a");
  }

  lemma PageFromBelow()
    ensures var st' := Step(Quiet(1000), Alone(PagingFrom(Scrolled(), "a"), 1, [HOLE]).(beforeSess := Some(0)),
                            Reply(0, One(HistoryOf5()[0]), false));
      st'.gaps == [] && st'.sessions.Keys == {0} && !Knows(st'.sessions[0].seen, HistoryOf5()[3])
  {
    hide Step, G.PageReply, G.Delete, D.Track, Knows;
    var z, a, c, d := HistoryOf5()[0], HistoryOf5()[1], HistoryOf5()[3], HistoryOf5()[4];
    PageIsAnswered(1000, PagingFrom(Scrolled(), "a"), 1, [HOLE], "a", z);
    PageDeletes(HOLE, G.Page(1, z.ts, z.ts, Some(z.msgid), Some(z.msgid)));
    NothingKnown(c);
    TrackKnows(NOTHING_SEEN, d, c);
    TrackKnows(D.Track(NOTHING_SEEN, Entry(d)), a, c);
    TrackKnows(D.Track(D.Track(NOTHING_SEEN, Entry(d)), Entry(a)), z, c);
  }

  ghost predicate SentAs5(req: Request, i: nat)
    requires i < 5
  {
    Serves(HistoryOf5(), req, 1, 0, i, i + 1) && One(HistoryOf5()[i]) == Wire(HistoryOf5()[i..i + 1])
  }

  /** The user scrolls while LATEST is on its way.  When LATEST is answered the
      hole is recorded and the scroll goes out, from the database's oldest
      message; its reply takes the cursor below the hole, and the next page
      deletes the row unfetched.  No gap fill is involved, and every answer is
      truthful, one message at a time. */
  lemma ScrollLosesARow()
    ensures var env := Quiet(1000);
      var st1 := Step(env, Alone(Old(), 1, []), FanOutTimer);
      var st2 := Step(env, st1, ScrollUp(0));
      var st3 := Step(env, st2, Reply(0, One(HistoryOf5()[4]), false));
      var st4 := Step(env, st3, Reply(0, One(HistoryOf5()[1]), false));
      var st5 := Step(env, st4, Reply(0, One(HistoryOf5()[0]), false));
      G.CoversTime(st3.gaps, 0, HistoryOf5()[3].ts) && st5.gaps == [] && st5.sessions.Keys == {0} &&
      !Knows(st5.sessions[0].seen, HistoryOf5()[3]) &&
      0 in st2.sessions && st2.sessions[0].queue.active == Some(LATEST) &&
      0 in st3.sessions && st3.sessions[0].queue.active == Some(SCROLL) &&
      0 in st4.sessions && st4.sessions[0].queue.active == Some(PageFrom("a"))
    ensures SentAs5(LATEST, 4) && SentAs5(SCROLL, 1) && SentAs5(PageFrom("a"), 0)
  {
    hide Step, D.Track, Knows;
    FanOutAsks();
    ScrollWaits();
    LatestWitnesses();
    ScrollTakesCursor();
    PageFromBelow();
    OneIsWire(HistoryOf5(), 4);
    OneIsWire(HistoryOf5(), 1);
    OneIsWire(HistoryOf5(), 0);
    assert HOLE in [HOLE];
  }

  // ----- the id of a deleted row goes to another channel -----

  /** Two channels, and the session that is being paged on. */
  function Two(x: Session, y: Session, target: Option<SessionId>, gaps: seq<G.Gap>): State {
    State(true, true, false, 0, 0, false, 0, target, false, None, [0, 1], map[0 := x, 1 := y], map[], 0, gaps)
  }

  function Other(): Session {
    Fresh(1, true, None, NOTHING_SEEN)
  }

  /** The fill from the other end of the row. */
  const FORTH: Request := Request(Between, Some(Timestamp(100)), Some(Timestamp(500)), 50, USER, false, 1, 1)
  const BACK: Queue := Queue(Some(FillOf(UPPER)), None, true, false, [FillOf(UPPER)], multiset{})

  lemma TouchOnly(g: G.Gap)
    requires g.id == 1
    ensures G.Touch([g], 1, 0) == [g.(attempts := g.attempts + 1, lastAttempt := 0)] && G.Find([g], 1) == Some(g)
  {
    assert [g][1..] == [];
    assert G.Touch([g], 1, 0) == [g.(attempts := g.attempts + 1, lastAttempt := 0)] +
      G.Update([], 1, (g: G.Gap) => g.(attempts := g.attempts + 1, lastAttempt := 0));
  }

  lemma BackGoesOut()
    ensures Step(Quiet(1000), Two(Channel(), Other(), None, [UPPER]), FillGap(0, 1, -1)) ==
            Two(Channel().(queue := BACK), Other(), None, [TRIED])
  {
    hide G.Touch, G.Find;
    var st := Two(Channel(), Other(), None, [UPPER]);
    TouchOnly(UPPER);
    assert FillRequest(st, Quiet(1000), UPPER, -1) == FillOf(UPPER);
    assert [] + [FillOf(UPPER)] == [FillOf(UPPER)];
    assert Submit(Channel().queue, FillOf(UPPER), true) == BACK;
    assert SubmitRequest(st, 0, FillOf(UPPER)) == Two(Channel().(queue := BACK), Other(), None, [UPPER]);
  }

  lemma ForthWaits()
    ensures Step(Quiet(1000), Two(Channel().(queue := BACK), Other(), None, [TRIED]), FillGap(0, 1, 1)) ==
            Two(Channel().(queue := BACK.(pending := Some(FORTH))), Other(), None, [TRIED.(attempts := 2)])
  {
    hide G.Touch, G.Find;
    var x := Channel().(queue := BACK);
    var st := Two(x, Other(), None, [TRIED]);
    TouchOnly(TRIED);
    assert FillRequest(st, Quiet(1000), TRIED, 1) == FORTH;
    assert BACK.freed + Slot(None) == BACK.freed;
    assert Submit(BACK, FORTH, true) == BACK.(pending := Some(FORTH));
    assert SubmitRequest(st, 0, FORTH) == Two(Channel().(queue := BACK.(pending := Some(FORTH))), Other(), None, [TRIED]);
  }

  /** A one-entry reply to a fill of row 1 deletes whatever row has that id. */
  lemma FillBeside(x: Session, y: Session, target: Option<SessionId>, g: G.Gap, m: K.Msg)
    requires x.queue.active.Some? && x.queue.active.value.gapId == 1 && m.ts > 0 && g.id == 1
    requires x.hasTarget && !x.background && !x.exhausted
    ensures Step(Quiet(1000), Two(x, y, target, [g]), Reply(0, One(m), false)) == Two(Replied(x, m), y, target, [])
  {
    hide TakeChunk, NewChunk, FinishBatch, D.Track, Complete;
    var env := Quiet(1000);
    var x1 := x.(answered := x.answered + 1);
    var dir := x.queue.active.value.gapDir;
    var st := Two(x1, y, target, [g]);
    assert Answered(Two(x, y, target, [g]), 0) == st;
    OneIsFiled(st, 0, m, false, false, true, 1, dir);
    var ch := OneChunk(0, m, false, false, true, false, 1, dir);
    var count, first := OneIsTaken(x1, ch, m);
    var z := x1.(seen := D.Track(x1.seen, Entry(m)), oldest := if x1.oldest.Some? then x1.oldest else first);
    FillArrives(x1, y, target, g, m);
    hide ProcessBatch, StartBatch;
    SmallStart(x1, y, target, g, m, ch, z, count);
    ClosedBeside(z, y, target, g, m, count, dir);
    assert z.(queue := Complete(z.queue, true), oldest := Some(m.msgid)) == Replied(x, m);
  }

  lemma FillArrives(x: Session, y: Session, target: Option<SessionId>, g: G.Gap, m: K.Msg)
    requires x.queue.active.Some? && x.queue.active.value.gapId == 1
    ensures var st := Two(x, y, target, [g]);
      ProcessBatch(Quiet(1000), st, 0, false, One(m), false) ==
      StartBatch(Quiet(1000), st, NewChunk(st, 0, One(m), false, false, false, true, 1, x.queue.active.value.gapDir))
  {
    hide NewChunk, StartBatch, EmptyBatch, Adopt, Adoptable;
  }

  lemma SmallStart(x: Session, y: Session, target: Option<SessionId>, g: G.Gap, m: K.Msg, ch: Chunk, z: Session, count: nat)
    requires ch.sess == 0 && ch.rawCount == 1 && TakeChunk(x, ch) == (z, OneTaken(ch, m, count))
    ensures StartBatch(Quiet(1000), Two(x, y, target, [g]), ch) ==
            FinishBatch(Quiet(1000), Two(z, y, target, [g]), OneTaken(ch, m, count))
  {
    hide TakeChunk, FinishBatch;
    assert Put(Two(x, y, target, [g]), 0, z) == Two(z, y, target, [g]);
  }

  lemma NotedBeside(z: Session, y: Session, target: Option<SessionId>, g: G.Gap, ch: Chunk, m: K.Msg)
    requires z.hasTarget && !z.exhausted && ch.sess == 0 && !ch.unsolicited && !ch.ended && ch.rawCount == 1
    requires ch.oldestMsgid == Some(m.msgid)
    ensures Noted(Two(z, y, target, [g]), ch) == Two(z.(queue := Complete(z.queue, true), oldest := Some(m.msgid)), y, target, [g])
  {
    hide Complete;
  }

  lemma ClosedBeside(z: Session, y: Session, target: Option<SessionId>, g: G.Gap, m: K.Msg, count: nat, dir: int)
    requires z.hasTarget && !z.background && !z.exhausted && g.id == 1
    ensures FinishBatch(Quiet(1000), Two(z, y, target, [g]), OneTaken(OneChunk(0, m, false, false, true, false, 1, dir), m, count)) ==
            Two(z.(queue := Complete(z.queue, true), oldest := Some(m.msgid)), y, target, [])
  {
    hide Complete, Noted, G.FillReply;
    var ch := OneTaken(OneChunk(0, m, false, false, true, false, 1, dir), m, count);
    var z1 := z.(queue := Complete(z.queue, true), oldest := Some(m.msgid));
    NotedBeside(z, y, target, g, ch, m);
    assert EffectiveLimit(Two(z1, y, target, [g]), 50) == 50;
    ShortDeletesOnly(g, dir, PageOf(ch));
    assert FinishPlain(Quiet(1000), Two(z1, y, target, [g]), ch).sessions == map[0 := z1, 1 := y];
  }

  lemma ShortDeletesOnly(g: G.Gap, dir: int, page: G.Page)
    requires g.id == 1 && page.raw < 50
    ensures G.FillReply([g], 1, dir, page, 50) == []
  {
    DeleteOther(g);
    assert G.Find([g], 1) == Some(g);
  }

  const FAR: K.Msg := K.Msg("d", 2000)
  const THEIRS: G.Gap := G.Gap(1, 1, 1000, None, 2000, Some("d"), G.Witnessed, 0, 0)

  function OtherAdopted(id: int): Session {
    Adopted(Other(), 1000, id)
  }

  lemma OtherArrives(x: Session) returns (count: nat, first: Option<string>)
    ensures
      var y := OtherAdopted(0).(seen := D.Track(NOTHING_SEEN, Entry(FAR)), oldest := first);
      Step(Quiet(1000), Two(x, Other(), None, []), Replay(1, One(FAR), false)) ==
      FinishBatch(Quiet(1000), Two(x, y, None, []).(latestPending := 1),
                  OneTaken(OneChunk(1, FAR, true, true, true, true, 0, 0), FAR, count))
  {
    hide FinishBatch, TakeChunk, NewChunk, D.Track;
    var env, st := Quiet(1000), Two(x, Other(), None, []);
    var st1 := Two(x, OtherAdopted(0), None, []).(latestPending := 1);
    assert Adopt(env, st, 1) == st1;
    hide Adopt;
    OneIsFiled(st1, 1, FAR, true, true, true, 0, 0);
    var ch := OneChunk(1, FAR, true, true, true, true, 0, 0);
    count, first := OneIsTaken(OtherAdopted(0), ch, FAR);
    assert ProcessBatch(env, st, 1, true, One(FAR), false) == StartBatch(env, st1, ch);
    var y := OtherAdopted(0).(seen := D.Track(NOTHING_SEEN, Entry(FAR)), oldest := first);
    assert Put(st1, 1, y) == Two(x, y, None, []).(latestPending := 1);
  }

  lemma OtherWitnesses(x: Session, seen: D.Seen, first: Option<string>, count: nat)
    ensures
      var y := OtherAdopted(0).(seen := seen, oldest := first);
      FinishBatch(Quiet(1000), Two(x, y, None, []).(latestPending := 1),
                  OneTaken(OneChunk(1, FAR, true, true, true, true, 0, 0), FAR, count)) ==
      CheckBefore(Quiet(1000), Two(x, OtherAdopted(1).(seen := seen, oldest := Some("d")), None, [THEIRS]))
  {
    hide CheckBefore, G.Record;
    var env := Quiet(1000);
    var st := Two(x, OtherAdopted(0).(seen := seen, oldest := first), None, []).(latestPending := 1);
    var ch := OneTaken(OneChunk(1, FAR, true, true, true, true, 0, 0), FAR, count);
    var y := OtherAdopted(0).(seen := seen, oldest := Some("d"));
    var st1 := Two(x, y, None, []).(latestPending := 1);
    assert Noted(st, ch) == st1;
    hide Noted;
    TheirRecord();
    assert Witnessed(env, [], y, ch) == ([THEIRS], 1);
    var st2 := Two(x, OtherAdopted(1).(seen := seen, oldest := Some("d")), None, [THEIRS]);
    assert WitnessHole(env, st1, ch) == st2.(latestPending := 1);
    assert ReturnSlot(st2.(latestPending := 1), true) == st2;
  }

  lemma TheirRecord()
    ensures G.Record([], G.Hole(1, 1000, None, 2000, Some("d"))) == ([THEIRS], 1)
  {
    var hole := G.Hole(1, 1000, None, 2000, Some("d"));
    assert G.Untouched([], hole) == [] && G.Absorb([], hole, hole) == hole && G.NextId([]) == 1;
    assert [] + [THEIRS] == [THEIRS];
  }

  lemma OtherPages(x: Session, seen: D.Seen)
    requires !x.loop.inProgress
    ensures var y := OtherAdopted(1).(seen := seen, oldest := Some("d"));
      CheckBefore(Quiet(1000), Two(x, y, None, [THEIRS])) == Two(x, PagingFrom(y, "d"), Some(1), [THEIRS])
  {
    var env := Quiet(1000);
    var y := OtherAdopted(1).(seen := seen, oldest := Some("d"));
    var st := Two(x, y, None, [THEIRS]);
    assert [0, 1][1..] == [1];
    assert FirstNeeding(st, [1]) == Some(1);
    assert FirstNeeding(st, [0, 1]) == Some(1);
    var st1 := Two(x, y.(loop := y.loop.(isBefore := true)), Some(1), [THEIRS]);
    assert PutLoop(st.(beforeSess := Some(1)), 1, y.loop.(isBefore := true)) == st1;
    assert Submit(y.queue, PageFrom("d"), true) == PagingFrom(y, "d").queue;
    assert RequestFrom(st1, 1, Before, Some(Msgid("d")), BEFORE_LIMIT) == SubmitRequest(st1, 1, PageFrom("d"));
  }

  lemma OtherIsRecorded(x: Session)
    requires !x.loop.inProgress
    ensures var y := OtherAdopted(1).(seen := D.Track(NOTHING_SEEN, Entry(FAR)), oldest := Some("d"));
      Step(Quiet(1000), Two(x, Other(), None, []), Replay(1, One(FAR), false)) == Two(x, PagingFrom(y, "d"), Some(1), [THEIRS])
  {
    hide Step, FinishBatch, CheckBefore, D.Track;
    var count, first := OtherArrives(x);
    var seen := D.Track(NOTHING_SEEN, Entry(FAR));
    OtherWitnesses(x, seen, first, count);
    OtherPages(x, seen);
  }

  const MIDDLE: K.Msg := K.Msg("m", 300)
  const LOST: K.Msg := K.Msg("c", 1500)

  /** Two fills of one row, from either end, are queued.  The first reply deletes
      the row; a replay records another channel's hole, which gets the freed id;
      and the second reply, as truthful as the first, deletes that. */
  lemma FreedIdLosesAMessage()
    ensures var env := Quiet(1000);
      var st1 := Step(env, Two(Channel(), Other(), None, [UPPER]), FillGap(0, 1, -1));
      var st2 := Step(env, st1, FillGap(0, 1, 1));
      var st3 := Step(env, st2, Reply(0, One(MIDDLE), false));
      var st4 := Step(env, st3, Replay(1, One(FAR), false));
      var st5 := Step(env, st4, Reply(0, One(MIDDLE), false));
      st3.gaps == [] && G.CoversTime(st4.gaps, 1, LOST.ts) && st5.gaps == [] && 1 in st5.sessions &&
      !Knows(st5.sessions[1].seen, LOST) &&
      0 in st2.sessions && st2.sessions[0].queue.active == Some(FillOf(UPPER)) &&
      0 in st4.sessions && st4.sessions[0].queue.active == Some(FORTH)
    ensures Serves([MIDDLE], FillOf(UPPER), 50, 0, 0, 1) && Serves([MIDDLE], FORTH, 50, 0, 0, 1) &&
            One(MIDDLE) == Wire([MIDDLE][0..1])
  {
    hide Step, D.Track, Knows;
    BackGoesOut();
    ForthWaits();
    var x2 := Channel().(queue := BACK.(pending := Some(FORTH)));
    FillBeside(x2, Other(), None, TRIED.(attempts := 2), MIDDLE);
    var x3 := Replied(x2, MIDDLE);
    OtherIsRecorded(x3);
    var y := PagingFrom(OtherAdopted(1).(seen := D.Track(NOTHING_SEEN, Entry(FAR)), oldest := Some("d")), "d");
    FillBeside(x3, y, Some(1), THEIRS, MIDDLE);
    NothingKnown(LOST);
    TrackKnows(NOTHING_SEEN, FAR, LOST);
    OneIsWire([MIDDLE], 0);
    assert THEIRS in [THEIRS];
    assert ServesBetween([MIDDLE], Timestamp(500), Timestamp(100), 50, 0, 1, 0, 1);
    assert ServesBetween([MIDDLE], Timestamp(100), Timestamp(500), 50, 0, 1, 0, 1);
  }
}
