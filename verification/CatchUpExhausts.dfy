/**
 A run in which a batch the server sent unasked declares a session's history
 exhausted: it is large and adopted, a fan-out zeroes the pending count while
 it is worked off, a tab switch starts BEFORE paging, and two pages have shown
 nothing when its last entry is done.
 */
module CatchUpExhausts {
  import opened Wrappers
  import opened RequestQueue
  import opened CatchUp
  import opened ServerLog
  import L = CatchUpLosses
  import P = CatchUpReplay
  import D = Dedup
  import K = GapCoverage

  const OLD: K.Msg := K.Msg("m", 7)
  const STORED := D.Seen({}, {("m", 7)})

  function Quiet(): Env {
    Env(true, true, 50, 0, 0, 0, 0, _ => (None, 0))
  }

  function Copies(n: nat): seq<K.Msg> {
    seq(n, _ => OLD)
  }

  function Channel(): Session {
    Fresh(0, true, Some("o"), STORED)
  }

  /** One session in front, and the replay's batch being worked off. */
  function Working(x: Session, ch: Chunk, pending: nat, target: Option<SessionId>, timer: bool, current: Option<SessionId>): State {
    State(true, true, false, 0, 0, false, pending, target, timer, current, [0], map[0 := x], map[0 := ch], 1, [])
  }

  /** The replay's batch with `n` copies of the stored message to go. */
  function Large(n: nat): Chunk {
    Chunk(0, Wire(Copies(n)), 0, 51, if n == 51 then 0 else 7, if n == 51 then 0 else 7, Some("m"), Some("m"),
          true, false, true, true, true, 0, 0)
  }

  function Walking(stale: nat, isBefore: bool, oldest: string, q: Queue, answered: nat): Session {
    Channel().(sbNewest := None, sbNewestTime := 0, loop := Loop(true, isBefore, stale, 0, 0, 0, 0, None), chunk := Some(0),
               oldest := Some(oldest), queue := q, answered := answered)
  }

  // ----- a message that is stored is shown to nobody -----

  lemma NotShown(t: D.Tally)
    requires t.seen == STORED
    ensures D.Process(t, Entry(OLD)).seen == STORED && D.Process(t, Entry(OLD)).shown == t.shown
  {
    assert ("m", 7) in STORED.stored;
  }

  lemma {:induction false} CopiesNotShown(t: D.Tally, n: nat)
    requires t.seen == STORED && (t.oldest == 0 || t.oldest == 7) && (t.newest == 0 || t.newest == 7) && n > 0
    ensures D.Fold(t, Wire(Copies(n))) == D.Tally(STORED, t.shown, 7, 7)
    decreases n
  {
    hide D.Process;
    var w := Wire(Copies(n));
    assert w[0] == Entry(OLD) && w[1..] == Wire(Copies(n - 1));
    NotShown(t);
    EdgesAre7(t);
    if n > 1 {
      CopiesNotShown(D.Process(t, w[0]), n - 1);
    } else {
      assert D.Fold(D.Process(t, w[0]), []) == D.Process(t, w[0]);
    }
  }

  lemma EdgesAre7(t: D.Tally)
    requires (t.oldest == 0 || t.oldest == 7) && (t.newest == 0 || t.newest == 7)
    ensures D.Process(t, Entry(OLD)).oldest == 7 && D.Process(t, Entry(OLD)).newest == 7
  {
    hide D.Track, D.Shows;
  }

  lemma LargeTaken(x: Session)
    requires x.seen == STORED && x.oldest.Some?
    ensures TakeChunk(x, Large(51)) == (x, Large(1))
    ensures TakeChunk(x, Large(1)) == (x, Large(1).(remaining := []))
  {
    hide D.Fold;
    WireSlice(Copies(51), 50);
    assert Copies(51)[..50] == Copies(50) && Copies(51)[50..] == Copies(1);
    CopiesNotShown(D.Tally(STORED, [], 0, 0), 50);
    WireSlice(Copies(1), 1);
    assert Copies(1)[..1] == Copies(1) && Copies(1)[1..] == [] && Wire([]) == [];
    CopiesNotShown(D.Tally(STORED, [], 7, 7), 1);
  }

  // ----- the steps -----

  lemma LargeFiled(st: State)
    requires 0 in st.sessions && !st.sessions[0].loop.isBefore
    ensures NewChunk(st, 0, Wire(Copies(51)), false, true, true, true, 0, 0) == Large(51)
  {
    hide SortByTime, CursorMsgids, D.RawCount;
    SortedStays(Wire(Copies(51)));
    WireCounts(Copies(51));
  }

  /** The large batch is adopted and filed. */
  lemma ReplayIsFiled()
    ensures Step(Quiet(), L.Alone(Channel(), 0, []), Replay(0, Wire(Copies(51)), false)) ==
            Working(Walking(0, false, "o", EMPTY_QUEUE, 0), Large(51), 1, None, false, None)
  {
    hide NewChunk, TakeChunk, FinishBatch;
    var st := L.Alone(Channel(), 0, []);
    var x := Walking(0, false, "o", EMPTY_QUEUE, 0).(chunk := None);
    var st1 := L.Alone(x, 0, []).(latestPending := 1);
    assert Adopt(Quiet(), st, 0) == st1;
    LargeFiled(st1);
    assert ProcessBatch(Quiet(), st, 0, true, Wire(Copies(51)), false) == StartBatch(Quiet(), st1, Large(51));
  }

  /** The fan-out forgets the slot: its session is catching up already. */
  lemma FanOutForgets()
    ensures Step(Quiet(), Working(Walking(0, false, "o", EMPTY_QUEUE, 0), Large(51), 1, None, false, None), FanOutTimer) ==
            Working(Walking(0, false, "o", EMPTY_QUEUE, 0), Large(51), 0, None, false, None)
  {
    var x := Walking(0, false, "o", EMPTY_QUEUE, 0);
    var st := Working(x, Large(51), 0, None, false, None);
    assert Without([0], None) == [0] + Without([], None) == [0];
    assert [] + [0] == [0] && [0][1..] == [];
    assert FanOutOrder(st) == [0];
    assert SendDeferredLatest(Quiet(), st, 0) == st;
    assert SendAll(Quiet(), st, [0]) == SendAll(Quiet(), st, []) == st;
  }

  function Asking(q: Queue, cursor: string): Queue {
    q.(active := Some(L.PageFrom(cursor)), loading := true, usedMsgid := true, sent := q.sent + [L.PageFrom(cursor)])
  }

  /** With the session in front and nothing pending, the next page is asked for. */
  lemma PagesOn(stale: nat, isBefore: bool, cursor: string, q: Queue, answered: nat, timer: bool)
    requires q.active.None? && q.pending.None? && !q.loading && cursor != ""
    ensures CheckBefore(Quiet(), Working(Walking(stale, isBefore, cursor, q, answered), Large(51), 0, None, timer, Some(0))) ==
            Working(Walking(stale, true, cursor, Asking(q, cursor), answered), Large(51), 0, Some(0), timer, Some(0))
  {
    var x := Walking(stale, isBefore, cursor, q, answered);
    var st := Working(x, Large(51), 0, None, timer, Some(0));
    assert PickBefore(Quiet(), st) == Some(0);
    var y := Walking(stale, true, cursor, q, answered);
    var st1 := Working(y, Large(51), 0, Some(0), timer, Some(0));
    assert PutLoop(st.(beforeSess := Some(0)), 0, x.loop.(isBefore := true)) == st1;
    assert Submit(q, L.PageFrom(cursor), true) == Asking(q, cursor);
    assert RequestFrom(st1, 0, Before, Some(Msgid(cursor)), BEFORE_LIMIT) == SubmitRequest(st1, 0, L.PageFrom(cursor));
  }

  lemma OneNotShown(x: Session)
    requires x.seen == STORED && x.oldest.Some?
    ensures TakeChunk(x, L.OneChunk(0, OLD, true, false, true, false, 0, 0)) ==
            (x, L.OneTaken(L.OneChunk(0, OLD, true, false, true, false, 0, 0), OLD, 0))
  {
    hide D.Fold;
    assert L.One(OLD) == Wire(Copies(1));
    CopiesNotShown(D.Tally(STORED, [], 0, 0), 1);
    assert L.One(OLD)[..1] == L.One(OLD) && L.One(OLD)[1..] == [];
  }

  /** A page that brings only what is stored: stale once more, and on it goes. */
  lemma StalePage(stale: nat, cursor: string, q: Queue, answered: nat)
    requires q.active.Some? && q.active.value.gapId == 0 == q.active.value.gapDir && q.pending.None? && q.loading && stale <= 1
    ensures Step(Quiet(), Working(Walking(stale, true, cursor, q, answered), Large(51), 0, Some(0), false, Some(0)),
                 Reply(0, L.One(OLD), false)) ==
            Working(Walking(stale + 1, true, "m", Complete(q, true), answered + 1), Large(51), 0, None, true, Some(0))
  {
    hide NewChunk, TakeChunk, FinishBatch;
    var x := Walking(stale, true, cursor, q, answered + 1);
    var st := Working(x, Large(51), 0, Some(0), false, Some(0));
    assert Answered(Working(Walking(stale, true, cursor, q, answered), Large(51), 0, Some(0), false, Some(0)), 0) == st;
    L.OneIsFiled(st, 0, OLD, true, false, true, 0, 0);
    OneNotShown(x);
    var ch := L.OneChunk(0, OLD, true, false, true, false, 0, 0);
    assert ProcessBatch(Quiet(), st, 0, false, L.One(OLD), false) == StartBatch(Quiet(), st, ch);
    assert Put(st, 0, x) == st;
    StaleFinish(stale, cursor, q, answered + 1);
  }

  lemma StaleFinish(stale: nat, cursor: string, q: Queue, answered: nat)
    requires q.active.Some? && q.pending.None? && stale <= 1
    ensures FinishBatch(Quiet(), Working(Walking(stale, true, cursor, q, answered), Large(51), 0, Some(0), false, Some(0)),
                        L.OneTaken(L.OneChunk(0, OLD, true, false, true, false, 0, 0), OLD, 0)) ==
            Working(Walking(stale + 1, true, "m", Complete(q, true), answered), Large(51), 0, None, true, Some(0))
  {
    hide Complete;
    var st := Working(Walking(stale, true, cursor, q, answered), Large(51), 0, Some(0), false, Some(0));
    var ch := L.OneTaken(L.OneChunk(0, OLD, true, false, true, false, 0, 0), OLD, 0);
    var y := Walking(stale, true, "m", Complete(q, true), answered);
    var st1 := Working(y, Large(51), 0, Some(0), false, Some(0));
    assert Noted(st, ch) == st1;
    assert JudgePage(Quiet(), CountPage(y, ch), ch) == Continue;
    assert CountPage(y, ch) == y;
    assert Put(st1, 0, y) == st1;
  }

  lemma FirstTick(x: Session)
    requires x.seen == STORED && x.oldest.Some?
    ensures var st := Working(x, Large(51), 0, None, true, Some(0));
      Step(Quiet(), st, Tick(0)) == st.(chunks := map[0 := Large(1)])
  {
    hide TakeChunk, FinishBatch;
    LargeTaken(x);
    assert |Wire(Copies(1))| == 1;
    var st := Working(x, Large(51), 0, None, true, Some(0));
    assert Put(st, 0, x) == st;
    assert st.chunks[0 := Large(1)] == map[0 := Large(1)];
  }

  lemma LastTick(q: Queue)
    ensures var st := Working(Walking(2, true, "m", q, 2), Large(1), 0, None, true, Some(0));
      var st' := Step(Quiet(), st, Tick(0)); 0 in st'.sessions && st'.sessions[0].exhausted
  {
    hide TakeChunk, FinishBatch;
    var x := Walking(2, true, "m", q, 2);
    var st := Working(x, Large(1), 0, None, true, Some(0));
    LargeTaken(x);
    assert Put(st, 0, x) == st;
    var ch := Large(1).(remaining := []);
    P.UnsolicitedExhaustsIff(Quiet(), ForgetChunk(st, 0), ch);
  }

  /** Eight events of ordinary traffic, at whose end a batch that answers no
      request of ours has set the end-of-history flag. */
  lemma ReplayExhaustsHistory()
    ensures var env := Quiet();
      var st1 := Step(env, L.Alone(Channel(), 0, []), Replay(0, Wire(Copies(51)), false));
      var st2 := Step(env, st1, FanOutTimer);
      var st3 := Step(env, st2, TabSwitch(0));
      var st4 := Step(env, st3, Reply(0, L.One(OLD), false));
      var st5 := Step(env, st4, BeforeTimer);
      var st6 := Step(env, st5, Reply(0, L.One(OLD), false));
      var st7 := Step(env, st6, Tick(0));
      var st8 := Step(env, st7, Tick(0));
      0 in st7.chunks && st7.chunks[0].unsolicited && 0 in st7.sessions && !st7.sessions[0].exhausted &&
      0 in st8.sessions && st8.sessions[0].exhausted
  {
    hide Step, CheckBefore, Complete;
    ReplayIsFiled();
    FanOutForgets();
    TabStarts();
    var q3 := Asking(EMPTY_QUEUE, "o");
    var q4 := Completed(q3);
    StalePage(0, "o", q3, 0);
    TimerPages(q4);
    var q5 := Asking(q4, "m");
    var q6 := Completed(q5);
    StalePage(1, "m", q5, 1);
    FirstTick(Walking(2, true, "m", q6, 2));
    LastTick(q6);
  }

  lemma Completed(q: Queue) returns (q': Queue)
    requires q.active.Some? && q.pending.None?
    ensures q' == Complete(q, true) && q'.active.None? && q'.pending.None? && !q'.loading
  {
    q' := Complete(q, true);
  }

  lemma TabStarts()
    ensures Step(Quiet(), Working(Walking(0, false, "o", EMPTY_QUEUE, 0), Large(51), 0, None, false, None), TabSwitch(0)) ==
            Working(Walking(0, true, "o", Asking(EMPTY_QUEUE, "o"), 0), Large(51), 0, Some(0), false, Some(0))
  {
    hide CheckBefore;
    PagesOn(0, false, "o", EMPTY_QUEUE, 0, false);
  }

  lemma TimerPages(q: Queue)
    requires q.active.None? && q.pending.None? && !q.loading
    ensures Step(Quiet(), Working(Walking(1, true, "m", q, 1), Large(51), 0, None, true, Some(0)), BeforeTimer) ==
            Working(Walking(1, true, "m", Asking(q, "m"), 1), Large(51), 0, Some(0), false, Some(0))
  {
    hide CheckBefore;
    PagesOn(1, true, "m", q, 1, false);
  }
}
