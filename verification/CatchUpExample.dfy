/**
 A run of ordinary catch-up traffic that upsets the slot count: an empty reply
 to a BEFORE page gives back the slot of another session's LATEST.
 */
module CatchUpExample {
  import opened Wrappers
  import opened RequestQueue
  import opened CatchUp
  import opened CatchUpSlots
  import D = Dedup

  const NOTHING_SEEN := D.Seen({}, {})

  function Quiet(): Env {
    Env(true, true, 50, 0, 0, 0, 0, _ => (None, 0))
  }

  function First(): Session {
    Fresh(0, true, None, NOTHING_SEEN)
  }

  /** One channel is open, nothing is going on. */
  function Begin(): State {
    State(true, true, false, 0, 0, false, 0, None, false, None, [0], map[0 := First()], map[], 0, [])
  }

  function LatestReq(): Request {
    Request(Latest, None, None, 50, CATCHUP, false, 0, 0)
  }

  function Asking(x: Session): Session {
    x.(sbNewest := None, sbNewestTime := 0, loop := Loop(true, false, 0, 0, 0, 0, 0, None),
       queue := Queue(Some(LatestReq()), None, true, false, [LatestReq()], multiset{}))
  }

  lemma OneAsks(st: State, s: SessionId)
    requires s in st.sessions && st.sessions[s] == First() && Online(st)
    ensures SendDeferredLatest(Quiet(), st, s) ==
            Put(st, s, Asking(First())).(latestPending := st.latestPending + 1)
  {
    var st1 := EnterLatestPhase(Quiet(), st, s);
    var x := First().(sbNewest := None, sbNewestTime := 0, loop := Loop(true, false, 0, 0, 0, 0, 0, None));
    assert st1 == Put(st, s, x);
    assert [] + [LatestReq()] == [LatestReq()];
    var st2 := RequestFrom(st1, s, Latest, LatestReference(st1.sessions[s]), 50);
    assert st2 == PutQueue(st1, s, Submit(x.queue, LatestReq(), true));
    assert st.sessions[s := x][s := Asking(First())] == st.sessions[s := Asking(First())];
  }

  const PAGE := [D.Message(Some("a"), 5, false, true)]

  lemma PageProcessed(x: Session)
    requires x.seen == NOTHING_SEEN && x.oldest == None
    ensures var (x', ch) := TakeChunk(x, PageChunk());
      x' == x.(seen := x'.seen, oldest := Some("a")) &&
      ch == PageChunk().(remaining := [], msgCount := 1, oldest := 5, newest := 5)
  {
    var t := D.Tally(x.seen, [], 0, 0);
    assert PAGE[..1] == PAGE && PAGE[1..] == [];
    assert D.Fold(t, PAGE) == D.Fold(D.Process(t, PAGE[0]), PAGE[1..]) == D.Process(t, PAGE[0]);
    assert D.Shows(t.seen, PAGE[0]);
    assert D.Process(t, PAGE[0]).shown == [PAGE[0]];
    assert FirstRemembered([PAGE[0]]) == Some("a");
  }

  function PageChunk(): Chunk {
    Chunk(0, PAGE, 0, 1, 0, 0, Some("a"), Some("a"), true, false, false, true, true, 0, 0)
  }

  lemma PageIsChunk(st: State)
    requires 0 in st.sessions && !st.sessions[0].loop.isBefore
    ensures NewChunk(st, 0, PAGE, false, true, false, true, 0, 0) == PageChunk()
  {
    assert PAGE[1..] == [];
    assert SortByTime(PAGE) == Insert(PAGE[0], SortByTime([])) == PAGE;
    assert CursorMsgids(PAGE) == ["a"] + CursorMsgids([]) == ["a"];
    assert D.RawCount(PAGE) == 1 + D.RawCount([]) == 1;
  }

  /** After the fan-out: the channel's LATEST is on the wire. */
  function Asked(): State {
    Put(Begin(), 0, Asking(First())).(latestPending := 1)
  }

  lemma FanOutAsks()
    ensures Step(Quiet(), Begin(), FanOutTimer) == Asked()
  {
    hide SendDeferredLatest;
    var st := Begin();
    assert Without([0], None) == [0] + Without([], None) == [0];
    assert [] + [0] == [0] && [0][1..] == [];
    assert FanOutOrder(st) == [0];
    OneAsks(st.(latestPending := 0), 0);
    var st1 := SendDeferredLatest(Quiet(), st.(latestPending := 0), 0);
    assert SendAll(Quiet(), st.(latestPending := 0), [0]) == SendAll(Quiet(), st1, []) == st1;
  }

  function BeforeReq(): Request {
    Request(Before, Some(Msgid("a")), None, BEFORE_LIMIT, CATCHUP, true, 0, 0)
  }

  /** The session once its LATEST was answered by one message: paging on from it. */
  function Paging(seen: D.Seen): Session {
    Asking(First()).(seen := seen, oldest := Some("a"), answered := 1, loop := Loop(true, true, 0, 0, 0, 0, 0, None),
                     queue := Queue(Some(BeforeReq()), None, true, true, [LatestReq(), BeforeReq()], multiset{LatestReq()}))
  }

  function Paged(seen: D.Seen): State {
    Put(Begin(), 0, Paging(seen)).(beforeSess := Some(0))
  }

  /** The LATEST finished with nothing more to do than look for a BEFORE target. */
  lemma LatestFinished(x: Session, ch: Chunk)
    requires x == Asking(First()).(seen := x.seen, oldest := Some("a"), answered := 1)
    requires ch == PageChunk().(remaining := [], msgCount := 1, oldest := 5, newest := 5)
    ensures FinishBatch(Quiet(), Put(Begin(), 0, x).(latestPending := 1), ch) == Paged(x.seen)
  {
    var st := Put(Begin(), 0, x).(latestPending := 1);
    var free := x.queue.(active := None, loading := false, freed := multiset{LatestReq()});
    assert multiset{} + multiset{LatestReq()} == multiset{LatestReq()};
    assert Complete(x.queue, true) == free;
    var idle := x.(queue := free);
    var st1 := Put(Begin(), 0, idle).(latestPending := 1);
    assert Noted(st, ch) == st1;
    var st2 := Put(Begin(), 0, idle);
    assert FinishLatest(Quiet(), st1, ch) == CheckBeforeAtZero(Quiet(), st2) by {
      assert WitnessHole(Quiet(), st1, ch) == st1;
    }
    BeforeStarts(idle);
  }

  lemma BeforeStarts(x: Session)
    requires x == Asking(First()).(seen := x.seen, oldest := Some("a"), answered := 1, queue := x.queue)
    requires x.queue == Queue(None, None, false, false, [LatestReq()], multiset{LatestReq()})
    ensures CheckBefore(Quiet(), Put(Begin(), 0, x)) == Paged(x.seen)
  {
    var st := Put(Begin(), 0, x);
    assert FirstNeeding(st, [0]) == Some(0);
    assert PickBefore(Quiet(), st) == Some(0);
    var turned := x.(loop := x.loop.(isBefore := true));
    var st1 := Put(st.(beforeSess := Some(0)), 0, turned);
    assert [LatestReq()] + [BeforeReq()] == [LatestReq(), BeforeReq()];
    var asked := turned.(queue := Dispatch(turned.queue, BeforeReq(), true));
    assert asked == Paging(x.seen);
    assert RequestFrom(st1, 0, Before, Some(Msgid("a")), BEFORE_LIMIT) == Put(st1, 0, asked);
  }

  lemma LatestAnswers() returns (seen: D.Seen)
    ensures Step(Quiet(), Asked(), Reply(0, PAGE, false)) == Paged(seen)
  {
    hide FinishBatch, TakeChunk, NewChunk;
    var x := Asking(First()).(answered := 1);
    var st := Put(Begin(), 0, x).(latestPending := 1);
    assert Answered(Asked(), 0) == st;
    PageIsChunk(st);
    PageProcessed(x);
    var (x', ch) := TakeChunk(x, PageChunk());
    seen := x'.seen;
    assert ProcessBatch(Quiet(), st, 0, false, PAGE, false) == StartBatch(Quiet(), st, PageChunk());
    assert Put(st, 0, x') == Put(Begin(), 0, x').(latestPending := 1);
    LatestFinished(x', ch);
  }

  /** A second channel is opened, and joins in the next fan-out. */
  function Joined(seen: D.Seen): State {
    Put(Paged(seen), 1, First()).(order := [0, 1])
  }

  lemma SecondAsks(seen: D.Seen)
    ensures Step(Quiet(), Joined(seen), FanOutTimer) == Put(Joined(seen), 1, Asking(First())).(latestPending := 1)
  {
    hide SendDeferredLatest, SendAll, Without;
    var st := Joined(seen);
    BothInOrder(st);
    var st0 := st.(latestPending := 0);
    FirstStays(st0, seen);
    OneAsks(st0, 1);
    SendToBoth(st0);
  }

  lemma BothInOrder(st: State)
    requires st.order == [0, 1] && st.current.None?
    ensures FanOutOrder(st) == [0, 1]
  {
    assert [0, 1][1..] == [1] && [1][1..] == [];
    assert Without([1], None) == [1] + Without([], None) == [1];
    assert Without([0, 1], None) == [0] + Without([1], None) == [0, 1];
  }

  lemma SendToBoth(st: State)
    requires 0 in st.sessions && 1 in st.sessions && SendDeferredLatest(Quiet(), st, 0) == st
    ensures SendAll(Quiet(), st, [0, 1]) == SendDeferredLatest(Quiet(), st, 1)
  {
    hide SendDeferredLatest;
    assert [0, 1][1..] == [1] && [1][1..] == [];
    var st1 := SendDeferredLatest(Quiet(), st, 1);
    assert SendAll(Quiet(), st, [1]) == SendAll(Quiet(), st1, []) == st1;
  }

  lemma FirstStays(st: State, seen: D.Seen)
    requires 0 in st.sessions && st.sessions[0] == Paging(seen)
    ensures SendDeferredLatest(Quiet(), st, 0) == st
  {
  }

  lemma BeginsBalanced()
    ensures Books(Begin())
  {
    assert WaitingIn(Begin().sessions) == {};
    assert SlotsIn(Begin().chunks) == {};
  }

  lemma OpenJoins(seen: D.Seen)
    ensures Step(Quiet(), Paged(seen), Open(1, 0, true, None, NOTHING_SEEN)) == Joined(seen)
  {
    assert [0] + [1] == [0, 1];
  }

  /** One channel pages backwards while another's LATEST is unanswered: the
      state is reached by ordinary traffic, with the count right so far, and
      then an empty page gives back the other channel's slot. */
  lemma SlotLostInOrdinaryTraffic()
    ensures
      var st1 := Step(Quiet(), Begin(), FanOutTimer);
      var st2 := Step(Quiet(), st1, Reply(0, PAGE, false));
      var st3 := Step(Quiet(), st2, Open(1, 0, true, None, NOTHING_SEEN));
      var st4 := Step(Quiet(), st3, FanOutTimer);
      var st5 := Step(Quiet(), st4, Reply(0, [], false));
      Books(st4) && st4.latestPending == 1 && st5.latestPending == 0 && Owed(st5) == 1
  {
    hide Step, Books, Owed;
    BeginsBalanced();
    FanOutAsks();
    var seen := LatestAnswers();
    OpenJoins(seen);
    SecondAsks(seen);
    TrafficThroughout(seen);
    StepBooks(Quiet(), Begin(), FanOutTimer);
    StepBooks(Quiet(), Asked(), Reply(0, PAGE, false));
    StepBooks(Quiet(), Paged(seen), Open(1, 0, true, None, NOTHING_SEEN));
    StepBooks(Quiet(), Joined(seen), FanOutTimer);
    EmptyPageTakes(seen);
  }

  function Both(seen: D.Seen): State {
    Put(Joined(seen), 1, Asking(First())).(latestPending := 1)
  }

  lemma TrafficThroughout(seen: D.Seen)
    ensures Traffic(Begin(), FanOutTimer) && !Upsets(Begin(), FanOutTimer)
    ensures Traffic(Asked(), Reply(0, PAGE, false)) && !Upsets(Asked(), Reply(0, PAGE, false))
    ensures var e := Open(1, 0, true, None, NOTHING_SEEN); Traffic(Paged(seen), e) && !Upsets(Paged(seen), e)
    ensures Traffic(Joined(seen), FanOutTimer) && !Upsets(Joined(seen), FanOutTimer)
  {
  }

  lemma EmptyPageTakes(seen: D.Seen)
    requires Books(Both(seen))
    ensures var st := Step(Quiet(), Both(seen), Reply(0, [], false)); st.latestPending == 0 && Owed(st) == 1
  {
    hide Books, ProcessBatch, Owed;
    var st := Both(seen);
    ForeignSlotMiscounts(Quiet(), st, 0, false);
    PendingGone(seen);
  }

  lemma PendingGone(seen: D.Seen)
    ensures ProcessBatch(Quiet(), Answered(Both(seen), 0), 0, false, [], false).latestPending == 0
  {
    hide RequestComplete, FinishCatchup, CheckBefore;
    var st := Answered(Both(seen), 0);
    var st1 := RequestComplete(st, 0);
    CompleteStays(st);
    var st2 := FinishCatchup(st1, 0);
    FinishKeepsPending(st1, 0);
    assert ProcessBatch(Quiet(), st, 0, false, [], false) == EmptyBatch(Quiet(), st, 0, false, true, false, true, 0, 0);
    assert EmptyBatch(Quiet(), st, 0, false, true, false, true, 0, 0) == CheckBeforeAtZero(Quiet(), ReturnSlot(st2, true));
    CheckKeepsPending(Quiet(), ReturnSlot(st2, true));
  }

  lemma CompleteStays(st: State)
    requires 0 in st.sessions
    ensures var st1 := RequestComplete(st, 0);
      0 in st1.sessions && st1.latestPending == st.latestPending &&
      st1.sessions[0].sbNewestTime == st.sessions[0].sbNewestTime
  {
  }

  lemma CheckKeepsPending(env: Env, st: State)
    ensures CheckBefore(env, st).latestPending == st.latestPending
  {
    hide PickBefore;
    var t := PickBefore(env, st);
    if t.Some? && t.value in st.sessions {
      StartKeepsPending(st, t.value);
    }
  }

  lemma StartKeepsPending(st: State, t: SessionId)
    requires t in st.sessions
    ensures StartBefore(st, t).latestPending == st.latestPending
  {
  }
}
