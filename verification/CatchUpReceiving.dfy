/**
 What a received batch is taken for, in the fields of the state: which batches
 answer a request of ours, which are adopted as a LATEST phase, and what is
 remembered of a batch while it is worked off.
 */
module CatchUpReceiving {
  import opened Wrappers
  import opened RequestQueue
  import opened CatchUp
  import A = CatchUpAsks
  import D = Dedup

  /** A batch for the session that is no leg of a replay answers its request, if
      one is on the wire. */
  predicate AnswersOurs(x: Session, nested: bool) {
    !nested && (x.queue.active.Some? || x.queue.loading)
  }

  /** A batch the server sent unasked is taken for the session's LATEST phase
      exactly when catch-up is wanted and possible, the session is in no loop of
      its own, and its history may go on. */
  predicate TakenForLatest(env: Env, st: State, x: Session, nested: bool) {
    !AnswersOurs(x, nested) && st.haveChathistory && env.auto && !st.suppressed && !x.loop.inProgress && !x.exhausted
  }

  /** The fill the batch answers, with the side it came from; none is 0. */
  function FillAnswered(x: Session, nested: bool): (int, int) {
    if !nested && x.queue.active.Some? then (x.queue.active.value.gapId, x.queue.active.value.gapDir) else (0, 0)
  }

  /** The msgids of the real entries, oldest first. */
  function Anchors(msgs: seq<D.Message>): seq<string> {
    CursorMsgids(SortByTime(msgs))
  }

  /** What is remembered of the batch: its entries by time, its cursors, and what
      it was taken for. */
  function ChunkFor(env: Env, st: State, s: SessionId, nested: bool, msgs: seq<D.Message>, ended: bool): Chunk
    requires s in st.sessions
  {
    var x := st.sessions[s];
    var ours, adopted := AnswersOurs(x, nested), TakenForLatest(env, st, x, nested);
    var (gapId, gapDir) := FillAnswered(x, nested);
    var isCatchup := adopted || (ours && x.loop.inProgress && gapId == 0);
    var anchors := Anchors(msgs);
    Chunk(s, SortByTime(msgs), 0, D.RawCount(SortByTime(msgs)), 0, 0,
          if anchors == [] then None else Some(anchors[0]), if anchors == [] then None else Some(anchors[|anchors| - 1]),
          isCatchup, ended, !ours, ours || adopted, isCatchup && (adopted || !x.loop.isBefore), gapId, gapDir)
  }

  /** A batch of more than fifty real entries is put aside to be worked off by
      timer.  What is remembered of it says whether it answers a request and
      which fill, whether it was adopted, whether it drives the catch-up loop,
      and whether it holds a LATEST slot; an adopted one has opened the phase
      and taken that slot. */
  lemma BatchIsFiled(env: Env, st: State, s: SessionId, nested: bool, msgs: seq<D.Message>, ended: bool)
    requires s in st.sessions && D.RawCount(SortByTime(msgs)) > 50
    ensures s in ProcessBatch(env, st, s, nested, msgs, ended).sessions
    ensures var st' := ProcessBatch(env, st, s, nested, msgs, ended); var x, x' := st.sessions[s], st'.sessions[s];
      var adopted := TakenForLatest(env, st, x, nested);
      st'.chunks == st.chunks[st.nextChunk := ChunkFor(env, st, s, nested, msgs, ended)] &&
      x'.chunk == Some(st.nextChunk) && st'.nextChunk == st.nextChunk + 1 &&
      st'.latestPending == st.latestPending + (if adopted then 1 else 0) && st'.gaps == st.gaps &&
      x'.queue == x.queue && x'.oldest == x.oldest && x'.exhausted == x.exhausted && x'.loop.inProgress == (x.loop.inProgress || adopted) &&
      forall t <- st.sessions | t != s :: t in st'.sessions && st'.sessions[t] == st.sessions[t]
  {
    hide ProcessBatch, Adopt, AnswersOurs, TakenForLatest, FillAnswered, ChunkFor, SortByTime, D.RawCount;
    AdoptedIs(env, st, s);
    FiledIs(env, st, s, nested, msgs, ended);
  }

  lemma FiledIs(env: Env, st: State, s: SessionId, nested: bool, msgs: seq<D.Message>, ended: bool)
    requires s in st.sessions && D.RawCount(SortByTime(msgs)) > 50
    ensures
      var st1 := if TakenForLatest(env, st, st.sessions[s], nested) then Adopt(env, st, s) else st;
      s in st1.sessions &&
      ProcessBatch(env, st, s, nested, msgs, ended) ==
      st1.(sessions := st1.sessions[s := st1.sessions[s].(chunk := Some(st1.nextChunk))],
           chunks := st1.chunks[st1.nextChunk := ChunkFor(env, st, s, nested, msgs, ended)], nextChunk := st1.nextChunk + 1)
  {
    hide StartBatch, ProcessBatch, Adopt, ChunkFor, SortByTime, D.RawCount, TakenForLatest;
    NothingToSort();
    ReceivedIs(env, st, s, nested, msgs, ended);
    PutAside(env, if TakenForLatest(env, st, st.sessions[s], nested) then Adopt(env, st, s) else st,
             ChunkFor(env, st, s, nested, msgs, ended));
  }

  lemma AdoptedIs(env: Env, st: State, s: SessionId)
    requires s in st.sessions
    ensures var st' := Adopt(env, st, s);
      s in st'.sessions && st'.sessions == st.sessions[s := st'.sessions[s]] &&
      st' == st.(sessions := st'.sessions, latestPending := st.latestPending + 1) &&
      var x, x' := st.sessions[s], st'.sessions[s];
      x'.queue == x.queue && x'.oldest == x.oldest && x'.exhausted == x.exhausted &&
      x'.loop.inProgress && !x'.loop.isBefore
  {
  }

  lemma ChunkIs(st: State, s: SessionId, msgs: seq<D.Message>, ended: bool, isCatchup: bool,
                unsolicited: bool, owned: bool, gapId: int, gapDir: int)
    requires s in st.sessions
    ensures var anchors := Anchors(msgs);
      NewChunk(st, s, msgs, ended, isCatchup, unsolicited, owned, gapId, gapDir) ==
      Chunk(s, SortByTime(msgs), 0, D.RawCount(SortByTime(msgs)), 0, 0,
            if anchors == [] then None else Some(anchors[0]), if anchors == [] then None else Some(anchors[|anchors| - 1]),
            isCatchup, ended, unsolicited, owned, isCatchup && owned && !st.sessions[s].loop.isBefore, gapId, gapDir)
  {
    hide SortByTime, CursorMsgids, D.RawCount;
  }

  lemma NothingToSort()
    ensures D.RawCount(SortByTime([])) == 0
  {
  }

  lemma ReceivedIs(env: Env, st: State, s: SessionId, nested: bool, msgs: seq<D.Message>, ended: bool)
    requires s in st.sessions && msgs != []
    ensures
      var st1 := if TakenForLatest(env, st, st.sessions[s], nested) then Adopt(env, st, s) else st;
      var ch := ChunkFor(env, st, s, nested, msgs, ended);
      s in st1.sessions && ch.sess == s && ch.rawCount == D.RawCount(SortByTime(msgs)) &&
      ProcessBatch(env, st, s, nested, msgs, ended) == StartBatch(env, st1, ch)
  {
    hide Anchors, SortByTime, CursorMsgids, D.RawCount, EmptyBatch, StartBatch, Adopt, NewChunk;
    AdoptedIs(env, st, s);
    var x := st.sessions[s];
    var ours, adopted := AnswersOurs(x, nested), TakenForLatest(env, st, x, nested);
    var unsolicited := Unsolicited(x, nested);
    assert unsolicited == !ours && adopted == (unsolicited && Adoptable(env, st, x));
    var (gapId, gapDir) := FillAnswered(x, nested);
    var isCatchup := adopted || (ours && x.loop.inProgress && gapId == 0);
    assert (if unsolicited then adopted else x.loop.inProgress && gapId == 0) == isCatchup;
    ChunkIs(if adopted then Adopt(env, st, s) else st, s, msgs, ended, isCatchup, !ours, ours || adopted, gapId, gapDir);
  }

  lemma PutAside(env: Env, st: State, ch: Chunk)
    requires ch.sess in st.sessions && ch.rawCount > 50
    ensures StartBatch(env, st, ch) ==
            st.(sessions := st.sessions[ch.sess := st.sessions[ch.sess].(chunk := Some(st.nextChunk))],
                chunks := st.chunks[st.nextChunk := ch], nextChunk := st.nextChunk + 1)
  {
    hide TakeChunk, FinishBatch;
  }

  /** A smaller batch is worked off and finished at once, as the same chunk. */
  lemma SmallBatchIsFinished(env: Env, st: State, ch: Chunk)
    requires ch.sess in st.sessions && ch.rawCount <= 50
    ensures var (x, ch') := TakeChunk(st.sessions[ch.sess], ch);
      ch'.sess == ch.sess && StartBatch(env, st, ch) == FinishBatch(env, Put(st, ch.sess, x), ch')
  {
    hide FinishBatch, D.Fold, FirstRemembered;
  }

  // ----- anchors -----

  /** The entry can be a pagination cursor. */
  predicate CanAnchor(m: D.Message) {
    !m.context && m.msgid.Some?
  }

  /** Entry `i` is the first that can. */
  predicate FirstAt(msgs: seq<D.Message>, i: nat) {
    i < |msgs| && CanAnchor(msgs[i]) && forall j | 0 <= j < i :: !CanAnchor(msgs[j])
  }

  /** Entry `i` is the last that can. */
  predicate LastAt(msgs: seq<D.Message>, i: nat) {
    i < |msgs| && CanAnchor(msgs[i]) && forall j | i < j < |msgs| :: !CanAnchor(msgs[j])
  }

  /** The cursors of a batch are the msgids of its first and its last entry that
      is real and has one; context entries are passed over. */
  lemma AnchorsAre(msgs: seq<D.Message>)
    ensures var anchors := CursorMsgids(msgs);
      if anchors == [] then forall m <- msgs :: !CanAnchor(m)
      else (exists i: nat :: FirstAt(msgs, i) && msgs[i].msgid == Some(anchors[0])) &&
           (exists i: nat :: LastAt(msgs, i) && msgs[i].msgid == Some(anchors[|anchors| - 1]))
  {
    NoAnchors(msgs);
    if CursorMsgids(msgs) != [] {
      var i := FirstAnchor(msgs);
      var j := LastAnchor(msgs);
    }
    hide CursorMsgids, FirstAt, LastAt, CanAnchor;
  }

  lemma {:induction false} NoAnchors(msgs: seq<D.Message>)
    ensures CursorMsgids(msgs) == [] <==> forall m <- msgs :: !CanAnchor(m)
  {
    if msgs != [] {
      NoAnchors(msgs[1..]);
      assert (forall m <- msgs :: !CanAnchor(m)) <==> !CanAnchor(msgs[0]) && forall m <- msgs[1..] :: !CanAnchor(m);
    }
  }

  lemma {:induction false} FirstAnchor(msgs: seq<D.Message>) returns (i: nat)
    requires CursorMsgids(msgs) != []
    ensures FirstAt(msgs, i) && msgs[i].msgid == Some(CursorMsgids(msgs)[0])
  {
    i := 0;
    if !CanAnchor(msgs[0]) {
      i := FirstAnchor(msgs[1..]);
      i := i + 1;
    }
  }

  lemma {:induction false} LastAnchor(msgs: seq<D.Message>) returns (i: nat)
    requires CursorMsgids(msgs) != []
    ensures LastAt(msgs, i) && msgs[i].msgid == Some(CursorMsgids(msgs)[|CursorMsgids(msgs)| - 1])
  {
    if CursorMsgids(msgs[1..]) == [] {
      i := 0;
      NoAnchors(msgs[1..]);
      assert forall j | 0 < j < |msgs| :: msgs[j] == msgs[1..][j - 1];
    } else {
      i := LastAnchor(msgs[1..]);
      LastLater(msgs, i);
      i := i + 1;
    }
  }

  lemma LastLater(msgs: seq<D.Message>, i: nat)
    requires msgs != [] && LastAt(msgs[1..], i)
    ensures LastAt(msgs, i + 1)
  {
    forall j | i + 1 < j < |msgs| ensures !CanAnchor(msgs[j]) {
      assert msgs[j] == msgs[1..][j - 1];
    }
  }

  /** A session without a cursor takes the first msgid that is shown to it. */
  lemma {:induction false} FirstShownIs(shown: seq<D.Message>, i: nat)
    requires i < |shown| && shown[i].msgid.Some? && shown[i].msgid.value != ""
    requires forall j | 0 <= j < i :: shown[j].msgid.None? || shown[j].msgid.value == ""
    ensures FirstRemembered(shown) == shown[i].msgid
  {
    if i > 0 {
      FirstShownIs(shown[1..], i - 1);
    }
  }
}
