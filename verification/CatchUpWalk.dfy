/**
 The cursor of a catch-up walk and the row it closes.  As long as batches that
 move the cursor continue the walk, everything from the cursor up to the row's
 end has been fetched; that is what makes the next page, asked for from the
 cursor, a page that narrows the row honestly.
 */
module CatchUpWalk {
  import opened Wrappers
  import opened RequestQueue
  import opened CatchUp
  import opened CatchUpCalm
  import opened ServerLog
  import D = Dedup
  import G = GapLedger
  import K = GapCoverage

  /** A batch the server sent: the request it answers, if any, its entries in
      the order of time, the limit the request went out with, and the last
      second any row of the channel reached when it came. */
  datatype Answer = Answer(asked: Option<Request>, batch: seq<K.Msg>, limit: int, until: int)

  /** The last second any row of the channel reaches. */
  function LatestEnd(gaps: seq<G.Gap>, channel: nat): int {
    if gaps == [] then 0
    else
      var rest := LatestEnd(gaps[1..], channel);
      if gaps[0].channel == channel && gaps[0].end > rest then gaps[0].end else rest
  }

  /** Everything at positions from `p` on that is older than `end` is stored. */
  predicate FetchedFrom(log: Log, stored: set<K.Msg>, p: nat, end: int) {
    forall i | p <= i < |log| && log[i].ts < end :: log[i] in stored
  }

  /** The row of this channel the session's loop is closing. */
  function LoopRow(gaps: seq<G.Gap>, x: Session, channel: nat): Option<G.Gap> {
    var g := G.Find(gaps, x.loop.gapId);
    if x.loop.gapId > 0 && g.Some? && g.value.channel == channel then g else None
  }

  ghost predicate CursorAt(log: Log, stored: set<K.Msg>, cursor: Option<string>, end: int) {
    cursor.Some? && exists p: nat :: p < |log| && log[p].msgid == cursor.value && FetchedFrom(log, stored, p, end)
  }

  /** The row starts no lower than the loop looks, and everything from the
      cursor up to its end is stored. */
  ghost predicate Linked(log: Log, channel: nat, stored: set<K.Msg>, gaps: seq<G.Gap>, x: Session) {
    var g := LoopRow(gaps, x, channel);
    g.Some? ==> x.loop.lowerBound <= g.value.start && CursorAt(log, stored, x.oldest, g.value.end)
  }

  /** The entries come from the history, and answer what was asked. */
  ghost predicate Comes(log: Log, a: Answer) {
    a.batch != [] && Sorted(a.batch) && (forall b <- a.batch :: b in log) &&
    (a.asked.Some? ==> exists lo: nat, hi: nat :: Slice(log, a, lo, hi))
  }

  ghost predicate Slice(log: Log, a: Answer, lo: nat, hi: nat) {
    a.asked.Some? && Serves(log, a.asked.value, a.limit, a.until, lo, hi) && a.batch == log[lo..hi]
  }

  /** How the engine files the batch. */
  predicate Origin(ch: Chunk, a: Answer) {
    (ch.unsolicited ==> ch.gapId == 0 && (ch.isCatchup ==> ch.latestOwned)) &&
    (!ch.unsolicited ==> ch.latestOwned) &&
    (ch.gapId > 0 ==> !ch.isCatchup && a.asked.Some? && a.asked.value.gapDir == ch.gapDir && FillShape(a.asked.value))
  }

  /** The whole batch has been worked off. */
  predicate WorkedOff(ch: Chunk, a: Answer) {
    a.batch != [] && PageOf(ch) == K.PageOf(a.batch)
  }

  // ----- what must not happen -----

  predicate MovesCursor(ch: Chunk) {
    ch.oldestMsgid.Some? && ch.rawCount > 0 && !(ch.unsolicited && !ch.latestOwned)
  }

  /** The reference is at the cursor or above it. */
  predicate AtOrAbove(log: Log, r: Reference, cursor: Option<string>) {
    cursor.Some? &&
    forall p, q | 0 <= p < |log| && 0 <= q <= |log| && log[p].msgid == cursor.value && UpTo(log, r, q) :: p <= q
  }

  /** The batch leaves nothing unfetched between its oldest entry and the row's
      end: it lies above the row altogether, or it answers a request and reaches
      the row's end, or it was asked for from the cursor, from above it, or from
      the row's end or later. */
  predicate Continues(log: Log, asked: Option<Request>, cursor: Option<string>, end: int, oldest: int, newest: int) {
    end <= oldest ||
    (asked.Some? &&
     (end <= newest ||
      (asked.value.kind == Before && asked.value.reference.Some? &&
       (end <= TimeOf(log, asked.value.reference.value) || AtOrAbove(log, asked.value.reference.value, cursor)))))
  }

  /** The engine's own page, asked for from the cursor, always continues. */
  lemma OwnPageContinues(log: Log, req: Request, cursor: string, end: int, oldest: int, newest: int)
    requires ValidLog(log) && req.kind == Before && req.reference == Some(Msgid(cursor))
    ensures Continues(log, Some(req), Some(cursor), end, oldest, newest)
  {
  }

  /** While the loop is closing a row, only a batch that continues its walk
      moves its cursor. */
  predicate KeepsWalk(log: Log, gaps: seq<G.Gap>, channel: nat, x: Session, ch: Chunk, a: Answer) {
    var g := LoopRow(gaps, x, channel);
    g.Some? && MovesCursor(ch) ==> Continues(log, a.asked, x.oldest, g.value.end, ch.oldest, ch.newest)
  }

  /** The id of a finished fill still names a row within what was asked (by
      AFTER: within what any row reached when the answer came), and the limit
      was not raised meanwhile. */
  predicate NamesWhatItAsked(log: Log, channel: nat, env: Env, st: State, ch: Chunk, a: Answer) {
    EffectiveLimit(st, env.lines) <= a.limit &&
    var g := G.Find(st.gaps, ch.gapId);
    g.Some? && g.value.channel == channel ==>
      a.asked.Some? && Asked(log, a.asked.value, g.value) && (a.asked.value.kind == After ==> g.value.end <= a.until)
  }

  predicate Witnesses(env: Env, x: Session, ch: Chunk) {
    ch.isCatchup && !x.loop.isBefore && SeesHole(env, x, ch)
  }

  /** The witnessed row was not stretched by an older one: up beyond the batch,
      or down below where the loop will stop. */
  predicate Unstretched(env: Env, gaps: seq<G.Gap>, x: Session, ch: Chunk) {
    var (rows, id) := Witnessed(env, gaps, x, ch);
    var u := G.Find(rows, id);
    id > 0 && u.Some? ==> u.value.end <= ch.oldest && x.loop.lowerBound <= u.value.start
  }

  /** No page or fill of another channel's session acts on a row of this channel. */
  predicate NamesOwnRows(gaps: seq<G.Gap>, channel: nat, x: Session, ch: Chunk) {
    (ch.isCatchup && x.loop.isBefore ==> LoopRow(gaps, x, channel).None?) &&
    (ch.gapId > 0 ==> var g := G.Find(gaps, ch.gapId); g.Some? ==> g.value.channel != channel)
  }

  predicate SafeClose(log: Log, channel: nat, env: Env, st: State, ch: Chunk, a: Answer)
    requires ch.sess in st.sessions
  {
    var x := st.sessions[ch.sess];
    if x.channel != channel then NamesOwnRows(st.gaps, channel, x, ch)
    else
      (ch.gapId > 0 ==> NamesWhatItAsked(log, channel, env, st, ch, a)) &&
      if Witnesses(env, x, ch) then Unstretched(env, st.gaps, x, ch) else KeepsWalk(log, st.gaps, channel, x, ch, a)
  }

  // ----- a batch that continues the walk -----

  /** The batch reaches from the cursor downwards, so what of the row is not
      stored now lies below it. */
  lemma ContinuedWalk(log: Log, stored: set<K.Msg>, cursor: Option<string>, end: int, a: Answer) returns (lo: nat)
    requires ValidLog(log) && CursorAt(log, stored, cursor, end) && Comes(log, a)
    requires Continues(log, a.asked, cursor, end, a.batch[0].ts, a.batch[|a.batch| - 1].ts)
    requires forall b <- a.batch :: b in stored
    ensures lo < |log| && log[lo] == a.batch[0] && FetchedFrom(log, stored, lo, end)
  {
    if end <= a.batch[0].ts {
      assert a.batch[0] in log;
      lo :| lo < |log| && log[lo] == a.batch[0];
    } else {
      var l: nat, h: nat :| Slice(log, a, l, h);
      lo := l;
      SliceIn(log, l, h, stored);
      forall i | h <= i < |log| && log[i].ts < end ensures log[i] in stored {
        AboveSlice(log, stored, cursor, end, a, l, h, i);
      }
    }
  }

  lemma AboveSlice(log: Log, stored: set<K.Msg>, cursor: Option<string>, end: int, a: Answer, l: nat, h: nat, i: nat)
    requires ValidLog(log) && CursorAt(log, stored, cursor, end) && Slice(log, a, l, h) && a.batch != []
    requires Continues(log, a.asked, cursor, end, a.batch[0].ts, a.batch[|a.batch| - 1].ts) && end > a.batch[0].ts
    requires h <= i < |log| && log[i].ts < end
    ensures log[i] in stored
  {
    assert a.batch[|a.batch| - 1] == log[h - 1];
    assert log[h - 1].ts <= log[i].ts;
    var reference := a.asked.value.reference.value;
    BeforeInTime(log, reference, h);
    var p: nat :| p < |log| && log[p].msgid == cursor.value && FetchedFrom(log, stored, p, end);
  }

  lemma SliceIn(log: Log, l: nat, h: nat, stored: set<K.Msg>)
    requires l < h <= |log| && forall b <- log[l..h] :: b in stored
    ensures forall i | l <= i < h :: log[i] in stored
  {
    forall i | l <= i < h ensures log[i] in stored {
      assert log[l..h][i - l] == log[i];
      assert log[i] in log[l..h];
    }
  }

  lemma FetchedIsNearest(log: Log, w: K.World, lo: nat, g: G.Gap, a: Answer)
    requires ValidLog(log) && w.history == History(log) && Sorted(a.batch) && a.batch != []
    requires lo < |log| && log[lo] == a.batch[0] && FetchedFrom(log, w.stored, lo, g.end)
    ensures K.NearestEnd(w, g, a.batch)
  {
    forall m <- w.history | g.start < m.ts < g.end && m !in a.batch && m !in w.stored
      ensures forall b <- a.batch :: m.ts <= b.ts
    {
      var i :| 0 <= i < |log| && log[i] == m;
      assert i < lo;
      assert log[i].ts <= log[lo].ts;
    }
  }

  lemma {:induction false} EdgesInTime(batch: seq<K.Msg>)
    requires batch != [] && Sorted(batch)
    ensures K.Oldest(batch) == batch[0].ts && K.Newest(batch) == batch[|batch| - 1].ts
  {
    if |batch| > 1 {
      EdgesInTime(batch[1..]);
    }
  }

  /** A cursor just set to the first entry of a batch is linked to a row that
      ends there or lower. */
  lemma FreshCursor(log: Log, stored: set<K.Msg>, a: Answer, end: int)
    requires ValidLog(log) && Comes(log, a) && end <= a.batch[0].ts
    ensures CursorAt(log, stored, Some(a.batch[0].msgid), end)
  {
    assert a.batch[0] in log;
    var p :| 0 <= p < |log| && log[p] == a.batch[0];
    assert FetchedFrom(log, stored, p, end);
  }

  // ----- rows -----

  /** Where a row of the table comes from after a shrink. */
  lemma ShrunkFrom(rows: seq<G.Gap>, id: int, start: int, sm: Option<string>, end: int, em: Option<string>, n: G.Gap)
    returns (g: G.Gap)
    requires n in G.Shrink(rows, id, start, sm, end, em)
    ensures g in rows && g.id == n.id && n == if g.id == id then G.Narrowed(g, start, sm, end, em) else g
  {
    var f := (x: G.Gap) => G.Narrowed(x, start, sm, end, em);
    var rows' := G.Update(rows, id, f);
    G.DeleteIn(rows', id, n);
    G.UpdateIn(rows, id, f, n);
    if n.id != id {
      g := n;
    } else {
      g :| g in rows && g.id == id && n == f(g);
    }
  }

  lemma PagedFrom(rows: seq<G.Gap>, id: int, ch: Chunk, verdict: Verdict, n: G.Gap) returns (g: G.Gap)
    requires n in RowAfterPage(rows, id, ch, verdict)
    ensures g in rows && g.id == n.id && n.channel == g.channel && n.start == g.start
    ensures id > 0 && ch.rawCount > 0 && ch.oldest > 0 && g.id == id ==> n.end == ch.oldest
    ensures g.id != id ==> n == g
  {
    hide G.Shrink, CloseRow;
    var narrowed := G.PageReply(rows, id, PageOf(ch));
    var k := ClosedFrom(narrowed, id, verdict, n);
    if id > 0 && ch.rawCount > 0 && ch.oldest > 0 {
      g := ShrunkFrom(rows, id, 0, None, ch.oldest, ch.oldestMsgid, k);
    } else {
      g := k;
    }
  }

  lemma ClosedFrom(rows: seq<G.Gap>, id: int, verdict: Verdict, n: G.Gap) returns (g: G.Gap)
    requires n in CloseRow(rows, id, verdict)
    ensures g in rows && SameBounds(g, n) && (g.id != id ==> n == g)
  {
    G.DeleteIn(rows, id, n);
    var f := (x: G.Gap) => x.(state := G.Dead);
    G.UpdateIn(rows, id, f, n);
    if n in rows {
      g := n;
    } else {
      g :| g in rows && g.id == id && n == f(g);
    }
  }

  lemma FilledFrom(rows: seq<G.Gap>, ch: Chunk, limit: int, n: G.Gap) returns (g: G.Gap)
    requires n in G.FillReply(rows, ch.gapId, ch.gapDir, PageOf(ch), limit)
    ensures g in rows && g.id == n.id && n.channel == g.channel
    ensures g.id != ch.gapId ==> n == g
    ensures g.id == ch.gapId && ch.gapDir < 0 ==> n.start == g.start && (n.end == ch.oldest || n.end == g.end)
    ensures g.id == ch.gapId && ch.gapDir >= 0 ==> n.end == g.end
    ensures g.id == ch.gapId && ch.gapDir >= 0 && ch.newest > 0 && G.Find(rows, ch.gapId) == Some(g) ==> ch.newest < g.end
  {
    hide G.Shrink, G.Delete;
    var r := G.Find(rows, ch.gapId);
    if r.None? {
      g := n;
    } else if G.Bridges(r.value, ch.gapDir, PageOf(ch), limit) {
      G.DeleteIn(rows, ch.gapId, n);
      g := n;
    } else if ch.gapDir < 0 {
      g := ShrunkFrom(rows, ch.gapId, 0, None, ch.oldest, ch.oldestMsgid, n);
    } else {
      g := ShrunkFrom(rows, ch.gapId, ch.newest, ch.newestMsgid, 0, None, n);
    }
  }

  /** A row found under the loop's id after the batch was there before. */
  lemma FoundFrom(gaps: seq<G.Gap>, x: Session, channel: nat, g: G.Gap)
    requires G.Distinct(gaps) && g in gaps && g.id == x.loop.gapId > 0 && g.channel == channel
    ensures LoopRow(gaps, x, channel) == Some(g)
  {
    G.FindUnique(gaps, g);
  }

  // ----- when a witness is unstretched -----

  function WitnessedHole(x: Session, ch: Chunk): G.Gap {
    G.Hole(x.channel, x.loop.prevTime, x.loop.prevMsgid, ch.oldest, ch.oldestMsgid)
  }

  /** A witnessed row is unstretched exactly when every row folded into it lies
      between the loop's lower bound and the oldest message of the batch. */
  lemma UnstretchedIff(env: Env, gaps: seq<G.Gap>, x: Session, ch: Chunk)
    requires SeesHole(env, x, ch) && x.loop.prevTime < ch.oldest && x.loop.lowerBound <= x.loop.prevTime
    ensures Unstretched(env, gaps, x, ch) <==>
            forall g <- gaps | G.Touches(g, WitnessedHole(x, ch)) :: x.loop.lowerBound <= g.start && g.end <= ch.oldest
  {
    assert x.loop.prevTime > 0;
    hide SeesHole, G.Record, G.Absorb, G.Touches;
    var hole := WitnessedHole(x, ch);
    G.RecordFinds(gaps, hole);
    G.AbsorbSpans(gaps, hole, hole);
    if forall g <- gaps | G.Touches(g, hole) :: x.loop.lowerBound <= g.start && g.end <= ch.oldest {
      G.AbsorbWithin(gaps, hole, hole, x.loop.lowerBound, ch.oldest);
    }
  }

  /** In a loop entered with a newest row later than second five, a witness that
      touches no row is recorded as it was seen, and the loop's stop, whatever
      page it comes on, comes only once the page reached the row's start. */
  lemma UntouchedWitnessStopsHonestly(env: Env, gaps: seq<G.Gap>, loop: Loop, newest: Option<string>, newestTime: int,
                                      x: Session, ch: Chunk, page: Chunk)
    requires newestTime > FUZZ_INTERVAL && x.loop == EnteredLoop(env, loop, newest, newestTime)
    requires SeesHole(env, x, ch) && newestTime < ch.oldest
    requires forall g <- gaps :: !G.Touches(g, WitnessedHole(x, ch))
    ensures var (rows, id) := Witnessed(env, gaps, x, ch);
      var row := G.Find(rows, id);
      Unstretched(env, gaps, x, ch) && row.Some? && row.value.start == newestTime && row.value.end == ch.oldest &&
      (JudgePage(env, x.(loop := x.loop.(gapId := id)), page) == Bridged ==> page.oldest <= row.value.start)
  {
    UnstretchedIff(env, gaps, x, ch);
    hide G.Record, G.Absorb, G.Touches;
    var hole := WitnessedHole(x, ch);
    G.RecordFinds(gaps, hole);
    G.AbsorbSpans(gaps, hole, hole);
    G.AbsorbWithin(gaps, hole, hole, hole.start, hole.end);
  }
}
